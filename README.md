# Excel Data Q&A chat: session state and question dispatch

This project is a Dafny model of the core of a small spreadsheet Q&A web page.
The user uploads an `.xlsx` workbook. The page keeps the parsed table in the
session and archives the file to a cloud bucket. It then answers two canned
questions over the table: "total sales" and "top products". The model covers:

- `text.dfy` (module `Text`): ASCII lower-casing (`question.lower()`) and
  substring search (`pat in s`). Each is proved against an independent
  definition: `HasSubstring` says "some position holds the pattern".
- `sales.dfy` (module `Sales`): the table as a sequence of rows. It has the
  "Sales Amount" column sum and pandas' `nlargest(k, 'Sales Amount')` with
  `keep='first'`, projected to "Product Name" and "Sales Amount". The
  selection is specified by `IsStableTop`:
  - `min(k, rows)` distinct rows;
  - ordered by amount, descending, with ties in sheet order;
  - each kept row ranks before every dropped row.
  It is proved that exactly one selection meets this, and that the model
  computes it.
- `dispatch.dfy` (module `Dispatch`): the first-match-wins, case-insensitive
  classifier. "total sales" is tested before "top products", and anything
  else gets the fallback. Also the `Response` each branch produces, with the
  worked three-row example.
- `session.dfy` (module `Chat`): the `Session` class. Its fields are the
  session keys `data`, `file_uploaded`, `dialogue`, `messages` and
  `question_input`. Its constructor is the initialisation block. Its two
  methods are the upload handler `process_file` and the question handler
  `handle_question`. The invariant `Valid()` says that `file_uploaded` holds
  exactly when a table is held, and that `messages` is never empty.

Parsing and archiving are inputs to `ProcessFile`:
- `ParseResult` is `Parsed(table)` or `ParseFailed(text)`;
- `ArchiveResult` is `Archived(url)` or `ArchiveFailed(text)`.

So all three outcomes are covered: both succeed, the parse fails, or the
parse succeeds and the archive fails.

Three behaviours of the code that are easy to misread:
- A question made only of spaces is non-empty, so it is truthy in Python and
  is handled. It is not treated as a no-op.
- An archive failure is caught by the same `try` as a parse failure. The
  table stays loaded and `file_uploaded` stays true. The log ends with an
  "Error processing file: ..." notice after the success notice.
- An upload whose parse succeeds empties the dialogue and replaces the status
  log. An upload whose parse fails leaves the dialogue alone and appends one
  error notice to the old log.

## Model

| member | source | states |
|---|---|---|
| `Text.ToLower` | q_and_a_chat.py:89 | the lower-cased question has the same length, keeps every non-capital character, maps each ASCII capital to its lower-case letter, and has no capitals left |
| `Text.ToLowerIdempotent` | q_and_a_chat.py:89-91 | lower-casing an already lower-cased question changes nothing |
| `Text.Contains` | q_and_a_chat.py:89-91 | the keyword test `pat in s` answers true exactly when the keyword occurs at some position of the text, in both directions |
| `Text.OccursAfterFirst` | q_and_a_chat.py:89-91 | when the keyword does not start the text, it occurs in the text exactly when it occurs in the text without its first character |
| `Dispatch.Classify` | q_and_a_chat.py:88-93 | the question is classed "total sales" iff its lower-cased text contains "total sales"; "top products" iff it does not but contains "top products"; unrecognised iff it contains neither |
| `Dispatch.Answer` | q_and_a_chat.py:88-93 | a question whose lower-cased text contains "total sales" gets the column total even if it also names "top products"; otherwise one containing "top products" gets the top-5 records, min(5, rows) of them; the fallback is given exactly when neither keyword occurs |
| `Dispatch.AnswerIgnoresCase` | q_and_a_chat.py:89-91 | a question and its lower-cased form get the same response |
| `Dispatch.UpperCaseTotalSales` | q_and_a_chat.py:89-90 | "TOTAL SALES" in capitals is answered with the sum of the "Sales Amount" column |
| `Dispatch.BothKeywordsGiveTotal` | q_and_a_chat.py:89-93 | a question naming "top products" before "total sales" still gets the total |
| `Dispatch.TopAnswerIsStableTop` | q_and_a_chat.py:92-93 | the "top products" response has min(5, rows) records, and record i is the projection of row idx[i] for the one stable top-5 selection idx |
| `Dispatch.ExampleTotal` | q_and_a_chat.py:89-90 | for rows A = 10, B = 30, C = 20 the total is 60 |
| `Dispatch.ExampleRanking` | q_and_a_chat.py:92 | for rows A = 10, B = 30, C = 20 the positions B, C, A form the stable top-5 selection |
| `Dispatch.TopProductsKeywordClassified` | q_and_a_chat.py:89-91 | the question "top products" does not contain "total sales" and is classed as a top-products question |
| `Dispatch.ExampleTop` | q_and_a_chat.py:91-93 | for rows A = 10, B = 30, C = 20 "top products" lists B (30), C (20), A (10) |
| `Sales.Sum` | q_and_a_chat.py:90 | all-non-negative amounts give a non-negative column total and all-non-positive amounts a non-positive one |
| `Sales.SumLast` | q_and_a_chat.py:90 | the column total is the same summed from the first row or by adding the last row to the total of the rows before it |
| `Sales.ProjectIgnoresOtherColumns` | q_and_a_chat.py:92 | `Project`, the `[['Product Name', 'Sales Amount']]` projection, gives the same record whatever the row's other columns hold |
| `Sales.SumAppend` | q_and_a_chat.py:90 | the total of two stacked tables is the sum of their totals |
| `Sales.SumRemoveAt` | q_and_a_chat.py:90 | removing one row lowers the total by exactly that row's amount |
| `Sales.SumPermutation` | q_and_a_chat.py:90 | two tables holding the same rows in any order have the same total |
| `Sales.Best` | q_and_a_chat.py:92 | the chosen candidate is one of the candidates and ranks before every other one: larger amount, or equal amount and earlier row |
| `Sales.Select` | q_and_a_chat.py:92 | picks min(k, candidates) distinct candidates, in ranking order, each ranking before every candidate not picked |
| `Sales.TopPositions` | q_and_a_chat.py:92 | the positions kept by `nlargest(k, 'Sales Amount')` with `keep='first'` meet `IsStableTop` |
| `Sales.StableTopUnique` | q_and_a_chat.py:92 | any two position sequences meeting `IsStableTop` for the same table and k are equal, so the selection is determined |
| `Sales.TopAmountsDominate` | q_and_a_chat.py:92 | every kept row's amount is at least every dropped row's amount, and on equal amounts the kept row comes earlier in the sheet |
| `Sales.TopProducts` | q_and_a_chat.py:92-93 | the answer has min(k, rows) records with non-increasing amounts, and record i is the "Product Name"/"Sales Amount" projection of row idx[i] of the unique selection idx that meets `IsStableTop` (the stable top-k rows) |
| `Chat.Session.constructor` | q_and_a_chat.py:101-110 | a new session has no table, `file_uploaded` false, an empty dialogue, the single prompt "Please upload an Excel file to start." and an empty question input |
| `Chat.Session.ProcessFile` | q_and_a_chat.py:60-81 | on a parse failure only one "Error processing file: " notice is appended to the old log, and nothing else changes. On a parse success the table is stored, `file_uploaded` is set, the dialogue is emptied and the log becomes [success notice, URL notice or error notice]. `Valid()` is kept |
| `Chat.Session.HandleQuestion` | q_and_a_chat.py:84-98 | with a table and a non-empty question, the dialogue grows by exactly the user turn and then the system turn with the answer, and the input is cleared. Otherwise the dialogue and input are unchanged. `data`, `file_uploaded` and `messages` never change. `Valid()` is kept |
| `Chat.ErrorNoticeSaysError` | q_and_a_chat.py:78-81 | every failure notice contains the word "Error" |
| `Chat.AskAfterUpload` | q_and_a_chat.py:60-110 | a question before any upload leaves the dialogue empty. After an upload whose archiving fails, the log is [success notice, error notice] and "TOTAL SALES" is answered with the table's total |

## Left out

- Page set-up, CSS, title, sidebar widgets and the rendering loops (q_and_a_chat.py:1-40, 112-144): display only. The "Send" button that passes `question_input` to the handler is not modelled; `HandleQuestion` takes the question as its argument, as `handle_question` does.
- `style_dataframe` / `highlight_odd_even` (q_and_a_chat.py:117-120): styling only.
- Credential decoding, the storage client and `upload_to_gcs` (q_and_a_chat.py:8-10, 43-57): network and foreign-library calls. Their outcome is the `ArchiveResult` input. A failing `seek(0)` raises into the same handler and is covered by `ArchiveFailed`.
- `pd.read_excel` (q_and_a_chat.py:63): a foreign library. Its outcome is the `ParseResult` input. Removing the file raises inside `read_excel` and is covered by `ParseFailed`.
- Tables without a "Sales Amount" or "Product Name" column, and non-numeric amounts: every `Row` has both columns with an integer amount. The `KeyError`/`TypeError` the page would raise, uncaught, from `handle_question` is not modelled.
- Floating-point amounts: amounts are unbounded integers.
- Exact response text: the f-string number formatting and the `to_dict(orient='records')` rendering are not modelled. `Response` carries the sum or the projected records, and `Fallback` stands for "Sorry, I can't answer that question.".
- `Text.ToLower`: covers ASCII letters only. Python's `str.lower()` also maps other Unicode letters. The only ones it maps into ASCII are the Kelvin sign (to "k") and the dotted capital I (to "i" and a combining dot). Neither result is a character of either keyword, so the classification should be the same.
- `Chat.Session.HandleQuestion`: `del st.session_state['question_input']` followed by the rerun re-initialises the key to "". The model sets `questionInput` to "" directly.

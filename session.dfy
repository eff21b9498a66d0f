/** The per-session state of the chat page and its two event handlers: the
    upload handler `process_file` and the question handler `handle_question`. */
module Chat {
  import Text
  import opened Sales
  import opened Dispatch

  datatype Option<T> = None | Some(value: T)

  /** An entry of the status log; every one the page writes is from "system". */
  datatype Message = SystemMessage(text: string)

  /** An entry of the dialogue: the user's verbatim question, or the system's
      response to it. */
  datatype Turn = UserTurn(question: string) | SystemTurn(reply: Response)

  /** What reading the uploaded workbook gave: the table, or the exception text. */
  datatype ParseResult = Parsed(table: Table) | ParseFailed(parseError: string)

  /** What archiving the upload to the object store gave: the public URL, or
      the exception text. */
  datatype ArchiveResult = Archived(url: string) | ArchiveFailed(archiveError: string)

  const UploadPrompt := "Please upload an Excel file to start."
  const UploadSucceeded := "Your file has been uploaded successfully. You can now ask questions."
  const ArchivedPrefix := "File uploaded to Google Cloud Storage: "
  const ErrorPrefix := "Error processing file: "

  function ArchivedNotice(url: string): Message {
    SystemMessage(ArchivedPrefix + url)
  }

  function ErrorNotice(detail: string): Message {
    SystemMessage(ErrorPrefix + detail)
  }

  /** Every failure notice contains the word "Error". */
  lemma ErrorNoticeSaysError(detail: string)
    ensures Text.HasSubstring(ErrorNotice(detail).text, "Error")
  {
    var text := ErrorNotice(detail).text;
    assert text[..5] == "Error";
    assert Text.OccursAt(text, "Error", 0);
  }

  class Session {
    var data: Option<Table>
    var fileUploaded: bool
    var dialogue: seq<Turn>
    var messages: seq<Message>
    var questionInput: string

    /** A file counts as uploaded exactly when a table is held, and the status
        log is never empty. */
    ghost predicate Valid()
      reads this
    {
      (fileUploaded <==> data.Some?) && messages != []
    }

    /** The session-state initialisation run when a session starts. */
    constructor ()
      ensures Valid()
      ensures data == None && !fileUploaded
      ensures dialogue == [] && messages == [SystemMessage(UploadPrompt)] && questionInput == ""
    {
      data := None;
      fileUploaded := false;
      dialogue := [];
      messages := [SystemMessage(UploadPrompt)];
      questionInput := "";
    }

    /** The upload handler. `parsed` is what reading the workbook gave and
        `archived` what the archiver would give; the archiver is reached only
        after a successful parse. */
    method ProcessFile(parsed: ParseResult, archived: ArchiveResult)
      requires Valid()
      modifies this
      ensures Valid()
      ensures questionInput == old(questionInput)
      ensures parsed.ParseFailed? ==>
        && data == old(data) && fileUploaded == old(fileUploaded) && dialogue == old(dialogue)
        && messages == old(messages) + [ErrorNotice(parsed.parseError)]
      ensures parsed.Parsed? ==>
        && data == Some(parsed.table) && fileUploaded && dialogue == []
        && messages == [SystemMessage(UploadSucceeded),
                        match archived
                        case Archived(url) => ArchivedNotice(url)
                        case ArchiveFailed(e) => ErrorNotice(e)]
    {
      match parsed
      case ParseFailed(e) =>
        messages := messages + [ErrorNotice(e)];
      case Parsed(table) =>
        data := Some(table);
        fileUploaded := true;
        dialogue := [];
        messages := [SystemMessage(UploadSucceeded)];
        match archived
        case Archived(url) =>
          messages := messages + [ArchivedNotice(url)];
        case ArchiveFailed(e) =>
          messages := messages + [ErrorNotice(e)];
    }

    /** The question handler: with a table held and a non-empty question, logs
        the question and its answer and clears the input box; otherwise does
        nothing. */
    method HandleQuestion(question: string)
      requires Valid()
      modifies this
      ensures Valid()
      ensures data == old(data) && fileUploaded == old(fileUploaded) && messages == old(messages)
      ensures old(data).Some? && question != "" ==>
        && dialogue == old(dialogue) + [UserTurn(question), SystemTurn(Answer(question, old(data).value))]
        && questionInput == ""
      ensures old(data).None? || question == "" ==>
        dialogue == old(dialogue) && questionInput == old(questionInput)
    {
      if data.Some? && question != "" {
        var reply := Answer(question, data.value);
        dialogue := dialogue + [UserTurn(question)];
        dialogue := dialogue + [SystemTurn(reply)];
        questionInput := "";
      }
    }
  }

  /** A session as the page drives it: a question asked before any upload is
      ignored (`before` is the dialogue right after it); after an upload whose
      archiving fails, the table is still usable and "TOTAL SALES" is answered
      with its sum. */
  method AskAfterUpload(table: Table, archiveError: string)
    returns (before: seq<Turn>, dialogue: seq<Turn>, messages: seq<Message>)
    ensures before == []
    ensures dialogue == [UserTurn("TOTAL SALES"), SystemTurn(Total(Sum(table)))]
    ensures messages == [SystemMessage(UploadSucceeded), ErrorNotice(archiveError)]
  {
    var session := new Session();
    session.HandleQuestion("TOTAL SALES");
    before := session.dialogue;
    session.ProcessFile(Parsed(table), ArchiveFailed(archiveError));
    session.HandleQuestion("TOTAL SALES");
    UpperCaseTotalSales(table);
    dialogue, messages := session.dialogue, session.messages;
  }
}

/** The question dispatcher: a first-match-wins, case-insensitive keyword
    classifier and the answer each class gets over the uploaded table. */
module Dispatch {
  import opened Text
  import opened Sales

  const TotalSalesKeyword := "total sales"
  const TopProductsKeyword := "top products"

  /** How many rows the "top products" answer keeps (`nlargest(5, ...)`). */
  const TopCount: nat := 5

  /** The three branches of the dispatcher. */
  datatype Intent = AskTotalSales | AskTopProducts | Unrecognised

  /** What the system says back. `Fallback` stands for the fixed text
      "Sorry, I can't answer that question."; `Total` for "The total sales are
      <sum>"; `Top` for "Top 5 products by revenue: <records>". */
  datatype Response = Total(sum: int) | Top(records: seq<Record>) | Fallback

  /** Matches the lower-cased question against "total sales" first, then
      against "top products". */
  function Classify(question: string): (intent: Intent)
    ensures intent == AskTotalSales <==> HasSubstring(ToLower(question), TotalSalesKeyword)
    ensures intent == AskTopProducts <==>
      !HasSubstring(ToLower(question), TotalSalesKeyword) && HasSubstring(ToLower(question), TopProductsKeyword)
    ensures intent == Unrecognised <==>
      !HasSubstring(ToLower(question), TotalSalesKeyword) && !HasSubstring(ToLower(question), TopProductsKeyword)
  {
    var q := ToLower(question);
    if Contains(q, TotalSalesKeyword) then AskTotalSales
    else if Contains(q, TopProductsKeyword) then AskTopProducts
    else Unrecognised
  }

  /** The response `handle_question` computes for a question over a table:
      the first rule whose keyword occurs decides, so "total sales" wins even
      when "top products" occurs too, and the fallback is given exactly when
      neither occurs. */
  function Answer(question: string, table: Table): (r: Response)
    ensures HasSubstring(ToLower(question), TotalSalesKeyword) ==> r == Total(Sum(table))
    ensures !HasSubstring(ToLower(question), TotalSalesKeyword) && HasSubstring(ToLower(question), TopProductsKeyword) ==>
      r == Top(TopProducts(table, TopCount)) && |r.records| == Min(TopCount, |table|)
    ensures r == Fallback <==>
      !HasSubstring(ToLower(question), TotalSalesKeyword) && !HasSubstring(ToLower(question), TopProductsKeyword)
  {
    match Classify(question)
    case AskTotalSales => Total(Sum(table))
    case AskTopProducts => Top(TopProducts(table, TopCount))
    case Unrecognised => Fallback
  }

  /** Matching ignores case: a question and its lower-cased form get the same
      answer. */
  lemma {:induction false} AnswerIgnoresCase(question: string, table: Table)
    ensures Answer(ToLower(question), table) == Answer(question, table)
  {
    ToLowerIdempotent(question);
  }

  /** The "top products" answer is the projection of the unique stable top-5
      selection: every row it leaves out has an amount no larger than every
      row it keeps, and ties keep the earlier row. */
  lemma {:induction false} TopAnswerIsStableTop(question: string, table: Table, idx: seq<nat>)
    requires Answer(question, table).Top?
    requires IsStableTop(table, TopCount, idx)
    ensures |Answer(question, table).records| == |idx| == Min(TopCount, |table|)
    ensures forall i :: 0 <= i < |idx| ==> Answer(question, table).records[i] == Project(table[idx[i]])
  {
    StableTopUnique(table, TopCount, idx, TopPositions(table, TopCount));
  }

  /** "TOTAL SALES" in capitals is answered with the column sum. */
  lemma UpperCaseTotalSales(table: Table)
    ensures Answer("TOTAL SALES", table) == Total(Sum(table))
  {
  }

  /** A question naming both keywords gets the total. */
  lemma BothKeywordsGiveTotal(table: Table)
    ensures Answer("top products or total sales?", table) == Total(Sum(table))
  {
    var q := ToLower("top products or total sales?");
    assert q == "top products or total sales?";
    assert q[16..27] == TotalSalesKeyword;
    assert OccursAt(q, TotalSalesKeyword, 16);
  }

  /** A three-row sheet: A sold 10, B sold 30, C sold 20. */
  function ExampleSheet(): Table {
    [Row("A", 10, map[]), Row("B", 30, map[]), Row("C", 20, map[])]
  }

  /** "total sales" over the example sheet reports 60. */
  lemma ExampleTotal()
    ensures Answer("total sales", ExampleSheet()) == Total(60)
  {
  }

  /** B, C, A is the stable top-5 selection of the example sheet. */
  lemma ExampleRanking()
    ensures IsStableTop(ExampleSheet(), TopCount, [1, 2, 0])
  {
  }

  /** "top products" (with no "total sales" in it) is classed as a
      top-products question. */
  lemma TopProductsKeywordClassified()
    ensures Classify(TopProductsKeyword) == AskTopProducts
  {
    var q := ToLower(TopProductsKeyword);
    assert q == TopProductsKeyword;
    assert q[0..|q|] == q;
    assert OccursAt(q, TopProductsKeyword, 0);
    assert q[0..11][2] != TotalSalesKeyword[2] && q[1..12][0] != TotalSalesKeyword[0];
  }

  /** "top products" over the example sheet lists B (30), C (20), A (10). */
  lemma ExampleTop()
    ensures Answer("top products", ExampleSheet()) == Top([Record("B", 30), Record("C", 20), Record("A", 10)])
  {
    TopProductsKeywordClassified();
    ExampleRanking();
    var t := ExampleSheet();
    StableTopUnique(t, TopCount, [1, 2, 0], TopPositions(t, TopCount));
    assert TopProducts(t, TopCount) == [Project(t[1]), Project(t[2]), Project(t[0])];
  }
}

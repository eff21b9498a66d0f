/** The uploaded table and the two queries the dispatcher runs over it: the
    column sum of "Sales Amount" and pandas' `nlargest(k, 'Sales Amount')`
    with its default `keep='first'`, projected to the two named columns. */
module Sales {

  /** One spreadsheet row: the two columns the queries use, and every other
      column of the sheet by name. */
  datatype Row = Row(productName: string, salesAmount: int, otherColumns: map<string, string>)

  /** A row projected to "Product Name" and "Sales Amount". */
  datatype Record = Record(productName: string, salesAmount: int)

  /** The rows of the sheet, in sheet order. */
  type Table = seq<Row>

  /** `[['Product Name', 'Sales Amount']]` on one row: both columns are
      kept as they are, and the row's other columns play no part. */
  function Project(row: Row): Record {
    Record(row.productName, row.salesAmount)
  }

  /** Rows that differ only in their other columns project alike. */
  lemma ProjectIgnoresOtherColumns(row: Row, other: map<string, string>)
    ensures Project(row.(otherColumns := other)) == Project(row)
  {
  }

  function Min(a: int, b: int): int {
    if a <= b then a else b
  }

  // ---------------------------------------------------------------------------
  // Total sales

  /** `df['Sales Amount'].sum()` over integer amounts: amounts that are all
      non-negative (or all at most zero) give a total of the same sign. */
  function Sum(t: Table): (total: int)
    ensures (forall i :: 0 <= i < |t| ==> t[i].salesAmount >= 0) ==> total >= 0
    ensures (forall i :: 0 <= i < |t| ==> t[i].salesAmount <= 0) ==> total <= 0
  {
    if t == [] then 0 else t[0].salesAmount + Sum(t[1..])
  }

  /** Summing from the first row gives the same total as adding the last row
      to the total of the rows before it. */
  lemma {:induction false} SumLast(t: Table)
    requires t != []
    ensures Sum(t) == Sum(t[..|t| - 1]) + t[|t| - 1].salesAmount
    decreases |t|
  {
    if |t| > 1 {
      assert t[1..][..|t| - 2] == t[..|t| - 1][1..];
      SumLast(t[1..]);
    }
  }

  /** The total of two stacked tables is the sum of their totals. */
  lemma {:induction false} SumAppend(a: Table, b: Table)
    ensures Sum(a + b) == Sum(a) + Sum(b)
    decreases |a|
  {
    if a == [] {
      assert a + b == b;
    } else {
      assert (a + b)[1..] == a[1..] + b;
      SumAppend(a[1..], b);
    }
  }

  /** Taking row `i` out of a table lowers its total by that row's amount. */
  lemma {:induction false} SumRemoveAt(b: Table, i: nat)
    requires i < |b|
    ensures Sum(b) == b[i].salesAmount + Sum(b[..i] + b[i + 1..])
    decreases i
  {
    if i == 0 {
      assert b[..0] + b[1..] == b[1..];
    } else {
      var tail := b[1..];
      SumRemoveAt(tail, i - 1);
      assert b[..i] + b[i + 1..] == [b[0]] + (tail[..i - 1] + tail[i..]);
    }
  }

  lemma MultisetRemoveAt(b: Table, i: nat)
    requires i < |b|
    ensures multiset(b[..i] + b[i + 1..]) == multiset(b) - multiset{b[i]}
  {
    assert b == b[..i] + [b[i]] + b[i + 1..];
  }

  /** The total depends only on which rows the sheet holds, not on their order. */
  lemma {:induction false} SumPermutation(a: Table, b: Table)
    requires multiset(a) == multiset(b)
    ensures Sum(a) == Sum(b)
    decreases |a|
  {
    if a == [] {
      assert |b| == |multiset(b)| == 0;
    } else {
      var x := a[0];
      assert x in multiset(b);
      var i :| 0 <= i < |b| && b[i] == x;
      var rest := b[..i] + b[i + 1..];
      MultisetRemoveAt(b, i);
      assert a == [x] + a[1..];
      assert multiset(a[1..]) == multiset(a) - multiset{x};
      SumPermutation(a[1..], rest);
      SumRemoveAt(b, i);
    }
  }

  // ---------------------------------------------------------------------------
  // Top products

  /** Row `i` ranks before row `j`: a larger amount, or the same amount and an
      earlier position (`keep='first'`). A strict total order on the rows' positions. */
  predicate Before(t: Table, i: nat, j: nat) {
    && i < |t| && j < |t|
    && (t[i].salesAmount > t[j].salesAmount || (t[i].salesAmount == t[j].salesAmount && i < j))
  }

  /** All positions in `s` are rows of `t`. */
  predicate InTable(t: Table, s: seq<nat>) {
    forall x :: x in s ==> x < |t|
  }

  predicate Distinct(s: seq<nat>) {
    forall i, j :: 0 <= i < j < |s| ==> s[i] != s[j]
  }

  /** The positions `0, 1, ..., n - 1`. */
  function Positions(n: nat): (s: seq<nat>)
    ensures |s| == n && Distinct(s)
    ensures forall x :: x in s ==> x < n
  {
    seq(n, i requires 0 <= i < n => i)
  }

  lemma PositionsCover(n: nat)
    ensures forall x :: 0 <= x < n ==> x in Positions(n)
  {
    forall x | 0 <= x < n ensures x in Positions(n) {
      assert Positions(n)[x] == x;
    }
  }

  /** `s` with `x` taken out. */
  function Remove(s: seq<nat>, x: nat): (r: seq<nat>)
    ensures forall y :: y in r <==> y in s && y != x
    ensures Distinct(s) ==> Distinct(r)
    ensures Distinct(s) && x in s ==> |r| == |s| - 1
    ensures x !in s ==> |r| == |s|
    ensures |r| <= |s|
  {
    if s == [] then []
    else
      var r' := Remove(s[1..], x);
      assert Distinct(s) ==> s[0] !in s[1..] && Distinct(s[1..]);
      if s[0] == x then r' else [s[0]] + r'
  }

  /** The candidate that ranks before every other candidate. */
  function Best(t: Table, cand: seq<nat>): (b: nat)
    requires cand != [] && InTable(t, cand)
    ensures b in cand
    ensures forall c :: c in cand && c != b ==> Before(t, b, c)
  {
    if |cand| == 1 then cand[0]
    else
      assert forall x :: x in cand <==> x == cand[0] || x in cand[1..];
      var rest := Best(t, cand[1..]);
      if cand[0] == rest || Before(t, cand[0], rest) then cand[0] else rest
  }

  /** Repeatedly takes the best remaining candidate, at most `k` times. */
  function Select(t: Table, cand: seq<nat>, k: nat): (r: seq<nat>)
    requires InTable(t, cand) && Distinct(cand)
    ensures |r| == Min(k, |cand|)
    ensures Distinct(r)
    ensures forall x :: x in r ==> x in cand
    ensures forall i, j :: 0 <= i < j < |r| ==> Before(t, r[i], r[j])
    ensures forall i, c :: 0 <= i < |r| && c in cand && c !in r ==> Before(t, r[i], c)
    decreases |cand|
  {
    if k == 0 || cand == [] then []
    else
      var b := Best(t, cand);
      var rest := Select(t, Remove(cand, b), k - 1);
      [b] + rest
  }

  /** What `nlargest(k)` with `keep='first'` promises of the positions it picks:
      `min(k, |t|)` distinct rows, ranked in order, each ranking before every
      row left out. */
  ghost predicate IsStableTop(t: Table, k: nat, idx: seq<nat>) {
    && |idx| == Min(k, |t|)
    && (forall i :: 0 <= i < |idx| ==> idx[i] < |t|)
    && Distinct(idx)
    && (forall i, j :: 0 <= i < j < |idx| ==> Before(t, idx[i], idx[j]))
    && (forall i, c :: 0 <= i < |idx| && 0 <= c < |t| && c !in idx ==> Before(t, idx[i], c))
  }

  /** The positions `nlargest(k, 'Sales Amount')` keeps, in its output order. */
  function TopPositions(t: Table, k: nat): (idx: seq<nat>)
    ensures IsStableTop(t, k, idx)
  {
    var idx := Select(t, Positions(|t|), k);
    SelectionIsStableTop(t, k, idx);
    idx
  }

  lemma SelectionIsStableTop(t: Table, k: nat, idx: seq<nat>)
    requires idx == Select(t, Positions(|t|), k)
    ensures IsStableTop(t, k, idx)
  {
    var cand := Positions(|t|);
    PositionsCover(|t|);
    forall i | 0 <= i < |idx| ensures idx[i] < |t| {
      assert idx[i] in cand;
    }
    forall i, c | 0 <= i < |idx| && 0 <= c < |t| && c !in idx ensures Before(t, idx[i], c) {
      assert c in cand;
    }
  }

  /** `recs` lists the rows at positions `idx`, in that order, each projected
      to "Product Name" and "Sales Amount". */
  ghost predicate ProjectsSelection(t: Table, idx: seq<nat>, recs: seq<Record>) {
    |recs| == |idx| && forall i :: 0 <= i < |idx| ==> idx[i] < |t| && recs[i] == Project(t[idx[i]])
  }

  /** `df.nlargest(k, 'Sales Amount')[['Product Name', 'Sales Amount']]`:
      record `i` is the projection of row `idx[i]` of the one selection `idx`
      that meets `IsStableTop`. */
  function TopProducts(t: Table, k: nat): (recs: seq<Record>)
    ensures |recs| == Min(k, |t|)
    ensures forall i, j :: 0 <= i < j < |recs| ==> recs[i].salesAmount >= recs[j].salesAmount
    ensures forall i :: 0 <= i < |recs| ==> exists p :: 0 <= p < |t| && recs[i] == Project(t[p])
    ensures forall idx :: IsStableTop(t, k, idx) ==> ProjectsSelection(t, idx, recs)
  {
    var idx := TopPositions(t, k);
    var recs := seq(|idx|, i requires 0 <= i < |idx| => Project(t[idx[i]]));
    assert forall other :: IsStableTop(t, k, other) ==> other == idx by {
      forall other | IsStableTop(t, k, other) ensures other == idx {
        StableTopUnique(t, k, other, idx);
      }
    }
    recs
  }

  /** At most one sequence of positions meets `IsStableTop`: the selection is
      determined by the table and `k` alone. */
  lemma StableTopUnique(t: Table, k: nat, a: seq<nat>, b: seq<nat>)
    requires IsStableTop(t, k, a) && IsStableTop(t, k, b)
    ensures a == b
  {
    StableTopPrefix(t, k, a, b, |a|);
    assert a == a[..|a|];
  }

  lemma {:induction false} StableTopPrefix(t: Table, k: nat, a: seq<nat>, b: seq<nat>, n: nat)
    requires IsStableTop(t, k, a) && IsStableTop(t, k, b)
    requires n <= |a|
    ensures a[..n] == b[..n]
  {
    if n > 0 {
      StableTopPrefix(t, k, a, b, n - 1);
      var i := n - 1;
      assert forall j :: 0 <= j < i ==> a[j] == b[j] by {
        forall j | 0 <= j < i ensures a[j] == b[j] {
          assert a[..i][j] == b[..i][j];
        }
      }
      if a[i] != b[i] {
        RanksBefore(t, k, a, b, i);
        RanksBefore(t, k, b, a, i);
        assert false;
      }
      assert a[..n] == a[..i] + [a[i]] && b[..n] == b[..i] + [b[i]];
    }
  }

  /** If two selections agree before position `i` and differ at `i`, the first
      one's row at `i` ranks before the second one's. */
  lemma RanksBefore(t: Table, k: nat, a: seq<nat>, b: seq<nat>, i: nat)
    requires IsStableTop(t, k, a) && IsStableTop(t, k, b)
    requires i < |a| && a[i] != b[i]
    requires forall j :: 0 <= j < i ==> a[j] == b[j]
    ensures Before(t, a[i], b[i])
  {
    assert b[i] in b;
    if b[i] in a {
      var j :| 0 <= j < |a| && a[j] == b[i];
    }
  }

  /** Every kept amount is at least every dropped amount, and a dropped row
      with the same amount as a kept one comes later in the sheet. */
  lemma TopAmountsDominate(t: Table, k: nat, p: nat, q: nat)
    requires p < |t| && q < |t|
    requires p in TopPositions(t, k) && q !in TopPositions(t, k)
    ensures t[p].salesAmount >= t[q].salesAmount
    ensures t[p].salesAmount == t[q].salesAmount ==> p < q
  {
  }
}

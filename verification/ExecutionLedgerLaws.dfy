/** What reconciled rows mean: exposure chains up to the live position, the walk refines forward netting, and two
reconstructions of a day agree. */
module ExecutionLedgerLaws {
  import opened Common
  import opened ExecutionLedger

  // ---------------------------------------------------------------- input order

  /** The rows depend on which fills there are, not on the order they came in. */
  lemma InputOrderIrrelevant(a: seq<Fill>, b: seq<Fill>, positions: map<string, real>)
    requires Distinct(a, Itself) && Distinct(b, Itself) && multiset(a) == multiset(b)
    ensures Reconciled(a, positions) == Reconciled(b, positions)
  {
    hide *;
    SortSorts(a, Itself);
    SortSorts(b, Itself);
    SortPermutes(a, Itself);
    SortPermutes(b, Itself);
    SortedUnique(Sort(a, Itself), Sort(b, Itself), Itself);
    SameSort(a, b, positions);
  }

  lemma SameSort(a: seq<Fill>, b: seq<Fill>, positions: map<string, real>)
    requires Sort(a, Itself) == Sort(b, Itself)
    ensures Reconciled(a, positions) == Reconciled(b, positions)
  {
  }

  // ---------------------------------------------------------------- the closed form

  /** The signed quantity of a symbol's fills. */
  function NetOf(s: seq<Fill>, symbol: string): real {
    if s == [] then 0.0
    else NetOf(s[..|s| - 1], symbol) + if s[|s| - 1].symbol == symbol then Delta(s[|s| - 1]) else 0.0
  }

  lemma NetAppend(s: seq<Fill>, f: Fill, symbol: string)
    ensures NetOf(s + [f], symbol) == NetOf(s, symbol) + if f.symbol == symbol then Delta(f) else 0.0
  {
    assert (s + [f])[..|s|] == s;
  }

  lemma {:induction false} NetConcat(a: seq<Fill>, b: seq<Fill>, symbol: string)
    ensures NetOf(a + b, symbol) == NetOf(a, symbol) + NetOf(b, symbol)
  {
    if b == [] {
      assert a + b == a;
    } else {
      NetConcat(a, b[..|b| - 1], symbol);
      assert a + b == (a + b[..|b| - 1]) + [b[|b| - 1]];
      NetAppend(a + b[..|b| - 1], b[|b| - 1], symbol);
    }
  }

  lemma {:induction false} NetNone(s: seq<Fill>, symbol: string)
    requires forall i | 0 <= i < |s| :: s[i].symbol != symbol
    ensures NetOf(s, symbol) == 0.0
  {
    if s != [] {
      NetNone(s[..|s| - 1], symbol);
    }
  }

  /** The position after a fill is the live position without the later fills of its symbol. */
  lemma {:induction false} AfterIsLiveLessLater(s: seq<Fill>, positions: map<string, real>, i: nat)
    requires i < |s|
    ensures Walk(s, positions)[i] == RowBefore(s[i], Get(positions, s[i].symbol) - NetOf(s[i + 1..], s[i].symbol))
  {
    hide RowBefore, Walk, NetOf, Delta;
    var n := |s| - 1;
    var front, f := s[..n], s[n];
    var row := RowBefore(f, Get(positions, f.symbol));
    WalkAppend(front, f, positions);
    assert s == front + [f];
    if i < n {
      RowMoves(f, Get(positions, f.symbol));
      AfterIsLiveLessLater(front, positions[f.symbol := row.before], i);
      assert s[i + 1..] == front[i + 1..] + [f];
      NetAppend(front[i + 1..], f, s[i].symbol);
    } else {
      NetEmpty(s[i].symbol);
      assert s[i + 1..] == [];
    }
  }

  lemma RowMoves(f: Fill, after: real)
    ensures RowBefore(f, after).before == after - Delta(f) && RowBefore(f, after).after == after && RowBefore(f, after).fill == f
  {
  }

  lemma NetEmpty(symbol: string)
    ensures NetOf([], symbol) == 0.0
  {
  }

  /** Every row: the position moves by the signed quantity, and the quantity splits into what it closes and what
  it enters. */
  lemma RowAccounts(f: Fill, after: real)
    requires FillOk(f)
    ensures var r := RowBefore(f, after);
            && r.fill == f && r.after == after && r.after - r.before == Delta(f)
            && r.closed + r.entry == f.qty && 0.0 <= r.closed <= f.qty
  {
  }

  /** What a fill of this side can close of the position before it. */
  function Closable(side: Side, qty: real, before: real): real {
    var against := if side == Buy then -before else before;
    if against <= 0.0 then 0.0 else if against < qty then against else qty
  }

  /** A row in plain terms: a buy adds to the position and a sell takes from it; the larger of what the position lets
  close and what is reported closed, up to the quantity, is closed, and the rest enters; and the action tells which of
  both happened, and where it left the position. */
  lemma RowMeans(f: Fill, after: real)
    requires FillOk(f)
    ensures var r := RowBefore(f, after);
            && r.before == (if f.side == Buy then after - f.qty else after + f.qty)
            && var reported := if f.apiClosed < f.qty then f.apiClosed else f.qty;
               && r.closed >= Closable(f.side, f.qty, r.before) && r.closed >= reported
               && r.closed in {Closable(f.side, f.qty, r.before), reported}
               && r.entry == f.qty - r.closed
               && r.action == (if r.closed == 0.0 then (if r.before == 0.0 then Entry else Add)
                               else if r.closed < f.qty then Reversal
                               else if after == 0.0 then FullExit else PartialExit)
  {
  }

  /** The rows of a symbol chain: each starts where the one before it ended, and the last ends at the live
  position. */
  lemma RowsChain(s: seq<Fill>, positions: map<string, real>, i: nat, j: nat)
    requires i < j < |s| && s[i].symbol == s[j].symbol
    requires forall k | i < k < j :: s[k].symbol != s[i].symbol
    ensures Walk(s, positions)[i].after == Walk(s, positions)[j].before
  {
    hide RowBefore, Walk, NetOf, Delta;
    var symbol, rest := s[i].symbol, s[j + 1..];
    AfterIsLiveLessLater(s, positions, i);
    AfterIsLiveLessLater(s, positions, j);
    RowMoves(s[i], Get(positions, symbol) - NetOf(s[i + 1..], symbol));
    RowMoves(s[j], Get(positions, symbol) - NetOf(rest, symbol));
    assert s[i + 1..] == s[i + 1..j] + ([s[j]] + rest);
    NetConcat(s[i + 1..j], [s[j]] + rest, symbol);
    NetConcat([s[j]], rest, symbol);
    NetNone(s[i + 1..j], symbol);
    NetEmpty(symbol);
    NetAppend([], s[j], symbol);
    assert [] + [s[j]] == [s[j]];
  }

  lemma LastRowIsLive(s: seq<Fill>, positions: map<string, real>, i: nat)
    requires i < |s| && forall k | i < k < |s| :: s[k].symbol != s[i].symbol
    ensures Walk(s, positions)[i].after == if s[i].symbol in positions then positions[s[i].symbol] else 0.0
  {
    AfterIsLiveLessLater(s, positions, i);
    NetNone(s[i + 1..], s[i].symbol);
    hide Walk;
  }

  // ---------------------------------------------------------------- forward netting

  /** Netting the fills one by one, first fill first. */
  function Net(s: seq<Fill>, opening: map<string, real>): map<string, real> {
    if s == [] then opening
    else
      var m, f := Net(s[..|s| - 1], opening), s[|s| - 1];
      m[f.symbol := Get(m, f.symbol) + Delta(f)]
  }

  /** The row a forward replay writes: only the position itself says what a fill closes. */
  function RowForward(f: Fill, before: real): Row {
    var after := before + Delta(f);
    var closed := InferredClose(f, before);
    var entry := f.qty - closed;
    Row(f, before, after, closed, entry, ActionOf(before, after, closed, entry))
  }

  function Forward(s: seq<Fill>, opening: map<string, real>): (rows: seq<Row>)
    ensures |rows| == |s|
  {
    if s == [] then []
    else
      var f := s[|s| - 1];
      Forward(s[..|s| - 1], opening) + [RowForward(f, Get(Net(s[..|s| - 1], opening), f.symbol))]
  }

  /** Two position tables that read alike; a missing symbol reads as flat. */
  ghost predicate Agree(a: map<string, real>, b: map<string, real>) {
    forall x: string :: Get(a, x) == Get(b, x)
  }

  /** The exchange reports no more closed than the position allows for. */
  predicate ReportFits(f: Fill, before: real) {
    Min(f.qty, f.apiClosed) <= InferredClose(f, before)
  }

  lemma RowsAgree(f: Fill, before: real)
    requires FillOk(f)
    ensures RowBefore(f, before + Delta(f)) == RowForward(f, before) <==> ReportFits(f, before)
  {
    var after := before + Delta(f);
    assert after - Delta(f) == before;
    assert 0.0 <= InferredClose(f, before) <= f.qty;
    hide InferredClose, Delta, ActionOf;
  }

  /** What a fill finds before it, netting forward from the opening. */
  function Found(s: seq<Fill>, opening: map<string, real>, i: nat): real
    requires i < |s|
  {
    Get(Net(s[..i], opening), s[i].symbol)
  }

  /** The backward walk records the same rows as forward netting from the matching opening, if and only if no
  reported closed size exceeds what the position before the fill leaves to close. */
  lemma {:induction false} WalkRefinesForward(s: seq<Fill>, opening: map<string, real>, positions: map<string, real>)
    requires forall i | 0 <= i < |s| :: FillOk(s[i])
    requires Agree(Net(s, opening), positions)
    ensures Walk(s, positions) == Forward(s, opening) <==> forall i | 0 <= i < |s| :: ReportFits(s[i], Found(s, opening, i))
  {
    hide RowBefore, RowForward, Walk, Forward, Net, Found, ReportFits, FillOk, Agree, Delta;
    if s == [] {
      NothingForward(opening, positions);
    } else {
      var n := |s| - 1;
      var front, f := s[..n], s[n];
      assert s == front + [f];
      var before := Found(s, opening, n);
      var row := RowBefore(f, Get(positions, f.symbol));
      var moved := positions[f.symbol := row.before];
      NetStep(front, f, opening, positions);
      FoundLast(front, f, opening);
      WalkAppend(front, f, positions);
      WalkRefinesForward(front, opening, moved);
      RowsAgree(f, before);
      FoundFront(s, opening);
      ForwardAppend(front, f, opening);
      SplitEqual(Walk(front, moved), Forward(front, opening), row, RowForward(f, before));
    }
  }

  lemma NothingForward(opening: map<string, real>, positions: map<string, real>)
    ensures Walk([], positions) == Forward([], opening)
  {
  }

  lemma FoundLast(front: seq<Fill>, f: Fill, opening: map<string, real>)
    ensures Found(front + [f], opening, |front|) == Get(Net(front, opening), f.symbol)
  {
    assert (front + [f])[..|front|] == front;
    hide Net;
  }

  lemma ForwardAppend(front: seq<Fill>, f: Fill, opening: map<string, real>)
    ensures Forward(front + [f], opening) == Forward(front, opening) + [RowForward(f, Found(front + [f], opening, |front|))]
  {
    assert (front + [f])[..|front|] == front;
    hide Net, RowForward;
  }

  lemma SplitEqual(a: seq<Row>, b: seq<Row>, x: Row, y: Row)
    ensures a + [x] == b + [y] <==> a == b && x == y
  {
    if a + [x] == b + [y] {
      assert |a| == |b|;
      assert a == (a + [x])[..|a|] && b == (b + [y])[..|b|] && x == (a + [x])[|a|] && y == (b + [y])[|b|];
    }
  }

  lemma FoundFront(s: seq<Fill>, opening: map<string, real>)
    requires s != []
    ensures forall i | 0 <= i < |s| - 1 :: Found(s, opening, i) == Found(s[..|s| - 1], opening, i)
  {
    forall i | 0 <= i < |s| - 1 ensures Found(s, opening, i) == Found(s[..|s| - 1], opening, i) {
      assert s[..|s| - 1][..i] == s[..i];
    }
  }

  /** Taking the last fill back out of the live positions leaves what netting the fills before it gives. */
  lemma NetStep(front: seq<Fill>, f: Fill, opening: map<string, real>, positions: map<string, real>)
    requires Agree(Net(front + [f], opening), positions)
    ensures var row := RowBefore(f, Get(positions, f.symbol));
            && row.before == Get(Net(front, opening), f.symbol)
            && Get(positions, f.symbol) == Get(Net(front, opening), f.symbol) + Delta(f)
            && Agree(Net(front, opening), positions[f.symbol := row.before])
  {
    assert (front + [f])[..|front|] == front;
    var m, m' := Net(front, opening), Net(front + [f], opening);
    assert m' == m[f.symbol := Get(m, f.symbol) + Delta(f)];
    hide Net;
    var row := RowBefore(f, Get(positions, f.symbol));
    assert Get(m', f.symbol) == Get(positions, f.symbol);
    forall x: string ensures Get(m, x) == Get(positions[f.symbol := row.before], x) {
      assert Get(m', x) == Get(positions, x);
    }
  }

  // ---------------------------------------------------------------- completed trades

  /** The fill ends a position: it was not flat, and is flat or turned around afterwards. */
  predicate EndsPosition(r: Row) {
    Sign(r.before) != 0 && Sign(r.after) != Sign(r.before)
  }

  /** FULL_EXIT and REVERSAL are the fills that end a position, when the reported closed size fits. */
  lemma CompletedMeansEnded(f: Fill, before: real)
    requires FillOk(f)
    ensures var r := RowForward(f, before);
            && (r.action in {FullExit, Reversal} <==> EndsPosition(r))
            && (r.action == Reversal <==> Sign(r.before) * Sign(r.after) == -1)
            && (r.action == Entry <==> Sign(before) == 0)
  {
  }

  function Completed(rows: seq<Row>): nat {
    if rows == [] then 0
    else Completed(rows[..|rows| - 1]) + if rows[|rows| - 1].action in {FullExit, Reversal} then 1 else 0
  }

  function Endings(rows: seq<Row>): nat {
    if rows == [] then 0 else Endings(rows[..|rows| - 1]) + if EndsPosition(rows[|rows| - 1]) then 1 else 0
  }

  /** The report turns a fill that closes nothing into a REVERSAL. */
  predicate Phantom(r: Row) {
    InferredClose(r.fill, r.before) == 0.0 && 0.0 < r.fill.apiClosed < r.fill.qty
  }

  /** The report turns a fill that turns the position around into a PARTIAL_EXIT. */
  predicate Missed(r: Row) {
    0.0 < InferredClose(r.fill, r.before) < r.fill.qty <= r.fill.apiClosed
  }

  function Count(rows: seq<Row>, p: Row -> bool): nat {
    if rows == [] then 0 else Count(rows[..|rows| - 1], p) + if p(rows[|rows| - 1]) then 1 else 0
  }

  /** A stored row counts as a completed trade exactly if it ends a position, but for those two kinds of reports. */
  lemma CountedExactly(f: Fill, after: real)
    requires FillOk(f)
    ensures var r := RowBefore(f, after);
            && (r.action in {FullExit, Reversal} <==> if EndsPosition(r) then !Missed(r) else Phantom(r))
            && (Missed(r) ==> EndsPosition(r)) && (Phantom(r) ==> !EndsPosition(r))
            && (ReportFits(f, r.before) ==> !Missed(r) && !Phantom(r))
  {
  }

  lemma {:induction false} WalkCounts(s: seq<Fill>, positions: map<string, real>)
    requires forall i | 0 <= i < |s| :: FillOk(s[i])
    ensures var rows := Walk(s, positions);
            && Completed(rows) + Count(rows, Missed) == Endings(rows) + Count(rows, Phantom)
            && ((forall r <- rows :: ReportFits(r.fill, r.before)) ==> Count(rows, Missed) == Count(rows, Phantom) == 0)
  {
    hide RowBefore, EndsPosition, FillOk, ReportFits, Walk, InferredClose;
    if s == [] {
      NothingForward(positions, positions);
      hide Forward;
    } else {
      var front, f := s[..|s| - 1], s[|s| - 1];
      var row := RowBefore(f, Get(positions, f.symbol));
      assert s == front + [f];
      WalkAppend(front, f, positions);
      RowMoves(f, Get(positions, f.symbol));
      var rows := Walk(front, positions[f.symbol := row.before]);
      WalkCounts(front, positions[f.symbol := row.before]);
      CountedExactly(f, Get(positions, f.symbol));
      CountsAppend(rows, row);
      if forall r <- rows + [row] :: ReportFits(r.fill, r.before) {
        assert forall r <- rows :: r in rows + [row];
        assert row in rows + [row];
      }
      hide Completed, Endings, Count, Phantom, Missed;
    }
  }

  lemma CountsAppend(rows: seq<Row>, row: Row)
    ensures Completed(rows + [row]) == Completed(rows) + if row.action in {FullExit, Reversal} then 1 else 0
    ensures Endings(rows + [row]) == Endings(rows) + if EndsPosition(row) then 1 else 0
    ensures forall p: Row -> bool {:trigger Count(rows + [row], p)} :: Count(rows + [row], p) == Count(rows, p) + if p(row) then 1 else 0
  {
    assert (rows + [row])[..|rows|] == rows;
    hide EndsPosition;
  }

  /** completedTrades counts the position cycles that ended, whatever order the fills came in, if and only if as many
  endings are missed as closing reports are phantoms; in particular when every reported closed size fits. */
  lemma CompletedTrades(executions: seq<Fill>, positions: map<string, real>)
    requires forall f <- executions :: FillOk(f)
    ensures var rows := Reconciled(executions, positions);
            && (Completed(rows) == Endings(rows) <==> Count(rows, Missed) == Count(rows, Phantom))
            && Completed(rows) - Endings(rows) == Count(rows, Phantom) - Count(rows, Missed)
            && ((forall r <- rows :: ReportFits(r.fill, r.before)) ==> Completed(rows) == Endings(rows))
  {
    var s := Sort(executions, Itself);
    SortPermutes(executions, Itself);
    forall i | 0 <= i < |s| ensures FillOk(s[i]) { assert s[i] in multiset(s); }
    hide Sort, Walk, Completed, Endings, Count, FillOk, ReportFits;
    WalkCounts(s, positions);
  }

  /** One fill of each kind: a report of half closed on an opening fill counts a trade that never ended, and one of all
  closed on a fill that turns the position around counts none where one ended. */
  lemma ReportsMiscount()
    ensures var opens := RowBefore(Fill("a", "BTCUSDT", 1, 0, "", 0.0, Buy, 2.0, 1.0), 2.0);
            opens.before == 0.0 && opens.action == Reversal && !EndsPosition(opens) && Phantom(opens)
    ensures var turns := RowBefore(Fill("b", "BTCUSDT", 2, 0, "", 0.0, Buy, 2.0, 2.0), 1.0);
            turns.before == -1.0 && turns.action == PartialExit && EndsPosition(turns) && Missed(turns)
  {
  }

  // ---------------------------------------------------------------- the opening of a day

  /** The positions before the first fill, taking one fill after the other back out. */
  function OpeningOf(s: seq<Fill>, positions: map<string, real>): map<string, real> {
    if s == [] then positions
    else
      var f := s[|s| - 1];
      OpeningOf(s[..|s| - 1], positions[f.symbol := RowBefore(f, Get(positions, f.symbol)).before])
  }

  lemma OpeningAppend(s: seq<Fill>, f: Fill, positions: map<string, real>)
    ensures OpeningOf(s + [f], positions) == OpeningOf(s, positions[f.symbol := RowBefore(f, Get(positions, f.symbol)).before])
  {
    assert (s + [f])[..|s|] == s;
    hide RowBefore;
  }

  /** Netting the fills from their opening gives the live positions back. */
  lemma {:induction false} OpeningNetsToLive(s: seq<Fill>, positions: map<string, real>)
    ensures Agree(Net(s, OpeningOf(s, positions)), positions)
  {
    if s != [] {
      var front, f := s[..|s| - 1], s[|s| - 1];
      var before := RowBefore(f, Get(positions, f.symbol)).before;
      OpeningNetsToLive(front, positions[f.symbol := before]);
      RowMoves(f, Get(positions, f.symbol));
      hide RowBefore, Net, OpeningOf;
      assert s == front + [f];
      OpeningAppend(front, f, positions);
      NetNext(front, f, OpeningOf(s, positions), positions);
    }
  }

  lemma NetNext(front: seq<Fill>, f: Fill, opening: map<string, real>, positions: map<string, real>)
    requires Agree(Net(front, opening), positions[f.symbol := Get(positions, f.symbol) - Delta(f)])
    ensures Agree(Net(front + [f], opening), positions)
  {
    assert (front + [f])[..|front|] == front;
    var m := Net(front, opening);
    assert Net(front + [f], opening) == m[f.symbol := Get(m, f.symbol) + Delta(f)];
    hide Net, Delta;
    var moved := positions[f.symbol := Get(positions, f.symbol) - Delta(f)];
    forall x: string ensures Get(m[f.symbol := Get(m, f.symbol) + Delta(f)], x) == Get(positions, x) {
      assert Get(m, x) == Get(moved, x);
    }
  }

  lemma {:induction false} OpeningUntouched(s: seq<Fill>, positions: map<string, real>, symbol: string)
    requires forall i | 0 <= i < |s| :: s[i].symbol != symbol
    ensures Get(OpeningOf(s, positions), symbol) == Get(positions, symbol)
  {
    hide RowBefore;
    if s != [] {
      var f := s[|s| - 1];
      OpeningUntouched(s[..|s| - 1], positions[f.symbol := RowBefore(f, Get(positions, f.symbol)).before], symbol);
    }
  }

  lemma {:induction false} FirstRowOpens(s: seq<Fill>, positions: map<string, real>, i: nat)
    requires i < |s| && forall k | 0 <= k < i :: s[k].symbol != s[i].symbol
    ensures Walk(s, positions)[i].before == Get(OpeningOf(s, positions), s[i].symbol)
  {
    hide RowBefore, Walk, OpeningOf;
    var n := |s| - 1;
    var front, f := s[..n], s[n];
    assert s == front + [f];
    var moved := positions[f.symbol := RowBefore(f, Get(positions, f.symbol)).before];
    WalkAppend(front, f, positions);
    OpeningAppend(front, f, positions);
    if i < n {
      FirstRowOpens(front, moved, i);
    } else {
      OpeningUntouched(front, moved, f.symbol);
    }
  }

  /** opening_position_snapshot: for each symbol what its first row found, the live position where there is no
  fill, and nothing where the symbol was flat. */
  method OpeningSnapshot(executions: seq<Fill>, positions: map<string, real>) returns (opening: map<string, real>)
    requires Distinct(executions, Itself)
    ensures Agree(opening, OpeningOf(Sort(executions, Itself), positions))
    ensures forall x <- opening :: opening[x] != 0.0
  {
    hide Walk, OpeningOf, Sort, SameKey, RowBefore;
    var rows := Reconcile(executions, positions);
    ghost var s := Sort(executions, Itself);
    var found: map<string, real> := positions;
    var seen: set<string> := {};
    for i := 0 to |rows|
      invariant forall x: string :: Get(found, x) == if x in seen then Get(OpeningOf(s, positions), x) else Get(positions, x)
      invariant forall x: string :: x in seen <==> exists k | 0 <= k < i :: s[k].symbol == x
    {
      var symbol := rows[i].fill.symbol;
      assert symbol == s[i].symbol;
      if symbol !in seen {
        FirstRowOpens(s, positions, i);
        found := found[symbol := rows[i].before];
        seen := seen + {symbol};
      }
    }
    forall x: string | x !in seen ensures Get(OpeningOf(s, positions), x) == Get(positions, x) {
      OpeningUntouched(s, positions, x);
    }
    opening := map x | x in found && found[x] != 0.0 :: found[x];
    assert forall x: string :: Get(opening, x) == Get(found, x);
  }

  // ---------------------------------------------------------------- two reconstructions

  /** Every fill of the earlier window is before every fill of the later one. */
  predicate Earlier(a: seq<Fill>, b: seq<Fill>) {
    forall i, j | 0 <= i < |a| && 0 <= j < |b| :: a[i].time < b[j].time
  }

  lemma SortSplit(a: seq<Fill>, b: seq<Fill>)
    requires Distinct(a, Itself) && Distinct(b, Itself) && Earlier(a, b)
    ensures Distinct(a + b, Itself) && Sort(a + b, Itself) == Sort(a, Itself) + Sort(b, Itself)
  {
    SplitDistinct(a, b);
    SplitSorted(a, b);
    hide *;
    SortSorts(a + b, Itself);
    SortPermutes(a + b, Itself);
    SortPermutes(a, Itself);
    SortPermutes(b, Itself);
    SortedUnique(Sort(a + b, Itself), Sort(a, Itself) + Sort(b, Itself), Itself);
  }

  lemma SplitDistinct(a: seq<Fill>, b: seq<Fill>)
    requires Distinct(a, Itself) && Distinct(b, Itself) && Earlier(a, b)
    ensures Distinct(a + b, Itself)
  {
  }

  lemma SplitSorted(a: seq<Fill>, b: seq<Fill>)
    requires Distinct(a, Itself) && Distinct(b, Itself) && Earlier(a, b)
    ensures Sorted(Sort(a, Itself) + Sort(b, Itself), Itself)
  {
    var p, q := Sort(a, Itself), Sort(b, Itself);
    SortSorts(a, Itself);
    SortSorts(b, Itself);
    SortPermutes(a, Itself);
    SortPermutes(b, Itself);
    hide Sort, Distinct;
    forall i, j | 0 <= i < |p| && 0 <= j < |q| ensures KeyBefore(p[i], q[j]) {
      assert p[i] in multiset(p) && q[j] in multiset(q);
      assert p[i] in a && q[j] in b;
    }
    hide KeyBefore;
  }

  lemma {:induction false} WalkSplit(a: seq<Fill>, b: seq<Fill>, positions: map<string, real>)
    ensures Walk(a + b, positions) == Walk(a, OpeningOf(b, positions)) + Walk(b, positions)
    decreases |b|
  {
    hide RowBefore, Walk;
    if b == [] {
      assert a + b == a;
      assert Walk(b, positions) == [];
    } else {
      hide OpeningOf;
      var front, f := b[..|b| - 1], b[|b| - 1];
      assert b == front + [f] && a + b == (a + front) + [f];
      var moved := positions[f.symbol := RowBefore(f, Get(positions, f.symbol)).before];
      WalkSplit(a, front, moved);
      WalkAppend(a + front, f, positions);
      WalkAppend(front, f, positions);
      OpeningAppend(front, f, positions);
    }
  }

  lemma {:induction false} WalkReadsAlike(s: seq<Fill>, p: map<string, real>, q: map<string, real>)
    requires Agree(p, q)
    ensures Walk(s, p) == Walk(s, q)
  {
    hide RowBefore;
    if s != [] {
      var f := s[|s| - 1];
      var before := RowBefore(f, Get(p, f.symbol)).before;
      assert Get(p, f.symbol) == Get(q, f.symbol);
      var p', q' := p[f.symbol := before], q[f.symbol := before];
      forall x: string ensures Get(p', x) == Get(q', x) {
        assert Get(p, x) == Get(q, x);
      }
      WalkReadsAlike(s[..|s| - 1], p', q');
    }
  }

  /** Reconciling an earlier and a later window together records for the earlier one what reconciling it alone
  from the later one's opening records, and for the later one what it would record alone.  So the previous-day
  path and the cross-day backfill store the same rows. */
  lemma TwoReconstructionsAgree(previous: seq<Fill>, current: seq<Fill>, positions: map<string, real>, opening: map<string, real>)
    requires Distinct(previous, Itself) && Distinct(current, Itself) && Earlier(previous, current)
    requires Agree(opening, OpeningOf(Sort(current, Itself), positions))
    ensures Reconciled(previous + current, positions) == Reconciled(previous, opening) + Reconciled(current, positions)
  {
    SortSplit(previous, current);
    hide Walk, Sort, Distinct, Earlier, Agree, OpeningOf;
    WalkSplit(Sort(previous, Itself), Sort(current, Itself), positions);
    WalkReadsAlike(Sort(previous, Itself), opening, OpeningOf(Sort(current, Itself), positions));
  }

  // ---------------------------------------------------------------- live positions

  datatype PositionRow = PositionRow(symbol: string, positionIdx: int, side: Option<Side>, size: real)

  /** A row that contributes: one with a side and a positive size. */
  predicate Holds(r: PositionRow) {
    r.side.Some? && r.size > 0.0
  }

  function Signed(r: PositionRow): real
    requires r.side.Some?
  {
    if r.side.value == Buy then r.size else -r.size
  }

  /** The signed size of a symbol over the rows. */
  function Exposure(rows: seq<PositionRow>, symbol: string): real {
    if rows == [] then 0.0
    else
      var r := rows[|rows| - 1];
      Exposure(rows[..|rows| - 1], symbol) + if r.symbol == symbol && Holds(r) then Signed(r) else 0.0
  }

  lemma ExposureNone()
    ensures forall x: string :: Exposure([], x) == 0.0
  {
  }

  lemma ExposureAppend(rows: seq<PositionRow>, row: PositionRow)
    ensures forall x: string :: Exposure(rows + [row], x) == Exposure(rows, x) + if row.symbol == x && Holds(row) then Signed(row) else 0.0
  {
    assert (rows + [row])[..|rows|] == rows;
    hide Holds, Signed;
  }

  /** Buy rows of positive size add to the exposure of their symbol, sell rows take from it, and no other row counts. */
  lemma ExposureMeans(rows: seq<PositionRow>, row: PositionRow, symbol: string)
    ensures Exposure([], symbol) == 0.0
    ensures Exposure(rows + [row], symbol) - Exposure(rows, symbol) ==
              if row.symbol != symbol || row.side == None || row.size <= 0.0 then 0.0
              else if row.side == Some(Buy) then row.size else -row.size
  {
    ExposureAppend(rows, row);
  }

  predicate Opposing(rows: seq<PositionRow>, i: nat, j: nat)
    requires i < |rows| && j < |rows|
  {
    && Holds(rows[i]) && Holds(rows[j]) && rows[i].symbol == rows[j].symbol && rows[i].side != rows[j].side
  }

  /** No long and short rows of one symbol. */
  predicate Unmixed(rows: seq<PositionRow>) {
    forall i, j | 0 <= i < |rows| && 0 <= j < |rows| ::
      rows[i].symbol == rows[j].symbol && rows[i].size > 0.0 && rows[j].size > 0.0 ==>
        !(rows[i].side == Some(Buy) && rows[j].side == Some(Sell))
  }

  lemma SidesAre(side: Option<Side>)
    ensures side in {None, Some(Buy), Some(Sell)}
  {
    if side.Some? {
      assert side.value.Buy? || side.value.Sell?;
    }
  }

  lemma OneWayIs(rows: seq<PositionRow>)
    ensures OneWay(rows) <==> (forall k <- rows :: k.positionIdx != 1 && k.positionIdx != 2) && Unmixed(rows)
  {
    if Unmixed(rows) {
      forall i, j | 0 <= i < |rows| && 0 <= j < |rows| ensures !Opposing(rows, i, j) {
        SidesAre(rows[i].side);
        SidesAre(rows[j].side);
      }
    } else {
      var i, j :| 0 <= i < |rows| && 0 <= j < |rows| && rows[i].symbol == rows[j].symbol && rows[i].size > 0.0 && rows[j].size > 0.0
                  && rows[i].side == Some(Buy) && rows[j].side == Some(Sell);
      assert Opposing(rows, i, j);
    }
  }

  predicate OneWay(rows: seq<PositionRow>) {
    && (forall r <- rows :: r.positionIdx !in {1, 2})
    && (forall i, j | 0 <= i < |rows| && 0 <= j < |rows| :: !Opposing(rows, i, j))
  }

  /** current_signed_positions over rows of USDT perpetuals: refused if and only if a hedge slot or two opposing
  sides of a symbol are among them. */
  method CurrentSignedPositions(rows: seq<PositionRow>) returns (r: Option<map<string, real>>)
    ensures r.Some? <==> (forall k <- rows :: k.positionIdx != 1 && k.positionIdx != 2) && Unmixed(rows)
    ensures r.Some? ==> forall x: string :: Get(r.value, x) == Exposure(rows, x)
  {
    hide Exposure, Unmixed, Signed;
    ExposureNone();
    var result: map<string, real> := map[];
    var sides: map<string, Side> := map[];
    for i := 0 to |rows|
      invariant OneWay(rows[..i])
      invariant forall x <- sides :: exists k | 0 <= k < i :: Holds(rows[k]) && rows[k].symbol == x && rows[k].side == Some(sides[x])
      invariant forall k | 0 <= k < i :: Holds(rows[k]) ==> rows[k].symbol in sides && rows[k].side == Some(sides[rows[k].symbol])
      invariant forall x: string :: Get(result, x) == Exposure(rows[..i], x)
    {
      var row := rows[i];
      assert rows[..i + 1] == rows[..i] + [row];
      ExposureAppend(rows[..i], row);
      if row.positionIdx in {1, 2} {
        assert row in rows;
        OneWayIs(rows);
        return None;
      }
      if Holds(row) {
        if row.symbol in sides && sides[row.symbol] != row.side.value {
          var k :| 0 <= k < i && Holds(rows[k]) && rows[k].symbol == row.symbol && rows[k].side == Some(sides[row.symbol]);
          assert Opposing(rows, i, k);
          OneWayIs(rows);
          return None;
        }
        sides := sides[row.symbol := row.side.value];
        result := result[row.symbol := Get(result, row.symbol) + Signed(row)];
      }
    }
    assert rows[..|rows|] == rows;
    OneWayIs(rows);
    r := Some(result);
  }
}

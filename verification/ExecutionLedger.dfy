/** Reconstruction of position exposure from fills: the backward walk from the live position, and why it agrees
with forward netting, with itself across days, and with any order of input. */
module ExecutionLedger {
  import TextOrder

  // ---------------------------------------------------------------- fills and their order

  datatype Side = Buy | Sell

  /** A normalized fill; a missing sequence number or order id reads as zero and empty. */
  datatype Fill = Fill(execId: string, symbol: string, time: int, sequenceNo: int, orderId: string, leaves: real,
                       side: Side, qty: real, apiClosed: real)

  predicate FillOk(f: Fill) {
    f.qty > 0.0 && f.apiClosed >= 0.0
  }

  /** Time, sequence, order, descending leaves, execution id. */
  predicate KeyBefore(a: Fill, b: Fill) {
    a.time < b.time || (a.time == b.time &&
    (a.sequenceNo < b.sequenceNo || (a.sequenceNo == b.sequenceNo &&
    (TextOrder.Before(a.orderId, b.orderId) || (a.orderId == b.orderId &&
    (a.leaves > b.leaves || (a.leaves == b.leaves &&
    TextOrder.Before(a.execId, b.execId))))))))
  }

  predicate SameKey(a: Fill, b: Fill) {
    a.time == b.time && a.sequenceNo == b.sequenceNo && a.orderId == b.orderId && a.leaves == b.leaves && a.execId == b.execId
  }

  lemma KeyTotal(a: Fill, b: Fill)
    ensures KeyBefore(a, b) || SameKey(a, b) || KeyBefore(b, a)
  {
    TextOrder.Total(a.orderId, b.orderId);
    TextOrder.Total(a.execId, b.execId);
    hide TextOrder.Before;
  }

  lemma KeyTransitive(a: Fill, b: Fill, c: Fill)
    requires KeyBefore(a, b) && KeyBefore(b, c)
    ensures KeyBefore(a, c)
  {
    hide TextOrder.Before;
    if TextOrder.Before(a.orderId, b.orderId) && TextOrder.Before(b.orderId, c.orderId) {
      TextOrder.Transitive(a.orderId, b.orderId, c.orderId);
    }
    if TextOrder.Before(a.execId, b.execId) && TextOrder.Before(b.execId, c.execId) {
      TextOrder.Transitive(a.execId, b.execId, c.execId);
    }
  }

  lemma KeyIrreflexive(a: Fill)
    ensures !KeyBefore(a, a)
  {
    TextOrder.Irreflexive(a.orderId);
    TextOrder.Irreflexive(a.execId);
  }

  // ---------------------------------------------------------------- sorting by key

  datatype Action = Entry | Add | PartialExit | FullExit | Reversal

  datatype Row = Row(fill: Fill, before: real, after: real, closed: real, entry: real, action: Action)

  function Itself(f: Fill): Fill {
    f
  }

  function FillOf(r: Row): Fill {
    r.fill
  }

  predicate Distinct<T>(s: seq<T>, key: T -> Fill) {
    forall i, j | 0 <= i < j < |s| :: !SameKey(key(s[i]), key(s[j]))
  }

  predicate Sorted<T>(s: seq<T>, key: T -> Fill) {
    forall i, j | 0 <= i < j < |s| :: KeyBefore(key(s[i]), key(s[j]))
  }

  function Insert<T>(x: T, s: seq<T>, key: T -> Fill): seq<T> {
    if s == [] then [x]
    else if KeyBefore(key(s[0]), key(x)) then [s[0]] + Insert(x, s[1..], key)
    else [x] + s
  }

  function Sort<T>(s: seq<T>, key: T -> Fill): seq<T> {
    if s == [] then [] else Insert(s[|s| - 1], Sort(s[..|s| - 1], key), key)
  }

  lemma {:induction false} InsertPermutes<T>(x: T, s: seq<T>, key: T -> Fill)
    ensures multiset(Insert(x, s, key)) == multiset(s) + multiset{x}
  {
    if s != [] {
      InsertPermutes(x, s[1..], key);
      assert s == [s[0]] + s[1..];
    }
  }

  lemma {:induction false} SortPermutes<T>(s: seq<T>, key: T -> Fill)
    ensures multiset(Sort(s, key)) == multiset(s)
  {
    hide Insert;
    if s != [] {
      SortPermutes(s[..|s| - 1], key);
      InsertPermutes(s[|s| - 1], Sort(s[..|s| - 1], key), key);
      assert s == s[..|s| - 1] + [s[|s| - 1]];
    }
  }

  lemma {:induction false} InsertSorts<T>(x: T, s: seq<T>, key: T -> Fill)
    requires Sorted(s, key) && forall i | 0 <= i < |s| :: !SameKey(key(s[i]), key(x))
    ensures Sorted(Insert(x, s, key), key)
  {
    hide KeyBefore, SameKey;
    if s == [] {
    } else if KeyBefore(key(s[0]), key(x)) {
      var rest := Insert(x, s[1..], key);
      InsertSorts(x, s[1..], key);
      InsertPermutes(x, s[1..], key);
      forall j | 0 <= j < |rest| ensures KeyBefore(key(s[0]), key(rest[j])) {
        assert rest[j] in multiset(rest);
        assert rest[j] == x || rest[j] in s[1..];
      }
    } else {
      KeyTotal(key(s[0]), key(x));
      forall j | 0 <= j < |s| ensures KeyBefore(key(x), key(s[j])) {
        if j > 0 { KeyTransitive(key(x), key(s[0]), key(s[j])); }
      }
    }
  }

  lemma {:induction false} SortSorts<T>(s: seq<T>, key: T -> Fill)
    requires Distinct(s, key)
    ensures Sorted(Sort(s, key), key)
  {
    hide KeyBefore, SameKey;
    if s != [] {
      var n := |s| - 1;
      var front := Sort(s[..n], key);
      SortSorts(s[..n], key);
      SortPermutes(s[..n], key);
      forall i | 0 <= i < |front| ensures !SameKey(key(front[i]), key(s[n])) {
        assert front[i] in multiset(front);
        assert front[i] in s[..n];
      }
      InsertSorts(s[n], front, key);
    }
  }

  lemma WithoutHead<T>(s: seq<T>)
    requires s != []
    ensures s == [s[0]] + s[1..] && multiset(s[1..]) == multiset(s) - multiset{s[0]}
  {
    assert s == [s[0]] + s[1..];
  }

  /** A strictly sorted arrangement is the only one. */
  lemma {:induction false} SortedUnique<T>(a: seq<T>, b: seq<T>, key: T -> Fill)
    requires Sorted(a, key) && Sorted(b, key) && multiset(a) == multiset(b)
    ensures a == b
    decreases |a|
  {
    hide KeyBefore;
    assert |a| == |multiset(a)| && |b| == |multiset(b)|;
    if a != [] {
      SameHead(a, b, key);
      WithoutHead(a);
      WithoutHead(b);
      SortedUnique(a[1..], b[1..], key);
    }
  }

  lemma SameHead<T>(a: seq<T>, b: seq<T>, key: T -> Fill)
    requires a != [] && b != [] && Sorted(a, key) && Sorted(b, key) && multiset(a) == multiset(b)
    ensures a[0] == b[0]
  {
    hide KeyBefore;
    assert a[0] in multiset(b) && b[0] in multiset(a);
    assert a[0] in b && b[0] in a;
    if a[0] != b[0] {
      KeyIrreflexive(key(a[0]));
      KeyTransitive(key(a[0]), key(b[0]), key(a[0]));
    }
  }

  // ---------------------------------------------------------------- the fills of one symbol

  function Of<T>(s: seq<T>, symbol: string, key: T -> Fill): seq<T> {
    if s == [] then []
    else Of(s[..|s| - 1], symbol, key) + if key(s[|s| - 1]).symbol == symbol then [s[|s| - 1]] else []
  }

  lemma {:induction false} OfCount<T>(s: seq<T>, symbol: string, key: T -> Fill, x: T)
    ensures multiset(Of(s, symbol, key))[x] == if key(x).symbol == symbol then multiset(s)[x] else 0
  {
    if s != [] {
      OfCount(s[..|s| - 1], symbol, key, x);
      assert s == s[..|s| - 1] + [s[|s| - 1]];
    }
  }

  lemma {:induction false} OfSorted<T>(s: seq<T>, symbol: string, key: T -> Fill)
    requires Sorted(s, key)
    ensures Sorted(Of(s, symbol, key), key)
  {
    hide KeyBefore;
    if s != [] {
      var n := |s| - 1;
      var front := Of(s[..n], symbol, key);
      OfSorted(s[..n], symbol, key);
      forall i | 0 <= i < |front| ensures KeyBefore(key(front[i]), key(s[n])) {
        OfCount(s[..n], symbol, key, front[i]);
        assert front[i] in multiset(front);
        assert front[i] in s[..n];
      }
    }
  }

  lemma {:induction false} OfDistinct<T>(s: seq<T>, symbol: string, key: T -> Fill)
    requires Distinct(s, key)
    ensures Distinct(Of(s, symbol, key), key)
  {
    hide SameKey;
    if s != [] {
      var n := |s| - 1;
      var front := Of(s[..n], symbol, key);
      OfDistinct(s[..n], symbol, key);
      forall i | 0 <= i < |front| ensures !SameKey(key(front[i]), key(s[n])) {
        OfCount(s[..n], symbol, key, front[i]);
        assert front[i] in multiset(front);
        assert front[i] in s[..n];
      }
    }
  }

  lemma OfMultiset<T(!new)>(a: seq<T>, b: seq<T>, symbol: string, key: T -> Fill)
    requires multiset(a) == multiset(b)
    ensures multiset(Of(a, symbol, key)) == multiset(Of(b, symbol, key))
  {
    var ma, mb := multiset(Of(a, symbol, key)), multiset(Of(b, symbol, key));
    forall x: T ensures ma[x] == mb[x] {
      OfCount(a, symbol, key, x);
      OfCount(b, symbol, key, x);
    }
    hide Of;
    assert ma == mb;
  }

  /** Sorting the fills of a symbol is picking them from the sorted fills. */
  lemma OfSort<T(!new)>(s: seq<T>, symbol: string, key: T -> Fill)
    requires Distinct(s, key)
    ensures Sort(Of(s, symbol, key), key) == Of(Sort(s, key), symbol, key)
  {
    hide *;
    SortSorts(s, key);
    SortPermutes(s, key);
    OfSorted(Sort(s, key), symbol, key);
    OfDistinct(s, symbol, key);
    SortSorts(Of(s, symbol, key), key);
    SortPermutes(Of(s, symbol, key), key);
    OfMultiset(Sort(s, key), s, symbol, key);
    SortedUnique(Sort(Of(s, symbol, key), key), Of(Sort(s, key), symbol, key), key);
  }

  // ---------------------------------------------------------------- the backward walk

  function Get(positions: map<string, real>, symbol: string): real {
    if symbol in positions then positions[symbol] else 0.0
  }

  function Delta(f: Fill): real {
    if f.side == Buy then f.qty else -f.qty
  }

  function Sign(x: real): int {
    if x > 0.0 then 1 else if x < 0.0 then -1 else 0
  }

  function Abs(x: real): real {
    if x < 0.0 then -x else x
  }

  function Min(a: real, b: real): real {
    if a <= b then a else b
  }

  function Max(a: real, b: real): real {
    if a >= b then a else b
  }

  /** What a fill closes of the position before it. */
  function InferredClose(f: Fill, before: real): real {
    if Sign(before) != 0 && Sign(before) != Sign(Delta(f)) then Min(Abs(before), f.qty) else 0.0
  }

  function ActionOf(before: real, after: real, closed: real, entry: real): Action {
    if closed > 0.0 && entry > 0.0 then Reversal
    else if closed > 0.0 && after == 0.0 then FullExit
    else if closed > 0.0 then PartialExit
    else if before == 0.0 then Entry
    else Add
  }

  /** The row of a fill whose position afterwards is known. */
  function RowBefore(f: Fill, after: real): Row {
    var before := after - Delta(f);
    var closed := Max(InferredClose(f, before), Min(f.qty, f.apiClosed));
    var entry := Max(0.0, f.qty - closed);
    Row(f, before, after, closed, entry, ActionOf(before, after, closed, entry))
  }

  /** The walk over the fills of one symbol, last fill first. */
  function WalkOne(s: seq<Fill>, after: real): seq<Row> {
    if s == [] then []
    else
      var row := RowBefore(s[|s| - 1], after);
      WalkOne(s[..|s| - 1], row.before) + [row]
  }

  /** The walk over all fills at once, with the position of every symbol. */
  function Walk(s: seq<Fill>, positions: map<string, real>): (rows: seq<Row>)
    ensures |rows| == |s| && forall i | 0 <= i < |s| :: rows[i].fill == s[i]
  {
    if s == [] then []
    else
      var f := s[|s| - 1];
      var row := RowBefore(f, Get(positions, f.symbol));
      Walk(s[..|s| - 1], positions[f.symbol := row.before]) + [row]
  }

  lemma WalkAppend(s: seq<Fill>, f: Fill, positions: map<string, real>)
    ensures var row := RowBefore(f, Get(positions, f.symbol));
            Walk(s + [f], positions) == Walk(s, positions[f.symbol := row.before]) + [row]
  {
    assert (s + [f])[..|s|] == s;
    hide RowBefore;
  }

  /** Walking symbol by symbol is walking all fills at once. */
  lemma {:induction false} WalkOfSymbol(s: seq<Fill>, positions: map<string, real>, symbol: string)
    ensures Of(Walk(s, positions), symbol, FillOf) == WalkOne(Of(s, symbol, Itself), Get(positions, symbol))
  {
    hide RowBefore, Walk, WalkOne, Of;
    if s == [] {
      NothingWalked(positions, symbol);
    } else {
      var front, f := s[..|s| - 1], s[|s| - 1];
      var row := RowBefore(f, Get(positions, f.symbol));
      var moved := positions[f.symbol := row.before];
      assert s == front + [f];
      WalkOfSymbol(front, moved, symbol);
      WalkAppend(front, f, positions);
      OfAppend(Walk(front, moved), row, symbol, FillOf);
      OfAppend(front, f, symbol, Itself);
      WalkOneAppend(Of(front, symbol, Itself), f, Get(positions, symbol));
      RowOfFill(f, Get(positions, f.symbol));
      if f.symbol != symbol {
        assert Of(front, symbol, Itself) + [] == Of(front, symbol, Itself);
      }
    }
  }

  lemma RowOfFill(f: Fill, after: real)
    ensures RowBefore(f, after).fill == f
  {
  }

  lemma NothingWalked(positions: map<string, real>, symbol: string)
    ensures Of(Walk([], positions), symbol, FillOf) == [] == WalkOne(Of([], symbol, Itself), Get(positions, symbol))
  {
  }

  lemma OfAppend<T>(s: seq<T>, x: T, symbol: string, key: T -> Fill)
    ensures Of(s + [x], symbol, key) == Of(s, symbol, key) + if key(x).symbol == symbol then [x] else []
  {
    assert (s + [x])[..|s|] == s;
  }

  lemma WalkOneAppend(s: seq<Fill>, f: Fill, after: real)
    ensures WalkOne(s + [f], after) == WalkOne(s, RowBefore(f, after).before) + [RowBefore(f, after)]
  {
    assert (s + [f])[..|s|] == s;
    hide RowBefore;
  }

  /** What is recorded for a batch of fills. */
  function Reconciled(executions: seq<Fill>, positions: map<string, real>): seq<Row> {
    Walk(Sort(executions, Itself), positions)
  }

  // ---------------------------------------------------------------- the grouped loop

  /** The rows of one symbol: walk backward, then put them in order again. */
  method WalkGroup(s: seq<Fill>, position: real) returns (rows: seq<Row>)
    ensures rows == WalkOne(s, position)
  {
    var after := position;
    var i := |s|;
    rows := [];
    assert s[..|s|] == s;
    while i > 0
      invariant 0 <= i <= |s|
      invariant WalkOne(s, position) == WalkOne(s[..i], after) + rows
    {
      i := i - 1;
      var row := RowBefore(s[i], after);
      assert s[..i + 1] == s[..i] + [s[i]];
      WalkOneAppend(s[..i], s[i], after);
      hide WalkOne, RowBefore;
      rows := [row] + rows;
      after := row.before;
    }
  }

  lemma TextNotAfter(a: string, b: string)
    requires TextOrder.Before(a, b)
    ensures !TextOrder.Before(b, a) && a != b
  {
    TextOrder.Irreflexive(a);
    if TextOrder.Before(b, a) { TextOrder.Transitive(a, b, a); }
  }

  /** Of two fills, the earlier in the key order. */
  lemma KeyOrder(a: Fill, b: Fill)
    requires KeyBefore(a, b)
    ensures a.time <= b.time
    ensures a.time == b.time ==> a.sequenceNo <= b.sequenceNo
    ensures a.time == b.time && a.sequenceNo == b.sequenceNo ==> !TextOrder.Before(b.orderId, a.orderId)
    ensures a.time == b.time && a.sequenceNo == b.sequenceNo && a.orderId == b.orderId ==>
              a.leaves >= b.leaves && (a.leaves == b.leaves ==> TextOrder.Before(a.execId, b.execId))
  {
    if TextOrder.Before(a.orderId, b.orderId) { TextNotAfter(a.orderId, b.orderId); }
    TextOrder.Irreflexive(a.orderId);
    hide TextOrder.Before;
  }

  /** The recorded rows are the fills, in order of time; at one time in order of sequence, then of order id; and within an
  order from the most left to fill to the least, and then in order of execution id. */
  lemma RowsInOrder(executions: seq<Fill>, positions: map<string, real>)
    requires Distinct(executions, Itself)
    ensures var rows := Reconciled(executions, positions);
            && |rows| == |executions|
            && (forall f: Fill :: f in executions <==> exists r <- rows :: r.fill == f)
            && forall i, j | 0 <= i < j < |rows| ::
                 var a, b := rows[i].fill, rows[j].fill;
                 && a.time <= b.time
                 && (a.time == b.time ==> a.sequenceNo <= b.sequenceNo)
                 && (a.time == b.time && a.sequenceNo == b.sequenceNo ==> !TextOrder.Before(b.orderId, a.orderId))
                 && (a.time == b.time && a.sequenceNo == b.sequenceNo && a.orderId == b.orderId ==>
                       a.leaves >= b.leaves && (a.leaves == b.leaves ==> TextOrder.Before(a.execId, b.execId)))
  {
    hide Walk, Sort, KeyBefore, SameKey, TextOrder.Before;
    var rows, s := Reconciled(executions, positions), Sort(executions, Itself);
    SortPermutes(executions, Itself);
    assert |s| == |multiset(s)| && |executions| == |multiset(executions)|;
    WalkSorted(executions, positions);
    forall i, j | 0 <= i < j < |rows| ensures KeyBefore(rows[i].fill, rows[j].fill) {
      assert KeyBefore(FillOf(rows[i]), FillOf(rows[j]));
    }
    forall i, j | 0 <= i < j < |rows| {
      KeyOrder(rows[i].fill, rows[j].fill);
    }
    forall f: Fill ensures f in executions <==> exists r <- rows :: r.fill == f {
      assert f in executions <==> f in multiset(s);
      if f in s {
        var i :| 0 <= i < |s| && s[i] == f;
        assert rows[i] in rows && rows[i].fill == f;
      }
    }
  }

  lemma WalkSorted(executions: seq<Fill>, positions: map<string, real>)
    requires Distinct(executions, Itself)
    ensures Sorted(Reconciled(executions, positions), FillOf)
  {
    SortSorts(executions, Itself);
    hide KeyBefore, Sort, Walk;
  }

  /** The symbols of some fills, each once, and the fills of each. */
  predicate Grouping(executions: seq<Fill>, symbols: seq<string>, grouped: map<string, seq<Fill>>) {
    && (forall k | 0 <= k < |executions| :: executions[k].symbol in grouped)
    && (forall x <- grouped :: x in symbols && grouped[x] == Of(executions, x, Itself))
    && (forall x <- symbols :: x in grouped)
    && (forall j, k | 0 <= j < k < |symbols| :: symbols[j] != symbols[k])
  }

  lemma GroupingKnown(before: seq<Fill>, row: Fill, symbols: seq<string>, grouped: map<string, seq<Fill>>)
    requires Grouping(before, symbols, grouped) && row.symbol in grouped
    ensures Grouping(before + [row], symbols, grouped[row.symbol := grouped[row.symbol] + [row]])
  {
    hide Of;
    var grouped' := grouped[row.symbol := grouped[row.symbol] + [row]];
    forall x | x in grouped' ensures x in symbols && grouped'[x] == Of(before + [row], x, Itself) {
      OfAppend(before, row, x, Itself);
    }
  }

  lemma GroupingNew(before: seq<Fill>, row: Fill, symbols: seq<string>, grouped: map<string, seq<Fill>>)
    requires Grouping(before, symbols, grouped) && row.symbol !in grouped
    ensures Grouping(before + [row], symbols + [row.symbol], grouped[row.symbol := [row]])
  {
    hide Of;
    NoneOf(before, row.symbol);
    var grouped' := grouped[row.symbol := [row]];
    forall x | x in grouped' ensures x in symbols + [row.symbol] && grouped'[x] == Of(before + [row], x, Itself) {
      OfAppend(before, row, x, Itself);
    }
  }

  /** The fills of each symbol, in input order, and the symbols in order of their first fill. */
  method Group(executions: seq<Fill>) returns (symbols: seq<string>, grouped: map<string, seq<Fill>>)
    ensures Grouping(executions, symbols, grouped)
  {
    symbols, grouped := [], map[];
    for i := 0 to |executions|
      invariant Grouping(executions[..i], symbols, grouped)
    {
      hide Grouping;
      var row := executions[i];
      assert executions[..i + 1] == executions[..i] + [row];
      if row.symbol in grouped {
        GroupingKnown(executions[..i], row, symbols, grouped);
        grouped := grouped[row.symbol := grouped[row.symbol] + [row]];
      } else {
        GroupingNew(executions[..i], row, symbols, grouped);
        symbols := symbols + [row.symbol];
        grouped := grouped[row.symbol := [row]];
      }
    }
    assert executions[..|executions|] == executions;
  }

  lemma {:induction false} NoneOf(s: seq<Fill>, symbol: string)
    requires forall i | 0 <= i < |s| :: s[i].symbol != symbol
    ensures Of(s, symbol, Itself) == []
  {
    if s != [] {
      NoneOf(s[..|s| - 1], symbol);
    }
  }

  /** reconcile_executions: group by symbol, sort and walk each group, sort the rows of all groups. */
  method Reconcile(executions: seq<Fill>, positions: map<string, real>) returns (rows: seq<Row>)
    requires Distinct(executions, Itself)
    ensures rows == Reconciled(executions, positions)
  {
    hide KeyBefore, SameKey, RowBefore, Walk, WalkOne, Sort, Of, Reconciled;
    var symbols, grouped := Group(executions);
    ghost var walked := Reconciled(executions, positions);
    rows := [];
    for k := 0 to |symbols|
      invariant forall r: Row :: multiset(rows)[r] == if r.fill.symbol in symbols[..k] then multiset(walked)[r] else 0
    {
      var x := symbols[k];
      var group := WalkGroup(Sort(grouped[x], Itself), Get(positions, x));
      GroupOfWalk(executions, positions, x, group);
      rows := rows + group;
    }
    WalkedSymbols(executions, positions);
    AllSymbols(rows, walked, symbols);
    rows := SortedRows(rows, executions, positions);
  }

  lemma AllSymbols(rows: seq<Row>, walked: seq<Row>, symbols: seq<string>)
    requires forall r: Row :: multiset(rows)[r] == if r.fill.symbol in symbols[..|symbols|] then multiset(walked)[r] else 0
    requires forall r <- walked :: r.fill.symbol in symbols
    ensures multiset(rows) == multiset(walked)
  {
    assert symbols[..|symbols|] == symbols;
    forall r: Row ensures multiset(rows)[r] == multiset(walked)[r] {
      if r.fill.symbol !in symbols { assert r !in walked; }
    }
  }

  lemma GroupOfWalk(executions: seq<Fill>, positions: map<string, real>, x: string, group: seq<Row>)
    requires Distinct(executions, Itself)
    requires group == WalkOne(Sort(Of(executions, x, Itself), Itself), Get(positions, x))
    ensures forall r: Row :: multiset(group)[r] == if r.fill.symbol == x then multiset(Reconciled(executions, positions))[r] else 0
  {
    OfSort(executions, x, Itself);
    WalkOfSymbol(Sort(executions, Itself), positions, x);
    forall r: Row ensures multiset(group)[r] == if r.fill.symbol == x then multiset(Reconciled(executions, positions))[r] else 0 {
      OfCount(Reconciled(executions, positions), x, FillOf, r);
    }
    hide KeyBefore, SameKey, Walk, WalkOne, Sort, Of;
  }

  lemma WalkedSymbols(executions: seq<Fill>, positions: map<string, real>)
    ensures forall r <- Reconciled(executions, positions) :: r.fill in executions
  {
    var s := Sort(executions, Itself);
    SortPermutes(executions, Itself);
    forall i | 0 <= i < |s| ensures s[i] in executions { assert s[i] in multiset(s); }
    hide Sort, Walk;
  }

  /** The final sort of the rows. */
  method SortedRows(rows: seq<Row>, executions: seq<Fill>, positions: map<string, real>) returns (sorted: seq<Row>)
    requires Distinct(executions, Itself) && multiset(rows) == multiset(Reconciled(executions, positions))
    ensures sorted == Reconciled(executions, positions)
  {
    hide *;
    sorted := Sort(rows, FillOf);
    SortPermutes(rows, FillOf);
    WalkSorted(executions, positions);
    DistinctRows(rows, Reconciled(executions, positions));
    SortSorts(rows, FillOf);
    SortedUnique(sorted, Reconciled(executions, positions), FillOf);
  }

  lemma {:induction false} SortedOnce<T>(s: seq<T>, key: T -> Fill, x: T)
    requires Sorted(s, key)
    ensures multiset(s)[x] <= 1
  {
    hide KeyBefore;
    if s != [] {
      var n := |s| - 1;
      SortedOnce(s[..n], key, x);
      assert s == s[..n] + [s[n]];
      if x == s[n] && x in s[..n] {
        KeyIrreflexive(key(x));
      }
    }
  }

  lemma SameKeyUnordered(a: Fill, b: Fill)
    requires KeyBefore(a, b)
    ensures !SameKey(a, b)
  {
    TextOrder.Irreflexive(a.orderId);
    TextOrder.Irreflexive(a.execId);
  }

  lemma TwoPlaces(rows: seq<Row>, sorted: seq<Row>, i: nat, j: nat)
    requires Sorted(sorted, FillOf) && multiset(rows) == multiset(sorted) && i < j < |rows|
    ensures !SameKey(rows[i].fill, rows[j].fill)
  {
    hide KeyBefore, SameKey;
    assert rows[i] in multiset(sorted) && rows[j] in multiset(sorted);
    var p :| 0 <= p < |sorted| && sorted[p] == rows[i];
    var q :| 0 <= q < |sorted| && sorted[q] == rows[j];
    if p < q {
      SameKeyUnordered(rows[i].fill, rows[j].fill);
    } else if q < p {
      SameKeyUnordered(rows[j].fill, rows[i].fill);
      if SameKey(rows[i].fill, rows[j].fill) { SameKeySymmetric(rows[i].fill, rows[j].fill); }
    } else {
      CountTwo(rows, i, j);
      SortedOnce(sorted, FillOf, rows[i]);
    }
  }

  lemma CountTwo(rows: seq<Row>, i: nat, j: nat)
    requires i < j < |rows| && rows[i] == rows[j]
    ensures multiset(rows)[rows[i]] >= 2
  {
    assert rows == rows[..j] + [rows[j]] + rows[j + 1..] && rows[i] in rows[..j];
  }

  lemma SameKeySymmetric(a: Fill, b: Fill)
    requires SameKey(a, b)
    ensures SameKey(b, a)
  {
  }

  /** A rearrangement of strictly sorted rows has no two rows of one key. */
  lemma DistinctRows(rows: seq<Row>, sorted: seq<Row>)
    requires Sorted(sorted, FillOf) && multiset(rows) == multiset(sorted)
    ensures Distinct(rows, FillOf)
  {
    hide KeyBefore, SameKey;
    forall i, j | 0 <= i < j < |rows| ensures !SameKey(rows[i].fill, rows[j].fill) {
      TwoPlaces(rows, sorted, i, j);
    }
  }
}

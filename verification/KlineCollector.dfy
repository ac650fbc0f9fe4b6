/** Historical candles: the requested range cut to closed candles, backward pagination over the exchange, and the
coverage check of the stored range.  A candle is represented by its open time. */
module KlineCollector {
  import opened Arithmetic
  import opened Common

  const KLINE_PAGE_LIMIT: nat := 1000
  const MAX_REPLAY_CANDLES := 200000
  const CACHE_READ_CHUNK: nat := 10000
  const DEFAULT_MAX_PAGES: nat := 500

  datatype Request = Request(interval: int, start: int, end: int, lastClosed: int, expected: int)

  datatype CollectorError =
    | EndBeforeStart | NoClosedCandle | TooManyCandles | Misaligned | PageLimit | NoProgress

  // ---------------------------------------------------------------- the requested range

  /** Align the range to candle boundaries and to the last closed candle. */
  function NormalizeRequest(interval: int, requestedStart: int, requestedEnd: int, now: int): Result<Request, CollectorError>
    requires interval > 0
  {
    if requestedEnd < requestedStart then Err(EndBeforeStart)
    else
      var lastClosed := now / interval * interval - interval;
      var start := (requestedStart + interval - 1) / interval * interval;
      var requested := requestedEnd / interval * interval;
      var end := if requested <= lastClosed then requested else lastClosed;
      if end < start then Err(NoClosedCandle)
      else
        var expected := (end - start) / interval + 1;
        if expected > MAX_REPLAY_CANDLES then Err(TooManyCandles)
        else Ok(Request(interval, start, end, lastClosed, expected))
  }

  lemma FloorMultiple(x: int, t: int, k: int)
    requires k > 0 && t % k == 0
    ensures t <= x <==> t <= x / k * k
    ensures x / k * k % k == 0
  {
    DivUnique(x / k * k, k, x / k, 0);
    if t <= x {
      DivMonotone(t, x, k);
      ScaleMonotone(t / k, x / k, k);
    }
  }

  /** The accepted range holds exactly the aligned open times inside the requested one whose candle is closed. */
  lemma RangeIsClosedCandles(interval: int, requestedStart: int, requestedEnd: int, now: int, t: int)
    requires interval > 0 && NormalizeRequest(interval, requestedStart, requestedEnd, now).Ok? && t % interval == 0
    ensures var r := NormalizeRequest(interval, requestedStart, requestedEnd, now).value;
            && (r.start <= t <= r.end <==> requestedStart <= t <= requestedEnd && t + interval <= now)
            && r.start % interval == 0 && r.end % interval == 0 && r.start <= r.end <= r.lastClosed
  {
    CeilMultiple(requestedStart, t, interval);
    FloorMultiple(requestedEnd, t, interval);
    ClosedMultiple(now, t, interval);
  }

  /** The recorded last closed candle is the last on the grid that is closed, and the expected candles are counted from
  the start to the end, both included. */
  lemma NormalizedCounts(interval: int, requestedStart: int, requestedEnd: int, now: int)
    requires interval > 0 && NormalizeRequest(interval, requestedStart, requestedEnd, now).Ok?
    ensures var r := NormalizeRequest(interval, requestedStart, requestedEnd, now).value;
            && r.interval == interval && 1 <= r.expected <= 200000
            && r.lastClosed % interval == 0 && r.lastClosed + interval <= now < r.lastClosed + interval + interval
            && r.end == Nth(r.start, r.expected - 1, interval)
  {
    var r := NormalizeRequest(interval, requestedStart, requestedEnd, now).value;
    NormalizedOnGrid(interval, requestedStart, requestedEnd, now);
    NormalizedShape(interval, requestedStart, requestedEnd, now);
    ClosedMultiple(now, 0, interval);
    assert now == now / interval * interval + now % interval;
    hide Nth;
  }

  /** A range is refused as ending before its start exactly if it does, as without a closed candle exactly if no closed
  candle of the grid lies in it, and as too long exactly if more than two hundred thousand do. */
  lemma RefusedRanges(interval: int, requestedStart: int, requestedEnd: int, now: int)
    requires interval > 0
    ensures var r := NormalizeRequest(interval, requestedStart, requestedEnd, now);
            && (r == Err(EndBeforeStart) <==> requestedEnd < requestedStart)
            && (r == Err(NoClosedCandle) <==>
                  requestedStart <= requestedEnd
                  && forall t | t % interval == 0 :: !(requestedStart <= t <= requestedEnd && t + interval <= now))
            && (r.Err? ==> r.error in {EndBeforeStart, NoClosedCandle, TooManyCandles})
  {
    var start, end := CeilTo(requestedStart, interval), LastIn(requestedEnd, now, interval);
    NormalizeIs(interval, requestedStart, requestedEnd, now);
    hide NormalizeRequest;
    forall t | t % interval == 0
      ensures requestedStart <= t <= requestedEnd && t + interval <= now <==> start <= t <= end
    {
      CeilMultiple(requestedStart, t, interval);
      FloorMultiple(requestedEnd, t, interval);
      ClosedMultiple(now, t, interval);
    }
    CeilMultiple(requestedStart, 0, interval);
    hide CeilTo, LastIn;
  }

  /** More than two hundred thousand closed candles of the grid lie in the range. */
  ghost predicate TooLong(interval: int, requestedStart: int, requestedEnd: int, now: int) {
    exists t :: OnGridFrom(t, interval) && requestedStart <= t && t + 200000 * interval <= requestedEnd && t + 200001 * interval <= now
  }

  predicate OnGridFrom(t: int, interval: int) {
    interval > 0 && t % interval == 0
  }

  lemma RefusedTooLong(interval: int, requestedStart: int, requestedEnd: int, now: int)
    requires interval > 0
    ensures NormalizeRequest(interval, requestedStart, requestedEnd, now) == Err(TooManyCandles) <==>
              TooLong(interval, requestedStart, requestedEnd, now)
  {
    var start, end := CeilTo(requestedStart, interval), LastIn(requestedEnd, now, interval);
    NormalizeIs(interval, requestedStart, requestedEnd, now);
    hide NormalizeRequest;
    forall t | OnGridFrom(t, interval)
      ensures requestedStart <= t && t + 200000 * interval <= requestedEnd && t + 200001 * interval <= now
              <==> start <= t && t + 200000 * interval <= end
    {
      GridStep(t, 200000, interval);
      CeilMultiple(requestedStart, t, interval);
      FloorMultiple(requestedEnd, t + 200000 * interval, interval);
      ClosedMultiple(now, t + 200000 * interval, interval);
    }
    assert OnGridFrom(start, interval);
    assert TooLong(interval, requestedStart, requestedEnd, now) <==> start + 200000 * interval <= end;
    hide CeilTo, LastIn, TooLong;
    QuotientAtLeast(end - start, 200000, interval);
    if requestedEnd < requestedStart {
      StartNotBehind(requestedStart, requestedEnd, now, interval);
    }
  }

  lemma QuotientAtLeast(x: int, n: int, k: int)
    requires k > 0
    ensures n <= x / k <==> n * k <= x
  {
    if n * k <= x {
      ScaleBack(x, n, k);
    }
    if n <= x / k {
      ScaleMonotone(n, x / k, k);
    }
    assert x == x / k * k + x % k;
  }

  lemma StartNotBehind(requestedStart: int, requestedEnd: int, now: int, k: int)
    requires k > 0 && requestedEnd < requestedStart
    ensures LastIn(requestedEnd, now, k) < CeilTo(requestedStart, k)
  {
    assert requestedEnd == requestedEnd / k * k + requestedEnd % k;
    assert requestedStart + k - 1 == (requestedStart + k - 1) / k * k + (requestedStart + k - 1) % k;
  }

  lemma GridStep(t: int, n: int, k: int)
    requires k > 0 && t % k == 0
    ensures (t + n * k) % k == 0
  {
    DivShift(t, -n, k);
    assert t - (-n) * k == t + n * k;
    MulDistrib(t / k, n, k);
    DivUnique(t + n * k, k, t / k + n, 0);
  }

  function CeilTo(x: int, k: int): int
    requires k > 0
  {
    (x + k - 1) / k * k
  }

  function LastIn(requestedEnd: int, now: int, k: int): int
    requires k > 0
  {
    var requested, closed := requestedEnd / k * k, now / k * k - k;
    if requested <= closed then requested else closed
  }

  lemma NormalizeIs(interval: int, requestedStart: int, requestedEnd: int, now: int)
    requires interval > 0
    ensures var start, end := CeilTo(requestedStart, interval), LastIn(requestedEnd, now, interval);
            var r := NormalizeRequest(interval, requestedStart, requestedEnd, now);
            && CeilTo(requestedStart, interval) % interval == 0
            && if requestedEnd < requestedStart then r == Err(EndBeforeStart)
               else if end < start then r == Err(NoClosedCandle)
               else if (end - start) / interval + 1 > 200000 then r == Err(TooManyCandles)
               else r.Ok?
  {
    CeilMultiple(requestedStart, 0, interval);
  }

  lemma ShiftedMultiple(t: int, k: int)
    requires k > 0 && t % k == 0
    ensures (t - k) % k == 0 && (t + k) % k == 0
  {
    DivUnique(t - k, k, t / k - 1, 0);
    DivUnique(t + k, k, t / k + 1, 0);
  }

  lemma CeilMultiple(x: int, t: int, k: int)
    requires k > 0 && t % k == 0
    ensures x <= t <==> (x + k - 1) / k * k <= t
    ensures (x + k - 1) / k * k % k == 0
  {
    var n := x + k - 1;
    var c := n / k * k;
    assert n == c + n % k;
    DivUnique(c, k, n / k, 0);
    if x <= t {
      NextMultiple(c, t, k);
    }
  }

  lemma NextMultiple(a: int, b: int, k: int)
    requires k > 0 && a % k == 0 && b % k == 0 && a < b + k
    ensures a <= b
  {
    var p, q := a / k, b / k;
    assert a == p * k && b == q * k;
    if p > q {
      MulAtLeast(p - q, k);
      MulDistrib(q, p - q, k);
    } else {
      ScaleMonotone(p, q, k);
    }
  }

  lemma ClosedMultiple(now: int, t: int, k: int)
    requires k > 0 && t % k == 0
    ensures t <= now / k * k - k <==> t + k <= now
    ensures (now / k * k - k) % k == 0
  {
    ShiftedMultiple(t, k);
    FloorMultiple(now, t + k, k);
    ShiftedMultiple(now / k * k, k);
  }

  // ---------------------------------------------------------------- open times in order

  predicate Ascending(s: seq<int>) {
    forall i, j | 0 <= i < j < |s| :: s[i] < s[j]
  }

  predicate Descending(s: seq<int>) {
    forall i, j | 0 <= i < j < |s| :: s[i] > s[j]
  }

  predicate Aligned(s: seq<int>, interval: int)
    requires interval > 0
  {
    forall i | 0 <= i < |s| :: s[i] % interval == 0
  }

  function Between(s: seq<int>, lo: int, hi: int): (r: seq<int>)
    ensures forall t :: t in r <==> t in s && lo <= t <= hi
  {
    if s == [] then []
    else Between(s[..|s| - 1], lo, hi) + if lo <= s[|s| - 1] <= hi then [s[|s| - 1]] else []
  }

  lemma {:induction false} BetweenAscending(s: seq<int>, lo: int, hi: int)
    requires Ascending(s)
    ensures Ascending(Between(s, lo, hi))
  {
    if s != [] {
      var front := s[..|s| - 1];
      BetweenAscending(front, lo, hi);
      forall t | t in Between(front, lo, hi) ensures t < s[|s| - 1] { assert t in front; }
      var r := Between(front, lo, hi);
      forall i | 0 <= i < |r| ensures r[i] < s[|s| - 1] { assert r[i] in r; }
    }
  }

  lemma HasFirst(s: seq<int>)
    requires s != []
    ensures s[0] in s
  {
  }

  /** An ascending sequence is determined by what it contains. */
  lemma {:induction false} AscendingUnique(a: seq<int>, b: seq<int>)
    requires Ascending(a) && Ascending(b) && forall t :: t in a <==> t in b
    ensures a == b
    decreases |a|
  {
    if a == [] {
      if b != [] { HasFirst(b); }
    } else {
      assert a[0] in b && b != [];
      assert b[0] in a;
      assert a[0] == b[0];
      forall t ensures t in a[1..] <==> t in b[1..] {
        assert t in a <==> t == a[0] || t in a[1..];
        assert t in b <==> t == b[0] || t in b[1..];
      }
      AscendingUnique(a[1..], b[1..]);
      assert a == [a[0]] + a[1..] && b == [b[0]] + b[1..];
    }
  }

  /** Aligned open times in a range are no more than its grid points. */
  lemma {:induction false} AlignedCount(s: seq<int>, lo: int, hi: int, interval: int)
    requires interval > 0 && lo % interval == 0 && Ascending(s) && Aligned(s, interval) && lo <= hi
    requires forall i | 0 <= i < |s| :: lo <= s[i] <= hi
    ensures |s| <= (hi - lo) / interval + 1
  {
    if s != [] {
      AlignedSpread(s, lo, interval, |s| - 1);
      ScaleBack(hi - lo, |s| - 1, interval);
    } else {
      DivMonotone(0, hi - lo, interval);
    }
  }

  lemma ScaleBack(x: int, n: int, k: int)
    requires k > 0 && n * k <= x
    ensures n <= x / k
  {
    DivUnique(n * k, k, n, 0);
    DivMonotone(n * k, x, k);
  }

  lemma {:induction false} AlignedSpread(s: seq<int>, lo: int, interval: int, i: nat)
    requires interval > 0 && lo % interval == 0 && Ascending(s) && Aligned(s, interval) && i < |s|
    requires forall j | 0 <= j < |s| :: lo <= s[j]
    ensures s[i] - lo >= i * interval
  {
    if i > 0 {
      AlignedSpread(s, lo, interval, i - 1);
      AlignedApart(s[i - 1], s[i], interval);
      MulDistrib(i - 1, 1, interval);
    }
  }

  lemma AlignedApart(a: int, b: int, k: int)
    requires k > 0 && a % k == 0 && b % k == 0 && a < b
    ensures a + k <= b
  {
    ShiftedMultiple(a, k);
    if b < a + k {
      NextMultiple(b, a, k);
    }
  }

  // ---------------------------------------------------------------- one page

  function Reversed(s: seq<int>): (r: seq<int>)
    ensures |r| == |s|
  {
    seq(|s|, i requires 0 <= i < |s| => s[|s| - 1 - i])
  }

  /** Well-formed rows of these open times. */
  function Rows(times: seq<int>): (r: seq<RawRow>)
    ensures |r| == |times| && forall i | 0 <= i < |r| :: r[i] == Raw(times[i], true)
    ensures forall t :: Raw(t, true) in r <==> t in times
  {
    seq(|times|, i requires 0 <= i < |times| => Raw(times[i], true))
  }

  function Newest(s: seq<int>, limit: nat): seq<int> {
    if |s| <= limit then s else s[|s| - limit..]
  }

  /** What the exchange answers: its newest candles of the asked range, up to the limit, newest first. */
  function Page(available: seq<int>, lo: int, hi: int, limit: nat): seq<int> {
    Reversed(Newest(Between(available, lo, hi), limit))
  }

  function InsertTime(rows: seq<int>, t: int): seq<int> {
    if rows == [] then [t]
    else if t < rows[0] then [t] + rows
    else if t == rows[0] then rows
    else [rows[0]] + InsertTime(rows[1..], t)
  }

  lemma {:induction false} InsertTimeSorts(rows: seq<int>, t: int)
    requires Ascending(rows)
    ensures Ascending(InsertTime(rows, t)) && forall x :: x in InsertTime(rows, t) <==> x == t || x in rows
  {
    if rows != [] && t > rows[0] {
      InsertTimeSorts(rows[1..], t);
      var rest := InsertTime(rows[1..], t);
      forall i | 0 <= i < |rest| ensures rows[0] < rest[i] { assert rest[i] in rest; }
    }
  }

  predicate Wanted(t: int, r: Request, end: int) {
    r.start <= t <= end && t <= r.lastClosed
  }

  /** A raw row of a page: too short or without a readable time, or an open time with its prices and volumes. */
  datatype RawRow = Malformed | Raw(time: int, priced: bool)

  predicate Acceptable(row: RawRow, r: Request, end: int)
    requires r.interval > 0
  {
    row.Raw? && (Wanted(row.time, r, end) ==> row.time % r.interval == 0 && row.priced)
  }

  /** parse_kline_page: the wanted open times, once each and in ascending order; refused if and only if a row is
  malformed, or a wanted one is off the grid or without valid prices. */
  method ParsePage(raw: seq<RawRow>, r: Request, end: int) returns (rows: Option<seq<int>>)
    requires r.interval > 0
    ensures rows.Some? <==>
              forall i | 0 <= i < |raw| ::
                && raw[i].Raw?
                && (r.start <= raw[i].time <= end && raw[i].time <= r.lastClosed ==> raw[i].time % r.interval == 0 && raw[i].priced)
    ensures rows.Some? ==>
              && Ascending(rows.value)
              && forall t :: t in rows.value <==> r.start <= t <= end && t <= r.lastClosed && Raw(t, true) in raw
  {
    var found: seq<int> := [];
    for i := 0 to |raw|
      invariant forall k | 0 <= k < i :: Acceptable(raw[k], r, end)
      invariant Ascending(found) && forall t :: t in found <==> Wanted(t, r, end) && Raw(t, true) in raw[..i]
    {
      assert raw[..i + 1] == raw[..i] + [raw[i]];
      if raw[i].Malformed? {
        return None;
      }
      if Wanted(raw[i].time, r, end) {
        if raw[i].time % r.interval != 0 || !raw[i].priced {
          return None;
        }
        InsertTimeSorts(found, raw[i].time);
        found := InsertTime(found, raw[i].time);
      }
    }
    assert raw[..|raw|] == raw;
    rows := Some(found);
  }

  // ---------------------------------------------------------------- pagination

  datatype Stats = Stats(pages: nat, fetched: nat, duplicates: nat)

  /** How many requests it takes to page back through the first n of the wanted candles. */
  function PagesNeeded(wanted: seq<int>, n: nat, start: int, limit: nat): nat
    requires limit > 0 && n <= |wanted|
  {
    if n < limit || wanted[n - limit] <= start then 1 else 1 + PagesNeeded(wanted, n - limit, start, limit)
  }

  lemma {:induction false} PagesBound(wanted: seq<int>, n: nat, start: int, limit: nat)
    requires limit > 0 && n <= |wanted|
    ensures PagesNeeded(wanted, n, start, limit) <= n / limit + 1
  {
    if n < limit || wanted[n - limit] <= start {
      DivMonotone(0, n, limit);
    } else {
      PagesBound(wanted, n - limit, start, limit);
      DivShift(n, 1, limit);
    }
  }

  /** The pages handed on, put back together: each later page is the older one. */
  function Joined(pages: seq<seq<int>>): seq<int> {
    if pages == [] then [] else pages[|pages| - 1] + Joined(pages[..|pages| - 1])
  }

  lemma JoinedAppend(pages: seq<seq<int>>, page: seq<int>)
    ensures Joined(pages + [page]) == page + Joined(pages)
  {
    assert (pages + [page])[..|pages|] == pages;
  }

  /** What the exchange has is in time order and on the grid, and the request is as normalization leaves it. */
  predicate Pageable(available: seq<int>, r: Request) {
    && r.interval > 0 && r.start % r.interval == 0 && r.end % r.interval == 0 && r.start <= r.end <= r.lastClosed
    && Ascending(available) && Aligned(available, r.interval)
  }

  function Wants(available: seq<int>, r: Request): seq<int> {
    Between(available, r.start, r.end)
  }

  lemma WantsFacts(available: seq<int>, r: Request)
    requires Pageable(available, r)
    ensures Ascending(Wants(available, r)) && Aligned(Wants(available, r), r.interval)
    ensures forall i | 0 <= i < |Wants(available, r)| :: r.start <= Wants(available, r)[i] <= r.end
  {
    var w := Wants(available, r);
    BetweenAscending(available, r.start, r.end);
    forall i | 0 <= i < |w| ensures r.start <= w[i] <= r.end && w[i] % r.interval == 0 {
      assert w[i] in w;
      assert w[i] in available;
    }
  }

  /** The wanted candles up to a cursor between two of them. */
  lemma UpToCursor(available: seq<int>, r: Request, cursor: int, n: nat)
    requires Pageable(available, r) && n <= |Wants(available, r)| && cursor <= r.end
    requires forall i | 0 <= i < n :: Wants(available, r)[i] <= cursor
    requires forall i | n <= i < |Wants(available, r)| :: cursor < Wants(available, r)[i]
    ensures Between(available, r.start, cursor) == Wants(available, r)[..n]
  {
    WantsFacts(available, r);
    var w := Wants(available, r);
    BetweenAscending(available, r.start, cursor);
    forall t ensures t in Between(available, r.start, cursor) <==> t in w[..n] {
      if t in w && t <= cursor {
        var i :| 0 <= i < |w| && w[i] == t;
        assert t == w[..n][i];
      }
    }
    AscendingUnique(Between(available, r.start, cursor), w[..n]);
  }

  /** The raw page at a cursor that stands after the first n wanted candles: the last k of them, reversed. */
  lemma PageFacts(available: seq<int>, r: Request, cursor: int, limit: nat, n: nat)
    requires Pageable(available, r) && limit > 0 && cursor <= r.end
    requires n <= |Wants(available, r)| && Between(available, r.start, cursor) == Wants(available, r)[..n]
    ensures var w, raw := Wants(available, r), Page(available, r.start, cursor, limit);
            var k := if n <= limit then n else limit;
            && |raw| == k
            && forall i | 0 <= i < k :: raw[i] == w[n - 1 - i] && raw[i] % r.interval == 0 && Wanted(raw[i], r, cursor)
  {
    WantsFacts(available, r);
    var w := Wants(available, r);
    var k := if n <= limit then n else limit;
    var raw := Page(available, r.start, cursor, limit);
    assert raw == Reversed(w[n - k..n]) by {
      assert Newest(w[..n], limit) == w[n - k..n];
      hide Between, Reversed;
    }
    hide Page, Newest;
    var inside := Between(available, r.start, cursor);
    hide Between, Wants;
    forall i | 0 <= i < k ensures raw[i] == w[n - 1 - i] && Wanted(raw[i], r, cursor) {
      assert inside[n - 1 - i] in inside;
    }
  }

  /** The rows a page yields: the last wanted candles before the cursor, oldest first. */
  method FetchPage(available: seq<int>, r: Request, cursor: int, limit: nat, ghost n: nat) returns (raw: seq<int>, rows: Option<seq<int>>)
    requires Pageable(available, r) && limit > 0 && cursor <= r.end
    requires n <= |Wants(available, r)| && Between(available, r.start, cursor) == Wants(available, r)[..n]
    ensures var k := if n <= limit then n else limit;
            && |raw| == k && rows == Some(Wants(available, r)[n - k..n])
            && (k > 0 ==> raw[k - 1] == Wants(available, r)[n - k])
  {
    raw := Page(available, r.start, cursor, limit);
    ghost var w := Wants(available, r);
    ghost var k := if n <= limit then n else limit;
    PageFacts(available, r, cursor, limit, n);
    WantsFacts(available, r);
    hide Wants, Between, Page, Wanted, Pageable, Aligned;
    assert Pageable(available, r) ==> r.interval > 0 by { PositiveInterval(available, r); }
    rows := ParsePage(Rows(raw), r, cursor);
    SameTimes(w, raw, rows.value, r, cursor, n, k);
  }

  lemma PositiveInterval(available: seq<int>, r: Request)
    ensures Pageable(available, r) ==> r.interval > 0
  {
  }

  lemma SameTimes(w: seq<int>, raw: seq<int>, rows: seq<int>, r: Request, cursor: int, n: nat, k: nat)
    requires k <= n <= |w| && |raw| == k && Ascending(w) && Ascending(rows)
    requires forall i | 0 <= i < k :: raw[i] == w[n - 1 - i] && Wanted(raw[i], r, cursor)
    requires forall t :: t in rows <==> t in raw && Wanted(t, r, cursor)
    ensures rows == w[n - k..n]
  {
    hide Wanted;
    forall t ensures t in rows <==> t in w[n - k..n] {
      if t in w[n - k..n] {
        var i :| 0 <= i < k && w[n - k..n][i] == t;
        assert raw[k - 1 - i] == t;
      }
    }
    AscendingUnique(rows, w[n - k..n]);
  }

  /** Rows not handed on before, and how many were. */
  method DropSeen(rows: seq<int>, seen: set<int>) returns (kept: seq<int>, duplicates: nat, known: set<int>)
    ensures known == seen + (set t | t in rows)
    ensures |kept| + duplicates == |rows| && forall t :: t in kept <==> t in rows && t !in seen
    ensures (forall t <- rows :: t !in seen) && Ascending(rows) ==> kept == rows && duplicates == 0
  {
    kept, duplicates, known := [], 0, seen;
    for i := 0 to |rows|
      invariant known == seen + (set t | t in rows[..i])
      invariant |kept| + duplicates == i && forall t :: t in kept <==> t in rows[..i] && t !in seen
      invariant (forall t <- rows :: t !in seen) && Ascending(rows) ==> kept == rows[..i] && duplicates == 0
    {
      assert rows[..i + 1] == rows[..i] + [rows[i]];
      if rows[i] in known {
        duplicates := duplicates + 1;
      } else {
        known := known + {rows[i]};
        kept := kept + [rows[i]];
      }
    }
    assert rows[..|rows|] == rows;
  }

  /** The loop's progress: the first n wanted candles are still to come, the others were handed on once each. */
  ghost predicate Progress(available: seq<int>, r: Request, limit: nat, cursor: int, n: nat, pages: seq<seq<int>>,
                           seen: set<int>, stats: Stats)
    requires limit > 0
  {
    var w := Wants(available, r);
    && n <= |w| && r.start <= cursor <= r.end
    && Between(available, r.start, cursor) == w[..n]
    && Joined(pages) == w[n..] && (forall t :: t in seen <==> t in w[n..])
    && stats.fetched == |w| - n && stats.duplicates == 0
    && stats.pages + PagesNeeded(w, n, r.start, limit) == PagesNeeded(w, |w|, r.start, limit)
  }

  lemma Begins(available: seq<int>, r: Request, limit: nat)
    requires Pageable(available, r) && limit > 0
    ensures Progress(available, r, limit, r.end, |Wants(available, r)|, [], {}, Stats(0, 0, 0))
  {
    var w := Wants(available, r);
    assert w[..|w|] == w && w[|w|..] == [];
  }

  /** A page holds candles not seen before, and extends what was handed on; if it is the last one nothing is left. */
  lemma PageIsNew(available: seq<int>, r: Request, limit: nat, cursor: int, n: nat, k: nat, pages: seq<seq<int>>,
                  seen: set<int>, stats: Stats)
    requires Pageable(available, r) && limit > 0 && Progress(available, r, limit, cursor, n, pages, seen, stats)
    requires k == (if n <= limit then n else limit) && k > 0
    ensures var w := Wants(available, r);
            && Ascending(w[n - k..n]) && (forall t <- w[n - k..n] :: t !in seen)
            && Joined(pages + [w[n - k..n]]) == w[n - k..]
            && w[n - k] <= cursor
            && (w[n - k] <= r.start || k < limit ==> n == k && PagesNeeded(w, n, r.start, limit) == 1)
  {
    var w := Wants(available, r);
    WantsFacts(available, r);
    PageLast(available, r, limit, cursor, n, k, pages, seen, stats);
    hide Joined, Between, Wants, PagesNeeded, Aligned;
    JoinedAppend(pages, w[n - k..n]);
    assert w[n - k..n] + w[n..] == w[n - k..];
    SeenGrows(w, n, k, seen);
  }

  lemma NextCursor(available: seq<int>, r: Request, limit: nat, n: nat)
    requires Pageable(available, r) && 0 < limit <= n <= |Wants(available, r)| && Wants(available, r)[n - limit] > r.start
    ensures var w := Wants(available, r);
            var next := w[n - limit] - r.interval;
            && r.start <= next < w[n - limit] && next <= r.end
            && Between(available, r.start, next) == w[..n - limit]
  {
    var w := Wants(available, r);
    WantsFacts(available, r);
    hide Between, Wants, Ascending;
    AlignedApart(r.start, w[n - limit], r.interval);
    BeforeOldest(w, n - limit, r.interval);
    UpToCursor(available, r, w[n - limit] - r.interval, n - limit);
  }

  /** Otherwise the cursor strictly moves back to just before the oldest candle of the page. */
  lemma MovesOn(available: seq<int>, r: Request, limit: nat, cursor: int, n: nat, pages: seq<seq<int>>, seen: set<int>,
                stats: Stats)
    requires Pageable(available, r) && 0 < limit <= n
    requires Progress(available, r, limit, cursor, n, pages, seen, stats) && Wants(available, r)[n - limit] > r.start
    ensures var w := Wants(available, r);
            var page, next := w[n - limit..n], w[n - limit] - r.interval;
            && r.start <= next < cursor
            && Progress(available, r, limit, next, n - limit, pages + [page], seen + (set t | t in page),
                        Stats(stats.pages + 1, stats.fetched + limit, 0))
  {
    var w := Wants(available, r);
    WantsFacts(available, r);
    hide Joined, Between, Wants, Ascending, Aligned, PagesNeeded, Pageable;
    PageIsNew(available, r, limit, cursor, n, limit, pages, seen, stats);
    SeenGrows(w, n, limit, seen);
    NextCursor(available, r, limit, n);
    NeedsMore(w, n, r.start, limit);
  }

  lemma NeedsMore(w: seq<int>, n: nat, start: int, limit: nat)
    requires 0 < limit <= n <= |w| && w[n - limit] > start
    ensures PagesNeeded(w, n, start, limit) == 1 + PagesNeeded(w, n - limit, start, limit)
  {
  }

  /** The oldest candle of a page is not after the cursor; a page that reaches the start, or is not full, is the
  last one. */
  lemma PageLast(available: seq<int>, r: Request, limit: nat, cursor: int, n: nat, k: nat, pages: seq<seq<int>>,
                 seen: set<int>, stats: Stats)
    requires Pageable(available, r) && limit > 0 && Progress(available, r, limit, cursor, n, pages, seen, stats)
    requires k == (if n <= limit then n else limit) && k > 0
    ensures var w := Wants(available, r);
            && w[n - k] <= cursor
            && (w[n - k] <= r.start || k < limit ==> n == k && PagesNeeded(w, n, r.start, limit) == 1)
  {
    var w := Wants(available, r);
    WantsFacts(available, r);
    hide Joined, Wants;
    assert w[..n][n - k] in Between(available, r.start, cursor);
    hide Between;
    if w[n - k] <= r.start {
      AtStartIsFirst(w, r.start, n - k);
    }
  }

  lemma AtStartIsFirst(w: seq<int>, start: int, i: nat)
    requires Ascending(w) && i < |w| && w[i] <= start && forall j | 0 <= j < |w| :: start <= w[j]
    ensures i == 0
  {
    if i > 0 {
      FirstBelow(w, i);
    }
  }

  lemma FirstBelow(w: seq<int>, i: int)
    requires Ascending(w) && 0 < i < |w|
    ensures w[0] < w[i]
  {
  }

  lemma SeenGrows(w: seq<int>, n: nat, k: nat, seen: set<int>)
    requires k <= n <= |w| && Ascending(w) && forall t :: t in seen <==> t in w[n..]
    ensures var page := w[n - k..n];
            && Ascending(page) && (forall t <- page :: t !in seen)
            && forall t :: t in seen || t in page <==> t in w[n - k..]
  {
    assert w[n - k..] == w[n - k..n] + w[n..];
  }

  /** On the grid, what comes before the oldest candle of a page is at least an interval before it. */
  lemma BeforeOldest(w: seq<int>, m: nat, interval: int)
    requires interval > 0 && Ascending(w) && Aligned(w, interval) && m < |w|
    ensures forall i | 0 <= i < m :: w[i] <= w[m] - interval
    ensures forall i | m <= i < |w| :: w[m] - interval < w[i]
  {
    forall i | 0 <= i < m ensures w[i] <= w[m] - interval { AlignedApart(w[i], w[m], interval); }
  }

  /** One turn of the loop: no next cursor once the last page is handed on. */
  method TakePage(available: seq<int>, r: Request, limit: nat, cursor: int, ghost n: nat, pages: seq<seq<int>>, seen: set<int>,
                  stats: Stats)
    returns (next: Result<Option<int>, CollectorError>, handed: seq<seq<int>>, known: set<int>, counted: Stats, ghost left: nat)
    requires Pageable(available, r) && limit > 0 && Progress(available, r, limit, cursor, n, pages, seen, stats)
    ensures next.Ok? && counted.pages == stats.pages + 1
    ensures var w := Wants(available, r);
            if next.value.None? then Joined(handed) == w && counted == Stats(PagesNeeded(w, |w|, r.start, limit), |w|, 0)
            else r.start <= next.value.value < cursor && Progress(available, r, limit, next.value.value, left, handed, known, counted)
  {
    hide Pageable, Wants, Between, Joined, Ascending, PagesNeeded, Progress;
    ProgressFacts(available, r, limit, cursor, n, pages, seen, stats);
    ghost var w := Wants(available, r);
    NeedsOne(w, n, r.start, limit);
    handed, known, counted, left := pages, seen, stats.(pages := stats.pages + 1), n;
    var raw, rows := FetchPage(available, r, cursor, limit, n);
    if raw == [] {
      return Ok(None), handed, known, counted, left;
    }
    PageIsNew(available, r, limit, cursor, n, |raw|, pages, seen, stats);
    var kept, duplicates, all := DropSeen(rows.value, seen);
    handed, known, left := pages + [kept], all, n - |raw|;
    counted := Stats(stats.pages + 1, stats.fetched + |kept|, stats.duplicates + duplicates);
    var oldest := raw[|raw| - 1];
    if oldest <= r.start || |raw| < limit {
      assert w[0..] == w;
      return Ok(None), handed, known, counted, left;
    }
    MovesOn(available, r, limit, cursor, n, pages, seen, stats);
    if oldest - r.interval >= cursor {
      return Err(NoProgress), handed, known, counted, left;
    }
    next := Ok(Some(oldest - r.interval));
  }

  /** _run_pages against an exchange that answers as assumed: every wanted candle is handed on exactly once, the
  cursor strictly moves back, and the only failure is the page limit, when more pages are needed than allowed. */
  method RunPages(available: seq<int>, r: Request, limit: nat, maxPages: nat)
    returns (result: Result<Stats, CollectorError>, pages: seq<seq<int>>, ghost cursors: seq<int>)
    requires Pageable(available, r) && limit > 0
    ensures Descending(cursors) && (result.Ok? ==> |cursors| == result.value.pages && cursors != [] && cursors[0] == r.end)
    ensures var w := Wants(available, r);
            var needed := PagesNeeded(w, |w|, r.start, limit);
            && (result.Err? <==> needed > maxPages)
            && (result.Err? ==> result.error == PageLimit)
            && (result.Ok? ==> Joined(pages) == w && result.value == Stats(needed, |w|, 0))
  {
    var cursor, seen, stats := r.end, {}, Stats(0, 0, 0);
    ghost var w := Wants(available, r);
    ghost var n: nat := |w|;
    pages, cursors := [], [];
    Begins(available, r, limit);
    hide Wants, Between, Joined, PagesNeeded, Progress;
    while cursor >= r.start
      invariant Progress(available, r, limit, cursor, n, pages, seen, stats) && r.start <= cursor
      invariant Descending(cursors) && |cursors| == stats.pages
      invariant if cursors == [] then cursor == r.end else cursors[0] == r.end && cursor < cursors[|cursors| - 1]
      decreases cursor - r.start
    {
      ProgressFacts(available, r, limit, cursor, n, pages, seen, stats);
      NeedsOne(w, n, r.start, limit);
      if stats.pages >= maxPages {
        return Err(PageLimit), pages, cursors;
      }
      cursors := cursors + [cursor];
      var next, handed, known, counted, left := TakePage(available, r, limit, cursor, n, pages, seen, stats);
      if next.Err? {
        return Err(NoProgress), handed, cursors;
      }
      pages, seen, stats, n := handed, known, counted, left;
      if next.value.None? {
        return Ok(stats), pages, cursors;
      }
      cursor := next.value.value;
    }
    result := Ok(stats);
  }

  lemma ProgressFacts(available: seq<int>, r: Request, limit: nat, cursor: int, n: nat, pages: seq<seq<int>>,
                      seen: set<int>, stats: Stats)
    requires limit > 0 && Progress(available, r, limit, cursor, n, pages, seen, stats)
    ensures var w := Wants(available, r);
            && n <= |w| && r.start <= cursor <= r.end
            && Between(available, r.start, cursor) == w[..n] && Joined(pages) == w[n..]
            && (n == 0 ==> Joined(pages) == w)
            && stats.fetched == |w| - n && stats.duplicates == 0
            && stats.pages + PagesNeeded(w, n, r.start, limit) == PagesNeeded(w, |w|, r.start, limit)
  {
    hide Wants, Between, Joined, PagesNeeded;
    assert Wants(available, r)[0..] == Wants(available, r);
  }

  lemma NeedsOne(w: seq<int>, n: nat, start: int, limit: nat)
    requires 0 < limit && n <= |w|
    ensures PagesNeeded(w, n, start, limit) >= 1 && (n == 0 ==> PagesNeeded(w, n, start, limit) == 1)
  {
  }

  /** With the default limits no accepted request ever runs into the page limit. */
  lemma DefaultsNeverHitTheLimit(available: seq<int>, r: Request)
    requires Pageable(available, r) && (r.end - r.start) / r.interval + 1 <= 200000
    ensures var w := Wants(available, r);
            |w| <= 200000 && PagesNeeded(w, |w|, r.start, KLINE_PAGE_LIMIT) <= 201 <= DEFAULT_MAX_PAGES
    ensures KLINE_PAGE_LIMIT == 1000 && DEFAULT_MAX_PAGES == 500 && MAX_REPLAY_CANDLES == 200000
  {
    var w := Wants(available, r);
    WantsFacts(available, r);
    AlignedCount(w, r.start, r.end, r.interval);
    hide Wants;
    PagesBound(w, |w|, r.start, KLINE_PAGE_LIMIT);
    DivMonotone(|w|, MAX_REPLAY_CANDLES, KLINE_PAGE_LIMIT);
  }

  // ---------------------------------------------------------------- stored coverage

  /** The n grid points from lo on. */
  function GridPoints(lo: int, n: nat, interval: int): set<int> {
    if n == 0 then {} else GridPoints(lo, n - 1, interval) + {Nth(lo, n - 1, interval)}
  }

  lemma {:induction false} GridPointsFacts(lo: int, n: nat, interval: int)
    requires interval > 0
    ensures |GridPoints(lo, n, interval)| == n
    ensures forall t <- GridPoints(lo, n, interval) :: lo <= t <= Nth(lo, n - 1, interval)
    ensures forall i | 0 <= i < n :: Nth(lo, i, interval) in GridPoints(lo, n, interval)
  {
    hide Nth;
    if n > 0 {
      GridPointsFacts(lo, n - 1, interval);
      NthOrder(lo, n - 2, n - 1, interval);
      NthOrder(lo, 0, n - 1, interval);
      NthNext(lo, 0, interval);
    }
  }

  lemma GridPointsLast(lo: int, n: nat, interval: int)
    ensures GridPoints(lo, n + 1, interval) == GridPoints(lo, n, interval) + {Nth(lo, n, interval)}
  {
  }

  /** A range of n + m points is two ranges that share none. */
  lemma {:induction false} GridPointsSplit(lo: int, n: nat, m: nat, interval: int)
    requires interval > 0
    ensures GridPoints(lo, n + m, interval) == GridPoints(lo, n, interval) + GridPoints(Nth(lo, n, interval), m, interval)
    ensures GridPoints(lo, n, interval) !! GridPoints(Nth(lo, n, interval), m, interval)
  {
    hide Nth, GridPoints;
    var mid := Nth(lo, n, interval);
    if m == 0 {
      NoPoints(mid, interval);
    } else {
      GridPointsSplit(lo, n, m - 1, interval);
      GridPointsLast(lo, n + m - 1, interval);
      GridPointsLast(mid, m - 1, interval);
      NthOfNth(lo, n, m - 1, interval);
      PointsBelow(lo, n, m - 1, interval);
    }
  }

  lemma NoPoints(lo: int, interval: int)
    ensures GridPoints(lo, 0, interval) == {}
  {
  }

  lemma PointsBelow(lo: int, n: nat, i: nat, interval: int)
    requires interval > 0
    ensures Nth(lo, n + i, interval) !in GridPoints(lo, n, interval)
  {
    hide Nth, GridPoints;
    GridPointsFacts(lo, n, interval);
    NthOrder(lo, n - 1, n + i, interval);
  }

  /** get_replay_candles: the stored open times of the range in order, up to the limit. */
  function ReadStored(stored: seq<int>, lo: int, hi: int, limit: nat): seq<int> {
    var rows := Between(stored, lo, hi);
    if |rows| <= limit then rows else rows[..limit]
  }

  lemma InPrefix(s: seq<int>, n: nat, j: nat)
    requires n <= |s| && j < |s|
    ensures j < n ==> s[j] in s[..n]
  {
    if j < n {
      assert s[..n][j] == s[j];
    }
  }

  /** A read returns the earliest stored open times of the range, as many as the limit allows. */
  lemma ReadIsBounded(stored: seq<int>, lo: int, hi: int, limit: nat)
    requires Ascending(stored)
    ensures var read := ReadStored(stored, lo, hi, limit);
            && |read| <= limit && Ascending(read) && (forall t <- read :: t in stored && lo <= t <= hi)
            && forall t <- stored :: lo <= t <= hi && t !in read ==> |read| == limit && forall u <- read :: u < t
  {
    var rows, read := Between(stored, lo, hi), ReadStored(stored, lo, hi, limit);
    BetweenAscending(stored, lo, hi);
    forall t | t in stored && lo <= t <= hi && t !in read ensures |read| == limit && forall u <- read :: u < t {
      assert t in rows;
      var j :| 0 <= j < |rows| && rows[j] == t;
      assert |rows| > limit && read == rows[..limit];
      InPrefix(rows, limit, j);
    }
    forall t | t in read ensures t in stored && lo <= t <= hi { assert t in rows; }
    hide Between;
  }

  function TimesOf(rows: seq<int>): set<int> {
    set t | t in rows
  }

  /** Reading a chunk of a store that is on the grid never runs into the read limit. */
  lemma ChunkIsRead(stored: seq<int>, cursor: int, m: nat, interval: int)
    requires interval > 0 && cursor % interval == 0 && Ascending(stored) && Aligned(stored, interval) && 0 < m <= CACHE_READ_CHUNK
    ensures var last := Nth(cursor, m - 1, interval);
            var actual, expected := TimesOf(ReadStored(stored, cursor, last, CACHE_READ_CHUNK)), GridPoints(cursor, m, interval);
            && actual * expected == TimesOf(stored) * expected && expected - actual == expected - TimesOf(stored)
  {
    hide Nth;
    var last := Nth(cursor, m - 1, interval);
    var rows := Between(stored, cursor, last);
    NthOrder(cursor, 0, m - 1, interval);
    NthNext(cursor, 0, interval);
    NthDistance(cursor, 0, m - 1, interval);
    BetweenAscending(stored, cursor, last);
    forall i | 0 <= i < |rows| ensures cursor <= rows[i] <= last && rows[i] % interval == 0 {
      assert rows[i] in rows;
      assert rows[i] in stored;
    }
    AlignedCount(rows, cursor, last, interval);
    GridPointsFacts(cursor, m, interval);
    hide Between, GridPoints;
  }

  datatype Coverage = Coverage(cached: nat, missing: nat, complete: bool)

  lemma CountSplit(s: set<int>, a: set<int>, b: set<int>)
    requires a !! b
    ensures |s * (a + b)| == |s * a| + |s * b| && |(a + b) - s| == |a - s| + |b - s|
  {
    assert s * (a + b) == s * a + s * b && (a + b) - s == (a - s) + (b - s);
  }

  /** A request whose end is the last of its expected candles, as normalization leaves it. */
  predicate OnGrid(r: Request) {
    r.interval > 0 && r.start % r.interval == 0 && r.expected > 0 && r.end == Nth(r.start, r.expected - 1, r.interval)
  }

  lemma NormalizedOnGrid(interval: int, requestedStart: int, requestedEnd: int, now: int)
    requires interval > 0 && NormalizeRequest(interval, requestedStart, requestedEnd, now).Ok?
    ensures OnGrid(NormalizeRequest(interval, requestedStart, requestedEnd, now).value)
  {
    var r := NormalizeRequest(interval, requestedStart, requestedEnd, now).value;
    RangeIsClosedCandles(interval, requestedStart, requestedEnd, now, 0);
    NormalizedShape(interval, requestedStart, requestedEnd, now);
    hide NormalizeRequest, Nth;
    AlignedEnd(r.start, r.end, interval);
  }

  lemma AlignedEnd(start: int, end: int, k: int)
    requires k > 0 && start % k == 0 && end % k == 0 && start <= end
    ensures (end - start) / k >= 0 && end == Nth(start, (end - start) / k, k)
  {
    var p, q := start / k, end / k;
    DivMonotone(start, end, k);
    assert start == p * k && end == q * k;
    MulDistrib(p, q - p, k);
    DivUnique((q - p) * k, k, q - p, 0);
  }

  lemma NormalizedShape(interval: int, requestedStart: int, requestedEnd: int, now: int)
    requires interval > 0 && NormalizeRequest(interval, requestedStart, requestedEnd, now).Ok?
    ensures var r := NormalizeRequest(interval, requestedStart, requestedEnd, now).value;
            r.interval == interval && r.expected == (r.end - r.start) / interval + 1 && r.expected <= MAX_REPLAY_CANDLES
  {
  }

  /** The end of the chunk after the first `done` points, and how many points it has. */
  function ChunkEnd(r: Request, cursor: int): int {
    var full := cursor + (CACHE_READ_CHUNK - 1) * r.interval;
    if r.end < full then r.end else full
  }

  lemma ChunkSize(r: Request, done: nat)
    requires OnGrid(r) && done <= r.expected
    ensures var cursor := Nth(r.start, done, r.interval);
            && cursor % r.interval == 0 && (cursor <= r.end <==> done < r.expected)
            && (done < r.expected ==>
                  var last := ChunkEnd(r, cursor);
                  var m := (last - cursor) / r.interval + 1;
                  && m == (if r.expected - done < CACHE_READ_CHUNK then r.expected - done else CACHE_READ_CHUNK)
                  && last == Nth(cursor, m - 1, r.interval)
                  && last + r.interval == Nth(r.start, done + m, r.interval))
  {
    var k := r.interval;
    var cursor, left := Nth(r.start, done, k), r.expected - done;
    NthDistance(r.start, done, done, k);
    NthOrder(r.start, done, r.expected - 1, k);
    NthOfNth(r.start, done, left - 1, k);
    assert cursor + (CACHE_READ_CHUNK - 1) * k == Nth(cursor, CACHE_READ_CHUNK - 1, k);
    hide Nth;
    if left > 0 {
      var m := if left < CACHE_READ_CHUNK then left else CACHE_READ_CHUNK;
      NthOrder(cursor, left - 1, CACHE_READ_CHUNK - 1, k);
      NthDistance(cursor, 0, m - 1, k);
      NthNext(cursor, m - 1, k);
      NthNext(cursor, 0, k);
      NthOfNth(r.start, done, m, k);
    }
  }

  /** What has been counted after the first `done` points of the grid. */
  ghost predicate Counted(stored: seq<int>, r: Request, done: nat, cached: nat, missing: nat) {
    var grid := GridPoints(r.start, done, r.interval);
    cached == |TimesOf(stored) * grid| && missing == |grid - TimesOf(stored)|
  }

  lemma CountChunk(stored: seq<int>, r: Request, done: nat, cached: nat, missing: nat, cursor: int, m: nat)
    requires OnGrid(r) && Ascending(stored) && Aligned(stored, r.interval) && Counted(stored, r, done, cached, missing)
    requires cursor == Nth(r.start, done, r.interval) && cursor % r.interval == 0 && 0 < m <= CACHE_READ_CHUNK
    ensures var actual := TimesOf(ReadStored(stored, cursor, Nth(cursor, m - 1, r.interval), CACHE_READ_CHUNK));
            var expected := GridPoints(cursor, m, r.interval);
            Counted(stored, r, done + m, cached + |actual * expected|, missing + |expected - actual|)
  {
    hide *;
    CountedIs(stored, r, done, cached, missing);
    GridInterval(r);
    var times := TimesOf(stored);
    var grid, expected := GridPoints(r.start, done, r.interval), GridPoints(cursor, m, r.interval);
    ChunkIsRead(stored, cursor, m, r.interval);
    GridPointsSplit(r.start, done, m, r.interval);
    CountSplit(times, grid, expected);
    var actual := TimesOf(ReadStored(stored, cursor, Nth(cursor, m - 1, r.interval), CACHE_READ_CHUNK));
    CountedIs(stored, r, done + m, cached + |actual * expected|, missing + |expected - actual|);
  }

  lemma CountedIs(stored: seq<int>, r: Request, done: nat, cached: nat, missing: nat)
    ensures Counted(stored, r, done, cached, missing) <==>
              cached == |TimesOf(stored) * GridPoints(r.start, done, r.interval)|
              && missing == |GridPoints(r.start, done, r.interval) - TimesOf(stored)|
  {
  }

  lemma GridInterval(r: Request)
    requires OnGrid(r)
    ensures r.interval > 0 && r.start % r.interval == 0 && r.expected > 0
  {
  }

  /** One chunk: how many of its points are stored and how many are not, and where the next one starts. */
  method CountStored(stored: seq<int>, r: Request, cursor: int, ghost done: nat) returns (have: nat, lack: nat, next: int, ghost m: nat)
    requires OnGrid(r) && Ascending(stored) && Aligned(stored, r.interval)
    requires done < r.expected && cursor == Nth(r.start, done, r.interval)
    ensures done < done + m <= r.expected && next == Nth(r.start, done + m, r.interval) && next > cursor
    ensures m == if r.expected - done < 10000 then r.expected - done else 10000
    ensures forall cached: nat, missing: nat :: Counted(stored, r, done, cached, missing) ==>
              Counted(stored, r, done + m, cached + have, missing + lack)
  {
    hide GridPoints, TimesOf, ReadStored, Counted, Nth, ChunkEnd, OnGrid, Ascending, Aligned, Between;
    GridInterval(r);
    ChunkSize(r, done);
    var chunkEnd := ChunkEnd(r, cursor);
    var count := (chunkEnd - cursor) / r.interval + 1;
    m := count;
    var expected := GridPoints(cursor, count, r.interval);
    var actual := TimesOf(ReadStored(stored, cursor, chunkEnd, CACHE_READ_CHUNK));
    have, lack := |actual * expected|, |expected - actual|;
    forall cached: nat, missing: nat | Counted(stored, r, done, cached, missing)
      ensures Counted(stored, r, done + m, cached + have, missing + lack)
    {
      CountChunk(stored, r, done, cached, missing, cursor, count);
    }
    next := chunkEnd + r.interval;
    NthOrder(r.start, done, done + m, r.interval);
  }

  /** cached_range_status: reading a store that is on the grid chunk by chunk counts what reading it at once would,
  and the range is complete if and only if every grid point of it is stored.  It takes one read for every ten thousand
  points begun. */
  method CachedRangeStatus(stored: seq<int>, r: Request) returns (c: Coverage, ghost chunks: nat)
    requires OnGrid(r) && Ascending(stored) && Aligned(stored, r.interval)
    ensures var grid := GridPoints(r.start, r.expected, r.interval);
            && c.cached == |TimesOf(stored) * grid| && c.missing == |grid - TimesOf(stored)|
            && (c.complete <==> grid <= TimesOf(stored))
    ensures (chunks - 1) * 10000 < r.expected <= chunks * 10000
  {
    hide *;
    chunks := 0;
    var cursor := r.start;
    var cached: nat, missing: nat := 0, 0;
    ghost var done: nat := 0;
    GridInterval(r);
    NothingCounted(stored, r);
    ChunkSize(r, 0);
    NthNext(r.start, 0, r.interval);
    while cursor <= r.end
      invariant done <= r.expected && cursor == Nth(r.start, done, r.interval) && Counted(stored, r, done, cached, missing)
      invariant if done < r.expected then done == chunks * 10000 else (chunks - 1) * 10000 < r.expected <= chunks * 10000
      decreases r.end - cursor
    {
      ChunkSize(r, done);
      var have, lack, next, m := CountStored(stored, r, cursor, done);
      cached, missing, cursor, done, chunks := cached + have, missing + lack, next, done + m, chunks + 1;
    }
    ChunkSize(r, done);
    Completeness(stored, r, cached, missing);
    c := Coverage(cached, missing, missing == 0 && cached == r.expected);
  }

  lemma NothingCounted(stored: seq<int>, r: Request)
    ensures Counted(stored, r, 0, 0, 0)
  {
    assert TimesOf(stored) * {} == {} && {} - TimesOf(stored) == {};
  }

  lemma Completeness(stored: seq<int>, r: Request, cached: nat, missing: nat)
    requires OnGrid(r) && Counted(stored, r, r.expected, cached, missing)
    ensures var grid := GridPoints(r.start, r.expected, r.interval);
            && cached == |TimesOf(stored) * grid| && missing == |grid - TimesOf(stored)|
            && (missing == 0 && cached == r.expected <==> grid <= TimesOf(stored))
  {
    var grid, s := GridPoints(r.start, r.expected, r.interval), TimesOf(stored);
    GridPointsFacts(r.start, r.expected, r.interval);
    hide GridPoints, TimesOf, Nth;
    if grid <= s {
      assert s * grid == grid && grid - s == {};
    }
    if |grid - s| == 0 {
      assert grid - s == {};
      forall t | t in grid ensures t in s { assert t in s || t in grid - s; }
    }
  }
}

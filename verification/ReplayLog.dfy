/** Facts about the frozen candle grid and the audit log that the recovery argument rests on. */
module ReplayLog {
  import opened Arithmetic
  import opened Common
  import opened ReplayExecution
  import opened ReplayPipeline

  // ---------------------------------------------------------------- the candle grid

  function Time(cfg: Config, i: int): int {
    cfg.start + i * cfg.interval
  }

  function Grid(cfg: Config, n: nat): seq<int> {
    seq(n, i => Time(cfg, i))
  }

  lemma TimeStep(cfg: Config, i: int)
    ensures Time(cfg, i + 1) == Time(cfg, i) + cfg.interval
  {
  }

  lemma TimeMonotone(cfg: Config, i: int, j: int)
    requires cfg.interval > 0 && i < j
    ensures Time(cfg, i) + cfg.interval <= Time(cfg, j)
  {
    MulAtLeast(j - i, cfg.interval);
    MulDistrib(i, j - i, cfg.interval);
  }

  /** From the i-th grid time on there are Total - i candles left, and none exactly when it is past the end. */
  lemma Remaining(cfg: Config, i: int)
    requires cfg.interval > 0
    ensures (cfg.end - Time(cfg, i)) / cfg.interval == cfg.Total() - 1 - i
    ensures (Time(cfg, i) - cfg.start) / cfg.interval == i
    ensures Time(cfg, i) <= cfg.end <==> i < cfg.Total()
  {
    LeftAfter(cfg.end - cfg.start, i, cfg.interval);
    DivUnique(i * cfg.interval, cfg.interval, i, 0);
    assert cfg.end - Time(cfg, i) == cfg.end - cfg.start - i * cfg.interval;
  }

  lemma OnGrid(cfg: Config, t: int)
    requires cfg.interval > 0 && (t - cfg.start) % cfg.interval == 0
    ensures t == Time(cfg, (t - cfg.start) / cfg.interval)
  {
  }

  /** Aligned times in increasing order never fall behind the grid. */
  lemma {:induction false} AtLeastGrid(cfg: Config, i: nat)
    requires cfg.Valid() && i < |cfg.snapshot|
    ensures cfg.snapshot[i].openTime >= Time(cfg, i)
  {
    var t := cfg.snapshot[i].openTime;
    assert cfg.snapshot[i] in cfg.snapshot;
    OnGrid(cfg, t);
    if i > 0 {
      AtLeastGrid(cfg, i - 1);
      assert t > cfg.snapshot[i - 1].openTime;
      var j := (t - cfg.start) / cfg.interval;
      if j < i - 1 { TimeMonotone(cfg, j, i - 1); }
      if i < j { TimeMonotone(cfg, i, j); }
    }
  }

  lemma {:induction false} AtMostGrid(cfg: Config, i: nat)
    requires cfg.Valid() && |cfg.snapshot| == cfg.Total() && i < |cfg.snapshot|
    ensures cfg.snapshot[i].openTime <= Time(cfg, i)
    decreases |cfg.snapshot| - i
  {
    var t := cfg.snapshot[i].openTime;
    assert cfg.snapshot[i] in cfg.snapshot;
    OnGrid(cfg, t);
    var j := (t - cfg.start) / cfg.interval;
    Remaining(cfg, j);
    if i + 1 < |cfg.snapshot| {
      AtMostGrid(cfg, i + 1);
      assert t < cfg.snapshot[i + 1].openTime;
      if i + 1 < j { TimeMonotone(cfg, i + 1, j); }
    }
    if j < i { TimeMonotone(cfg, j, i); }
  }

  /** A full snapshot is the grid itself: the count check leaves no room for a gap. */
  lemma FullSnapshotIsGrid(cfg: Config, i: nat)
    requires cfg.Valid() && |cfg.snapshot| == cfg.Total() && i < |cfg.snapshot|
    ensures cfg.snapshot[i].openTime == Time(cfg, i)
  {
    AtLeastGrid(cfg, i);
    AtMostGrid(cfg, i);
  }

  // ---------------------------------------------------------------- range queries

  lemma {:induction false} RangeOfSorted(cs: seq<Candle>, lo: int, hi: int, i: nat, j: nat)
    requires i <= j <= |cs|
    requires forall k | 0 <= k < i :: cs[k].openTime < lo
    requires forall k | i <= k < j :: lo <= cs[k].openTime <= hi
    requires forall k | j <= k < |cs| :: hi < cs[k].openTime
    ensures CandlesBetween(cs, lo, hi) == cs[i..j]
  {
    if cs != [] {
      if i > 0 {
        RangeOfSorted(cs[1..], lo, hi, i - 1, j - 1);
        assert cs[1..][i - 1..j - 1] == cs[i..j];
      } else if j > 0 {
        RangeOfSorted(cs[1..], lo, hi, 0, j - 1);
        assert cs[..j] == [cs[0]] + cs[1..][..j - 1];
      } else {
        RangeOfSorted(cs[1..], lo, hi, 0, 0);
      }
    }
  }

  lemma {:induction false} UpToOfSorted(cs: seq<Candle>, hi: int, j: nat)
    requires j <= |cs|
    requires forall k | 0 <= k < j :: cs[k].openTime <= hi
    requires forall k | j <= k < |cs| :: hi < cs[k].openTime
    ensures CandlesUpTo(cs, hi) == cs[..j]
  {
    if cs != [] {
      if j > 0 {
        UpToOfSorted(cs[1..], hi, j - 1);
        assert cs[..j] == [cs[0]] + cs[1..][..j - 1];
      } else {
        UpToOfSorted(cs[1..], hi, 0);
      }
    }
  }

  lemma GridRange(cfg: Config, i: nat, j: nat)
    requires cfg.Valid() && |cfg.snapshot| == cfg.Total() && i < j <= |cfg.snapshot|
    ensures CandlesBetween(cfg.snapshot, Time(cfg, i), Time(cfg, j - 1)) == cfg.snapshot[i..j]
    ensures CandlesUpTo(cfg.snapshot, Time(cfg, j - 1)) == cfg.snapshot[..j]
  {
    forall k: nat | k < |cfg.snapshot| ensures cfg.snapshot[k].openTime == Time(cfg, k) { FullSnapshotIsGrid(cfg, k); }
    forall k: nat, l: nat | k < l ensures Time(cfg, k) < Time(cfg, l) { TimeMonotone(cfg, k, l); }
    hide cfg.Valid, Time;
    RangeOfSorted(cfg.snapshot, Time(cfg, i), Time(cfg, j - 1), i, j);
    UpToOfSorted(cfg.snapshot, Time(cfg, j - 1), j);
  }

  lemma TimeAdd(cfg: Config, i: int, k: int)
    ensures Time(cfg, i + k) == Time(cfg, i) + k * cfg.interval
  {
    MulDistrib(i, k, cfg.interval);
  }

  lemma GridTimes(cfg: Config, i: nat, j: nat)
    requires cfg.Valid() && |cfg.snapshot| == cfg.Total() && i < j <= |cfg.snapshot|
    ensures Times(cfg.snapshot[i..j]) == ExpectedTimes(Time(cfg, i), cfg.interval, j - i)
    ensures Grid(cfg, i) + Times(cfg.snapshot[i..j]) == Grid(cfg, j)
  {
    forall k: nat | k < |cfg.snapshot| ensures cfg.snapshot[k].openTime == Time(cfg, k) { FullSnapshotIsGrid(cfg, k); }
    forall k | 0 <= k < j - i ensures Time(cfg, i + k) == Time(cfg, i) + k * cfg.interval { TimeAdd(cfg, i, k); }
    hide cfg.Valid, Time;
    assert Times(cfg.snapshot[i..j]) == ExpectedTimes(Time(cfg, i), cfg.interval, j - i);
    assert Grid(cfg, i) + Times(cfg.snapshot[i..j]) == Grid(cfg, j);
  }

  // ---------------------------------------------------------------- the audit log

  predicate Numbered(events: seq<Event>) {
    forall i | 0 <= i < |events| :: events[i].sequenceNo == i
  }

  function Bodies(events: seq<Event>): (r: seq<Body>)
    ensures |r| == |events|
  {
    seq(|events|, i requires 0 <= i < |events| => events[i].body)
  }

  function Collect<T>(bodies: seq<Body>, f: Body -> Option<T>): seq<T> {
    if bodies == [] then []
    else (if f(bodies[0]).Some? then [f(bodies[0]).value] else []) + Collect(bodies[1..], f)
  }

  function AdvancedTime(b: Body): Option<int> {
    if b.CandleAdvanced? then Some(b.time) else None
  }

  function EvaluatedTime(b: Body): Option<int> {
    if b.StrategyEvaluated? then Some(b.decision.time) else None
  }

  function AuditNote(b: Body): Option<Note> {
    if b.Audit? then Some(b.note) else None
  }

  lemma {:induction false} NextNumber(events: seq<Event>)
    requires Numbered(events)
    ensures MaxSequence(events) == |events| - 1
  {
    if events != [] {
      NextNumber(events[..|events| - 1]);
    }
  }

  lemma AppendNumbered(events: seq<Event>, bodies: seq<Body>)
    requires Numbered(events)
    ensures Numbered(Append(events, bodies)) && Bodies(Append(events, bodies)) == Bodies(events) + bodies
  {
    NextNumber(events);
  }

  lemma CollectCons<T>(first: Body, rest: seq<Body>, f: Body -> Option<T>)
    ensures Collect([first] + rest, f) == (if f(first).Some? then [f(first).value] else []) + Collect(rest, f)
  {
    assert ([first] + rest)[1..] == rest;
  }

  lemma {:induction false} CollectConcat<T>(a: seq<Body>, b: seq<Body>, f: Body -> Option<T>)
    ensures Collect(a + b, f) == Collect(a, f) + Collect(b, f)
  {
    hide Collect;
    if a == [] {
      CollectEmpty(f);
      assert a + b == b && [] + Collect(b, f) == Collect(b, f);
    } else {
      var x := if f(a[0]).Some? then [f(a[0]).value] else [];
      CollectConcat(a[1..], b, f);
      CollectCons(a[0], a[1..], f);
      CollectCons(a[0], a[1..] + b, f);
      assert a == [a[0]] + a[1..] && a + b == [a[0]] + (a[1..] + b);
      assert x + (Collect(a[1..], f) + Collect(b, f)) == (x + Collect(a[1..], f)) + Collect(b, f);
    }
  }

  lemma CollectEmpty<T>(f: Body -> Option<T>)
    ensures Collect([], f) == []
  {
  }

  lemma {:induction false} CollectAll<T>(bodies: seq<Body>, f: Body -> Option<T>, values: seq<T>)
    requires |bodies| == |values| && forall i | 0 <= i < |bodies| :: f(bodies[i]) == Some(values[i])
    ensures Collect(bodies, f) == values
  {
    if bodies != [] {
      CollectAll(bodies[1..], f, values[1..]);
      assert values == [values[0]] + values[1..];
    }
  }

  lemma {:induction false} CollectNone<T>(bodies: seq<Body>, f: Body -> Option<T>)
    requires forall i | 0 <= i < |bodies| :: f(bodies[i]) == None
    ensures Collect(bodies, f) == []
  {
    if bodies != [] {
      CollectNone(bodies[1..], f);
    }
  }

  lemma AdvanceBodiesCollect(requestId: string, candles: seq<Candle>)
    requires candles != []
    ensures var b := AdvanceBodies(requestId, candles);
            Collect(b, AdvancedTime) == Times(candles) && Collect(b, EvaluatedTime) == [] && Collect(b, AuditNote) == []
  {
    var b := AdvanceBodies(requestId, candles);
    var mid := seq(|candles|, i requires 0 <= i < |candles| => CandleAdvanced(requestId, candles[i].openTime));
    var first, last := [StepStarted(requestId)], [StepCompleted(requestId, candles[|candles| - 1].openTime)];
    assert b == first + mid + last;
    CollectConcat(first + mid, last, AdvancedTime);
    CollectConcat(first, mid, AdvancedTime);
    CollectAll(mid, AdvancedTime, Times(candles));
    CollectNone(b, EvaluatedTime);
    CollectNone(b, AuditNote);
  }

  function DecisionTimes(decisions: seq<Decision>): seq<int> {
    seq(|decisions|, i requires 0 <= i < |decisions| => decisions[i].time)
  }

  lemma StrategyBodyCollect(requestId: string, d: Decision)
    ensures var b := [StrategyEvaluated(requestId, d)] + if d.verdict.plan.Some? then [RiskCandidate(requestId, d.time)] else [];
            Collect(b, AdvancedTime) == [] && Collect(b, EvaluatedTime) == [d.time] && Collect(b, AuditNote) == []
  {
    var b := [StrategyEvaluated(requestId, d)] + if d.verdict.plan.Some? then [RiskCandidate(requestId, d.time)] else [];
    CollectNone(b, AdvancedTime);
    CollectNone(b, AuditNote);
    CollectNone(b[1..], EvaluatedTime);
  }

  lemma {:induction false} StrategyBodiesCollect(requestId: string, decisions: seq<Decision>)
    ensures var b := StrategyBodies(requestId, decisions);
            && Collect(b, AdvancedTime) == [] && Collect(b, EvaluatedTime) == DecisionTimes(decisions)
            && Collect(b, AuditNote) == []
  {
    if decisions != [] {
      var n := |decisions|;
      var d, rest := decisions[n - 1], StrategyBodies(requestId, decisions[..n - 1]);
      var last := [StrategyEvaluated(requestId, d)] + if d.verdict.plan.Some? then [RiskCandidate(requestId, d.time)] else [];
      assert StrategyBodies(requestId, decisions) == rest + last;
      assert DecisionTimes(decisions) == DecisionTimes(decisions[..n - 1]) + [d.time];
      StrategyBodiesCollect(requestId, decisions[..n - 1]);
      StrategyBodyCollect(requestId, d);
      hide *;
      CollectConcat(rest, last, AdvancedTime);
      CollectConcat(rest, last, EvaluatedTime);
      CollectConcat(rest, last, AuditNote);
    }
  }

  lemma ExecutionBodiesCollect(requestId: string, notes: seq<Note>, last: int)
    ensures var b := ExecutionBodies(requestId, notes, last);
            Collect(b, AdvancedTime) == [] && Collect(b, EvaluatedTime) == [] && Collect(b, AuditNote) == notes
  {
    var b := ExecutionBodies(requestId, notes, last);
    var first, mid, end := [ExecutionStarted(requestId)], AuditBodies(requestId, notes), [ExecutionCompleted(requestId, last)];
    CollectConcat(first + mid, end, AuditNote);
    CollectConcat(first, mid, AuditNote);
    CollectAll(mid, AuditNote, notes);
    CollectNone(b, AdvancedTime);
    CollectNone(b, EvaluatedTime);
  }
}

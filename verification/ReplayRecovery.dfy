/** Every history of steps, store faults, retries and resets leaves the session in agreement with the pure
replay, with each accepted candle advanced, evaluated and executed once and in order. */
module ReplayRecovery {
  import opened Arithmetic
  import opened Common
  import opened ReplayMoney
  import opened ReplayExecution
  import opened ReplayAccount
  import opened ReplayPipeline
  import opened ReplayLog

  // ---------------------------------------------------------------- the invariant

  /** The phase an unfinished request still has to run. */
  datatype Stage = ToEvaluate | ToExecute | ToFinalize

  /** An unfinished request: it advanced the candles from `first` up to the cursor. */
  datatype Work = Work(requestId: string, first: nat, stage: Stage)

  function CursorAt(cfg: Config, n: nat): Option<int> {
    if n == 0 then None else Some(Time(cfg, n - 1))
  }

  function StatusAt(cfg: Config, n: nat): Status
    requires cfg.interval > 0
  {
    if n == 0 then Ready else if n == cfg.Total() then Completed else Paused
  }

  /** How many candles have a strategy evaluation when n have been advanced. */
  function Evaluated(n: nat, w: Option<Work>): nat {
    if w.Some? && w.value.stage == ToEvaluate then w.value.first else n
  }

  /** How many candles have been executed. */
  function Executed(n: nat, w: Option<Work>): nat {
    if w.Some? && w.value.stage != ToFinalize then w.value.first else n
  }

  predicate Finished(r: Response) {
    r.decisions.Some? && r.execution.Some? && r.finalized
  }

  /** The stored decisions are those of the pure replay but for the candidate quantity. */
  ghost predicate DecisionsFit(cfg: Config, first: nat, decisions: seq<Decision>)
    requires first + |decisions| <= |cfg.snapshot|
  {
    forall i | 0 <= i < |decisions| :: decisions[i].(quantity := None) == PureDecision(cfg, first + i)
  }

  ghost predicate WorkFits(cfg: Config, r: Response, n: nat, w: Work)
    requires cfg.interval > 0 && n <= |cfg.snapshot|
  {
    && w.first < n
    && r.candles == cfg.snapshot[w.first..n]
    && (r.completed <==> n == cfg.Total())
    && !r.finalized
    && (r.decisions.Some? <==> w.stage != ToEvaluate)
    && (r.execution.Some? <==> w.stage == ToFinalize)
    && (w.stage != ToEvaluate ==> |r.decisions.value| == n - w.first && DecisionsFit(cfg, w.first, r.decisions.value))
    && (w.stage == ToFinalize ==> r.session.status == StatusAt(cfg, n))
  }

  ghost predicate RequestsFit(cfg: Config, requests: map<string, StepRecord>, n: nat, w: Option<Work>)
    requires cfg.interval > 0 && n <= |cfg.snapshot|
  {
    && (forall r <- requests :: requests[r].response.requestId == r)
    && (forall r <- requests :: w == None || r != w.value.requestId ==> Finished(requests[r].response))
    && (w.Some? ==> w.value.requestId in requests && WorkFits(cfg, requests[w.value.requestId].response, n, w.value))
  }

  /** The audit log: numbered 0, 1, 2, ... and recording the grid once, in order, in each phase. */
  ghost predicate LogFits(cfg: Config, events: seq<Event>, advanced: nat, evaluated: nat, notes: seq<Note>) {
    && Numbered(events)
    && Collect(Bodies(events), AdvancedTime) == Grid(cfg, advanced)
    && Collect(Bodies(events), EvaluatedTime) == Grid(cfg, evaluated)
    && Collect(Bodies(events), AuditNote) == notes
  }

  /** Money, trades and audit notes are those of the pure replay of the executed candles. */
  ghost predicate Agrees(cfg: Config, s: State, executed: nat, evaluated: nat, advanced: nat)
    requires cfg.interval > 0 && executed <= |cfg.snapshot|
  {
    var r := Replay(cfg, executed);
    && r.Ok?
    && r.value.0 == Account(s.row.balance, s.row.equity, s.trades)
    && LogFits(cfg, s.events, advanced, evaluated, r.value.1)
  }

  ghost predicate Data(cfg: Config, s: State, n: nat, w: Option<Work>)
    requires cfg.interval > 0
  {
    && n <= cfg.Total() && n <= |cfg.snapshot|
    && (n > 0 ==> |cfg.snapshot| == cfg.Total())
    && (w.Some? ==> w.value.first < n)
    && s.row.cursor == CursorAt(cfg, n)
    && RequestsFit(cfg, s.requests, n, w)
    && Agrees(cfg, s, Executed(n, w), Evaluated(n, w), n)
  }

  /** No request is unfinished: the session can be stepped or reset. */
  ghost predicate Idle(cfg: Config, s: State, n: nat)
    requires cfg.interval > 0
  {
    Data(cfg, s, n, None) && s.row.status == StatusAt(cfg, n) && s.row.summary.recovery == None
  }

  /** One request is unfinished, and the session waits for it. */
  ghost predicate Blocked(cfg: Config, s: State, n: nat, w: Work)
    requires cfg.interval > 0
  {
    && Data(cfg, s, n, Some(w)) && s.row.status == Running
    && s.row.summary.recovery == Some(Recovery(StatusAt(cfg, n), w.requestId))
  }

  // ---------------------------------------------------------------- advance

  /** How many candles a fresh request takes. */
  function Taken(cfg: Config, n: nat, steps: int): int
    requires cfg.interval > 0
  {
    MinInt(steps, cfg.Total() - n)
  }

  lemma LogAppend(cfg: Config, events: seq<Event>, bodies: seq<Body>)
    requires Numbered(events)
    ensures var e := Append(events, bodies);
            && Numbered(e)
            && Collect(Bodies(e), AdvancedTime) == Collect(Bodies(events), AdvancedTime) + Collect(bodies, AdvancedTime)
            && Collect(Bodies(e), EvaluatedTime) == Collect(Bodies(events), EvaluatedTime) + Collect(bodies, EvaluatedTime)
            && Collect(Bodies(e), AuditNote) == Collect(Bodies(events), AuditNote) + Collect(bodies, AuditNote)
  {
    AppendNumbered(events, bodies);
    hide *;
    CollectConcat(Bodies(events), bodies, AdvancedTime);
    CollectConcat(Bodies(events), bodies, EvaluatedTime);
    CollectConcat(Bodies(events), bodies, AuditNote);
  }

  lemma AdvanceLog(cfg: Config, events: seq<Event>, requestId: string, first: nat, n: nat, notes: seq<Note>)
    requires cfg.Valid() && |cfg.snapshot| == cfg.Total() && first < n <= |cfg.snapshot|
    requires LogFits(cfg, events, first, first, notes)
    ensures LogFits(cfg, Append(events, AdvanceBodies(requestId, cfg.snapshot[first..n])), n, first, notes)
  {
    var cs := cfg.snapshot[first..n];
    var bodies := AdvanceBodies(requestId, cs);
    LogAppend(cfg, events, bodies);
    AdvanceBodiesCollect(requestId, cs);
    GridTimes(cfg, first, n);
    var e := Append(events, bodies);
    hide Append, AdvanceBodies, Collect, Bodies, Grid, Times, Numbered;
    assert Collect(Bodies(events), EvaluatedTime) + [] == Collect(Bodies(events), EvaluatedTime);
    assert Collect(Bodies(events), AuditNote) + [] == Collect(Bodies(events), AuditNote);
  }

  lemma FreshBatch(cfg: Config, n: nat, steps: int)
    requires cfg.Valid() && 1 <= steps
    ensures var next := NextTime(cfg, CursorAt(cfg, n));
            && (next <= cfg.end <==> n < cfg.Total())
            && (n < cfg.Total() ==>
                  && BatchSize(cfg, next, steps) == Taken(cfg, n, steps)
                  && (|cfg.snapshot| == cfg.Total() ==>
                        var n' := n + Taken(cfg, n, steps);
                        && BatchCandles(cfg, next, Taken(cfg, n, steps)) == cfg.snapshot[n..n']
                        && Times(cfg.snapshot[n..n']) == ExpectedTimes(next, cfg.interval, n' - n)))
  {
    Remaining(cfg, n);
    if n > 0 { TimeStep(cfg, n - 1); }
    assert NextTime(cfg, CursorAt(cfg, n)) == Time(cfg, n);
    if n < cfg.Total() && |cfg.snapshot| == cfg.Total() {
      var n' := n + Taken(cfg, n, steps);
      MulDistrib(n, n' - 1 - n, cfg.interval);
      assert Time(cfg, n) + (n' - n - 1) * cfg.interval == Time(cfg, n' - 1);
      hide Time, CandlesBetween, Times, cfg.Valid, Taken;
      GridRange(cfg, n, n');
      GridTimes(cfg, n, n');
    }
  }

  /** The last candle of a batch that ends before index n. */
  lemma BatchEnd(cfg: Config, first: nat, n: nat)
    requires cfg.Valid() && |cfg.snapshot| == cfg.Total() && first < n <= |cfg.snapshot|
    ensures cfg.snapshot[first..n][n - first - 1].openTime == Time(cfg, n - 1)
    ensures CandlesLeft(cfg, Time(cfg, n - 1)) == cfg.Total() - n
    ensures CandlesProcessed(cfg, Time(cfg, n - 1)) == n
  {
    FullSnapshotIsGrid(cfg, n - 1);
    Remaining(cfg, n - 1);
  }

  /** A fresh request is accepted exactly when its cursor is current, the snapshot is full, candles remain and
  the store commits; then it takes as many candles as it asked for and are left. */
  lemma AdvanceFresh(cfg: Config, s: State, n: nat, req: StepRequest, fault: bool)
    requires cfg.Valid() && n <= cfg.Total() && s.row.cursor == CursorAt(cfg, n) && s.row.status == StatusAt(cfg, n)
    requires req.requestId !in s.requests && 1 <= req.steps
    ensures Advance(cfg, s, req, fault).Ok? <==>
            req.expectedCursor == s.row.cursor && |cfg.snapshot| == cfg.Total() && n < cfg.Total() && !fault
    ensures Advance(cfg, s, req, fault).Ok? ==>
              var n' := n + Taken(cfg, n, req.steps);
              n < n' <= cfg.Total() && Advance(cfg, s, req, fault).value == Commit(cfg, s, req, cfg.snapshot[n..n'])
  {
    FreshBatch(cfg, n, req.steps);
    assert CursorAt(cfg, cfg.Total()) != None by { assert cfg.Total() > 0; }
    hide cfg.Valid, Times, ExpectedTimes, NextTime, BatchSize, BatchCandles, CursorAt, Commit;
  }

  lemma RequestsAfterAdvance(cfg: Config, requests: map<string, StepRecord>, n: nat, n': nat, record: StepRecord)
    requires cfg.interval > 0 && n < n' <= |cfg.snapshot| && RequestsFit(cfg, requests, n, None)
    requires WorkFits(cfg, record.response, n', Work(record.response.requestId, n, ToEvaluate))
    requires record.response.requestId !in requests
    ensures var id := record.response.requestId;
            RequestsFit(cfg, requests[id := record], n', Some(Work(id, n, ToEvaluate)))
  {
    hide WorkFits, Finished;
  }

  /** What an accepted request leaves: the session before it is executed, with this request unfinished. */
  lemma AdvanceCommits(cfg: Config, s: State, n: nat, n': nat, req: StepRequest)
    requires cfg.Valid() && Data(cfg, s, n, None) && s.row.summary.recovery == None && req.requestId !in s.requests
    requires |cfg.snapshot| == cfg.Total() && n < n' <= cfg.Total()
    ensures var (s', r) := Commit(cfg, s, req, cfg.snapshot[n..n']);
            && Data(cfg, s', n', Some(Work(req.requestId, n, ToEvaluate)))
            && s'.row.summary.recovery == None
            && s'.requests[req.requestId] == StepRecord(req.steps, req.expectedCursor, r)
            && r.requestId == req.requestId
            && s'.row.summary.remaining == cfg.Total() - n'
  {
    hide AdvanceBodies, Append, Replay, LogFits, Times, Time, CandlesLeft, CandlesProcessed, cfg.Total, RequestsFit, Finished;
    BatchEnd(cfg, n, n');
    AdvanceLog(cfg, s.events, req.requestId, n, n', Replay(cfg, n).value.1);
    hide cfg.Valid;
    var (s', r) := Commit(cfg, s, req, cfg.snapshot[n..n']);
    assert s'.row.cursor == CursorAt(cfg, n');
    assert WorkFits(cfg, r, n', Work(r.requestId, n, ToEvaluate)) by { hide StatusAt, DecisionsFit; }
    hide WorkFits, CursorAt;
    RequestsAfterAdvance(cfg, s.requests, n, n', StepRecord(req.steps, req.expectedCursor, r));
  }

  // ---------------------------------------------------------------- strategy

  lemma DecisionsAreReplayed(cfg: Config, first: nat, n: nat, equity: real)
    requires cfg.Valid() && |cfg.snapshot| == cfg.Total() && first < n <= |cfg.snapshot|
    ensures var ds := Decisions(cfg, cfg.snapshot[first..n], equity);
            && |ds| == n - first && DecisionsFit(cfg, first, ds)
            && DecisionTimes(ds) == Times(cfg.snapshot[first..n])
  {
    var ds := Decisions(cfg, cfg.snapshot[first..n], equity);
    forall i | 0 <= i < |ds| ensures ds[i].(quantity := None) == PureDecision(cfg, first + i) {
      FullSnapshotIsGrid(cfg, first + i);
      GridRange(cfg, first + i, first + i + 1);
    }
  }

  lemma StrategyLog(cfg: Config, events: seq<Event>, requestId: string, first: nat, n: nat, equity: real, notes: seq<Note>)
    requires cfg.Valid() && |cfg.snapshot| == cfg.Total() && first < n <= |cfg.snapshot|
    requires LogFits(cfg, events, n, first, notes)
    ensures LogFits(cfg, Append(events, StrategyBodies(requestId, Decisions(cfg, cfg.snapshot[first..n], equity))), n, n, notes)
  {
    var ds := Decisions(cfg, cfg.snapshot[first..n], equity);
    LogAppend(cfg, events, StrategyBodies(requestId, ds));
    StrategyBodiesCollect(requestId, ds);
    DecisionsAreReplayed(cfg, first, n, equity);
    GridTimes(cfg, first, n);
    hide Append, StrategyBodies, Collect, Bodies, Grid, Times, Numbered, Decisions, DecisionTimes, cfg.Valid, DecisionsFit;
    assert Collect(Bodies(events), AdvancedTime) + [] == Collect(Bodies(events), AdvancedTime);
    assert Collect(Bodies(events), AuditNote) + [] == Collect(Bodies(events), AuditNote);
  }

  /** Storing a further response for the unfinished request moves its work to that stage. */
  lemma RequestsAfterPhase(cfg: Config, s: State, n: nat, w: Work, w': Work, r: Response)
    requires cfg.interval > 0 && n <= |cfg.snapshot| && RequestsFit(cfg, s.requests, n, Some(w))
    requires w'.requestId == w.requestId == r.requestId && WorkFits(cfg, r, n, w')
    ensures RequestsFit(cfg, StoreResponse(s, r).requests, n, Some(w'))
  {
    hide WorkFits, Finished;
  }

  lemma StrategyPhase(cfg: Config, s: State, n: nat, w: Work, fault: bool)
    requires cfg.Valid() && Data(cfg, s, n, Some(w))
    ensures var r := s.requests[w.requestId].response;
            var out := Strategy(cfg, s, r, fault);
            if w.stage != ToEvaluate then out == Ok((s, r))
            else if fault then out == Err(StoreFailure)
            else
              && out.Ok? && Data(cfg, out.value.0, n, Some(w.(stage := ToExecute)))
              && out.value.0.row == s.row
              && out.value.0.requests[w.requestId] == s.requests[w.requestId].(response := out.value.1)
  {
    var r := s.requests[w.requestId].response;
    assert r.candles != [];
    if w.stage == ToEvaluate && !fault {
      var ds := Decisions(cfg, r.candles, r.session.equity);
      DecisionsAreReplayed(cfg, w.first, n, r.session.equity);
      StrategyLog(cfg, s.events, w.requestId, w.first, n, r.session.equity, Replay(cfg, w.first).value.1);
      hide Append, StrategyBodies, Replay, LogFits, cfg.Valid, Times, DecisionTimes, Decisions, CursorAt, cfg.Total, DecisionsFit;
      var w' := w.(stage := ToExecute);
      var r' := r.(decisions := Some(ds));
      assert WorkFits(cfg, r', n, w');
      RequestsAfterPhase(cfg, s.(events := Append(s.events, StrategyBodies(w.requestId, ds))), n, w, w', r');
    }
  }

  // ---------------------------------------------------------------- execution

  lemma {:induction false} LookupAt(decisions: seq<Decision>, i: nat)
    requires i < |decisions| && forall j | i < j < |decisions| :: decisions[j].time != decisions[i].time
    ensures Lookup(decisions, decisions[i].time) == Some(decisions[i])
  {
    if i < |decisions| - 1 {
      LookupAt(decisions[..|decisions| - 1], i);
    }
  }

  lemma StoredDecision(cfg: Config, first: nat, n: nat, ds: seq<Decision>, i: nat)
    requires cfg.Valid() && |cfg.snapshot| == cfg.Total() && first < n <= |cfg.snapshot|
    requires |ds| == n - first && DecisionsFit(cfg, first, ds) && i < n - first
    ensures Lookup(ds, cfg.snapshot[first + i].openTime) == Some(PureDecision(cfg, first + i).(quantity := ds[i].quantity))
    ensures cfg.snapshot[first + i].openTime == cfg.snapshot[n - 1].openTime <==> first + i == n - 1
  {
    forall j | 0 <= j < |ds| ensures ds[j].time == cfg.snapshot[first + j].openTime {
      assert ds[j].(quantity := None) == PureDecision(cfg, first + j);
    }
    assert ds[i].(quantity := None) == PureDecision(cfg, first + i);
    LookupAt(ds, i);
  }

  /** The k-th candle of the batch is stepped as the pure replay steps it. */
  lemma BatchUnfold(cfg: Config, a: Account, first: nat, n: nat, ds: seq<Decision>, target: Status, k: nat)
    requires cfg.Valid() && |cfg.snapshot| == cfg.Total() && first < n <= |cfg.snapshot| && 0 < k <= n - first
    requires |ds| == n - first && DecisionsFit(cfg, first, ds)
    requires target == Completed <==> n == cfg.Total()
    ensures var cs := cfg.snapshot[first..n];
            var prev := Batch(cfg, a, cs, ds, target, k - 1);
            Batch(cfg, a, cs, ds, target, k) ==
              if prev.Err? then prev
              else
                var next := StepCandle(cfg, prev.value.0, cfg.snapshot[first + k - 1],
                                       Some(PureDecision(cfg, first + k - 1)), first + k == cfg.Total());
                if next.Err? then Err(next.error) else Ok((next.value.0, prev.value.1 + next.value.1))
  {
    var cs := cfg.snapshot[first..n];
    StoredDecision(cfg, first, n, ds, k - 1);
    assert cs[k - 1] == cfg.snapshot[first + k - 1] && cs[|cs| - 1] == cfg.snapshot[n - 1];
    hide StepCandle, Lookup, PureDecision, cfg.Valid, DecisionsFit;
    var prev := Batch(cfg, a, cs, ds, target, k - 1);
    if prev.Ok? {
      StepIgnoresCandidateQuantity(cfg, prev.value.0, cs[k - 1], PureDecision(cfg, first + k - 1), ds[k - 1].quantity,
                                   first + k == cfg.Total());
    }
  }

  /** Executing a batch goes through the same accounts as the pure replay, whatever the batch boundaries are. */
  lemma {:induction false} BatchAgrees(cfg: Config, first: nat, n: nat, ds: seq<Decision>, target: Status, k: nat)
    requires cfg.Valid() && |cfg.snapshot| == cfg.Total() && first < n <= |cfg.snapshot| && k <= n - first
    requires |ds| == n - first && DecisionsFit(cfg, first, ds)
    requires target == Completed <==> n == cfg.Total()
    requires Replay(cfg, first).Ok?
    ensures var a := Replay(cfg, first).value;
            var b := Batch(cfg, a.0, cfg.snapshot[first..n], ds, target, k);
            var r := Replay(cfg, first + k);
            if b.Err? then r == Err(b.error) else r == Ok((b.value.0, a.1 + b.value.1))
  {
    hide Replay, StepCandle, DecisionsFit, PureDecision, cfg.Total, Lookup;
    var a := Replay(cfg, first).value;
    if k == 0 {
      assert a.1 + [] == a.1;
      assert Batch(cfg, a.0, cfg.snapshot[first..n], ds, target, k) == Ok((a.0, []));
    } else {
      BatchAgrees(cfg, first, n, ds, target, k - 1);
      BatchUnfold(cfg, a.0, first, n, ds, target, k);
      ReplayUnfold(cfg, first + k);
      hide Batch;
      var b := Batch(cfg, a.0, cfg.snapshot[first..n], ds, target, k - 1);
      if b.Ok? {
        var next := StepCandle(cfg, b.value.0, cfg.snapshot[first + k - 1],
                               Some(PureDecision(cfg, first + k - 1)), first + k == cfg.Total());
        if next.Ok? {
          assert a.1 + b.value.1 + next.value.1 == a.1 + (b.value.1 + next.value.1);
        }
      }
    }
  }

  lemma ExecutionLog(cfg: Config, events: seq<Event>, requestId: string, n: nat, notes: seq<Note>, more: seq<Note>, last: int)
    requires LogFits(cfg, events, n, n, notes)
    ensures LogFits(cfg, Append(events, ExecutionBodies(requestId, more, last)), n, n, notes + more)
  {
    LogAppend(cfg, events, ExecutionBodies(requestId, more, last));
    ExecutionBodiesCollect(requestId, more, last);
    hide Append, ExecutionBodies, Collect, Bodies, Grid, Numbered;
    assert Collect(Bodies(events), AdvancedTime) + [] == Collect(Bodies(events), AdvancedTime);
    assert Collect(Bodies(events), EvaluatedTime) + [] == Collect(Bodies(events), EvaluatedTime);
  }

  /** The session row is free of a marker, or carries the one of this request. */
  ghost predicate MarkerFits(cfg: Config, s: State, n: nat, w: Work)
    requires cfg.interval > 0
  {
    s.row.summary.recovery in {None, Some(Recovery(StatusAt(cfg, n), w.requestId))}
  }

  lemma ExecutionCommits(cfg: Config, s: State, n: nat, w: Work, a: Account, notes: seq<Note>)
    requires cfg.Valid() && Data(cfg, s, n, Some(w)) && w.stage == ToExecute
    requires Replay(cfg, n) == Ok((a, Replay(cfg, w.first).value.1 + notes))
    ensures var r := s.requests[w.requestId].response;
            var (s', r') := ReplayPipeline.Executed(cfg, s, r, StatusAt(cfg, n), a, notes);
            && Data(cfg, s', n, Some(w.(stage := ToFinalize)))
            && MarkerFits(cfg, s', n, w)
            && s'.requests[w.requestId] == s.requests[w.requestId].(response := r')
  {
    var r := s.requests[w.requestId].response;
    var last := r.candles[|r.candles| - 1].openTime;
    ExecutionLog(cfg, s.events, w.requestId, n, Replay(cfg, w.first).value.1, notes, last);
    hide Append, ExecutionBodies, Replay, LogFits, cfg.Valid, cfg.Total, DecisionsFit, CursorAt, CountOpened, CountClosed;
    hide CountSkipped, CountOpenRows;
    var (s', r') := ReplayPipeline.Executed(cfg, s, r, StatusAt(cfg, n), a, notes);
    var w' := w.(stage := ToFinalize);
    assert WorkFits(cfg, r', n, w');
    RequestsAfterPhase(cfg, State(s'.row, s'.events, s'.trades, s.requests), n, w, w', r');
  }

  lemma ExecutionUnfold(cfg: Config, s: State, r: Response, target: Status, fault: bool)
    requires r.requestId in s.requests && s.requests[r.requestId].response == r && cfg.ExecutionBounds()
    requires r.candles != [] && r.decisions.Some? && r.execution.None? && target == TargetStatus(s, r)
    ensures var run := Batch(cfg, Account(s.row.balance, s.row.equity, s.trades), r.candles, r.decisions.value, target, |r.candles|);
            Execution(cfg, s, r, fault) ==
              if run.Err? then Err(ExecutionFailed(run.error))
              else if fault then Err(StoreFailure)
              else Ok(ReplayPipeline.Executed(cfg, s, r, target, run.value.0, run.value.1))
  {
    assert r.(requestId := r.requestId) == r;
    hide Batch, ReplayPipeline.Executed, TargetStatus;
  }

  /** The whole batch of the unfinished request, run from the stored account. */
  lemma WholeBatchAgrees(cfg: Config, s: State, n: nat, w: Work)
    requires cfg.Valid() && Data(cfg, s, n, Some(w)) && w.stage == ToExecute
    ensures var r := s.requests[w.requestId].response;
            && r.decisions.Some?
            && var run := Batch(cfg, Account(s.row.balance, s.row.equity, s.trades), r.candles, r.decisions.value,
                                StatusAt(cfg, n), |r.candles|);
               if run.Err? then Replay(cfg, n) == Err(run.error)
               else Replay(cfg, n) == Ok((run.value.0, Replay(cfg, w.first).value.1 + run.value.1))
  {
    hide *;
    WorkOf(cfg, s, n, w);
    ValidInterval(cfg);
    var ds := s.requests[w.requestId].response.decisions.value;
    BatchAgrees(cfg, w.first, n, ds, StatusAt(cfg, n), n - w.first);
    var k := n - w.first;
    assert w.first + k == n;
  }

  lemma TargetIsStatus(cfg: Config, s: State, n: nat, w: Work)
    requires cfg.Valid() && Data(cfg, s, n, Some(w)) && MarkerFits(cfg, s, n, w)
    ensures TargetStatus(s, s.requests[w.requestId].response) == StatusAt(cfg, n)
  {
    WorkOf(cfg, s, n, w);
    hide Data, Replay, DecisionsFit;
  }

  lemma ExecutionPhase(cfg: Config, s: State, n: nat, w: Work, fault: bool)
    requires cfg.Valid() && cfg.ExecutionBounds() && Data(cfg, s, n, Some(w)) && MarkerFits(cfg, s, n, w)
    requires w.stage != ToEvaluate
    ensures var r := s.requests[w.requestId].response;
            var out := Execution(cfg, s, r, fault);
            if w.stage == ToFinalize then out == Ok((s, r))
            else if Replay(cfg, n).Err? then out == Err(ExecutionFailed(Replay(cfg, n).error))
            else if fault then out == Err(StoreFailure)
            else
              && out.Ok? && Data(cfg, out.value.0, n, Some(w.(stage := ToFinalize)))
              && MarkerFits(cfg, out.value.0, n, w)
              && out.value.0.requests[w.requestId] == s.requests[w.requestId].(response := out.value.1)
  {
    WorkOf(cfg, s, n, w);
    var r := s.requests[w.requestId].response;
    if w.stage == ToExecute {
      TargetIsStatus(cfg, s, n, w);
      WholeBatchAgrees(cfg, s, n, w);
      ExecutionUnfold(cfg, s, r, StatusAt(cfg, n), fault);
      hide *;
      var run := Batch(cfg, Account(s.row.balance, s.row.equity, s.trades), r.candles, r.decisions.value,
                       StatusAt(cfg, n), |r.candles|);
      if run.Ok? {
        ExecutionCommits(cfg, s, n, w, run.value.0, run.value.1);
      }
    } else {
      hide Replay, Data, DecisionsFit, Batch, ReplayPipeline.Executed;
    }
  }

  /** What is known of the unfinished request, in one place. */
  lemma WorkOf(cfg: Config, s: State, n: nat, w: Work)
    requires cfg.Valid() && Data(cfg, s, n, Some(w))
    ensures w.requestId in s.requests && w.first < n <= |cfg.snapshot| == cfg.Total()
    ensures var r := s.requests[w.requestId].response;
            && r.requestId == w.requestId && r.candles == cfg.snapshot[w.first..n] && |r.candles| == n - w.first
            && (r.completed <==> n == cfg.Total())
            && (r.decisions.Some? <==> w.stage != ToEvaluate)
            && (r.execution.Some? <==> w.stage == ToFinalize)
            && (w.stage != ToEvaluate ==> |r.decisions.value| == n - w.first && DecisionsFit(cfg, w.first, r.decisions.value))
            && (w.stage != ToFinalize ==>
                  && Replay(cfg, w.first).Ok?
                  && Replay(cfg, w.first).value.0 == Account(s.row.balance, s.row.equity, s.trades))
    ensures StatusAt(cfg, n) == if n == cfg.Total() then Completed else Paused
  {
    hide Replay, LogFits, DecisionsFit, cfg.Valid;
  }

  // ---------------------------------------------------------------- finalize

  lemma RequestsAfterFinalize(cfg: Config, s: State, n: nat, w: Work, r: Response)
    requires cfg.interval > 0 && n <= |cfg.snapshot| && RequestsFit(cfg, s.requests, n, Some(w))
    requires r.requestId == w.requestId && Finished(r)
    ensures RequestsFit(cfg, StoreResponse(s, r).requests, n, None)
  {
    hide WorkFits, Finished;
  }

  lemma FinalizePhase(cfg: Config, s: State, n: nat, w: Work, fault: bool)
    requires cfg.Valid() && Data(cfg, s, n, Some(w)) && w.stage == ToFinalize
    ensures var out := Finalize(s, s.requests[w.requestId].response, fault);
            if fault then out == Err(StoreFailure)
            else
              && out.Ok? && Idle(cfg, out.value.0, n)
              && out.value.0.requests[w.requestId] == s.requests[w.requestId].(response := out.value.1)
  {
    var r := s.requests[w.requestId].response;
    if !fault {
      hide Replay, LogFits, cfg.Valid, cfg.Total, DecisionsFit, CursorAt;
      var (s', r') := Finalize(s, r, fault).value;
      RequestsAfterFinalize(cfg, s.(row := s'.row), n, w, r');
    }
  }

  // ---------------------------------------------------------------- one step

  /** The store fault strikes a phase that this request still has to run. */
  predicate Strikes(stage: Stage, fault: Fault) {
    || (fault == StrategyFault && stage == ToEvaluate)
    || (fault == ExecutionFault && stage != ToFinalize)
    || fault == FinalizeFault
  }

  /** The request runs to its end: no fault strikes, and its candles can be executed. */
  predicate RunsThrough(cfg: Config, n: nat, w: Work, fault: Fault)
    requires cfg.interval > 0 && n <= |cfg.snapshot|
  {
    !Strikes(w.stage, fault) && (w.stage != ToFinalize ==> Replay(cfg, n).Ok?)
  }

  /** Where a request that does not run through is left: at the phase that raised. */
  function Stuck(cfg: Config, n: nat, w: Work, fault: Fault): Work
    requires cfg.interval > 0 && n <= |cfg.snapshot|
  {
    if w.stage == ToEvaluate && fault == StrategyFault then w
    else if w.stage != ToFinalize && (fault == ExecutionFault || Replay(cfg, n).Err?) then w.(stage := ToExecute)
    else w.(stage := ToFinalize)
  }

  /** What a request that does not run through raises: the error of the replay if its candles cannot be executed, and
  otherwise that of the store. */
  function Raises(cfg: Config, n: nat, w: Work, fault: Fault): StepError
    requires cfg.interval > 0 && n <= |cfg.snapshot|
  {
    if w.stage == ToFinalize || (w.stage == ToEvaluate && fault == StrategyFault) || Replay(cfg, n).Ok? then StoreFailure
    else ExecutionFailed(Replay(cfg, n).error)
  }

  lemma MarkBlocks(cfg: Config, s: State, n: nat, w: Work, advanced: Response)
    requires cfg.Valid() && Data(cfg, s, n, Some(w))
    requires Advanced(cfg, advanced, n, w)
    ensures Blocked(cfg, MarkRecovery(s, advanced), n, w)
  {
    WorkOf(cfg, s, n, w);
    hide Replay, LogFits, RequestsFit, cfg.Valid, cfg.Total, CursorAt;
  }

  /** The record of a request is still there, with this response if one is given. */
  predicate Answers(s: State, requestId: string, record: StepRecord, response: Option<Response>) {
    && requestId in s.requests
    && s.requests[requestId].steps == record.steps && s.requests[requestId].expectedCursor == record.expectedCursor
    && (response.Some? ==> s.requests[requestId].response == response.value)
  }

  /** What the step answers, and what it leaves, once the phases of an unfinished request have run. */
  ghost predicate Outcome(cfg: Config, s: State, n: nat, w: Work, fault: Fault, record: StepRecord,
                          s': State, r: Result<Response, StepError>)
    requires cfg.interval > 0 && n <= |cfg.snapshot|
  {
    if RunsThrough(cfg, n, w, fault) then
      r.Ok? && Idle(cfg, s', n) && Answers(s', w.requestId, record, Some(r.value))
    else
      && r == Err(Raises(cfg, n, w, fault))
      && Blocked(cfg, s', n, Stuck(cfg, n, w, fault)) && Answers(s', w.requestId, record, None)
  }

  /** The response of the advance, as the recovery marker reads it. */
  predicate Advanced(cfg: Config, advanced: Response, n: nat, w: Work)
    requires cfg.interval > 0
  {
    advanced.requestId == w.requestId && advanced.candles != [] && (advanced.completed <==> n == cfg.Total())
  }

  lemma FinalizeOutcome(cfg: Config, s: State, n: nat, w: Work, advanced: Response, fault: Fault)
    requires cfg.Valid() && Data(cfg, s, n, Some(w)) && w.stage == ToFinalize && Advanced(cfg, advanced, n, w)
    ensures n <= |cfg.snapshot| && w.requestId in s.requests
    ensures var record := s.requests[w.requestId];
            var (s', r) := EnrichFromFinalize(s, advanced, record.response, fault);
            Outcome(cfg, s, n, w, fault, record, s', r)
  {
    WorkOf(cfg, s, n, w);
    FinalizePhase(cfg, s, n, w, fault == FinalizeFault);
    MarkBlocks(cfg, s, n, w, advanced);
    hide Data, Idle, Blocked, Replay, Finalize, cfg.Valid, cfg.Total, DecisionsFit;
  }

  lemma ExecutionUnfolds(cfg: Config, s: State, advanced: Response, r: Response, fault: Fault)
    ensures var out := Execution(cfg, s, r, fault == ExecutionFault);
            EnrichFromExecution(cfg, s, advanced, r, fault) ==
              if out.Err? then (MarkRecovery(s, advanced), Err(out.error))
              else EnrichFromFinalize(out.value.0, advanced, out.value.1, fault)
  {
    hide Execution, MarkRecovery, EnrichFromFinalize;
  }

  /** An execution phase that raised. */
  lemma ExecutionStuck(cfg: Config, s: State, n: nat, w: Work, fault: Fault, record: StepRecord, s': State)
    requires cfg.interval > 0 && n <= |cfg.snapshot| && w.stage == ToExecute && (fault == ExecutionFault || Replay(cfg, n).Err?)
    requires Blocked(cfg, s', n, w) && Answers(s', w.requestId, record, None)
    ensures Outcome(cfg, s, n, w, fault, record, s', Err(Raises(cfg, n, w, fault)))
  {
    hide Blocked, Replay, Answers;
  }

  /** An execution phase that passed, now or before, changes neither the outcome to come nor the record it belongs to. */
  lemma ExecutionPassed(cfg: Config, s: State, s2: State, n: nat, w: Work, fault: Fault, record: StepRecord,
                        record2: StepRecord, s': State, r: Result<Response, StepError>)
    requires cfg.interval > 0 && n <= |cfg.snapshot| && w.stage != ToEvaluate
    requires w.stage == ToExecute ==> fault != ExecutionFault && Replay(cfg, n).Ok?
    requires record2 == record.(response := record2.response)
    requires Outcome(cfg, s2, n, w.(stage := ToFinalize), fault, record2, s', r)
    ensures Outcome(cfg, s, n, w, fault, record, s', r)
  {
    hide Blocked, Idle, Replay;
  }

  lemma ExecutionOutcome(cfg: Config, s: State, n: nat, w: Work, advanced: Response, fault: Fault)
    requires cfg.Valid() && cfg.ExecutionBounds() && Data(cfg, s, n, Some(w)) && MarkerFits(cfg, s, n, w)
    requires w.stage != ToEvaluate && Advanced(cfg, advanced, n, w)
    ensures n <= |cfg.snapshot| && w.requestId in s.requests
    ensures var record := s.requests[w.requestId];
            var (s', r) := EnrichFromExecution(cfg, s, advanced, record.response, fault);
            Outcome(cfg, s, n, w, fault, record, s', r)
  {
    hide *;
    ValidInterval(cfg);
    WorkOf(cfg, s, n, w);
    var record := s.requests[w.requestId];
    ExecutionPhase(cfg, s, n, w, fault == ExecutionFault);
    ExecutionUnfolds(cfg, s, advanced, record.response, fault);
    RaisesAt(cfg, n, w, fault);
    if w.stage == ToExecute && (fault == ExecutionFault || Replay(cfg, n).Err?) {
      MarkBlocks(cfg, s, n, w, advanced);
      MarkedRecord(s, advanced, w.requestId);
      ExecutionStuck(cfg, s, n, w, fault, record, MarkRecovery(s, advanced));
    } else {
      var (s2, r2) := Execution(cfg, s, record.response, fault == ExecutionFault).value;
      var w2 := w.(stage := ToFinalize);
      StillAdvanced(cfg, advanced, n, w, w2);
      FinalizeOutcome(cfg, s2, n, w2, advanced, fault);
      var (s', r) := EnrichFromFinalize(s2, advanced, r2, fault);
      ExecutionPassed(cfg, s, s2, n, w, fault, record, s2.requests[w.requestId], s', r);
    }
  }

  lemma RaisesAt(cfg: Config, n: nat, w: Work, fault: Fault)
    requires cfg.interval > 0 && n <= |cfg.snapshot|
    ensures w.stage == ToExecute ==>
              Raises(cfg, n, w, fault) == if Replay(cfg, n).Err? then ExecutionFailed(Replay(cfg, n).error) else StoreFailure
  {
    hide Replay;
  }

  lemma EnrichUnfold(cfg: Config, s: State, advanced: Response, fault: Fault)
    ensures var out := Strategy(cfg, s, advanced, fault == StrategyFault);
            Enrich(cfg, s, advanced, fault) ==
              if out.Err? then (MarkRecovery(s, advanced), Err(out.error))
              else EnrichFromExecution(cfg, out.value.0, advanced, out.value.1, fault)
  {
    hide Strategy, MarkRecovery, EnrichFromExecution;
  }

  /** A strategy phase that raised. */
  lemma StrategyStuck(cfg: Config, s: State, n: nat, w: Work, record: StepRecord, s': State)
    requires cfg.interval > 0 && n <= |cfg.snapshot| && w.stage == ToEvaluate
    requires Blocked(cfg, s', n, w) && Answers(s', w.requestId, record, None)
    ensures Outcome(cfg, s, n, w, StrategyFault, record, s', Err(StoreFailure))
  {
    hide Blocked, Replay, Answers;
  }

  /** A strategy phase that passed changes neither the outcome to come nor the record it belongs to. */
  lemma StrategyPassed(cfg: Config, s: State, s2: State, n: nat, w: Work, fault: Fault, record: StepRecord,
                       record2: StepRecord, s': State, r: Result<Response, StepError>)
    requires cfg.interval > 0 && n <= |cfg.snapshot| && w.stage == ToEvaluate && fault != StrategyFault
    requires record2 == record.(response := record2.response)
    requires Outcome(cfg, s2, n, w.(stage := ToExecute), fault, record2, s', r)
    ensures Outcome(cfg, s, n, w, fault, record, s', r)
  {
    hide Blocked, Idle, Replay;
  }

  lemma MarkerStays(cfg: Config, s: State, s2: State, n: nat, w: Work, w2: Work)
    requires cfg.interval > 0 && MarkerFits(cfg, s, n, w) && s2.row == s.row && w2.requestId == w.requestId
    ensures MarkerFits(cfg, s2, n, w2)
  {
    hide StatusAt;
  }

  lemma StoredAdvance(cfg: Config, s: State, n: nat, w: Work)
    requires cfg.Valid() && Data(cfg, s, n, Some(w))
    ensures w.requestId in s.requests && Advanced(cfg, s.requests[w.requestId].response, n, w)
  {
    WorkOf(cfg, s, n, w);
    hide Data, Replay, DecisionsFit, cfg.Valid;
  }

  lemma MarkedRecord(s: State, advanced: Response, requestId: string)
    requires requestId in s.requests
    ensures Answers(MarkRecovery(s, advanced), requestId, s.requests[requestId], None)
  {
  }

  /** The phases of an unfinished request: through to an idle session, or stuck at the phase that raised, with
  everything before it kept. */
  lemma EnrichOutcome(cfg: Config, s: State, n: nat, w: Work, fault: Fault)
    requires cfg.Valid() && cfg.ExecutionBounds() && Data(cfg, s, n, Some(w)) && MarkerFits(cfg, s, n, w)
    ensures n <= |cfg.snapshot| && w.requestId in s.requests
    ensures var record := s.requests[w.requestId];
            var (s', r) := Enrich(cfg, s, record.response, fault);
            Outcome(cfg, s, n, w, fault, record, s', r)
  {
    hide *;
    ValidInterval(cfg);
    WorkOf(cfg, s, n, w);
    StoredAdvance(cfg, s, n, w);
    StrategyPhase(cfg, s, n, w, fault == StrategyFault);
    var record := s.requests[w.requestId];
    EnrichUnfold(cfg, s, record.response, fault);
    if w.stage != ToEvaluate {
      ExecutionOutcome(cfg, s, n, w, record.response, fault);
    } else if fault == StrategyFault {
      MarkBlocks(cfg, s, n, w, record.response);
      MarkedRecord(s, record.response, w.requestId);
      StrategyStuck(cfg, s, n, w, record, MarkRecovery(s, record.response));
    } else {
      var (s2, r2) := Strategy(cfg, s, record.response, false).value;
      var w2 := w.(stage := ToExecute);
      MarkerStays(cfg, s, s2, n, w, w2);
      StillAdvanced(cfg, record.response, n, w, w2);
      ExecutionOutcome(cfg, s2, n, w2, record.response, fault);
      var (s', r) := EnrichFromExecution(cfg, s2, record.response, r2, fault);
      StrategyPassed(cfg, s, s2, n, w, fault, record, s2.requests[w.requestId], s', r);
    }
  }

  lemma StillAdvanced(cfg: Config, advanced: Response, n: nat, w: Work, w2: Work)
    requires cfg.interval > 0 && Advanced(cfg, advanced, n, w) && w2.requestId == w.requestId
    ensures Advanced(cfg, advanced, n, w2)
  {
    hide cfg.Total;
  }

  /** Either idle, or blocked by the given request; steps are only ever taken under valid execution bounds. */
  ghost predicate Holds(cfg: Config, s: State, n: nat, w: Option<Work>)
    requires cfg.interval > 0
  {
    && (n > 0 ==> cfg.ExecutionBounds())
    && if w.None? then Idle(cfg, s, n) else Blocked(cfg, s, n, w.value)
  }

  /** A request the step accepts as well formed. */
  predicate Admissible(cfg: Config, req: StepRequest) {
    1 <= req.steps <= MAX_STEP_CANDLES && cfg.ExecutionBounds()
  }

  /** The request repeats a stored one. */
  predicate Repeats(s: State, req: StepRequest) {
    && req.requestId in s.requests
    && s.requests[req.requestId].steps == req.steps
    && s.requests[req.requestId].expectedCursor == req.expectedCursor
  }

  /** A fresh request that an idle session takes on. */
  predicate Accepted(cfg: Config, s: State, n: nat, req: StepRequest, fault: Fault)
    requires cfg.interval > 0
  {
    && Admissible(cfg, req) && req.requestId !in s.requests
    && req.expectedCursor == s.row.cursor && |cfg.snapshot| == cfg.Total() && n < cfg.Total() && fault != AdvanceFault
  }

  lemma HoldsFacts(cfg: Config, s: State, n: nat, w: Option<Work>)
    requires cfg.interval > 0 && Holds(cfg, s, n, w)
    ensures Data(cfg, s, n, w)
    ensures w.None? ==> s.row.status == StatusAt(cfg, n) && s.row.status != Running && s.row.summary.recovery == None
    ensures w.Some? ==> s.row.status == Running && MarkerFits(cfg, s, n, w.value)
    ensures w.Some? ==> s.row.summary.recovery == Some(Recovery(StatusAt(cfg, n), w.value.requestId))
    ensures n <= cfg.Total() && n <= |cfg.snapshot| && s.row.cursor == CursorAt(cfg, n)
    ensures forall r <- s.requests :: w == None || r != w.value.requestId ==> Finished(s.requests[r].response)
    ensures w.Some? ==> w.value.requestId in s.requests && !s.requests[w.value.requestId].response.finalized && w.value.first < n
  {
    hide Replay, LogFits, DecisionsFit, cfg.ExecutionBounds;
  }

  lemma StepBegins(cfg: Config, s: State, n: nat, req: StepRequest, fault: Fault)
    requires cfg.Valid() && n <= cfg.Total() && s.row.cursor == CursorAt(cfg, n) && s.row.status == StatusAt(cfg, n)
    requires Accepted(cfg, s, n, req, fault)
    ensures var n' := n + Taken(cfg, n, req.steps);
            && n < n' <= |cfg.snapshot| == cfg.Total()
            && var (s1, advanced) := Commit(cfg, s, req, cfg.snapshot[n..n']);
               Step(cfg, s, req, fault) == Enrich(cfg, s1, advanced, fault)
  {
    AdvanceFresh(cfg, s, n, req, fault == AdvanceFault);
    hide Commit, Advance, Enrich, cfg.Valid, cfg.Total, StatusAt, CursorAt;
  }

  lemma StepResumes(cfg: Config, s: State, req: StepRequest, fault: Fault)
    requires cfg.interval > 0 && Admissible(cfg, req) && Repeats(s, req)
    ensures Step(cfg, s, req, fault) == Enrich(cfg, s, s.requests[req.requestId].response, fault)
  {
    hide Enrich;
  }

  /** An accepted request moves the cursor strictly on by the candles it takes, and then runs through or blocks
  the session at the phase that raised. */
  lemma StepAccepted(cfg: Config, s: State, n: nat, req: StepRequest, fault: Fault)
    requires cfg.Valid() && Holds(cfg, s, n, None) && Accepted(cfg, s, n, req, fault)
    ensures var n' := n + Taken(cfg, n, req.steps);
            var w := Work(req.requestId, n, ToEvaluate);
            var (s', r) := Step(cfg, s, req, fault);
            && n < n' <= |cfg.snapshot| == cfg.Total()
            && (if RunsThrough(cfg, n', w, fault) then r.Ok? && Holds(cfg, s', n', None)
                else r == Err(Raises(cfg, n', w, fault)) && Holds(cfg, s', n', Some(Stuck(cfg, n', w, fault))))
            && Repeats(s', req)
  {
    hide *;
    ValidInterval(cfg);
    HoldsFacts(cfg, s, n, None);
    StepBegins(cfg, s, n, req, fault);
    AcceptedFacts(cfg, s, n, req, fault);
    var n' := n + Taken(cfg, n, req.steps);
    AdvanceCommits(cfg, s, n, n', req);
    var (s1, advanced) := Commit(cfg, s, req, cfg.snapshot[n..n']);
    var w := Work(req.requestId, n, ToEvaluate);
    UnmarkedFits(cfg, s1, n', w);
    EnrichOutcome(cfg, s1, n', w, fault);
    var (s', r) := Enrich(cfg, s1, advanced, fault);
    HoldsIntro(cfg, s1, n', w, fault, s1.requests[w.requestId], s', r);
    CommitRepeats(cfg, s, req, cfg.snapshot[n..n']);
    AnswersRepeat(s1, s', req, if r.Ok? then Some(r.value) else None);
  }

  lemma AcceptedFacts(cfg: Config, s: State, n: nat, req: StepRequest, fault: Fault)
    requires cfg.interval > 0 && Accepted(cfg, s, n, req, fault)
    ensures req.requestId !in s.requests && cfg.ExecutionBounds() && |cfg.snapshot| == cfg.Total()
  {
  }

  lemma UnmarkedFits(cfg: Config, s: State, n: nat, w: Work)
    requires cfg.interval > 0 && s.row.summary.recovery == None
    requires Data(cfg, s, n, Some(w))
    ensures MarkerFits(cfg, s, n, w)
  {
  }

  lemma CommitRepeats(cfg: Config, s: State, req: StepRequest, candles: seq<Candle>)
    requires cfg.interval > 0 && candles != []
    ensures Repeats(Commit(cfg, s, req, candles).0, req)
  {
  }

  lemma AnswersRepeat(s: State, s': State, req: StepRequest, response: Option<Response>)
    requires Repeats(s, req) && Answers(s', req.requestId, s.requests[req.requestId], response)
    ensures Repeats(s', req)
  {
  }

  lemma HoldsIntro(cfg: Config, s: State, n: nat, w: Work, fault: Fault, record: StepRecord,
                   s': State, r: Result<Response, StepError>)
    requires cfg.interval > 0 && cfg.ExecutionBounds() && n <= |cfg.snapshot|
    requires Outcome(cfg, s, n, w, fault, record, s', r)
    ensures if RunsThrough(cfg, n, w, fault) then r.Ok? && Holds(cfg, s', n, None)
            else r == Err(Raises(cfg, n, w, fault)) && Holds(cfg, s', n, Some(Stuck(cfg, n, w, fault)))
    ensures Answers(s', w.requestId, record, if r.Ok? then Some(r.value) else None)
  {
    hide Idle, Blocked, Stuck, RunsThrough, Raises, cfg.ExecutionBounds;
  }

  /** The retry of the unfinished request resumes it at the phase that raised. */
  lemma StepRetried(cfg: Config, s: State, n: nat, w: Work, req: StepRequest, fault: Fault)
    requires cfg.Valid() && Holds(cfg, s, n, Some(w)) && Admissible(cfg, req)
    requires req.requestId == w.requestId && Repeats(s, req)
    ensures n <= |cfg.snapshot|
    ensures var (s', r) := Step(cfg, s, req, fault);
            && (if RunsThrough(cfg, n, w, fault) then r.Ok? && Holds(cfg, s', n, None)
                else r == Err(Raises(cfg, n, w, fault)) && Holds(cfg, s', n, Some(Stuck(cfg, n, w, fault))))
            && Repeats(s', req)
  {
    hide *;
    ValidInterval(cfg);
    HoldsFacts(cfg, s, n, Some(w));
    StepResumes(cfg, s, req, fault);
    AdmissibleFacts(cfg, s, req);
    EnrichOutcome(cfg, s, n, w, fault);
    var (s', r) := Enrich(cfg, s, s.requests[req.requestId].response, fault);
    HoldsIntro(cfg, s, n, w, fault, s.requests[w.requestId], s', r);
    AnswersRepeat(s, s', req, if r.Ok? then Some(r.value) else None);
  }

  lemma AdmissibleFacts(cfg: Config, s: State, req: StepRequest)
    requires Admissible(cfg, req) && Repeats(s, req)
    ensures cfg.ExecutionBounds() && req.requestId in s.requests
  {
  }

  /** Repeating a finished request returns what is stored and changes nothing. */
  lemma StepRepeated(cfg: Config, s: State, n: nat, w: Option<Work>, req: StepRequest, fault: Fault)
    requires cfg.Valid() && Holds(cfg, s, n, w) && Admissible(cfg, req)
    requires Repeats(s, req) && (w == None || req.requestId != w.value.requestId)
    ensures Step(cfg, s, req, fault) == (s, Ok(s.requests[req.requestId].response))
  {
    HoldsFacts(cfg, s, n, w);
    hide Data, Idle, Blocked, Replay, cfg.Valid, cfg.Total, cfg.ExecutionBounds, Holds, Decisions, Batch;
  }

  /** Every other request is refused and changes nothing. */
  lemma StepRefused(cfg: Config, s: State, n: nat, w: Option<Work>, req: StepRequest, fault: Fault)
    requires cfg.Valid() && Holds(cfg, s, n, w)
    requires !Admissible(cfg, req) || (!Repeats(s, req) && (w.Some? || !Accepted(cfg, s, n, req, fault)))
    ensures var (s', r) := Step(cfg, s, req, fault); s' == s && r.Err?
    ensures Admissible(cfg, req) && w.Some? ==>
              Step(cfg, s, req, fault).1 == Err(if req.requestId in s.requests then ParametersDiffer else NotSteppable)
  {
    HoldsFacts(cfg, s, n, w);
    if Admissible(cfg, req) && req.requestId !in s.requests && w.None? {
      AdvanceFresh(cfg, s, n, req, fault == AdvanceFault);
    }
    hide Data, Idle, Blocked, Replay, cfg.Valid, cfg.Total, cfg.ExecutionBounds, Holds, Enrich, CandlesBetween, BatchSize, Commit;
  }

  lemma ResetOutcome(cfg: Config, s: State, n: nat, w: Option<Work>)
    requires cfg.Valid() && Holds(cfg, s, n, w)
    ensures if w.Some? then Reset(cfg, s) == s else Holds(cfg, Reset(cfg, s), 0, None)
  {
    HoldsFacts(cfg, s, n, w);
    if w.None? {
      FreshSession(cfg, s.requests, SessionReset);
    }
    hide Data, Idle, Blocked, Replay, cfg.Valid, cfg.Total, cfg.ExecutionBounds;
  }

  lemma FreshSession(cfg: Config, requests: map<string, StepRecord>, body: Body)
    requires cfg.Valid() && body in {SessionCreated, SessionReset}
    requires forall r <- requests :: requests[r].response.requestId == r && Finished(requests[r].response)
    ensures Idle(cfg, State(InitialRow(cfg), [Event(0, body)], [], requests), 0)
  {
    var events := [Event(0, body)];
    assert cfg.Total() > 0;
    CollectNone(Bodies(events), AdvancedTime);
    CollectNone(Bodies(events), EvaluatedTime);
    CollectNone(Bodies(events), AuditNote);
    assert Grid(cfg, 0) == [];
    hide cfg.Valid, Finished, Collect, cfg.Total;
  }

  // ---------------------------------------------------------------- runs

  lemma IdleStepKeeps(cfg: Config, s: State, n: nat, req: StepRequest, fault: Fault) returns (n': nat, w': Option<Work>)
    requires cfg.Valid() && Holds(cfg, s, n, None)
    ensures Holds(cfg, Step(cfg, s, req, fault).0, n', w')
  {
    hide *;
    ValidInterval(cfg);
    if Accepted(cfg, s, n, req, fault) {
      StepAccepted(cfg, s, n, req, fault);
      n' := n + Taken(cfg, n, req.steps);
      var begun := Work(req.requestId, n, ToEvaluate);
      w' := if RunsThrough(cfg, n', begun, fault) then None else Some(Stuck(cfg, n', begun, fault));
    } else {
      n', w' := n, None;
      if Admissible(cfg, req) && Repeats(s, req) {
        StepRepeated(cfg, s, n, None, req, fault);
      } else {
        StepRefused(cfg, s, n, None, req, fault);
      }
    }
  }

  lemma BlockedStepKeeps(cfg: Config, s: State, n: nat, w: Work, req: StepRequest, fault: Fault) returns (n': nat, w': Option<Work>)
    requires cfg.Valid() && Holds(cfg, s, n, Some(w))
    ensures Holds(cfg, Step(cfg, s, req, fault).0, n', w')
  {
    n', w' := n, Some(w);
    if Admissible(cfg, req) && Repeats(s, req) {
      if req.requestId == w.requestId {
        StepRetried(cfg, s, n, w, req, fault);
        hide *;
        w' := if RunsThrough(cfg, n, w, fault) then None else Some(Stuck(cfg, n, w, fault));
      } else {
        StepRepeated(cfg, s, n, Some(w), req, fault);
      }
    } else {
      StepRefused(cfg, s, n, Some(w), req, fault);
    }
    hide *;
  }

  lemma ApplyKeeps(cfg: Config, s: State, n: nat, w: Option<Work>, op: Op) returns (n': nat, w': Option<Work>)
    requires cfg.Valid() && Holds(cfg, s, n, w)
    ensures Holds(cfg, Apply(cfg, s, op), n', w')
  {
    hide Step, Reset, Holds;
    match op
    case DoReset =>
      ResetOutcome(cfg, s, n, w);
      n', w' := if w.None? then 0 else n, w;
    case DoStep(req, fault) =>
      if w.None? {
        n', w' := IdleStepKeeps(cfg, s, n, req, fault);
      } else {
        n', w' := BlockedStepKeeps(cfg, s, n, w.value, req, fault);
      }
  }

  /** The invariant of every history. */
  lemma {:induction false} RunKeeps(cfg: Config, ops: seq<Op>) returns (n: nat, w: Option<Work>)
    requires cfg.Valid()
    ensures Holds(cfg, Run(cfg, ops), n, w)
  {
    if ops == [] {
      FreshSession(cfg, map[], SessionCreated);
      n, w := 0, None;
    } else {
      n, w := RunKeeps(cfg, ops[..|ops| - 1]);
      n, w := ApplyKeeps(cfg, Run(cfg, ops[..|ops| - 1]), n, w, ops[|ops| - 1]);
    }
  }
}

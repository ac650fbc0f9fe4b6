/** What a client of the replay can rely on, stated for every history of requests, faults and resets, with each
reset before or after a request (ReplayOvertaken has the resets in the middle of one). */
module ReplayGuarantees {
  import opened Common
  import opened ReplayMoney
  import opened ReplayExecution
  import opened ReplayAccount
  import opened ReplayFailures
  import opened ReplayPipeline
  import opened ReplayLog
  import opened ReplayRecovery

  /** How many candles the cursor has passed. */
  function Position(cfg: Config, row: SessionRow): int
    requires cfg.interval > 0
  {
    if row.cursor.None? then 0 else CandlesProcessed(cfg, row.cursor.value)
  }

  function AccountOf(s: State): Account {
    Account(s.row.balance, s.row.equity, s.trades)
  }

  function Notes(s: State): seq<Note> {
    Collect(Bodies(s.events), AuditNote)
  }

  lemma PositionIs(cfg: Config, s: State, n: nat, w: Option<Work>)
    requires cfg.interval > 0 && Holds(cfg, s, n, w)
    ensures Position(cfg, s.row) == n
  {
    hide Holds, Data, Idle, Blocked, StatusAt, Finished, MarkerFits, cfg.Total, Time;
    HoldsFacts(cfg, s, n, w);
    if n > 0 { Remaining(cfg, n - 1); }
  }

  /** Whatever the batches, retries, faults and resets between requests were: a session that is not waiting for a
  retry holds exactly the account, trades and audit notes of the pure replay of the candles behind its cursor. */
  lemma RunIsReplay(cfg: Config, ops: seq<Op>)
    requires cfg.Valid() && Run(cfg, ops).row.status != Running
    ensures var s := Run(cfg, ops);
            var n := Position(cfg, s.row);
            && 0 <= n <= |cfg.snapshot| && n <= cfg.Total()
            && Replay(cfg, n) == Ok((AccountOf(s), Notes(s)))
            && s.row.status == StatusAt(cfg, n)
  {
    var n, w := RunKeeps(cfg, ops);
    PositionIs(cfg, Run(cfg, ops), n, w);
    HoldsFacts(cfg, Run(cfg, ops), n, w);
    hide Replay, Run, Position, cfg.Valid;
  }

  /** Batch-split invariance: two histories of the same frozen session that stand at the same cursor agree on
  every trade, on balance and equity, and on every audit note. */
  lemma BatchSplitInvariance(cfg: Config, ops: seq<Op>, ops': seq<Op>)
    requires cfg.Valid() && Run(cfg, ops).row.cursor == Run(cfg, ops').row.cursor
    requires Run(cfg, ops).row.status != Running && Run(cfg, ops').row.status != Running
    ensures AccountOf(Run(cfg, ops)) == AccountOf(Run(cfg, ops')) && Notes(Run(cfg, ops)) == Notes(Run(cfg, ops'))
    ensures Run(cfg, ops).row.status == Run(cfg, ops').row.status
  {
    RunIsReplay(cfg, ops);
    RunIsReplay(cfg, ops');
    assert Position(cfg, Run(cfg, ops).row) == Position(cfg, Run(cfg, ops').row);
    hide *;
  }

  // ---------------------------------------------------------------- one request, as its client sees it

  lemma NothingRun(cfg: Config)
    requires cfg.interval > 0
    ensures Run(cfg, []) == Create(cfg)
  {
  }

  lemma RunNext(cfg: Config, ops: seq<Op>, op: Op)
    requires cfg.interval > 0
    ensures Run(cfg, ops + [op]) == Apply(cfg, Run(cfg, ops), op)
  {
    assert (ops + [op])[..|ops|] == ops;
    hide Apply;
  }

  /** Some history of whole requests and resets leads here. */
  ghost predicate Reached(cfg: Config, s: State)
    requires cfg.interval > 0
  {
    exists ops :: Run(cfg, ops) == s
  }

  /** Unless it waits for a retry, the session holds the pure replay of the candles behind its cursor. */
  predicate IsReplay(cfg: Config, s: State)
    requires cfg.interval > 0
  {
    s.row.status != Running ==>
      var n := Position(cfg, s.row);
      0 <= n <= |cfg.snapshot| && s.row.status == StatusAt(cfg, n) && Replay(cfg, n) == Ok((AccountOf(s), Notes(s)))
  }

  lemma ReachedIsReplay(cfg: Config, s: State)
    requires cfg.Valid() && Reached(cfg, s)
    ensures IsReplay(cfg, s)
  {
    var ops :| Run(cfg, ops) == s;
    hide Run, Replay, Position, cfg.Valid;
    if s.row.status != Running {
      RunIsReplay(cfg, ops);
    }
  }

  /** A request that is answered is on record, and one that raises changes nothing or leaves the session waiting for
  its retry; either way the session stays one that whole requests lead to. */
  lemma StepServes(cfg: Config, s: State, req: StepRequest, fault: Fault)
    requires cfg.Valid() && Reached(cfg, s)
    ensures var (s', r) := Step(cfg, s, req, fault);
            && Reached(cfg, s') && IsReplay(cfg, s')
            && (r.Ok? ==> Repeats(s', req))
            && (r.Err? ==> s' == s || s'.row.status == Running)
  {
    var ops :| Run(cfg, ops) == s;
    hide *;
    ValidInterval(cfg);
    var n, w := RunKeeps(cfg, ops);
    StepTells(cfg, s, n, w, req, fault);
    RunNext(cfg, ops, DoStep(req, fault));
    ApplyStep(cfg, s, req, fault);
    IsReached(cfg, ops + [DoStep(req, fault)]);
    ReachedIsReplay(cfg, Step(cfg, s, req, fault).0);
  }

  lemma IsReached(cfg: Config, ops: seq<Op>)
    requires cfg.interval > 0
    ensures Reached(cfg, Run(cfg, ops))
  {
  }

  lemma ApplyStep(cfg: Config, s: State, req: StepRequest, fault: Fault)
    requires cfg.interval > 0
    ensures Apply(cfg, s, DoStep(req, fault)) == Step(cfg, s, req, fault).0
    ensures Apply(cfg, s, DoReset) == Reset(cfg, s)
  {
    hide Step, Reset;
  }

  lemma StepTells(cfg: Config, s: State, n: nat, w: Option<Work>, req: StepRequest, fault: Fault)
    requires cfg.Valid() && Holds(cfg, s, n, w)
    ensures var (s', r) := Step(cfg, s, req, fault);
            && (r.Ok? ==> Repeats(s', req))
            && (r.Err? ==> s' == s || s'.row.status == Running)
  {
    hide *;
    ValidInterval(cfg);
    var s' := Step(cfg, s, req, fault).0;
    if w.None? && Accepted(cfg, s, n, req, fault) {
      StepAccepted(cfg, s, n, req, fault);
      var n', begun := n + Taken(cfg, n, req.steps), Work(req.requestId, n, ToEvaluate);
      if !RunsThrough(cfg, n', begun, fault) {
        HoldsFacts(cfg, s', n', Some(Stuck(cfg, n', begun, fault)));
      }
    } else if Admissible(cfg, req) && Repeats(s, req) {
      if w.Some? && req.requestId == w.value.requestId {
        StepRetried(cfg, s, n, w.value, req, fault);
        if !RunsThrough(cfg, n, w.value, fault) {
          HoldsFacts(cfg, s', n, Some(Stuck(cfg, n, w.value, fault)));
        }
      } else {
        StepRepeated(cfg, s, n, w, req, fault);
      }
    } else {
      StepRefused(cfg, s, n, w, req, fault);
    }
  }

  lemma ResetServes(cfg: Config, s: State)
    requires cfg.Valid() && Reached(cfg, s)
    ensures Reached(cfg, Reset(cfg, s))
  {
    var ops :| Run(cfg, ops) == s;
    hide *;
    ValidInterval(cfg);
    RunNext(cfg, ops, DoReset);
    ApplyStep(cfg, s, StepRequest("", 0, None), NoFault);
    IsReached(cfg, ops + [DoReset]);
  }

  // ---------------------------------------------------------------- exactly once, in order

  function MarkTimes(notes: seq<Note>): seq<int> {
    if notes == [] then []
    else MarkTimes(notes[..|notes| - 1]) + if notes[|notes| - 1].NoteMarked? then [notes[|notes| - 1].mark.time] else []
  }

  lemma {:induction false} MarkTimesConcat(a: seq<Note>, b: seq<Note>)
    ensures MarkTimes(a + b) == MarkTimes(a) + MarkTimes(b)
  {
    if b == [] {
      assert a + b == a;
    } else {
      MarkTimesConcat(a, b[..|b| - 1]);
      assert (a + b)[..|a + b| - 1] == a + b[..|b| - 1];
    }
  }

  lemma {:induction false} NoMarks(notes: seq<Note>)
    requires forall n <- notes :: !n.NoteMarked?
    ensures MarkTimes(notes) == []
  {
    if notes != [] {
      NoMarks(notes[..|notes| - 1]);
    }
  }

  lemma OneMarkPerCandle(cfg: Config, a: Account, c: Candle, d: Option<Decision>, final: bool)
    ensures var r := StepCandle(cfg, a, c, d, final); r.Ok? ==> MarkTimes(r.value.1) == [c.openTime]
  {
    PhaseNotes(cfg, a, c, d, final);
    var r := StepCandle(cfg, a, c, d, final);
    if r.Ok? {
      var front, mark := r.value.1[..|r.value.1| - 1], r.value.1[|r.value.1| - 1];
      hide StepCandle;
      NoMarks(front);
    }
  }

  lemma PhaseNotes(cfg: Config, a: Account, c: Candle, d: Option<Decision>, final: bool)
    ensures var r := StepCandle(cfg, a, c, d, final);
            r.Ok? ==>
              var n := |r.value.1| - 1;
              && n >= 0 && r.value.1[n].NoteMarked? && r.value.1[n].mark.time == c.openTime
              && forall i | 0 <= i < n :: !r.value.1[i].NoteMarked?
  {
    hide Settle, OpenTrade, ExitDecision, MarkedEquity, LoadOpen, InsertRow;
  }

  lemma {:induction false} ReplayMarks(cfg: Config, n: nat)
    requires cfg.Valid() && |cfg.snapshot| == cfg.Total() && n <= |cfg.snapshot| && Replay(cfg, n).Ok?
    ensures MarkTimes(Replay(cfg, n).value.1) == Grid(cfg, n)
  {
    hide Replay, StepCandle, PureDecision, MarkTimes;
    if n == 0 {
      NothingReplayed(cfg);
    } else {
      ReplayUnfold(cfg, n);
      ReplayMarks(cfg, n - 1);
      FullSnapshotIsGrid(cfg, n - 1);
      hide cfg.Valid, cfg.Total;
      MarksOfNext(cfg, n, Replay(cfg, n - 1).value.0, Replay(cfg, n - 1).value.1);
    }
  }

  lemma MarksOfNext(cfg: Config, n: nat, a: Account, notes: seq<Note>)
    requires cfg.interval > 0 && 0 < n <= |cfg.snapshot| && cfg.snapshot[n - 1].openTime == Time(cfg, n - 1)
    requires MarkTimes(notes) == Grid(cfg, n - 1)
    ensures var r := StepCandle(cfg, a, cfg.snapshot[n - 1], Some(PureDecision(cfg, n - 1)), n == cfg.Total());
            r.Ok? ==> MarkTimes(notes + r.value.1) == Grid(cfg, n)
  {
    hide StepCandle, PureDecision, MarkTimes, cfg.Total;
    var d, final := Some(PureDecision(cfg, n - 1)), n == cfg.Total();
    OneMarkPerCandle(cfg, a, cfg.snapshot[n - 1], d, final);
    var r := StepCandle(cfg, a, cfg.snapshot[n - 1], d, final);
    if r.Ok? {
      MarkTimesConcat(notes, r.value.1);
      assert Grid(cfg, n) == Grid(cfg, n - 1) + [Time(cfg, n - 1)];
    }
  }

  /** The batch of the request in the recovery marker ends at the cursor, and what is not evaluated or not executed
  yet is this batch as a whole. */
  predicate UnfinishedFrom(cfg: Config, s: State, n: int, evaluated: nat, executed: nat) {
    && s.row.summary.recovery.Some?
    && var id := s.row.summary.recovery.value.requestId;
       && id in s.requests
       && var batch := s.requests[id].response.candles;
          var first := n - |batch|;
          && 0 <= first < n <= |cfg.snapshot| && batch == cfg.snapshot[first..n]
          && evaluated in {first, n} && executed in {first, evaluated}
  }

  /** The audit log of any history of whole requests and resets: numbered 0 to its length without a gap, and each
  candle behind the cursor is advanced once, evaluated once and marked once, in time order.  While the session waits
  for a retry, the candles of the marked request, and none before them, may still lack their execution, or evaluation
  and execution. */
  lemma ExactlyOnceInOrder(cfg: Config, ops: seq<Op>) returns (evaluated: nat, executed: nat)
    requires cfg.Valid()
    ensures var s := Run(cfg, ops);
            var n := Position(cfg, s.row);
            && executed <= evaluated <= n
            && Numbered(s.events)
            && Collect(Bodies(s.events), AdvancedTime) == Grid(cfg, n)
            && Collect(Bodies(s.events), EvaluatedTime) == Grid(cfg, evaluated)
            && MarkTimes(Notes(s)) == Grid(cfg, executed)
            && (s.row.status != Running ==> executed == n)
            && (s.row.status == Running ==> UnfinishedFrom(cfg, s, n, evaluated, executed))
  {
    var n, w := RunKeeps(cfg, ops);
    var s := Run(cfg, ops);
    evaluated, executed := ReplayRecovery.Evaluated(n, w), ReplayRecovery.Executed(n, w);
    hide *;
    ValidInterval(cfg);
    PositionIs(cfg, s, n, w);
    HoldsLag(cfg, s, n, w);
    HoldsLog(cfg, s, n, w);
  }

  lemma LagOf(cfg: Config, s: State, n: nat, w: Work)
    requires cfg.Valid() && Data(cfg, s, n, Some(w)) && s.row.summary.recovery.Some?
    requires s.row.summary.recovery.value.requestId == w.requestId
    ensures UnfinishedFrom(cfg, s, n, ReplayRecovery.Evaluated(n, Some(w)), ReplayRecovery.Executed(n, Some(w)))
  {
    WorkOf(cfg, s, n, w);
    hide Data, cfg.Valid, cfg.Total, StatusAt, DecisionsFit, Replay;
  }

  lemma HoldsLag(cfg: Config, s: State, n: nat, w: Option<Work>)
    requires cfg.Valid() && Holds(cfg, s, n, w)
    ensures var evaluated, executed := ReplayRecovery.Evaluated(n, w), ReplayRecovery.Executed(n, w);
            && executed <= evaluated <= n
            && (s.row.status != Running ==> executed == n)
            && (s.row.status == Running ==> UnfinishedFrom(cfg, s, n, evaluated, executed))
  {
    hide Holds, Data, MarkerFits, Finished, cfg.Valid, cfg.Total, StatusAt, CursorAt, UnfinishedFrom;
    ValidInterval(cfg);
    HoldsFacts(cfg, s, n, w);
    if w.Some? { LagOf(cfg, s, n, w.value); }
  }

  lemma HoldsLog(cfg: Config, s: State, n: nat, w: Option<Work>)
    requires cfg.Valid() && Holds(cfg, s, n, w)
    ensures var evaluated, executed := ReplayRecovery.Evaluated(n, w), ReplayRecovery.Executed(n, w);
            && Numbered(s.events)
            && Collect(Bodies(s.events), AdvancedTime) == Grid(cfg, n)
            && Collect(Bodies(s.events), EvaluatedTime) == Grid(cfg, evaluated)
            && MarkTimes(Notes(s)) == Grid(cfg, executed)
  {
    HoldsFacts(cfg, s, n, w);
    hide Holds, Replay, MarkTimes, Collect, Grid, Numbered, cfg.Valid, cfg.Total, RequestsFit, CursorAt, StatusAt, MarkerFits, Finished;
    var executed := ReplayRecovery.Executed(n, w);
    if n > 0 {
      ReplayMarks(cfg, executed);
    } else {
      assert executed == 0;
      NothingReplayed(cfg);
    }
  }

  lemma NothingReplayed(cfg: Config)
    requires cfg.interval > 0
    ensures Replay(cfg, 0).Ok? && MarkTimes(Replay(cfg, 0).value.1) == Grid(cfg, 0)
  {
    assert Grid(cfg, 0) == [];
  }

  // ---------------------------------------------------------------- blocking and resuming

  /** While a request is unfinished nothing but its own retry changes the session: not another request, not the
  same id with other parameters, not a reset. */
  lemma FailedStepBlocks(cfg: Config, s: State, n: nat, w: Work, op: Op)
    requires cfg.Valid() && Holds(cfg, s, n, Some(w))
    requires op.DoReset? || !(Admissible(cfg, op.req) && op.req.requestId == w.requestId && Repeats(s, op.req))
    ensures Apply(cfg, s, op) == s
  {
    hide Step, Holds, Reset, cfg.Valid;
    match op
    case DoReset => ResetOutcome(cfg, s, n, Some(w));
    case DoStep(req, fault) =>
      if Admissible(cfg, req) && Repeats(s, req) {
        StepRepeated(cfg, s, n, Some(w), req, fault);
      } else {
        StepRefused(cfg, s, n, Some(w), req, fault);
      }
  }

  /** Without a further store fault, the retry finishes the step if and only if no candle behind the cursor meets the
  guard of the execution; otherwise it raises again and the session stays blocked.  Inputs on the scale of the price
  grid meet it nowhere. */
  lemma RetryFinishes(cfg: Config, s: State, n: nat, w: Work, req: StepRequest)
    requires cfg.Valid() && Holds(cfg, s, n, Some(w)) && Admissible(cfg, req)
    requires req.requestId == w.requestId && Repeats(s, req)
    ensures n <= |cfg.snapshot|
    ensures var (s', r) := Step(cfg, s, req, NoFault);
            && (r.Ok? <==> forall i | 0 <= i < n :: !FailsAt(cfg, i))
            && (r.Ok? ==> Holds(cfg, s', n, None))
            && (r.Err? ==> Holds(cfg, s', n, Some(w.(stage := ToExecute))))
    ensures InputsOnScale(cfg, n) ==> Step(cfg, s, req, NoFault).1.Ok?
  {
    hide *;
    ValidInterval(cfg);
    StepRetried(cfg, s, n, w, req, NoFault);
    AdmissibleFacts(cfg, s, req);
    ReplayFailsExactly(cfg, n);
    if InputsOnScale(cfg, n) {
      OnScaleReplays(cfg, n);
    }
    if w.stage == ToFinalize {
      WorkReplayed(cfg, s, n, w);
    }
    NoFaultRuns(cfg, n, w);
  }

  lemma NoFaultRuns(cfg: Config, n: nat, w: Work)
    requires cfg.interval > 0 && n <= |cfg.snapshot| && (w.stage == ToFinalize ==> Replay(cfg, n).Ok?)
    ensures RunsThrough(cfg, n, w, NoFault) <==> Replay(cfg, n).Ok?
    ensures Replay(cfg, n).Err? ==> Stuck(cfg, n, w, NoFault) == w.(stage := ToExecute)
  {
    hide Replay;
  }

  lemma WorkReplayed(cfg: Config, s: State, n: nat, w: Work)
    requires cfg.interval > 0 && Holds(cfg, s, n, Some(w)) && w.stage == ToFinalize
    ensures n <= |cfg.snapshot| && Replay(cfg, n).Ok?
  {
    HoldsFacts(cfg, s, n, Some(w));
    hide Replay, LogFits, RequestsFit;
  }

  function ApplyAll(cfg: Config, s: State, ops: seq<Op>): State
    requires cfg.interval > 0
  {
    if ops == [] then s else Apply(cfg, ApplyAll(cfg, s, ops[..|ops| - 1]), ops[|ops| - 1])
  }

  /** A candle that meets the guard is there forever: the session never finishes the step, never executes another
  candle, and cannot be reset either. */
  lemma {:induction false} PriceErrorIsForever(cfg: Config, s: State, n: nat, w: Work, i: nat, ops: seq<Op>) returns (w': Work)
    requires cfg.Valid() && Holds(cfg, s, n, Some(w)) && i < n <= |cfg.snapshot| && FailsAt(cfg, i)
    ensures var s' := ApplyAll(cfg, s, ops);
            Holds(cfg, s', n, Some(w')) && w'.stage != ToFinalize && w'.first == w.first && w'.requestId == w.requestId
  {
    hide *;
    ValidInterval(cfg);
    NeverReplays(cfg, s, n, w, i);
    w' := w;
    if ops == [] {
      NothingApplied(cfg, s);
    } else {
      w' := PriceErrorIsForever(cfg, s, n, w, i, ops[..|ops| - 1]);
      var s1, op := ApplyAll(cfg, s, ops[..|ops| - 1]), ops[|ops| - 1];
      LastApplied(cfg, s, ops);
      if op.DoStep? && Admissible(cfg, op.req) && op.req.requestId == w'.requestId && Repeats(s1, op.req) {
        StepRetried(cfg, s1, n, w', op.req, op.fault);
        StaysStuck(cfg, n, w', op.fault);
        w' := Stuck(cfg, n, w', op.fault);
      } else {
        FailedStepBlocks(cfg, s1, n, w', op);
      }
    }
  }

  lemma NeverReplays(cfg: Config, s: State, n: nat, w: Work, i: nat)
    requires cfg.Valid() && Holds(cfg, s, n, Some(w)) && i < n <= |cfg.snapshot| && FailsAt(cfg, i)
    ensures Replay(cfg, n).Err? && w.stage != ToFinalize
  {
    HoldsBounds(cfg, s, n, Some(w));
    hide *;
    ReplayFailsExactly(cfg, n);
    if w.stage == ToFinalize {
      WorkReplayed(cfg, s, n, w);
    }
  }

  lemma HoldsBounds(cfg: Config, s: State, n: nat, w: Option<Work>)
    requires cfg.interval > 0 && Holds(cfg, s, n, w)
    ensures n > 0 ==> cfg.ExecutionBounds()
  {
    hide Idle, Blocked;
  }

  lemma NothingApplied(cfg: Config, s: State)
    requires cfg.interval > 0
    ensures ApplyAll(cfg, s, []) == s
  {
  }

  lemma LastApplied(cfg: Config, s: State, ops: seq<Op>)
    requires cfg.interval > 0 && ops != []
    ensures var s1, op := ApplyAll(cfg, s, ops[..|ops| - 1]), ops[|ops| - 1];
            && ApplyAll(cfg, s, ops) == Apply(cfg, s1, op)
            && (op.DoStep? ==> ApplyAll(cfg, s, ops) == Step(cfg, s1, op.req, op.fault).0)
  {
    hide Step, Reset;
  }

  lemma StaysStuck(cfg: Config, n: nat, w: Work, fault: Fault)
    requires cfg.interval > 0 && n <= |cfg.snapshot| && Replay(cfg, n).Err? && w.stage != ToFinalize
    ensures !RunsThrough(cfg, n, w, fault) && Stuck(cfg, n, w, fault).stage != ToFinalize
    ensures Stuck(cfg, n, w, fault).first == w.first && Stuck(cfg, n, w, fault).requestId == w.requestId
  {
    hide Replay;
  }

  /** An accepted request strictly lowers the number of candles left, whether or not it then runs through. */
  lemma AcceptedStepsShrink(cfg: Config, ops: seq<Op>, req: StepRequest, fault: Fault)
    requires cfg.Valid()
    requires var s := Run(cfg, ops);
             s.row.status != Running && req.requestId !in s.requests && Step(cfg, s, req, fault).0 != s
    ensures var s, s' := Run(cfg, ops), Step(cfg, Run(cfg, ops), req, fault).0;
            && Position(cfg, s.row) < Position(cfg, s'.row) <= cfg.Total()
            && Position(cfg, s'.row) == Position(cfg, s.row) + MinInt(req.steps, cfg.Total() - Position(cfg, s.row))
  {
    hide Run, Step, Holds, Position;
    var n, w := RunKeeps(cfg, ops);
    var s := Run(cfg, ops);
    assert cfg.interval > 0;
    hide cfg.Valid;
    assert w == None by { HoldsFacts(cfg, s, n, w); }
    ShrinkAt(cfg, s, n, req, fault);
  }

  lemma ShrinkAt(cfg: Config, s: State, n: nat, req: StepRequest, fault: Fault)
    requires cfg.Valid() && Holds(cfg, s, n, None) && req.requestId !in s.requests && Step(cfg, s, req, fault).0 != s
    ensures var s' := Step(cfg, s, req, fault).0;
            && Position(cfg, s.row) == n < Position(cfg, s'.row) <= cfg.Total()
            && Position(cfg, s'.row) == n + MinInt(req.steps, cfg.Total() - n)
  {
    hide Step, Holds, cfg.Valid, Position, Accepted, RunsThrough, Stuck;
    ValidInterval(cfg);
    PositionIs(cfg, s, n, None);
    if Accepted(cfg, s, n, req, fault) {
      StepAccepted(cfg, s, n, req, fault);
      var s' := Step(cfg, s, req, fault).0;
      var n', begun := n + Taken(cfg, n, req.steps), Work(req.requestId, n, ToEvaluate);
      PositionIs(cfg, s', n', if RunsThrough(cfg, n', begun, fault) then None else Some(Stuck(cfg, n', begun, fault)));
    } else {
      StepRefused(cfg, s, n, None, req, fault);
    }
  }

  // ---------------------------------------------------------------- money and trades

  /** In every reachable state, between requests and in the middle of a failed one: balance and equity are not
  negative, the balance is exactly the initial balance plus realized results minus the open entry fee (counted
  on the money grid once there is a trade), and there is at most one open trade, the last one. */
  lemma ReachableAccountOk(cfg: Config, ops: seq<Op>)
    requires cfg.Valid()
    ensures AccountOk(cfg, AccountOf(Run(cfg, ops)))
  {
    var n, w := RunKeeps(cfg, ops);
    var s := Run(cfg, ops);
    HoldsFacts(cfg, s, n, w);
    var executed := ReplayRecovery.Executed(n, w);
    assert n > 0 ==> cfg.ExecutionBounds();
    hide Run, Holds, AccountOk, Replay, LogFits, RequestsFit;
    if executed > 0 {
      ReplayKeeps(cfg, executed);
    } else {
      InitialAccountOk(cfg);
      ReplayZero(cfg);
      assert InitialAccount(cfg) == Account(cfg.initial, cfg.initial, []);
    }
  }

  /** A completed session has no open trade, and its net result is the sum of the realized results if and only
  if the initial balance lies on the money grid, nothing was traded, or the sum is not a gain. */
  lemma CompletedSession(cfg: Config, ops: seq<Op>)
    requires cfg.Valid() && Run(cfg, ops).row.status == Completed
    ensures var s := Run(cfg, ops);
            && LoadOpen(s.trades) == None
            && (Trunc(s.row.balance - cfg.initial) == RealizedTotal(s.trades) <==>
                  Trunc(cfg.initial) as real == cfg.initial || s.trades == [] || RealizedTotal(s.trades) <= 0)
  {
    hide Run, Data, Replay, LoadOpen, AccountOk, RealizedTotal, Position, Idle, Blocked;
    var s := Run(cfg, ops);
    var n, w := RunKeeps(cfg, ops);
    HoldsFacts(cfg, s, n, w);
    assert w == None && n == cfg.Total() && n > 0;
    assert cfg.ExecutionBounds();
    hide Holds;
    PositionIs(cfg, s, n, w);
    RunIsReplay(cfg, ops);
    ReachableAccountOk(cfg, ops);
    ReplayKeeps(cfg, n);
    assert cfg.initial > 0.0;
    hide cfg.Valid, cfg.Total, StatusAt;
    NetOfSettled(cfg, AccountOf(s));
  }

  lemma NetOfSettled(cfg: Config, a: Account)
    requires AccountOk(cfg, a) && LoadOpen(a.trades) == None && cfg.initial > 0.0
    ensures Trunc(a.balance - cfg.initial) == RealizedTotal(a.trades) <==>
            Trunc(cfg.initial) as real == cfg.initial || a.trades == [] || RealizedTotal(a.trades) <= 0
  {
    assert forall t <- a.trades :: !t.IsOpen();
    BookedIsRealized(a.trades);
    assert a.trades == [] ==> RealizedTotal(a.trades) == 0;
    hide LoadOpen, TableOk, Booked, RealizedTotal;
    NetOfTruncated(cfg.initial, RealizedTotal(a.trades));
  }

  lemma NetOfTruncated(initial: real, sum: int)
    requires initial > 0.0
    ensures Trunc((Trunc(initial) + sum) as real - initial) == sum <==> Trunc(initial) as real == initial || sum <= 0
    ensures Trunc(initial - initial) == 0
  {
  }
}

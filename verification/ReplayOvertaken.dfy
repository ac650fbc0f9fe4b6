/** A reset from another instance in the middle of a request.  The lock that keeps requests apart is not taken by a
reset, and between two phases the status is not RUNNING, so the reset is accepted and the phases behind it go on. */
module ReplayOvertaken {
  import opened Common
  import opened ReplayExecution
  import opened ReplayAccount
  import opened ReplayPipeline
  import opened ReplayAnswers
  import opened ReplayRecovery
  import opened ReplayGuarantees

  /** Behind which committed phases, and whether before the marker of a phase that raised, a reset arrives. */
  datatype Gaps = Gaps(afterAdvance: bool, afterStrategy: bool, afterExecution: bool, beforeMarker: bool)

  datatype Call = Request(req: StepRequest, fault: Fault, gaps: Gaps) | ResetCall

  /** The rows, and whether a reset was accepted since the advance. */
  datatype Amid = Amid(state: State, landed: bool) {
    function Arrive(cfg: Config, here: bool): Amid {
      if here && state.row.status != Running then Amid(Reset(cfg, state), true) else this
    }
  }

  function Marked(cfg: Config, a: Amid, advanced: Response, gaps: Gaps): Amid {
    var b := a.Arrive(cfg, gaps.beforeMarker);
    b.(state := MarkRecovery(b.state, advanced))
  }

  function FinalizeAmid(cfg: Config, a: Amid, advanced: Response, r: Response, fault: Fault, gaps: Gaps): Amid {
    match Finalize(a.state, r, fault == FinalizeFault)
    case Err(e) => Marked(cfg, a, advanced, gaps)
    case Ok((s, r')) => a.(state := s)
  }

  function ExecutionAmid(cfg: Config, a: Amid, advanced: Response, r: Response, fault: Fault, gaps: Gaps): Amid {
    match Execution(cfg, a.state, r, fault == ExecutionFault)
    case Err(e) => Marked(cfg, a, advanced, gaps)
    case Ok((s, r')) => FinalizeAmid(cfg, a.(state := s).Arrive(cfg, gaps.afterExecution), advanced, r', fault, gaps)
  }

  function StrategyAmid(cfg: Config, a: Amid, advanced: Response, fault: Fault, gaps: Gaps): Amid {
    match Strategy(cfg, a.state, advanced, fault == StrategyFault)
    case Err(e) => Marked(cfg, a, advanced, gaps)
    case Ok((s, r)) => ExecutionAmid(cfg, a.(state := s).Arrive(cfg, gaps.afterStrategy), advanced, r, fault, gaps)
  }

  /** A request with resets in its gaps.  It is overtaken if one is accepted while the request is unfinished. */
  function StepAmid(cfg: Config, s: State, req: StepRequest, fault: Fault, gaps: Gaps): Amid
    requires cfg.interval > 0
  {
    if !(1 <= req.steps <= MAX_STEP_CANDLES) || !cfg.ExecutionBounds() then Amid(s, false)
    else
      match Advance(cfg, s, req, fault == AdvanceFault)
      case Err(e) => Amid(s, false)
      case Ok((s1, advanced)) =>
        var a := StrategyAmid(cfg, Amid(s1, false).Arrive(cfg, gaps.afterAdvance), advanced, fault, gaps);
        a.(landed := a.landed && !advanced.finalized)
  }

  function Follow(cfg: Config, s: State, call: Call): Amid
    requires cfg.interval > 0
  {
    match call
    case Request(req, fault, gaps) => StepAmid(cfg, s, req, fault, gaps)
    case ResetCall => Amid(Reset(cfg, s), false)
  }

  /** The session after calls in which resets may overlap requests. */
  function RunAmid(cfg: Config, calls: seq<Call>): State
    requires cfg.interval > 0
  {
    if calls == [] then Create(cfg) else Follow(cfg, RunAmid(cfg, calls[..|calls| - 1]), calls[|calls| - 1]).state
  }

  /** What every history of whole requests and resets keeps. */
  ghost predicate Sound(cfg: Config, s: State)
    requires cfg.interval > 0
  {
    exists n: nat, w: Option<Work> :: Holds(cfg, s, n, w)
  }

  // ---------------------------------------------------------------- no reset accepted

  lemma NotMarked(cfg: Config, a: Amid, advanced: Response, gaps: Gaps)
    ensures !Marked(cfg, a, advanced, gaps).landed ==>
              !a.landed && Marked(cfg, a, advanced, gaps).state == MarkRecovery(a.state, advanced)
  {
    hide MarkRecovery;
  }

  lemma NotLandedFinalize(cfg: Config, a: Amid, advanced: Response, r: Response, fault: Fault, gaps: Gaps)
    ensures var b := FinalizeAmid(cfg, a, advanced, r, fault, gaps);
            !b.landed ==> !a.landed && b.state == EnrichFromFinalize(a.state, advanced, r, fault).0
  {
    NotMarked(cfg, a, advanced, gaps);
    hide Marked, MarkRecovery, Finalize;
  }

  lemma NotLandedExecution(cfg: Config, a: Amid, advanced: Response, r: Response, fault: Fault, gaps: Gaps)
    ensures var b := ExecutionAmid(cfg, a, advanced, r, fault, gaps);
            !b.landed ==> !a.landed && b.state == EnrichFromExecution(cfg, a.state, advanced, r, fault).0
  {
    NotMarked(cfg, a, advanced, gaps);
    hide Marked, MarkRecovery, Execution, EnrichFromFinalize, FinalizeAmid, Reset;
    var out := Execution(cfg, a.state, r, fault == ExecutionFault);
    if out.Ok? {
      NotLandedFinalize(cfg, a.(state := out.value.0).Arrive(cfg, gaps.afterExecution), advanced, out.value.1, fault, gaps);
    }
  }

  lemma NotLandedStrategy(cfg: Config, a: Amid, advanced: Response, fault: Fault, gaps: Gaps)
    ensures var b := StrategyAmid(cfg, a, advanced, fault, gaps);
            !b.landed ==> !a.landed && b.state == Enrich(cfg, a.state, advanced, fault).0
  {
    NotMarked(cfg, a, advanced, gaps);
    hide Marked, MarkRecovery, Strategy, EnrichFromExecution, ExecutionAmid, Reset;
    var out := Strategy(cfg, a.state, advanced, fault == StrategyFault);
    if out.Ok? {
      NotLandedExecution(cfg, a.(state := out.value.0).Arrive(cfg, gaps.afterStrategy), advanced, out.value.1, fault, gaps);
    }
  }

  // ---------------------------------------------------------------- a reset accepted

  predicate AtRest(status: Status) {
    status in {Paused, Completed}
  }

  /** A response that still has phases to run, and will not set the status back to READY. */
  predicate Open(r: Response) {
    r.candles != [] && !r.finalized && (r.execution.Some? ==> AtRest(r.session.status))
  }

  /** An unfinished request, with or without a reset since its advance. */
  predicate Busy(s: State, r: Response) {
    && Open(r) && r.requestId in s.requests && Open(s.requests[r.requestId].response)
    && s.requests[r.requestId].response.requestId == r.requestId
    && (s.row.summary.recovery.Some? ==> AtRest(s.row.summary.recovery.value.finalStatus))
  }

  /** After an accepted reset the cursor is gone for the rest of the request. */
  predicate CursorGone(a: Amid) {
    a.landed ==> a.state.row.cursor == None
  }

  lemma ArriveBusy(cfg: Config, a: Amid, r: Response, here: bool)
    requires Busy(a.state, r) && CursorGone(a)
    ensures Busy(a.Arrive(cfg, here).state, r) && CursorGone(a.Arrive(cfg, here))
  {
  }

  lemma MarkedBusy(cfg: Config, a: Amid, advanced: Response, gaps: Gaps)
    requires CursorGone(a) && advanced.candles != []
    ensures CursorGone(Marked(cfg, a, advanced, gaps)) && Marked(cfg, a, advanced, gaps).state.row.status == Running
  {
  }

  lemma FinalizeBusy(cfg: Config, a: Amid, advanced: Response, r: Response, fault: Fault, gaps: Gaps)
    requires Busy(a.state, r) && CursorGone(a) && advanced.candles != [] && r.execution.Some?
    ensures var b := FinalizeAmid(cfg, a, advanced, r, fault, gaps); CursorGone(b) && b.state.row.status != Ready
  {
    MarkedBusy(cfg, a, advanced, gaps);
    hide Marked;
  }

  lemma ExecutedBusy(cfg: Config, s: State, r: Response, fault: bool)
    requires Busy(s, r)
    ensures var out := Execution(cfg, s, r, fault);
            out.Ok? ==> Busy(out.value.0, out.value.1) && out.value.1.execution.Some? && out.value.0.row.cursor == s.row.cursor
  {
    hide Batch, CountOpened, CountClosed, CountSkipped, CountOpenRows, ExecutionBodies, Append, cfg.ExecutionBounds;
  }

  lemma StrategyBusy(cfg: Config, s: State, r: Response, fault: bool)
    requires Busy(s, r)
    ensures var out := Strategy(cfg, s, r, fault);
            out.Ok? ==> Busy(out.value.0, out.value.1) && out.value.0.row.cursor == s.row.cursor
  {
    hide Decisions, StrategyBodies, Append;
  }

  lemma ExecutionEnds(cfg: Config, a: Amid, advanced: Response, r: Response, fault: Fault, gaps: Gaps)
    requires Busy(a.state, r) && CursorGone(a) && advanced.candles != []
    ensures var b := ExecutionAmid(cfg, a, advanced, r, fault, gaps); CursorGone(b) && b.state.row.status != Ready
  {
    MarkedBusy(cfg, a, advanced, gaps);
    ExecutedBusy(cfg, a.state, r, fault == ExecutionFault);
    hide Marked, Execution, Busy, FinalizeAmid, Reset;
    var out := Execution(cfg, a.state, r, fault == ExecutionFault);
    if out.Ok? {
      var b := a.(state := out.value.0);
      ArriveBusy(cfg, b, out.value.1, gaps.afterExecution);
      FinalizeBusy(cfg, b.Arrive(cfg, gaps.afterExecution), advanced, out.value.1, fault, gaps);
    }
  }

  lemma StrategyEnds(cfg: Config, a: Amid, advanced: Response, fault: Fault, gaps: Gaps)
    requires Busy(a.state, advanced) && CursorGone(a) && advanced.candles != []
    ensures var b := StrategyAmid(cfg, a, advanced, fault, gaps); CursorGone(b) && b.state.row.status != Ready
  {
    MarkedBusy(cfg, a, advanced, gaps);
    StrategyBusy(cfg, a.state, advanced, fault == StrategyFault);
    hide Marked, Strategy, Busy, ExecutionAmid, Reset;
    var out := Strategy(cfg, a.state, advanced, fault == StrategyFault);
    if out.Ok? {
      var b := a.(state := out.value.0);
      ArriveBusy(cfg, b, out.value.1, gaps.afterStrategy);
      ExecutionEnds(cfg, b.Arrive(cfg, gaps.afterStrategy), advanced, out.value.1, fault, gaps);
    }
  }

  /** Without a cursor the only status a history of whole operations leaves is READY. */
  lemma NoCursorMeansReady(cfg: Config, s: State)
    requires cfg.interval > 0
    ensures Sound(cfg, s) && s.row.cursor == None ==> s.row.status == Ready
  {
    hide Holds, CursorAt;
    forall n: nat, w: Option<Work> | Holds(cfg, s, n, w)
      ensures s.row.cursor == None ==> s.row.status == Ready
    {
      HoldsFacts(cfg, s, n, w);
      CursorSome(cfg, n);
    }
  }

  lemma CursorSome(cfg: Config, n: nat)
    ensures CursorAt(cfg, n) == None <==> n == 0
  {
  }

  /** What the advance hands on: an unfinished request, or the stored response of a finished one. */
  lemma AdvanceBusy(cfg: Config, s: State, n: nat, w: Option<Work>, req: StepRequest, fault: bool)
    requires cfg.Valid() && Holds(cfg, s, n, w) && 1 <= req.steps
    ensures var out := Advance(cfg, s, req, fault);
            out.Ok? ==>
              if out.value.1.finalized then out.value.0 == s && Finished(out.value.1)
              else Busy(out.value.0, out.value.1)
  {
    hide Holds, Data, CandlesBetween, AdvanceBodies, Append, CandlesLeft, CandlesProcessed, BatchSize, ExpectedTimes, cfg.Valid, cfg.Total;
    ValidInterval(cfg);
    HoldsFacts(cfg, s, n, w);
    RequestsNamed(cfg, s, n, w);
    if w.Some? {
      WorkIsBusy(cfg, s, n, w.value);
    }
  }

  lemma RequestsNamed(cfg: Config, s: State, n: nat, w: Option<Work>)
    requires cfg.interval > 0 && Data(cfg, s, n, w)
    ensures forall r <- s.requests :: s.requests[r].response.requestId == r
  {
    hide WorkFits, Agrees, Replay;
  }

  lemma WorkIsBusy(cfg: Config, s: State, n: nat, w: Work)
    requires cfg.Valid() && Data(cfg, s, n, Some(w)) && s.row.summary.recovery == Some(Recovery(StatusAt(cfg, n), w.requestId))
    ensures w.requestId in s.requests && Busy(s, s.requests[w.requestId].response)
  {
    hide Agrees, Replay, DecisionsFit;
  }

  // ---------------------------------------------------------------- exactly without overtaking

  lemma ResetTwice(cfg: Config, s: State)
    ensures Reset(cfg, Reset(cfg, s)) == Reset(cfg, s)
  {
  }

  lemma ArriveResets(cfg: Config, a: Amid, s: State, here: bool)
    requires a.state in {s, Reset(cfg, s)}
    ensures a.Arrive(cfg, here).state in {s, Reset(cfg, s)}
  {
    ResetTwice(cfg, s);
    hide Reset;
  }

  /** Repeating a finished request runs no phase, so a reset in its gaps is a reset before or after it. */
  lemma FinishedAmid(cfg: Config, a: Amid, s: State, r: Response, fault: Fault, gaps: Gaps)
    requires Finished(r) && a.state in {s, Reset(cfg, s)}
    ensures StrategyAmid(cfg, a, r, fault, gaps).state in {s, Reset(cfg, s)}
  {
    var b := a.Arrive(cfg, gaps.afterStrategy);
    ArriveResets(cfg, a, s, gaps.afterStrategy);
    ArriveResets(cfg, b, s, gaps.afterExecution);
    hide Reset, Marked, Decisions, Batch, ReplayPipeline.Executed, StoreResponse;
  }

  /** The advance, and what the request is from there on. */
  lemma StepAmidUnfold(cfg: Config, s: State, req: StepRequest, fault: Fault, gaps: Gaps)
    requires cfg.interval > 0
    ensures var a := StepAmid(cfg, s, req, fault, gaps);
            if !Admissible(cfg, req) then a == Amid(s, false) && Step(cfg, s, req, fault).0 == s
            else
              var out := Advance(cfg, s, req, fault == AdvanceFault);
              if out.Err? then a == Amid(s, false) && Step(cfg, s, req, fault).0 == s
              else
                var (s1, advanced) := out.value;
                var b := StrategyAmid(cfg, Amid(s1, false).Arrive(cfg, gaps.afterAdvance), advanced, fault, gaps);
                && a == b.(landed := b.landed && !advanced.finalized)
                && Step(cfg, s, req, fault) == Enrich(cfg, s1, advanced, fault)
  {
    hide Advance, StrategyAmid, Enrich, cfg.ExecutionBounds, Reset;
  }

  /** A request that a reset overtakes leaves a session without a cursor that is not READY: no history of whole
  requests and resets leads there. */
  lemma OvertakenIsUnsound(cfg: Config, s: State, n: nat, w: Option<Work>, req: StepRequest, fault: Fault, gaps: Gaps)
    requires cfg.Valid() && Holds(cfg, s, n, w) && StepAmid(cfg, s, req, fault, gaps).landed
    ensures var s' := StepAmid(cfg, s, req, fault, gaps).state;
            s'.row.cursor == None && s'.row.status != Ready && !Sound(cfg, s')
  {
    hide *;
    ValidInterval(cfg);
    StepAmidUnfold(cfg, s, req, fault, gaps);
    AdmissibleSteps(cfg, req);
    AdvanceBusy(cfg, s, n, w, req, fault == AdvanceFault);
    var (s1, advanced) := Advance(cfg, s, req, fault == AdvanceFault).value;
    BusyStart(cfg, s1, advanced, gaps.afterAdvance);
    StrategyEnds(cfg, Amid(s1, false).Arrive(cfg, gaps.afterAdvance), advanced, fault, gaps);
    var a := StepAmid(cfg, s, req, fault, gaps);
    GoneMeans(a, StrategyAmid(cfg, Amid(s1, false).Arrive(cfg, gaps.afterAdvance), advanced, fault, gaps));
    NoCursorMeansReady(cfg, a.state);
  }

  lemma AdmissibleSteps(cfg: Config, req: StepRequest)
    requires Admissible(cfg, req)
    ensures 1 <= req.steps
  {
  }

  lemma BusyStart(cfg: Config, s: State, r: Response, here: bool)
    requires Busy(s, r)
    ensures var a := Amid(s, false).Arrive(cfg, here); Busy(a.state, r) && CursorGone(a) && r.candles != []
  {
    ArriveBusy(cfg, Amid(s, false), r, here);
  }

  lemma GoneMeans(a: Amid, b: Amid)
    requires CursorGone(b) && a.state == b.state && (a.landed ==> b.landed)
    ensures a.landed ==> a.state.row.cursor == None
  {
  }

  /** Nothing stands in the way of it: a fresh request is overtaken whenever a reset arrives behind its advance. */
  lemma FreshIsOvertaken(cfg: Config, s: State, n: nat, req: StepRequest, fault: Fault, gaps: Gaps)
    requires cfg.Valid() && Holds(cfg, s, n, None) && Accepted(cfg, s, n, req, fault) && gaps.afterAdvance
    ensures StepAmid(cfg, s, req, fault, gaps).landed
  {
    hide *;
    ValidInterval(cfg);
    HoldsFacts(cfg, s, n, None);
    AcceptedFacts(cfg, s, n, req, fault);
    AcceptedAdvances(cfg, s, n, req, fault);
    AdmissibleSteps(cfg, req);
    StepAmidUnfold(cfg, s, req, fault, gaps);
    var (s1, advanced) := Advance(cfg, s, req, fault == AdvanceFault).value;
    AcceptedArrives(cfg, s1, gaps.afterAdvance);
    NotLandedStrategy(cfg, Amid(s1, false).Arrive(cfg, gaps.afterAdvance), advanced, fault, gaps);
  }

  /** Nor does the marker: a reset that arrives between a phase that raised and its marker is accepted, and the marker then
  blocks a session without a cursor. */
  lemma MarkerIsOvertaken(cfg: Config, s: State, n: nat, req: StepRequest)
    requires cfg.Valid() && Holds(cfg, s, n, None) && Accepted(cfg, s, n, req, StrategyFault)
    ensures var a := StepAmid(cfg, s, req, StrategyFault, Gaps(false, false, false, true));
            && a.landed && a.state.row.status == Running && a.state.row.cursor == None && a.state.trades == []
            && a.state.row.summary.recovery.Some? && a.state.row.summary.recovery.value.requestId == req.requestId
  {
    hide *;
    ValidInterval(cfg);
    HoldsFacts(cfg, s, n, None);
    AcceptedFacts(cfg, s, n, req, StrategyFault);
    AcceptedAdvances(cfg, s, n, req, StrategyFault);
    AdmissibleSteps(cfg, req);
    var gaps := Gaps(false, false, false, true);
    StepAmidUnfold(cfg, s, req, StrategyFault, gaps);
    StepBegins(cfg, s, n, req, StrategyFault);
    AdvanceFresh(cfg, s, n, req, false);
    var n' := n + Taken(cfg, n, req.steps);
    CommitIs(cfg, s, n, n', req);
    var (s1, advanced) := Commit(cfg, s, req, cfg.snapshot[n..n']);
    FreshIs(s1, advanced);
    StrategyRaises(cfg, s1, advanced, gaps);
  }

  lemma StrategyRaises(cfg: Config, s: State, a: Response, gaps: Gaps)
    requires Fresh(s, a) && s.row.status != Running && gaps == Gaps(false, false, false, true)
    ensures var b := StrategyAmid(cfg, Amid(s, false).Arrive(cfg, gaps.afterAdvance), a, StrategyFault, gaps);
            && b.landed && b.state.row.status == Running && b.state.row.cursor == None && b.state.trades == []
            && b.state.row.summary.recovery.Some? && b.state.row.summary.recovery.value.requestId == a.requestId
  {
    hide Decisions, Append, StrategyBodies, Execution;
  }

  lemma AcceptedAdvances(cfg: Config, s: State, n: nat, req: StepRequest, fault: Fault)
    requires cfg.Valid() && n <= cfg.Total() && s.row.cursor == CursorAt(cfg, n) && s.row.status == StatusAt(cfg, n)
    requires Accepted(cfg, s, n, req, fault)
    ensures Admissible(cfg, req)
    ensures var out := Advance(cfg, s, req, fault == AdvanceFault);
            out.Ok? && !out.value.1.finalized && out.value.0.row.status != Running
  {
    AdvanceFresh(cfg, s, n, req, fault == AdvanceFault);
    hide Advance, cfg.Valid, cfg.Total, StatusAt, CursorAt, AdvanceBodies, Append, CandlesLeft, CandlesProcessed, cfg.ExecutionBounds;
  }

  lemma AcceptedArrives(cfg: Config, s: State, here: bool)
    requires s.row.status != Running && here
    ensures Amid(s, false).Arrive(cfg, here).landed
  {
  }

  /** A request that no reset overtakes is a whole request, or a whole reset and the repeat of a finished one. */
  lemma NotOvertaken(cfg: Config, s: State, n: nat, w: Option<Work>, req: StepRequest, fault: Fault, gaps: Gaps)
    requires cfg.Valid() && Holds(cfg, s, n, w) && !StepAmid(cfg, s, req, fault, gaps).landed
    ensures StepAmid(cfg, s, req, fault, gaps).state in {Step(cfg, s, req, fault).0, s, Reset(cfg, s)}
  {
    hide *;
    ValidInterval(cfg);
    StepAmidUnfold(cfg, s, req, fault, gaps);
    if Admissible(cfg, req) {
      AdmissibleSteps(cfg, req);
      AdvanceBusy(cfg, s, n, w, req, fault == AdvanceFault);
      var out := Advance(cfg, s, req, fault == AdvanceFault);
      if out.Ok? {
        var (s1, advanced) := out.value;
        var a := Amid(s1, false).Arrive(cfg, gaps.afterAdvance);
        if advanced.finalized {
          ArriveResets(cfg, Amid(s1, false), s, gaps.afterAdvance);
          FinishedAmid(cfg, a, s, advanced, fault, gaps);
        } else {
          NotLandedStrategy(cfg, a, advanced, fault, gaps);
          NotArrived(cfg, s1, gaps.afterAdvance);
        }
      }
    }
  }

  lemma NotArrived(cfg: Config, s: State, here: bool)
    ensures !Amid(s, false).Arrive(cfg, here).landed ==> Amid(s, false).Arrive(cfg, here).state == s
  {
    hide Reset;
  }

  /** One call keeps the session sound if and only if no reset overtakes it. */
  lemma SoundUnlessOvertaken(cfg: Config, s: State, call: Call)
    requires cfg.Valid() && Sound(cfg, s)
    ensures Sound(cfg, Follow(cfg, s, call).state) <==> !Follow(cfg, s, call).landed
  {
    var n: nat, w: Option<Work> :| Holds(cfg, s, n, w);
    hide Holds, StepAmid, Reset, cfg.Valid;
    match call
    case ResetCall =>
      var _, _ := ApplyKeeps(cfg, s, n, w, DoReset);
    case Request(req, fault, gaps) =>
      if StepAmid(cfg, s, req, fault, gaps).landed {
        OvertakenIsUnsound(cfg, s, n, w, req, fault, gaps);
      } else {
        NotOvertaken(cfg, s, n, w, req, fault, gaps);
        var _, _ := ApplyKeeps(cfg, s, n, w, DoStep(req, fault));
        var _, _ := ApplyKeeps(cfg, s, n, w, DoReset);
      }
  }

  /** As long as no reset overtakes a request, overlapping calls come to a history of whole ones, for which the
  guarantees of the replay are stated. */
  lemma {:induction false} WithoutOvertaking(cfg: Config, calls: seq<Call>) returns (ops: seq<Op>)
    requires cfg.Valid()
    requires forall k | 0 <= k < |calls| :: !Follow(cfg, RunAmid(cfg, calls[..k]), calls[k]).landed
    ensures RunAmid(cfg, calls) == Run(cfg, ops)
  {
    hide Follow, Run, cfg.Valid;
    ValidInterval(cfg);
    if calls == [] {
      ops := [];
      NothingRun(cfg);
    } else {
      var m := |calls| - 1;
      assert forall k | 0 <= k < m :: calls[..m][..k] == calls[..k];
      ops := WithoutOvertaking(cfg, calls[..m]);
      var s := Run(cfg, ops);
      var n, w := RunKeeps(cfg, ops);
      var op := OneCall(cfg, s, n, w, calls[m]);
      if op.Some? {
        RunNext(cfg, ops, op.value);
        ops := ops + [op.value];
      }
    }
  }

  lemma OneCall(cfg: Config, s: State, n: nat, w: Option<Work>, call: Call) returns (op: Option<Op>)
    requires cfg.Valid() && Holds(cfg, s, n, w) && !Follow(cfg, s, call).landed
    ensures Follow(cfg, s, call).state == if op.Some? then Apply(cfg, s, op.value) else s
  {
    ValidInterval(cfg);
    hide Holds, StepAmid, Reset, Step, cfg.Valid;
    match call
    case ResetCall => op := Some(DoReset);
    case Request(req, fault, gaps) =>
      NotOvertaken(cfg, s, n, w, req, fault, gaps);
      var s' := StepAmid(cfg, s, req, fault, gaps).state;
      op := if s' == s then None else if s' == Reset(cfg, s) then Some(DoReset) else Some(DoStep(req, fault));
  }
}

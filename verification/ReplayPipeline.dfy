/** The step pipeline of a replay session over its durable rows: advance, strategy, execution, finalize, each
committed on its own, with the recovery marker and reset.  A phase that raises leaves nothing behind. */
module ReplayPipeline {
  import opened Common
  import opened ReplayMoney
  import opened ReplayExecution

  const MAX_STEP_CANDLES := 100

  datatype Status = Ready | Running | Paused | Completed

  /** The three recovery keys of the summary, which are always written and removed together. */
  datatype Recovery = Recovery(finalStatus: Status, requestId: string)

  datatype Summary = Summary(recovery: Option<Recovery>, executionSimulated: bool, processed: int, remaining: int)

  datatype SessionRow = SessionRow(status: Status, cursor: Option<int>, balance: real, equity: real, summary: Summary)

  datatype Report = Report(opens: nat, closes: nat, skips: nat, openTrades: nat, netPnl: int)

  /** The stored response of a step; the phases fill in decisions, execution and finalized. */
  datatype Response = Response(
    requestId: string, previousCursor: Option<int>, cursor: int, remaining: int, completed: bool,
    session: SessionRow, candles: seq<Candle>,
    decisions: Option<seq<Decision>>, execution: Option<Report>, finalized: bool)

  datatype StepRequest = StepRequest(requestId: string, steps: int, expectedCursor: Option<int>)

  datatype StepRecord = StepRecord(steps: int, expectedCursor: Option<int>, response: Response)

  datatype Body =
    | SessionCreated
    | SessionReset
    | StepStarted(requestId: string)
    | CandleAdvanced(requestId: string, time: int)
    | StepCompleted(requestId: string, time: int)
    | StrategyEvaluated(requestId: string, decision: Decision)
    | RiskCandidate(requestId: string, time: int)
    | ExecutionStarted(requestId: string)
    | Audit(requestId: string, note: Note)
    | ExecutionCompleted(requestId: string, time: int)

  datatype Event = Event(sequenceNo: int, body: Body)

  /** The rows of one session. */
  datatype State = State(row: SessionRow, events: seq<Event>, trades: seq<Trade>, requests: map<string, StepRecord>)

  datatype StepError =
    | InvalidSteps | InvalidConfiguration | ParametersDiffer | NotSteppable | CursorChanged
    | DataIncomplete | NoRemainingCandles | RecordMissing | StrategyIncomplete
    | ExecutionFailed(cause: ExecError) | StoreFailure

  /** At which committed phase, if any, the store raises. */
  datatype Fault = NoFault | AdvanceFault | StrategyFault | ExecutionFault | FinalizeFault

  // ---------------------------------------------------------------- events

  /** COALESCE(MAX(sequence_no), -1) */
  function MaxSequence(events: seq<Event>): int {
    if events == [] then -1
    else MaxInt(events[|events| - 1].sequenceNo, MaxSequence(events[..|events| - 1]))
  }

  function Stamp(first: int, bodies: seq<Body>): (r: seq<Event>)
    ensures |r| == |bodies|
  {
    seq(|bodies|, i requires 0 <= i < |bodies| => Event(first + i, bodies[i]))
  }

  function Append(events: seq<Event>, bodies: seq<Body>): seq<Event> {
    events + Stamp(MaxSequence(events) + 1, bodies)
  }

  // ---------------------------------------------------------------- creation and reset

  function InitialRow(cfg: Config): SessionRow {
    SessionRow(Ready, None, cfg.initial, cfg.initial, Summary(None, false, 0, 0))
  }

  function Create(cfg: Config): State {
    State(InitialRow(cfg), [Event(0, SessionCreated)], [], map[])
  }

  /** Clear simulated activity, keep the request history; refused while running. */
  function Reset(cfg: Config, s: State): State {
    if s.row.status == Running then s
    else State(InitialRow(cfg), [Event(0, SessionReset)], [], s.requests)
  }

  // ---------------------------------------------------------------- phase 1: advance the cursor

  /** The snapshot rows with open time in the range, in time order. */
  function CandlesBetween(candles: seq<Candle>, lo: int, hi: int): seq<Candle> {
    if candles == [] then []
    else (if lo <= candles[0].openTime <= hi then [candles[0]] else []) + CandlesBetween(candles[1..], lo, hi)
  }

  function Times(candles: seq<Candle>): seq<int> {
    seq(|candles|, i requires 0 <= i < |candles| => candles[i].openTime)
  }

  function ExpectedTimes(first: int, interval: int, count: nat): seq<int> {
    seq(count, i => first + i * interval)
  }

  function AdvanceBodies(requestId: string, candles: seq<Candle>): seq<Body>
    requires candles != []
  {
    [StepStarted(requestId)]
    + seq(|candles|, i requires 0 <= i < |candles| => CandleAdvanced(requestId, candles[i].openTime))
    + [StepCompleted(requestId, candles[|candles| - 1].openTime)]
  }

  function NextTime(cfg: Config, cursor: Option<int>): int {
    if cursor.None? then cfg.start else cursor.value + cfg.interval
  }

  function BatchSize(cfg: Config, next: int, steps: int): nat
    requires cfg.interval > 0 && next <= cfg.end && 1 <= steps
  {
    MinInt(steps, (cfg.end - next) / cfg.interval + 1)
  }

  function BatchCandles(cfg: Config, next: int, count: nat): seq<Candle> {
    CandlesBetween(cfg.snapshot, next, next + (count - 1) * cfg.interval)
  }

  function CandlesLeft(cfg: Config, cursor: int): int
    requires cfg.interval > 0
  {
    (cfg.end - cursor) / cfg.interval
  }

  function CandlesProcessed(cfg: Config, cursor: int): int
    requires cfg.interval > 0
  {
    (cursor - cfg.start) / cfg.interval + 1
  }

  /** The response is stored with the record it answers, and an old record answers its own request again. */
  function Advance(cfg: Config, s: State, req: StepRequest, fault: bool): Result<(State, Response), StepError>
    requires cfg.interval > 0 && 1 <= req.steps
  {
    if req.requestId in s.requests then
      var known := s.requests[req.requestId];
      if known.steps != req.steps || known.expectedCursor != req.expectedCursor then Err(ParametersDiffer)
      else Ok((s, known.response))
    else if s.row.status !in {Ready, Paused} then Err(NotSteppable)
    else if req.expectedCursor != s.row.cursor then Err(CursorChanged)
    else if |cfg.snapshot| != cfg.Total() then Err(DataIncomplete)
    else
      var next := NextTime(cfg, s.row.cursor);
      if next > cfg.end then Err(NoRemainingCandles)
      else
        var count := BatchSize(cfg, next, req.steps);
        var candles := BatchCandles(cfg, next, count);
        if Times(candles) != ExpectedTimes(next, cfg.interval, count) || candles == [] then Err(DataIncomplete)
        else if fault then Err(StoreFailure)
        else Ok(Commit(cfg, s, req, candles))
  }

  function Commit(cfg: Config, s: State, req: StepRequest, candles: seq<Candle>): (State, Response)
    requires cfg.interval > 0 && candles != []
  {
    var cursor := candles[|candles| - 1].openTime;
    var remaining := CandlesLeft(cfg, cursor);
    var completed := remaining == 0;
    var row := s.row.(
      status := if completed then Completed else Paused,
      cursor := Some(cursor),
      summary := s.row.summary.(executionSimulated := false,
                                processed := CandlesProcessed(cfg, cursor), remaining := remaining));
    var response := Response(req.requestId, s.row.cursor, cursor, remaining, completed, row, candles, None, None, false);
    (State(row, Append(s.events, AdvanceBodies(req.requestId, candles)), s.trades,
           s.requests[req.requestId := StepRecord(req.steps, req.expectedCursor, response)]),
     response)
  }

  function StoreResponse(s: State, response: Response): State
    requires response.requestId in s.requests
  {
    s.(requests := s.requests[response.requestId := s.requests[response.requestId].(response := response)])
  }

  // ---------------------------------------------------------------- phase 2: strategy

  function CandlesUpTo(candles: seq<Candle>, hi: int): seq<Candle> {
    if candles == [] then []
    else (if candles[0].openTime <= hi then [candles[0]] else []) + CandlesUpTo(candles[1..], hi)
  }

  function Decisions(cfg: Config, candles: seq<Candle>, equity: real): seq<Decision> {
    seq(|candles|, i requires 0 <= i < |candles| =>
      Decide(cfg, CandlesUpTo(cfg.snapshot, candles[i].openTime), candles[i].openTime, equity))
  }

  function StrategyBodies(requestId: string, decisions: seq<Decision>): seq<Body> {
    if decisions == [] then []
    else
      var d := decisions[|decisions| - 1];
      StrategyBodies(requestId, decisions[..|decisions| - 1]) + [StrategyEvaluated(requestId, d)]
      + if d.verdict.plan.Some? then [RiskCandidate(requestId, d.time)] else []
  }

  function Strategy(cfg: Config, s: State, response: Response, fault: bool): Result<(State, Response), StepError> {
    if response.candles == [] || response.decisions.Some? then Ok((s, response))
    else if response.requestId !in s.requests then Err(RecordMissing)
    else if s.requests[response.requestId].response.decisions.Some? then Ok((s, s.requests[response.requestId].response))
    else if fault then Err(StoreFailure)
    else
      var decisions := Decisions(cfg, response.candles, response.session.equity);
      var enriched := response.(decisions := Some(decisions));
      Ok((StoreResponse(s.(events := Append(s.events, StrategyBodies(response.requestId, decisions))), enriched), enriched))
  }

  // ---------------------------------------------------------------- phase 3: execution

  /** The decision stored for a candle; a later one of the same time wins. */
  function Lookup(decisions: seq<Decision>, time: int): Option<Decision> {
    if decisions == [] then None
    else if decisions[|decisions| - 1].time == time then Some(decisions[|decisions| - 1])
    else Lookup(decisions[..|decisions| - 1], time)
  }

  /** The first k candles of a batch. */
  function Batch(cfg: Config, a: Account, candles: seq<Candle>, decisions: seq<Decision>, target: Status, k: nat)
    : Result<(Account, seq<Note>), ExecError>
    requires k <= |candles|
  {
    if k == 0 then Ok((a, []))
    else
      var (b, notes) :- Batch(cfg, a, candles, decisions, target, k - 1);
      var c := candles[k - 1];
      var final := target == Completed && c.openTime == candles[|candles| - 1].openTime;
      var (b', more) :- StepCandle(cfg, b, c, Lookup(decisions, c.openTime), final);
      Ok((b', notes + more))
  }

  function AuditBodies(requestId: string, notes: seq<Note>): seq<Body> {
    seq(|notes|, i requires 0 <= i < |notes| => Audit(requestId, notes[i]))
  }

  function ExecutionBodies(requestId: string, notes: seq<Note>, last: int): seq<Body> {
    [ExecutionStarted(requestId)] + AuditBodies(requestId, notes) + [ExecutionCompleted(requestId, last)]
  }

  function CountOpened(notes: seq<Note>): nat {
    if notes == [] then 0 else CountOpened(notes[..|notes| - 1]) + if notes[|notes| - 1].NoteOpened? then 1 else 0
  }

  function CountClosed(notes: seq<Note>): nat {
    if notes == [] then 0 else CountClosed(notes[..|notes| - 1]) + if notes[|notes| - 1].NoteClosed? then 1 else 0
  }

  function CountSkipped(notes: seq<Note>): nat {
    if notes == [] then 0 else CountSkipped(notes[..|notes| - 1]) + if notes[|notes| - 1].NoteSkipped? then 1 else 0
  }

  function CountOpenRows(trades: seq<Trade>): nat {
    if trades == [] then 0 else CountOpenRows(trades[..|trades| - 1]) + if trades[|trades| - 1].IsOpen() then 1 else 0
  }

  function TargetStatus(s: State, response: Response): Status {
    if s.row.summary.recovery.Some? then s.row.summary.recovery.value.finalStatus
    else if response.completed then Completed else Paused
  }

  function Execution(cfg: Config, s: State, response: Response, fault: bool): Result<(State, Response), StepError> {
    if response.candles == [] || response.execution.Some? then Ok((s, response))
    else if response.decisions.None? then Err(StrategyIncomplete)
    else if response.requestId !in s.requests then Err(RecordMissing)
    else
      var stored := s.requests[response.requestId].response;
      if stored.execution.Some? then Ok((s, stored))
      else if stored.decisions.None? || stored.candles == [] then Err(StrategyIncomplete)
      else if !cfg.ExecutionBounds() then Err(InvalidConfiguration)
      else
        var target := TargetStatus(s, stored);
        var run := Batch(cfg, Account(s.row.balance, s.row.equity, s.trades),
                         stored.candles, stored.decisions.value, target, |stored.candles|);
        if run.Err? then Err(ExecutionFailed(run.error))
        else if fault then Err(StoreFailure)
        else Ok(Executed(cfg, s, stored.(requestId := response.requestId), target, run.value.0, run.value.1))
  }

  function Executed(cfg: Config, s: State, stored: Response, target: Status, a: Account, notes: seq<Note>): (State, Response)
    requires stored.requestId in s.requests && stored.candles != []
  {
    var report := Report(CountOpened(notes), CountClosed(notes), CountSkipped(notes), CountOpenRows(a.trades),
                         Trunc(a.balance - cfg.initial));
    var row := s.row.(status := target, balance := a.balance, equity := a.equity,
                      summary := s.row.summary.(recovery := None, executionSimulated := true));
    var bodies := ExecutionBodies(stored.requestId, notes, stored.candles[|stored.candles| - 1].openTime);
    var response := stored.(session := row, execution := Some(report));
    (StoreResponse(State(row, Append(s.events, bodies), a.trades, s.requests), response), response)
  }

  // ---------------------------------------------------------------- phase 4: finalize

  function Finalize(s: State, response: Response, fault: bool): Result<(State, Response), StepError> {
    if response.execution.None? || response.finalized then Ok((s, response))
    else if response.requestId !in s.requests then Err(RecordMissing)
    else if fault then Err(StoreFailure)
    else
      var report := response.execution.value;
      var active := report.opens > 0 || report.closes > 0 || report.openTrades > 0;
      var summary := response.session.summary.(recovery := None, executionSimulated := active);
      var done := response.(session := response.session.(summary := summary), finalized := true);
      Ok((StoreResponse(s.(row := s.row.(status := response.session.status, summary := summary)), done), done))
  }

  // ---------------------------------------------------------------- one step

  /** Block later requests until this one is finished. */
  function MarkRecovery(s: State, advanced: Response): State {
    if advanced.candles == [] then s
    else
      var target := if advanced.completed then Completed else Paused;
      s.(row := s.row.(status := Running,
                       summary := s.row.summary.(recovery := Some(Recovery(target, advanced.requestId)))))
  }

  /** The phases after the advance, from the given one on; a phase that raises leaves the marker. */
  function Enrich(cfg: Config, s: State, advanced: Response, fault: Fault): (State, Result<Response, StepError>) {
    match Strategy(cfg, s, advanced, fault == StrategyFault)
    case Err(e) => (MarkRecovery(s, advanced), Err(e))
    case Ok((s2, r2)) => EnrichFromExecution(cfg, s2, advanced, r2, fault)
  }

  function EnrichFromExecution(cfg: Config, s: State, advanced: Response, r: Response, fault: Fault)
    : (State, Result<Response, StepError>)
  {
    match Execution(cfg, s, r, fault == ExecutionFault)
    case Err(e) => (MarkRecovery(s, advanced), Err(e))
    case Ok((s3, r3)) => EnrichFromFinalize(s3, advanced, r3, fault)
  }

  function EnrichFromFinalize(s: State, advanced: Response, r: Response, fault: Fault): (State, Result<Response, StepError>) {
    match Finalize(s, r, fault == FinalizeFault)
    case Err(e) => (MarkRecovery(s, advanced), Err(e))
    case Ok((s4, r4)) => (s4, Ok(r4))
  }

  function Step(cfg: Config, s: State, req: StepRequest, fault: Fault): (State, Result<Response, StepError>)
    requires cfg.interval > 0
  {
    if !(1 <= req.steps <= MAX_STEP_CANDLES) then (s, Err(InvalidSteps))
    else if !cfg.ExecutionBounds() then (s, Err(InvalidConfiguration))
    else
      match Advance(cfg, s, req, fault == AdvanceFault)
      case Err(e) => (s, Err(e))
      case Ok((s1, advanced)) => Enrich(cfg, s1, advanced, fault)
  }

  // ---------------------------------------------------------------- runs

  /** Whole requests and resets, one after the other.  The program keeps requests apart by a lock; that resets keep
  out of them is an assumption, and ReplayOvertaken says exactly what it takes. */
  datatype Op = DoStep(req: StepRequest, fault: Fault) | DoReset

  function Apply(cfg: Config, s: State, op: Op): State
    requires cfg.interval > 0
  {
    match op
    case DoStep(req, fault) => Step(cfg, s, req, fault).0
    case DoReset => Reset(cfg, s)
  }

  /** The session after a history of requests, faults and resets. */
  function Run(cfg: Config, ops: seq<Op>): State
    requires cfg.interval > 0
  {
    if ops == [] then Create(cfg) else Apply(cfg, Run(cfg, ops[..|ops| - 1]), ops[|ops| - 1])
  }
}

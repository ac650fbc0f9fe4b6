/** The session rows as they are updated in place: one method per committed phase, each proved to do exactly
what the pipeline specification says.  A raised error leaves the rows as they were. */
module ReplayStore {
  import opened Common
  import opened ReplayMoney
  import opened ReplayExecution
  import opened ReplayPipeline
  import ReplayRecovery
  import G = ReplayGuarantees

  // ---------------------------------------------------------------- the local open trade

  /** At most one row is OPEN, so the local variable that follows the open trade is all there is to know. */
  predicate SingleOpen(trades: seq<Trade>) {
    forall i, j | 0 <= i < |trades| && 0 <= j < |trades| && trades[i].IsOpen() && trades[j].IsOpen() :: i == j
  }

  lemma {:induction false} LoadAfterInsert(trades: seq<Trade>, t: Trade)
    requires LoadOpen(trades) == None && t.IsOpen()
    ensures LoadOpen(trades + [t]) == Some(t) && SingleOpen(trades + [t])
  {
    if trades != [] {
      assert trades[0] in trades;
      assert forall u <- trades[1..] :: u in trades;
      LoadAfterInsert(trades[1..], t);
      assert (trades + [t])[1..] == trades[1..] + [t];
    }
    assert forall i | 0 <= i < |trades| :: trades[i] in trades;
  }

  lemma {:induction false} LoadAfterClose(trades: seq<Trade>, t: Trade, closed: Trade)
    requires SingleOpen(trades) && LoadOpen(trades) == Some(t) && closed.id == t.id && !closed.IsOpen()
    ensures CloseRow(trades, closed).Ok? && LoadOpen(CloseRow(trades, closed).value) == None
    ensures SingleOpen(CloseRow(trades, closed).value)
  {
    if trades[0].IsOpen() {
      assert forall i | 0 < i < |trades| :: !trades[i].IsOpen();
      assert forall u <- [closed] + trades[1..] :: !u.IsOpen();
    } else {
      assert SingleOpen(trades[1..]) by {
        assert forall i | 0 <= i < |trades[1..]| :: trades[1..][i] == trades[i + 1];
      }
      LoadAfterClose(trades[1..], t, closed);
    }
  }

  // ---------------------------------------------------------------- one candle, step by step

  /** The values the candle loop carries, with the audit notes written so far. */
  datatype Loop = Loop(balance: real, equity: real, open: Option<Trade>, table: seq<Trade>, notes: seq<Note>) {
    function Books(): Account {
      Account(balance, equity, table)
    }

    /** The local open trade is the one the table would load. */
    predicate Follows() {
      open == LoadOpen(table) && SingleOpen(table)
    }
  }

  method ExitPhase(cfg: Config, l: Loop, c: Candle) returns (r: Result<Loop, ExecError>)
    requires l.Follows()
    ensures var spec := ApplyExit(cfg, l.Books(), c);
            if spec.Err? then r == Err(spec.error)
            else r.Ok? && r.value.Follows() && r.value.Books() == spec.value.0 && r.value.notes == l.notes + spec.value.1
  {
    r := Ok(l);
    if l.open.Some? {
      var exit := ExitDecision(l.open.value, c);
      if exit.Err? {
        return Err(exit.error);
      }
      if exit.value.Some? {
        r := SettlePhase(cfg, l, c, exit.value.value);
      }
    }
  }

  method SettlePhase(cfg: Config, l: Loop, c: Candle, e: Exit) returns (r: Result<Loop, ExecError>)
    requires l.Follows() && l.open.Some?
    ensures var spec := Settle(cfg, l.Books(), l.open.value, c, e);
            if spec.Err? then r == Err(spec.error)
            else
              && r.Ok? && r.value.Follows() && r.value.open == None && r.value.Books() == spec.value.0
              && r.value.notes == l.notes + [NoteClosed(c.openTime, spec.value.1)]
  {
    hide GrossPnl, Fee, QuantizePrice, LimitedLiability;
    var closing := CloseTrade(l.open.value, c, e, cfg.feeBps, l.balance);
    if closing.Err? {
      return Err(closing.error);
    }
    var (closed, delta) := closing.value;
    var table := CloseRow(l.table, closed);
    if table.Err? {
      return Err(table.error);
    }
    LoadAfterClose(l.table, l.open.value, closed);
    hide CloseTrade, LoadOpen, SingleOpen;
    var balance := Trunc(l.balance + delta as real) as real;
    if balance < 0.0 {
      return Err(NegativeBalance);
    }
    r := Ok(Loop(balance, balance, None, table.value, l.notes + [NoteClosed(c.openTime, closed)]));
  }

  method EntryPhase(cfg: Config, l: Loop, c: Candle, d: Option<Decision>, final: bool) returns (r: Result<Loop, ExecError>)
    requires l.Follows()
    ensures var spec := ApplyEntry(cfg, l.Books(), c, d, final);
            if spec.Err? then r == Err(spec.error)
            else r.Ok? && r.value.Follows() && r.value.Books() == spec.value.0 && r.value.notes == l.notes + spec.value.1
  {
    hide OpenTrade;
    r := Ok(l);
    if d.Some? && d.value.verdict.eligible {
      var skipped: Option<SkipReason> := None;
      if l.open.Some? {
        skipped := Some(OpenTradeExists);
      } else if final {
        skipped := Some(SessionFinalCandle);
      } else if l.equity <= 0.0 || l.balance <= 0.0 {
        skipped := Some(AccountDepleted);
      } else {
        var o := OpenTrade(cfg, d.value, c, l.balance, l.equity);
        if o.Err? {
          return Err(o.error);
        }
        if o.value.Opened? {
          var t := o.value.trade;
          OpenedIsOpen(cfg, d.value, c, l.balance, l.equity);
          var table := InsertRow(l.table, t);
          if table.Err? {
            return Err(table.error);
          }
          LoadAfterInsert(l.table, t);
          hide LoadOpen, SingleOpen, InsertRow;
          r := Ok(Loop(Trunc(l.balance - t.fees as real) as real, l.equity, Some(t), table.value,
                       l.notes + [NoteOpened(c.openTime, t)]));
          return;
        }
        skipped := Some(o.value.reason);
      }
      r := Ok(l.(notes := l.notes + [NoteSkipped(c.openTime, skipped.value)]));
    }
  }

  lemma OpenedIsOpen(cfg: Config, d: Decision, c: Candle, balance: real, equity: real)
    ensures var r := OpenTrade(cfg, d, c, balance, equity); r.Ok? && r.value.Opened? ==> r.value.trade.IsOpen()
  {
    hide Quantity, Fee, QuantizePrice, RiskAmount;
  }

  method SessionEndPhase(cfg: Config, l: Loop, c: Candle, final: bool) returns (r: Result<Loop, ExecError>)
    requires l.Follows()
    ensures var spec := ApplySessionEnd(cfg, l.Books(), c, final);
            if spec.Err? then r == Err(spec.error)
            else r.Ok? && r.value.Follows() && r.value.Books() == spec.value.0 && r.value.notes == l.notes + spec.value.1
  {
    r := Ok(l);
    if final && l.open.Some? {
      r := SettlePhase(cfg, l, c, Exit(SessionEnd, c.close, false));
    }
  }

  /** One round of the candle loop. */
  method StepLoop(cfg: Config, l: Loop, c: Candle, d: Option<Decision>, final: bool) returns (r: Result<Loop, ExecError>)
    requires l.Follows()
    ensures var spec := StepCandle(cfg, l.Books(), c, d, final);
            if spec.Err? then r == Err(spec.error)
            else r.Ok? && r.value.Follows() && r.value.Books() == spec.value.0 && r.value.notes == l.notes + spec.value.1
  {
    hide ApplyExit, ApplyEntry, ApplySessionEnd, MarkedEquity, LoadOpen, SingleOpen;
    r := ExitPhase(cfg, l, c);
    if r.Err? { return; }
    r := EntryPhase(cfg, r.value, c, d, final);
    if r.Err? { return; }
    r := SessionEndPhase(cfg, r.value, c, final);
    if r.Err? { return; }
    var m := r.value;
    var equity := MarkedEquity(m.balance, m.open, c.close);
    if equity.Err? {
      return Err(equity.error);
    }
    var mark := Mark(c.openTime, m.balance, equity.value.0 as real, equity.value.1,
                     if m.open.Some? then Some(m.open.value.id) else None);
    r := Ok(m.(equity := mark.equity, notes := m.notes + [NoteMarked(mark)]));
  }

  // ---------------------------------------------------------------- event loops

  /** Number and append the events of an advance; each candle's number is its index after the start event. */
  method AdvanceEvents(events: seq<Event>, requestId: string, candles: seq<Candle>) returns (log: seq<Event>)
    requires candles != []
    ensures log == Append(events, AdvanceBodies(requestId, candles))
  {
    var started := MaxSequence(events) + 1;
    var completed := started + |candles| + 1;
    ghost var bodies := AdvanceBodies(requestId, candles);
    log := events + [Event(started, StepStarted(requestId))];
    for index := 0 to |candles|
      invariant log == events + Stamp(started, bodies)[..index + 1]
    {
      log := log + [Event(started + index + 1, CandleAdvanced(requestId, candles[index].openTime))];
      assert bodies[index + 1] == CandleAdvanced(requestId, candles[index].openTime);
    }
    log := log + [Event(completed, StepCompleted(requestId, candles[|candles| - 1].openTime))];
    assert Stamp(started, bodies) == Stamp(started, bodies)[..|candles| + 1] + [Event(completed, bodies[|candles| + 1])];
  }

  lemma StampConcat(first: int, a: seq<Body>, b: seq<Body>)
    ensures Stamp(first, a + b) == Stamp(first, a) + Stamp(first + |a|, b)
  {
  }

  lemma StrategyBodiesNext(first: int, requestId: string, before: seq<Decision>, d: Decision)
    ensures var more := [StrategyEvaluated(requestId, d)] + if d.verdict.plan.Some? then [RiskCandidate(requestId, d.time)] else [];
            var bodies := StrategyBodies(requestId, before);
            && StrategyBodies(requestId, before + [d]) == bodies + more
            && Stamp(first, bodies + more) == Stamp(first, bodies) + Stamp(first + |bodies|, more)
            && Stamp(first + |bodies|, more)
               == [Event(first + |bodies|, more[0])] + if |more| > 1 then [Event(first + |bodies| + 1, more[1])] else []
  {
    assert (before + [d])[..|before|] == before;
    var more := [StrategyEvaluated(requestId, d)] + if d.verdict.plan.Some? then [RiskCandidate(requestId, d.time)] else [];
    StampConcat(first, StrategyBodies(requestId, before), more);
  }

  /** Evaluate candle after candle, with one event for the decision and one for its risk plan. */
  method StrategyEvents(cfg: Config, events: seq<Event>, requestId: string, candles: seq<Candle>, equity: real)
    returns (log: seq<Event>, decisions: seq<Decision>)
    ensures decisions == Decisions(cfg, candles, equity)
    ensures log == Append(events, StrategyBodies(requestId, decisions))
  {
    var first := MaxSequence(events) + 1;
    var sequence := first;
    log, decisions := events, [];
    for i := 0 to |candles|
      invariant decisions == Decisions(cfg, candles, equity)[..i]
      invariant log == events + Stamp(first, StrategyBodies(requestId, decisions))
      invariant sequence == first + |StrategyBodies(requestId, decisions)|
    {
      var d := Decide(cfg, CandlesUpTo(cfg.snapshot, candles[i].openTime), candles[i].openTime, equity);
      hide Decide, CandlesUpTo, StrategyBodies, Stamp, MaxSequence;
      ghost var before := decisions;
      var added := [Event(sequence, StrategyEvaluated(requestId, d))];
      sequence := sequence + 1;
      if d.verdict.plan.Some? {
        added := added + [Event(sequence, RiskCandidate(requestId, d.time))];
        sequence := sequence + 1;
      }
      log := log + added;
      decisions := decisions + [d];
      StrategyBodiesNext(first, requestId, before, d);
    }
    assert Decisions(cfg, candles, equity)[..|candles|] == Decisions(cfg, candles, equity);
  }

  /** A batch that fails at some candle fails as a whole, with that error. */
  lemma {:induction false} BatchStops(cfg: Config, a: Account, candles: seq<Candle>, ds: seq<Decision>, target: Status, k: nat, n: nat)
    requires k <= n <= |candles| && Batch(cfg, a, candles, ds, target, k).Err?
    ensures Batch(cfg, a, candles, ds, target, n) == Batch(cfg, a, candles, ds, target, k)
  {
    hide StepCandle, Lookup;
    if k < n {
      BatchStops(cfg, a, candles, ds, target, k, n - 1);
    }
  }

  lemma BatchNext(cfg: Config, a: Account, candles: seq<Candle>, ds: seq<Decision>, target: Status, k: nat)
    requires 0 < k <= |candles| && Batch(cfg, a, candles, ds, target, k - 1).Ok?
    ensures var (b, notes) := Batch(cfg, a, candles, ds, target, k - 1).value;
            var c := candles[k - 1];
            var next := StepCandle(cfg, b, c, Lookup(ds, c.openTime),
                                   target == Completed && c.openTime == candles[|candles| - 1].openTime);
            Batch(cfg, a, candles, ds, target, k) ==
              if next.Err? then Err(next.error) else Ok((next.value.0, notes + next.value.1))
  {
    hide StepCandle, Lookup;
  }

  /** The candle loop of a batch. */
  method BatchLoop(cfg: Config, a: Account, candles: seq<Candle>, ds: seq<Decision>, target: Status)
    returns (r: Result<Loop, ExecError>)
    requires SingleOpen(a.trades)
    ensures var spec := Batch(cfg, a, candles, ds, target, |candles|);
            if spec.Err? then r == Err(spec.error)
            else r.Ok? && r.value.Follows() && (r.value.Books(), r.value.notes) == spec.value
  {
    hide StepCandle, Lookup, LoadOpen, SingleOpen;
    var l := Loop(a.balance, a.equity, LoadOpen(a.trades), a.trades, []);
    var i := 0;
    while i < |candles|
      invariant 0 <= i <= |candles| && l.Follows()
      invariant Batch(cfg, a, candles, ds, target, i) == Ok((l.Books(), l.notes))
    {
      hide StepCandle, Lookup, LoadOpen, SingleOpen, Batch;
      BatchNext(cfg, a, candles, ds, target, i + 1);
      var c := candles[i];
      var final := target == Completed && c.openTime == candles[|candles| - 1].openTime;
      var step := StepLoop(cfg, l, c, Lookup(ds, c.openTime), final);
      if step.Err? {
        BatchStops(cfg, a, candles, ds, target, i + 1, |candles|);
        return Err(step.error);
      }
      l := step.value;
      i := i + 1;
    }
    r := Ok(l);
  }

  // ---------------------------------------------------------------- the rows of one session

  class Session {
    const cfg: Config
    var row: SessionRow
    var events: seq<Event>
    var trades: seq<Trade>
    var requests: map<string, StepRecord>

    /** What the rows hold, as one value. */
    function Rows(): State
      reads this
    {
      State(row, events, trades, requests)
    }

    ghost predicate Valid()
      reads this
    {
      cfg.interval > 0 && SingleOpen(trades)
    }

    constructor (cfg: Config)
      requires cfg.interval > 0
      ensures Valid() && this.cfg == cfg && Rows() == Create(cfg)
      ensures G.Reached(cfg, Rows())
    {
      this.cfg := cfg;
      row := InitialRow(cfg);
      events := [Event(0, SessionCreated)];
      trades := [];
      requests := map[];
      new;
      G.NothingRun(cfg);
    }

    method ResetSession() returns (refused: bool)
      requires Valid()
      modifies this
      ensures Valid() && Rows() == Reset(cfg, old(Rows())) && refused == (old(row.status) == Running)
      ensures cfg.Valid() && old(G.Reached(cfg, Rows())) ==> G.Reached(cfg, Rows())
    {
      if cfg.Valid() && G.Reached(cfg, Rows()) {
        G.ResetServes(cfg, Rows());
      }
      refused := row.status == Running;
      if !refused {
        trades := [];
        events := [Event(0, SessionReset)];
        row := InitialRow(cfg);
      }
    }

    /** Phase 1: take the next candles under the row lock and store the response. */
    method AdvanceSession(req: StepRequest, fault: bool) returns (r: Result<Response, StepError>)
      requires Valid() && 1 <= req.steps
      modifies this
      ensures Valid() && trades == old(trades)
      ensures var spec := Advance(cfg, old(Rows()), req, fault);
              if spec.Err? then Rows() == old(Rows()) && r == Err(spec.error)
              else Rows() == spec.value.0 && r == Ok(spec.value.1)
    {
      if req.requestId in requests {
        var known := requests[req.requestId];
        if known.steps != req.steps || known.expectedCursor != req.expectedCursor {
          return Err(ParametersDiffer);
        }
        return Ok(known.response);
      }
      if row.status !in {Ready, Paused} {
        return Err(NotSteppable);
      }
      if req.expectedCursor != row.cursor {
        return Err(CursorChanged);
      }
      if |cfg.snapshot| != cfg.Total() {
        return Err(DataIncomplete);
      }
      var next := NextTime(cfg, row.cursor);
      if next > cfg.end {
        return Err(NoRemainingCandles);
      }
      var count := BatchSize(cfg, next, req.steps);
      var candles := BatchCandles(cfg, next, count);
      if Times(candles) != ExpectedTimes(next, cfg.interval, count) || candles == [] {
        return Err(DataIncomplete);
      }
      if fault {
        return Err(StoreFailure);
      }
      var log := AdvanceEvents(events, req.requestId, candles);
      ghost var committed := Commit(cfg, Rows(), req, candles);
      var cursor := candles[|candles| - 1].openTime;
      var remaining := CandlesLeft(cfg, cursor);
      var summary := row.summary.(executionSimulated := false, processed := CandlesProcessed(cfg, cursor), remaining := remaining);
      var updated := row.(status := if remaining == 0 then Completed else Paused, cursor := Some(cursor), summary := summary);
      var response := Response(req.requestId, row.cursor, cursor, remaining, remaining == 0, updated, candles, None, None, false);
      events := log;
      row := updated;
      requests := requests[req.requestId := StepRecord(req.steps, req.expectedCursor, response)];
      assert committed == (Rows(), response);
      r := Ok(response);
    }

    /** Phase 2: one decision and its events for each candle of the response. */
    method EnrichStrategy(response: Response, fault: bool) returns (r: Result<Response, StepError>)
      requires Valid()
      modifies this
      ensures Valid() && trades == old(trades)
      ensures var spec := Strategy(cfg, old(Rows()), response, fault);
              if spec.Err? then Rows() == old(Rows()) && r == Err(spec.error)
              else Rows() == spec.value.0 && r == Ok(spec.value.1)
    {
      if response.candles == [] || response.decisions.Some? {
        return Ok(response);
      }
      if response.requestId !in requests {
        return Err(RecordMissing);
      }
      if requests[response.requestId].response.decisions.Some? {
        return Ok(requests[response.requestId].response);
      }
      if fault {
        return Err(StoreFailure);
      }
      var log, decisions := StrategyEvents(cfg, events, response.requestId, response.candles, response.session.equity);
      var enriched := response.(decisions := Some(decisions));
      events := log;
      requests := requests[response.requestId := requests[response.requestId].(response := enriched)];
      r := Ok(enriched);
    }

    /** Phase 3: simulate the candles of the stored response from the stored account. */
    method EnrichExecution(response: Response, fault: bool) returns (r: Result<Response, StepError>)
      requires Valid()
      modifies this
      ensures Valid()
      ensures var spec := Execution(cfg, old(Rows()), response, fault);
              if spec.Err? then Rows() == old(Rows()) && r == Err(spec.error)
              else Rows() == spec.value.0 && r == Ok(spec.value.1)
    {
      if response.candles == [] || response.execution.Some? {
        return Ok(response);
      }
      if response.decisions.None? {
        return Err(StrategyIncomplete);
      }
      if response.requestId !in requests {
        return Err(RecordMissing);
      }
      var stored := requests[response.requestId].response;
      if stored.execution.Some? {
        return Ok(stored);
      }
      if stored.decisions.None? || stored.candles == [] {
        return Err(StrategyIncomplete);
      }
      if !cfg.ExecutionBounds() {
        return Err(InvalidConfiguration);
      }
      var target := TargetStatus(Rows(), stored);
      hide StepCandle, Lookup, LoadOpen, SingleOpen;
      var run := BatchLoop(cfg, Account(row.balance, row.equity, trades), stored.candles, stored.decisions.value, target);
      hide Batch, TargetStatus, Executed;
      if run.Err? {
        return Err(ExecutionFailed(run.error));
      }
      if fault {
        return Err(StoreFailure);
      }
      r := CommitExecution(response.requestId, stored, target, run.value);
    }

    method CommitExecution(requestId: string, stored: Response, target: Status, l: Loop) returns (r: Result<Response, StepError>)
      requires Valid() && l.Follows() && requestId in requests && stored.candles != []
      modifies this
      ensures Valid()
      ensures var (s, response) := Executed(cfg, old(Rows()), stored.(requestId := requestId), target, l.Books(), l.notes);
              Rows() == s && r == Ok(response)
    {
      var report := Report(CountOpened(l.notes), CountClosed(l.notes), CountSkipped(l.notes), CountOpenRows(l.table),
                           Trunc(l.balance - cfg.initial));
      var summary := row.summary.(recovery := None, executionSimulated := true);
      row := row.(status := target, balance := l.balance, equity := l.equity, summary := summary);
      trades := l.table;
      var response := stored.(requestId := requestId, session := row, execution := Some(report));
      events := Append(events, ExecutionBodies(requestId, l.notes, stored.candles[|stored.candles| - 1].openTime));
      requests := requests[requestId := requests[requestId].(response := response)];
      r := Ok(response);
    }

    /** Phase 4: the truthful activity flag, and every recovery marker cleared. */
    method FinalizeResponse(response: Response, fault: bool) returns (r: Result<Response, StepError>)
      requires Valid()
      modifies this
      ensures Valid() && trades == old(trades)
      ensures var spec := Finalize(old(Rows()), response, fault);
              if spec.Err? then Rows() == old(Rows()) && r == Err(spec.error)
              else Rows() == spec.value.0 && r == Ok(spec.value.1)
    {
      if response.execution.None? || response.finalized {
        return Ok(response);
      }
      if response.requestId !in requests {
        return Err(RecordMissing);
      }
      if fault {
        return Err(StoreFailure);
      }
      var report := response.execution.value;
      var active := report.opens > 0 || report.closes > 0 || report.openTrades > 0;
      var summary := response.session.summary.(recovery := None, executionSimulated := active);
      var done := response.(session := response.session.(summary := summary), finalized := true);
      row := row.(status := response.session.status, summary := summary);
      requests := requests[response.requestId := requests[response.requestId].(response := done)];
      r := Ok(done);
    }

    method MarkRecoveryRequired(advanced: Response)
      requires Valid()
      modifies this
      ensures Valid() && Rows() == MarkRecovery(old(Rows()), advanced)
    {
      if advanced.candles != [] {
        var target := if advanced.completed then Completed else Paused;
        row := row.(status := Running, summary := row.summary.(recovery := Some(Recovery(target, advanced.requestId))));
      }
    }

    /** One request through all phases, in order; a phase that raises leaves the marker and passes its error on.  From
    a new session on, whatever was requested and reset before: the rows hold the pure replay of the candles behind the
    cursor unless the session waits for a retry, an answered request is on record, and one that raises has changed
    nothing or is the one the session waits for. */
    method StepSession(req: StepRequest, fault: Fault) returns (r: Result<Response, StepError>)
      requires Valid()
      modifies this
      ensures Valid() && (Rows(), r) == Step(cfg, old(Rows()), req, fault)
      ensures cfg.Valid() && old(G.Reached(cfg, Rows())) ==>
                && G.Reached(cfg, Rows()) && G.IsReplay(cfg, Rows())
                && (r.Ok? ==> ReplayRecovery.Repeats(Rows(), req))
                && (r.Err? ==> Rows() == old(Rows()) || row.status == Running)
    {
      if cfg.Valid() && G.Reached(cfg, Rows()) {
        G.StepServes(cfg, Rows(), req, fault);
      }
      hide G.Reached, G.IsReplay, cfg.Valid, ReplayRecovery.Repeats;
      hide Advance, Strategy, Execution, Finalize, MarkRecovery, SingleOpen;
      if !(1 <= req.steps <= MAX_STEP_CANDLES) {
        return Err(InvalidSteps);
      }
      if !cfg.ExecutionBounds() {
        return Err(InvalidConfiguration);
      }
      var advanced := AdvanceSession(req, fault == AdvanceFault);
      if advanced.Err? {
        return advanced;
      }
      r := EnrichStrategy(advanced.value, fault == StrategyFault);
      if r.Ok? {
        r := EnrichExecution(r.value, fault == ExecutionFault);
      }
      if r.Ok? {
        r := FinalizeResponse(r.value, fault == FinalizeFault);
      }
      if r.Err? {
        MarkRecoveryRequired(advanced.value);
      }
    }
  }
}

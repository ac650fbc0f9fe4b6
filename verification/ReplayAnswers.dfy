/** What a request is answered with and leaves on record, to the last field, and what a refused one is told. */
module ReplayAnswers {
  import opened Common
  import opened ReplayMoney
  import opened ReplayExecution
  import opened ReplayAccount
  import opened ReplayTrading
  import opened ReplayRules
  import opened ReplayStory
  import opened ReplayPipeline
  import opened ReplayLog
  import opened ReplayRecovery

  // ---------------------------------------------------------------- what the audit notes count

  function Closed(trades: seq<Trade>): int {
    |trades| - if OpenRow(trades).Some? then 1 else 0
  }

  /** How many of the candles i to j have an eligible verdict. */
  function Eligible(cfg: Config, i: nat, j: nat): nat
    requires i <= j <= |cfg.snapshot|
    decreases j
  {
    if i == j then 0 else Eligible(cfg, i, j - 1) + if cfg.evaluate(cfg.snapshot[..j]).eligible then 1 else 0
  }

  /** The counts of some notes: trades opened and closed, and entries passed over. */
  predicate Counts(notes: seq<Note>, opens: int, closes: int, skips: int) {
    CountOpened(notes) == opens && CountClosed(notes) == closes && CountSkipped(notes) == skips
  }

  lemma {:induction false} CountsConcat(a: seq<Note>, b: seq<Note>)
    ensures Counts(a + b, CountOpened(a) + CountOpened(b), CountClosed(a) + CountClosed(b), CountSkipped(a) + CountSkipped(b))
  {
    if b == [] {
      assert a + b == a;
    } else {
      CountsConcat(a, b[..|b| - 1]);
      assert (a + b)[..|a + b| - 1] == a + b[..|b| - 1];
    }
  }

  lemma CountsOne(n: Note)
    ensures Counts([n], if n.NoteOpened? then 1 else 0, if n.NoteClosed? then 1 else 0, if n.NoteSkipped? then 1 else 0)
  {
    assert [n][..0] == [];
  }

  lemma ClosedToldCounts(cfg: Config, a: Account, t: Trade, c: Candle, e: Exit, b: Account, notes: seq<Note>)
    requires ClosedTold(cfg, a, t, c, e, b, notes) && OpenRow(a.trades) == Some(t)
    ensures Counts(notes, 0, 1, 0) && |b.trades| == |a.trades| && Closed(b.trades) == Closed(a.trades) + 1
  {
    ClosedIsNotOpen(cfg.feeBps, t, c, e, a.balance, notes[0].trade, b.balance);
    CountsOne(notes[0]);
    assert notes == [notes[0]];
    hide ClosedBy, CountOpened, CountClosed, CountSkipped;
  }

  lemma OpenedToldCounts(cfg: Config, a: Account, c: Candle, v: Verdict, b: Account, notes: seq<Note>)
    requires OpenedTold(cfg, a, c, v, b, notes) && OpenRow(a.trades) == None
    ensures Counts(notes, 1, 0, 0) && |b.trades| == |a.trades| + 1 && Closed(b.trades) == Closed(a.trades)
  {
    OpenedIsOpen(cfg, v, c, a.balance, a.equity, notes[0].trade);
    CountsOne(notes[0]);
    assert notes == [notes[0]];
    hide OpenedBy, CountOpened, CountClosed, CountSkipped;
  }

  lemma OpenedIsOpen(cfg: Config, v: Verdict, c: Candle, balance: real, equity: real, t: Trade)
    requires OpenedBy(cfg, v, c, balance, equity, t)
    ensures t.IsOpen() && v.eligible
  {
    hide IsCut, IsGridPrice, IsLargest, FeeOn, RiskShare, Notional, Sides;
  }

  lemma NoCounts()
    ensures Counts([], 0, 0, 0)
  {
  }

  lemma EntryCounts(cfg: Config, a: Account, c: Candle, v: Verdict, final: bool, b: Account, notes: seq<Note>)
    requires EntryTold(cfg, a, c, v, final, b, notes)
    ensures Counts(notes, |b.trades| - |a.trades|, Closed(b.trades) - Closed(a.trades),
                   (if v.eligible then 1 else 0) - (|b.trades| - |a.trades|))
  {
    NoCounts();
    if |notes| == 1 {
      CountsOne(notes[0]);
      assert notes == [notes[0]];
    }
    if v.eligible && OpenRow(a.trades).None? && OpenedTold(cfg, a, c, v, b, notes) {
      OpenedToldCounts(cfg, a, c, v, b, notes);
    }
    hide OpenedTold, OpenedBy, CountOpened, CountClosed, CountSkipped;
  }

  lemma ExitCounts(cfg: Config, a: Account, c: Candle, b: Account, notes: seq<Note>)
    requires ExitTold(cfg, a, c, b, notes)
    ensures Counts(notes, |b.trades| - |a.trades|, Closed(b.trades) - Closed(a.trades), 0) && |b.trades| == |a.trades|
  {
    NoCounts();
    var open := OpenRow(a.trades);
    if open.Some? && Touched(open.value, c) {
      ClosedToldCounts(cfg, a, open.value, c, ExitBy(open.value, c), b, notes);
    }
    hide ClosedTold, CountOpened, CountClosed, CountSkipped, Touched, ExitBy;
  }

  lemma EndCounts(cfg: Config, a: Account, c: Candle, final: bool, b: Account, notes: seq<Note>)
    requires EndTold(cfg, a, c, final, b, notes)
    ensures Counts(notes, |b.trades| - |a.trades|, Closed(b.trades) - Closed(a.trades), 0) && |b.trades| == |a.trades|
  {
    NoCounts();
    var open := OpenRow(a.trades);
    if open.Some? && final {
      ClosedToldCounts(cfg, a, open.value, c, Exit(SessionEnd, c.close, false), b, notes);
    }
    hide ClosedTold, CountOpened, CountClosed, CountSkipped;
  }

  lemma CandleCounts(cfg: Config, a: Account, c: Candle, d: Decision, final: bool)
    requires cfg.ExecutionBounds() && CandleOk(c) && AccountOk(cfg, a) && EnteredBefore(a, c.openTime)
    requires StepCandle(cfg, a, c, Some(d), final).Ok?
    ensures var (b, notes) := StepCandle(cfg, a, c, Some(d), final).value;
            Counts(notes, |b.trades| - |a.trades|, Closed(b.trades) - Closed(a.trades),
                   (if d.verdict.eligible then 1 else 0) - (|b.trades| - |a.trades|))
  {
    hide *;
    var a1, n1, a2, n2, a3, n3, mark := CandleFollows(cfg, a, c, d, final);
    var b := StepCandle(cfg, a, c, Some(d), final).value.0;
    ExitCounts(cfg, a, c, a1, n1);
    EntryCounts(cfg, a1, c, d.verdict, final, a2, n2);
    EndCounts(cfg, a2, c, final, a3, n3);
    MarkedTrades(a3, c, b, mark);
    CountsSum(n1, n2, n3, mark, [|a.trades|, |a1.trades|, |a2.trades|, |a3.trades|],
              [Closed(a.trades), Closed(a1.trades), Closed(a2.trades), Closed(a3.trades)],
              if d.verdict.eligible then 1 else 0);
  }

  lemma CountsSum(n1: seq<Note>, n2: seq<Note>, n3: seq<Note>, mark: Mark, rows: seq<int>, closed: seq<int>, eligible: int)
    requires |rows| == |closed| == 4
    requires Counts(n1, rows[1] - rows[0], closed[1] - closed[0], 0)
    requires Counts(n2, rows[2] - rows[1], closed[2] - closed[1], eligible - (rows[2] - rows[1]))
    requires Counts(n3, rows[3] - rows[2], closed[3] - closed[2], 0)
    requires rows[1] == rows[0] && rows[3] == rows[2]
    ensures Counts(n1 + n2 + n3 + [NoteMarked(mark)], rows[3] - rows[0], closed[3] - closed[0], eligible - (rows[3] - rows[0]))
  {
    CountsOne(NoteMarked(mark));
    CountsConcat(n1, n2);
    CountsConcat(n1 + n2, n3);
    CountsConcat(n1 + n2 + n3, [NoteMarked(mark)]);
    hide CountOpened, CountClosed, CountSkipped;
  }

  lemma MarkedTrades(a: Account, c: Candle, b: Account, mark: Mark)
    requires MarkTold(a, c, b, mark)
    ensures b.trades == a.trades
  {
    hide IsCut, IsCutAmount, Gain;
  }

  /** The notes of the candles i to n count the trades opened and closed on them, and every eligible verdict that opened
  none was passed over. */
  lemma {:induction false} ReplayCounts(cfg: Config, i: nat, n: nat)
    requires cfg.Valid() && cfg.ExecutionBounds() && i <= n <= |cfg.snapshot| && cfg.interval > 0 && Replay(cfg, n).Ok?
    ensures Replay(cfg, i).Ok?
    ensures var (a, notes) := Replay(cfg, i).value;
            var (b, notes') := Replay(cfg, n).value;
            && notes <= notes'
            && Counts(notes'[|notes|..], |b.trades| - |a.trades|, Closed(b.trades) - Closed(a.trades),
                      Eligible(cfg, i, n) - (|b.trades| - |a.trades|))
    decreases n
  {
    hide *;
    if i == n {
      assert Replay(cfg, n).value.1[|Replay(cfg, n).value.1|..] == [];
      NoCounts();
      NoneEligible(cfg, n);
    } else {
      ReplayUnfold(cfg, n);
      ReplayCounts(cfg, i, n - 1);
      ReplayKeeps(cfg, n - 1);
      SnapshotAt(cfg, n - 1);
      PureVerdict(cfg, n - 1);
      NextEligible(cfg, i, n);
      var (a, notes) := Replay(cfg, i).value;
      var (p, more) := Replay(cfg, n - 1).value;
      CandleCounts(cfg, p, cfg.snapshot[n - 1], PureDecision(cfg, n - 1), n == cfg.Total());
      var last := StepCandle(cfg, p, cfg.snapshot[n - 1], Some(PureDecision(cfg, n - 1)), n == cfg.Total()).value.1;
      CountsConcat(more[|notes|..], last);
      assert (more + last)[|notes|..] == more[|notes|..] + last;
      CountsAdd(more[|notes|..], last);
    }
  }

  lemma NoneEligible(cfg: Config, n: nat)
    requires n <= |cfg.snapshot|
    ensures Eligible(cfg, n, n) == 0
  {
  }

  lemma NextEligible(cfg: Config, i: nat, n: nat)
    requires i < n <= |cfg.snapshot|
    ensures Eligible(cfg, i, n) == Eligible(cfg, i, n - 1) + if cfg.evaluate(cfg.snapshot[..n]).eligible then 1 else 0
  {
  }

  lemma CountsAdd(a: seq<Note>, b: seq<Note>)
    ensures forall i, j, k, l, m, n {:trigger Counts(a, i, j, k), Counts(b, l, m, n)} ::
              Counts(a, i, j, k) && Counts(b, l, m, n) ==> Counts(a + b, i + l, j + m, k + n)
  {
    CountsConcat(a, b);
    hide CountOpened, CountClosed, CountSkipped;
  }

  lemma {:induction false} OpenRowsCounted(trades: seq<Trade>)
    requires TableOk(trades)
    ensures CountOpenRows(trades) == if OpenRow(trades).Some? then 1 else 0
  {
    var n := |trades|;
    if n > 0 {
      NoOpenRows(trades[..n - 1]);
    }
    hide TradeOk;
  }

  lemma {:induction false} NoOpenRows(trades: seq<Trade>)
    requires forall i | 0 <= i < |trades| :: !trades[i].IsOpen()
    ensures CountOpenRows(trades) == 0
  {
    if trades != [] {
      NoOpenRows(trades[..|trades| - 1]);
    }
  }

  // ---------------------------------------------------------------- the events of a request

  /** What the strategy phase logs: every decision, and behind it the candidate it proposes, if it has a plan. */
  function DecisionTrail(id: string, decisions: seq<Decision>): seq<Body> {
    if decisions == [] then []
    else
      var d := decisions[0];
      [StrategyEvaluated(id, d)] + (if d.verdict.plan.Some? then [RiskCandidate(id, d.time)] else [])
      + DecisionTrail(id, decisions[1..])
  }

  /** What a whole request logs, in order. */
  function RequestTrail(id: string, times: seq<int>, decisions: seq<Decision>, notes: seq<Note>): seq<Body>
    requires times != []
  {
    [StepStarted(id)] + seq(|times|, i requires 0 <= i < |times| => CandleAdvanced(id, times[i]))
    + [StepCompleted(id, times[|times| - 1])]
    + DecisionTrail(id, decisions)
    + [ExecutionStarted(id)] + seq(|notes|, i requires 0 <= i < |notes| => Audit(id, notes[i]))
    + [ExecutionCompleted(id, times[|times| - 1])]
  }

  lemma {:induction false} TrailAppend(id: string, decisions: seq<Decision>, d: Decision)
    ensures DecisionTrail(id, decisions + [d]) ==
              DecisionTrail(id, decisions) + [StrategyEvaluated(id, d)] + if d.verdict.plan.Some? then [RiskCandidate(id, d.time)] else []
    decreases |decisions|
  {
    var front := [StrategyEvaluated(id, d)] + if d.verdict.plan.Some? then [RiskCandidate(id, d.time)] else [];
    if decisions == [] {
      assert ([] + [d])[1..] == [];
      assert DecisionTrail(id, [] + [d]) == front + DecisionTrail(id, []);
      assert [] + [d] == decisions + [d];
    } else {
      TrailAppend(id, decisions[1..], d);
      assert (decisions + [d])[1..] == decisions[1..] + [d];
      var e := decisions[0];
      var head := [StrategyEvaluated(id, e)] + if e.verdict.plan.Some? then [RiskCandidate(id, e.time)] else [];
      assert head + (DecisionTrail(id, decisions[1..]) + [StrategyEvaluated(id, d)] + if d.verdict.plan.Some? then [RiskCandidate(id, d.time)] else [])
             == head + DecisionTrail(id, decisions[1..]) + [StrategyEvaluated(id, d)] + if d.verdict.plan.Some? then [RiskCandidate(id, d.time)] else [];
    }
  }

  lemma {:induction false} StrategyIsTrail(id: string, decisions: seq<Decision>)
    ensures StrategyBodies(id, decisions) == DecisionTrail(id, decisions)
  {
    if decisions != [] {
      var n := |decisions| - 1;
      StrategyIsTrail(id, decisions[..n]);
      TrailAppend(id, decisions[..n], decisions[n]);
      assert decisions == decisions[..n] + [decisions[n]];
    }
  }

  // ---------------------------------------------------------------- an answered request

  /** The decisions of a request: each over the candles up to its own, sized from one equity. */
  predicate DecisionsTold(cfg: Config, n: nat, decisions: seq<Decision>, equity: real)
    requires n + |decisions| <= |cfg.snapshot|
  {
    forall i | 0 <= i < |decisions| ::
      decisions[i] == Decide(cfg, cfg.snapshot[..n + i + 1], cfg.snapshot[n + i].openTime, equity)
  }

  /** The report of a request: the trades it opened and closed, the eligible verdicts it passed over, whether a trade is
  open behind it, and the net result of the session so far in whole units. */
  predicate ReportTold(cfg: Config, n: nat, n': nat, before: Account, after: Account, report: Report)
    requires n <= n' <= |cfg.snapshot|
  {
    && report.opens == |after.trades| - |before.trades|
    && report.closes == Closed(after.trades) - Closed(before.trades)
    && report.opens + report.skips == Eligible(cfg, n, n')
    && report.openTrades == (if OpenRow(after.trades).Some? then 1 else 0)
    && IsCut(report.netPnl, after.balance - cfg.initial)
  }

  /** An answered request that took the candles n to n': its response, the session row behind it, and the events. */
  ghost predicate AnswerTold(cfg: Config, s: State, n: nat, n': nat, req: StepRequest, s': State, answer: Response)
    requires cfg.interval > 0 && n < n' <= |cfg.snapshot| && Replay(cfg, n).Ok? && Replay(cfg, n').Ok?
  {
    var (before, notes) := Replay(cfg, n).value;
    var (after, notes') := Replay(cfg, n').value;
    var last := cfg.snapshot[n' - 1].openTime;
    && answer.requestId == req.requestId && answer.previousCursor == s.row.cursor && answer.cursor == last
    && answer.remaining == cfg.Total() - n' && (answer.completed <==> n' == cfg.Total())
    && answer.candles == cfg.snapshot[n..n'] && answer.finalized && answer.session == s'.row
    && answer.decisions.Some? && |answer.decisions.value| == n' - n
    && DecisionsTold(cfg, n, answer.decisions.value, s.row.equity)
    && answer.execution.Some? && ReportTold(cfg, n, n', before, after, answer.execution.value)
    && s'.requests == s.requests[req.requestId := StepRecord(req.steps, req.expectedCursor, answer)]
    && s'.trades == after.trades
    && s'.row == SessionRow(if n' == cfg.Total() then Completed else Paused, Some(last), after.balance, after.equity,
                            Summary(None, |after.trades| > |before.trades| || Closed(after.trades) > Closed(before.trades)
                                          || OpenRow(after.trades).Some?, n', cfg.Total() - n'))
    && notes <= notes'
    && Numbered(s'.events)
    && Bodies(s'.events) == Bodies(s.events)
         + RequestTrail(req.requestId, TimesOf(cfg, n, n'), answer.decisions.value, notes'[|notes|..])
  }

  // ---------------------------------------------------------------- the phases of it

  function Record(s: State, response: Response): map<string, StepRecord>
    requires response.requestId in s.requests
  {
    s.requests[response.requestId := s.requests[response.requestId].(response := response)]
  }

  /** A stored response that has been advanced and nothing more, in a session without a marker. */
  predicate Fresh(s: State, a: Response) {
    && a.candles != [] && a.decisions.None? && a.execution.None? && !a.finalized
    && a.requestId in s.requests && s.requests[a.requestId].response == a && s.row.summary.recovery.None?
  }

  lemma StrategyRuns(cfg: Config, s: State, a: Response)
    requires Fresh(s, a)
    ensures var ds := Decisions(cfg, a.candles, a.session.equity);
            var b := a.(decisions := Some(ds));
            Strategy(cfg, s, a, false) ==
              Ok((State(s.row, Append(s.events, StrategyBodies(a.requestId, ds)), s.trades, Record(s, b)), b))
  {
    hide Decisions, Append, StrategyBodies;
  }

  function ReportOf(cfg: Config, after: Account, notes: seq<Note>): Report {
    Report(CountOpened(notes), CountClosed(notes), CountSkipped(notes), CountOpenRows(after.trades), Trunc(after.balance - cfg.initial))
  }

  function ExecutedRow(row: SessionRow, a: Response, after: Account): SessionRow {
    SessionRow(if a.completed then Completed else Paused, row.cursor, after.balance, after.equity,
               Summary(None, true, row.summary.processed, row.summary.remaining))
  }

  lemma ExecutionRuns(cfg: Config, s: State, a: Response, after: Account, notes: seq<Note>)
    requires a.candles != [] && a.decisions.Some? && a.execution.None? && cfg.ExecutionBounds()
    requires a.requestId in s.requests && s.requests[a.requestId].response == a && s.row.summary.recovery.None?
    requires Batch(cfg, Account(s.row.balance, s.row.equity, s.trades), a.candles, a.decisions.value,
                   if a.completed then Completed else Paused, |a.candles|) == Ok((after, notes))
    ensures var row := ExecutedRow(s.row, a, after);
            var b := a.(session := row, execution := Some(ReportOf(cfg, after, notes)));
            Execution(cfg, s, a, false) ==
              Ok((State(row, Append(s.events, ExecutionBodies(a.requestId, notes, a.candles[|a.candles| - 1].openTime)), after.trades,
                        Record(s, b)), b))
  {
    ExecutionUnfold(cfg, s, a, if a.completed then Completed else Paused, false);
    hide Batch, Execution, Append, ExecutionBodies, CountOpened, CountClosed, CountSkipped, CountOpenRows, cfg.ExecutionBounds, Trunc;
  }

  lemma FinalizeRuns(s: State, a: Response)
    requires a.execution.Some? && !a.finalized && a.requestId in s.requests && a.session == s.row
    ensures var report := a.execution.value;
            var row := a.session.(summary := a.session.summary.(
                         recovery := None, executionSimulated := report.opens > 0 || report.closes > 0 || report.openTrades > 0));
            var b := a.(session := row, finalized := true);
            Finalize(s, a, false) == Ok((State(row, s.events, s.trades, Record(s, b)), b))
  {
  }

  /** All phases of a fresh response in a row. */
  lemma PhasesRun(cfg: Config, s: State, a: Response, after: Account, notes: seq<Note>)
    requires Fresh(s, a) && cfg.ExecutionBounds()
    requires Batch(cfg, Account(s.row.balance, s.row.equity, s.trades), a.candles, Decisions(cfg, a.candles, a.session.equity),
                   if a.completed then Completed else Paused, |a.candles|) == Ok((after, notes))
    ensures var ds, report := Decisions(cfg, a.candles, a.session.equity), ReportOf(cfg, after, notes);
            var row := ExecutedRow(s.row, a, after);
            var done := row.(summary := row.summary.(
                          executionSimulated := report.opens > 0 || report.closes > 0 || report.openTrades > 0));
            var b := a.(decisions := Some(ds), execution := Some(report), session := done, finalized := true);
            Enrich(cfg, s, a, NoFault) ==
              (State(done, Append(Append(s.events, StrategyBodies(a.requestId, ds)),
                                  ExecutionBodies(a.requestId, notes, a.candles[|a.candles| - 1].openTime)),
                     after.trades, Record(s, b)), Ok(b))
  {
    hide Strategy, Execution, Finalize, Decisions, Append, StrategyBodies, ExecutionBodies, ReportOf, cfg.ExecutionBounds, Batch;
    StrategyRuns(cfg, s, a);
    var (s2, a2) := Strategy(cfg, s, a, false).value;
    ExecutionRuns(cfg, s2, a2, after, notes);
    var (s3, a3) := Execution(cfg, s2, a2, false).value;
    FinalizeRuns(s3, a3);
    EnrichUnfold(cfg, s, a, NoFault);
    var b := Finalize(s3, a3, false).value.1;
    RecordAgain(s, s2, a2, a3);
    RecordAgain(s, s3, a3, b);
    hide Enrich, Record;
  }

  lemma RecordAgain(s: State, s': State, a: Response, b: Response)
    requires a.requestId == b.requestId && a.requestId in s.requests && s'.requests == Record(s, a)
    ensures Record(s', b) == Record(s, b)
  {
  }

  lemma DecisionsAre(cfg: Config, n: nat, n': nat, equity: real)
    requires cfg.Valid() && |cfg.snapshot| == cfg.Total() && n < n' <= |cfg.snapshot|
    ensures var ds := Decisions(cfg, cfg.snapshot[n..n'], equity);
            |ds| == n' - n && DecisionsTold(cfg, n, ds, equity)
  {
    var ds := Decisions(cfg, cfg.snapshot[n..n'], equity);
    forall i | 0 <= i < |ds|
      ensures ds[i] == Decide(cfg, cfg.snapshot[..n + i + 1], cfg.snapshot[n + i].openTime, equity)
    {
      FullSnapshotIsGrid(cfg, n + i);
      GridRange(cfg, n + i, n + i + 1);
      hide Decide, CandlesUpTo, CandlesBetween, Time, cfg.Valid;
    }
  }

  /** The advance of a request: its response, and the session behind it. */
  lemma CommitIs(cfg: Config, s: State, n: nat, n': nat, req: StepRequest)
    requires cfg.Valid() && |cfg.snapshot| == cfg.Total() && n < n' <= |cfg.snapshot| && s.row.summary.recovery.None?
    ensures var last := cfg.snapshot[n' - 1].openTime;
            var row := SessionRow(if n' == cfg.Total() then Completed else Paused, Some(last), s.row.balance, s.row.equity,
                                  Summary(None, false, n', cfg.Total() - n'));
            var a := Response(req.requestId, s.row.cursor, last, cfg.Total() - n', n' == cfg.Total(), row, cfg.snapshot[n..n'],
                              None, None, false);
            Commit(cfg, s, req, cfg.snapshot[n..n']) ==
              (State(row, Append(s.events, AdvanceBodies(req.requestId, cfg.snapshot[n..n'])), s.trades,
                     s.requests[req.requestId := StepRecord(req.steps, req.expectedCursor, a)]), a)
  {
    BatchEnd(cfg, n, n');
    assert cfg.snapshot[n..n'][n' - n - 1] == cfg.snapshot[n' - 1];
    hide AdvanceBodies, Append, CandlesLeft, CandlesProcessed, cfg.Valid, cfg.Total, Time;
  }

  function TimesOf(cfg: Config, n: nat, n': nat): (r: seq<int>)
    requires n < n' <= |cfg.snapshot|
    ensures |r| == n' - n && r != []
  {
    seq(n' - n, i requires 0 <= i < n' - n => cfg.snapshot[n + i].openTime)
  }

  lemma AdvanceIsTrail(cfg: Config, id: string, n: nat, n': nat)
    requires n < n' <= |cfg.snapshot|
    ensures var times := TimesOf(cfg, n, n');
            && times[|times| - 1] == cfg.snapshot[n' - 1].openTime
            && AdvanceBodies(id, cfg.snapshot[n..n']) ==
                 [StepStarted(id)] + seq(|times|, i requires 0 <= i < |times| => CandleAdvanced(id, times[i]))
                 + [StepCompleted(id, times[|times| - 1])]
  {
    var cs, times := cfg.snapshot[n..n'], TimesOf(cfg, n, n');
    assert seq(|cs|, i requires 0 <= i < |cs| => CandleAdvanced(id, cs[i].openTime))
           == seq(|times|, i requires 0 <= i < |times| => CandleAdvanced(id, times[i]));
  }

  lemma Joined(e: seq<Body>, x: seq<Body>, y: seq<Body>, z1: seq<Body>, z2: seq<Body>, z3: seq<Body>)
    ensures e + x + y + (z1 + z2 + z3) == e + (x + y + z1 + z2 + z3)
  {
  }

  lemma TrailIs(cfg: Config, id: string, n: nat, n': nat, ds: seq<Decision>, notes: seq<Note>, e0: seq<Event>)
    requires n < n' <= |cfg.snapshot| && Numbered(e0)
    ensures var cs, last := cfg.snapshot[n..n'], cfg.snapshot[n' - 1].openTime;
            var e := Append(Append(Append(e0, AdvanceBodies(id, cs)), StrategyBodies(id, ds)), ExecutionBodies(id, notes, last));
            Numbered(e) && Bodies(e) == Bodies(e0) + RequestTrail(id, TimesOf(cfg, n, n'), ds, notes)
  {
    hide Append, Bodies, Numbered, StrategyBodies, DecisionTrail, TimesOf, AdvanceBodies;
    var cs, last := cfg.snapshot[n..n'], cfg.snapshot[n' - 1].openTime;
    AppendNumbered(e0, AdvanceBodies(id, cs));
    AppendNumbered(Append(e0, AdvanceBodies(id, cs)), StrategyBodies(id, ds));
    AppendNumbered(Append(Append(e0, AdvanceBodies(id, cs)), StrategyBodies(id, ds)), ExecutionBodies(id, notes, last));
    StrategyIsTrail(id, ds);
    AdvanceIsTrail(cfg, id, n, n');
    Joined(Bodies(e0), AdvanceBodies(id, cs), DecisionTrail(id, ds), [ExecutionStarted(id)], AuditBodies(id, notes), [ExecutionCompleted(id, last)]);
  }

  /** What the notes of the candles n to n' make the report say. */
  lemma ReportIs(cfg: Config, n: nat, n': nat)
    requires cfg.Valid() && cfg.ExecutionBounds() && n <= n' <= |cfg.snapshot| && cfg.interval > 0 && Replay(cfg, n').Ok?
    ensures Replay(cfg, n).Ok? && Replay(cfg, n).value.1 <= Replay(cfg, n').value.1
    ensures var (before, notes) := Replay(cfg, n).value;
            var (after, notes') := Replay(cfg, n').value;
            ReportTold(cfg, n, n', before, after, ReportOf(cfg, after, notes'[|notes|..]))
  {
    hide *;
    ReplayCounts(cfg, n, n');
    ReplayKeeps(cfg, n');
    var (before, notes) := Replay(cfg, n).value;
    var (after, notes') := Replay(cfg, n').value;
    TableOf(cfg, after);
    OpenRowsCounted(after.trades);
    CutIsUnique(Trunc(after.balance - cfg.initial), after.balance - cfg.initial);
    CountsTell(cfg, n, n', before, after, notes'[|notes|..]);
  }

  lemma CountsTell(cfg: Config, n: nat, n': nat, before: Account, after: Account, notes: seq<Note>)
    requires n <= n' <= |cfg.snapshot|
    requires Counts(notes, |after.trades| - |before.trades|, Closed(after.trades) - Closed(before.trades),
                    Eligible(cfg, n, n') - (|after.trades| - |before.trades|))
    requires CountOpenRows(after.trades) == if OpenRow(after.trades).Some? then 1 else 0
    requires IsCut(Trunc(after.balance - cfg.initial), after.balance - cfg.initial)
    ensures ReportTold(cfg, n, n', before, after, ReportOf(cfg, after, notes))
  {
    hide CountOpened, CountClosed, CountSkipped, CountOpenRows, Eligible, Closed, OpenRow, IsCut, Trunc;
  }

  lemma IdleFacts(cfg: Config, s: State, n: nat)
    requires cfg.interval > 0 && Holds(cfg, s, n, None)
    ensures n <= |cfg.snapshot| && Replay(cfg, n).Ok? && Replay(cfg, n).value.0 == Account(s.row.balance, s.row.equity, s.trades)
    ensures Numbered(s.events) && s.row.summary.recovery.None?
  {
    hide Replay, Collect, Grid, Finished, cfg.ExecutionBounds, StatusAt, CursorAt;
  }

  /** The candles of the request, executed from the account of the session. */
  lemma BatchIsReplay(cfg: Config, s: State, n: nat, n': nat)
    requires cfg.Valid() && |cfg.snapshot| == cfg.Total() && n < n' <= |cfg.snapshot| && Replay(cfg, n').Ok?
    requires Replay(cfg, n).Ok? && Replay(cfg, n).value.0 == Account(s.row.balance, s.row.equity, s.trades)
    requires Replay(cfg, n).value.1 <= Replay(cfg, n').value.1
    ensures Batch(cfg, Account(s.row.balance, s.row.equity, s.trades), cfg.snapshot[n..n'],
                  Decisions(cfg, cfg.snapshot[n..n'], s.row.equity), if n' == cfg.Total() then Completed else Paused, n' - n)
            == Ok((Replay(cfg, n').value.0, Replay(cfg, n').value.1[|Replay(cfg, n).value.1|..]))
  {
    hide *;
    ValidInterval(cfg);
    DecisionsAreReplayed(cfg, n, n', s.row.equity);
    var ds := Decisions(cfg, cfg.snapshot[n..n'], s.row.equity);
    BatchAgrees(cfg, n, n', ds, if n' == cfg.Total() then Completed else Paused, n' - n);
    assert n + (n' - n) == n';
  }

  /** A request that an idle session accepts, whose candles can be executed and that the store lets through, is answered
  with and leaves exactly this. */
  lemma RequestAnswered(cfg: Config, s: State, n: nat, n': nat, req: StepRequest)
    requires cfg.Valid() && Holds(cfg, s, n, None) && Accepted(cfg, s, n, req, NoFault)
    requires n < n' <= |cfg.snapshot| && n' == (if n + req.steps <= cfg.Total() then n + req.steps else cfg.Total())
    requires Replay(cfg, n').Ok?
    ensures Replay(cfg, n).Ok?
    ensures var (s', r) := Step(cfg, s, req, NoFault); r.Ok? && AnswerTold(cfg, s, n, n', req, s', r.value)
  {
    hide *;
    ValidInterval(cfg);
    HoldsFacts(cfg, s, n, None);
    IdleFacts(cfg, s, n);
    AcceptedFacts(cfg, s, n, req, NoFault);
    StepBegins(cfg, s, n, req, NoFault);
    TakenIs(cfg, n, req.steps);
    CommitIs(cfg, s, n, n', req);
    var (s1, a) := Commit(cfg, s, req, cfg.snapshot[n..n']);
    ReportIs(cfg, n, n');
    BatchIsReplay(cfg, s, n, n');
    var (before, notes) := Replay(cfg, n).value;
    var (after, notes') := Replay(cfg, n').value;
    FreshIs(s1, a);
    PhasesRun(cfg, s1, a, after, notes'[|notes|..]);
    DecisionsAre(cfg, n, n', s.row.equity);
    TrailIs(cfg, req.requestId, n, n', Decisions(cfg, cfg.snapshot[n..n'], s.row.equity), notes'[|notes|..], s.events);
    var (s', r) := Step(cfg, s, req, NoFault);
    AnswerIs(cfg, s, n, n', req, s1, a, s', r.value);
  }

  /** The pieces put together. */
  lemma AnswerIs(cfg: Config, s: State, n: nat, n': nat, req: StepRequest, s1: State, a: Response, s': State, b: Response)
    requires cfg.interval > 0 && n < n' <= |cfg.snapshot| && Replay(cfg, n).Ok? && Replay(cfg, n').Ok?
    requires Replay(cfg, n).value.0 == Account(s.row.balance, s.row.equity, s.trades)
    requires Replay(cfg, n).value.1 <= Replay(cfg, n').value.1
    requires var last := cfg.snapshot[n' - 1].openTime;
             var row := SessionRow(if n' == cfg.Total() then Completed else Paused, Some(last), s.row.balance, s.row.equity,
                                   Summary(None, false, n', cfg.Total() - n'));
             && a == Response(req.requestId, s.row.cursor, last, cfg.Total() - n', n' == cfg.Total(), row, cfg.snapshot[n..n'],
                              None, None, false)
             && s1.row == row && s1.requests == s.requests[req.requestId := StepRecord(req.steps, req.expectedCursor, a)]
    requires var (after, notes') := Replay(cfg, n').value;
             var notes := notes'[|Replay(cfg, n).value.1|..];
             var ds, report := Decisions(cfg, cfg.snapshot[n..n'], s.row.equity), ReportOf(cfg, after, notes);
             var row := ExecutedRow(s1.row, a, after);
             var done := row.(summary := row.summary.(
                           executionSimulated := report.opens > 0 || report.closes > 0 || report.openTrades > 0));
             && ReportTold(cfg, n, n', Replay(cfg, n).value.0, after, report)
             && |ds| == n' - n && DecisionsTold(cfg, n, ds, s.row.equity)
             && b == a.(decisions := Some(ds), execution := Some(report), session := done, finalized := true)
             && s'.row == done && s'.trades == after.trades && s'.requests == Record(s1, b)
             && Numbered(s'.events)
             && Bodies(s'.events) == Bodies(s.events) + RequestTrail(req.requestId, TimesOf(cfg, n, n'), ds, notes)
    ensures AnswerTold(cfg, s, n, n', req, s', b)
  {
    hide Replay, Decisions, ReportOf, DecisionsTold, Numbered, Bodies, RequestTrail, TimesOf, cfg.Total, Closed, OpenRow, Eligible, IsCut;
  }

  lemma TakenIs(cfg: Config, n: nat, steps: int)
    requires cfg.interval > 0
    ensures n + Taken(cfg, n, steps) == if n + steps <= cfg.Total() then n + steps else cfg.Total()
  {
  }

  lemma FreshIs(s: State, a: Response)
    requires a.candles != [] && a.decisions.None? && a.execution.None? && !a.finalized
    requires a.requestId in s.requests && s.requests[a.requestId].response == a && s.row.summary.recovery.None?
    ensures Fresh(s, a)
  {
  }

  // ---------------------------------------------------------------- refusals

  /** What an idle session answers a request that it does not take on, without any change: malformed requests first, then
  known ids, then the state of the session, and a store that raises last. */
  lemma RequestRefused(cfg: Config, s: State, n: nat, req: StepRequest, fault: Fault)
    requires cfg.Valid() && Holds(cfg, s, n, None)
    ensures var out := Step(cfg, s, req, fault);
            if !(1 <= req.steps <= 100) then out == (s, Err(InvalidSteps))
            else if !(0.0 <= cfg.feeBps <= 100.0 && 1.0 <= cfg.maxLeverage <= 10.0) then out == (s, Err(InvalidConfiguration))
            else if req.requestId in s.requests then
              var known := s.requests[req.requestId];
              out == (s, if known.steps == req.steps && known.expectedCursor == req.expectedCursor then Ok(known.response) else Err(ParametersDiffer))
            else if n == cfg.Total() then out == (s, Err(NotSteppable))
            else if req.expectedCursor != s.row.cursor then out == (s, Err(CursorChanged))
            else if |cfg.snapshot| != cfg.Total() then out == (s, Err(DataIncomplete))
            else if fault == AdvanceFault then out == (s, Err(StoreFailure))
            else out.1 !in {Err(InvalidSteps), Err(InvalidConfiguration), Err(ParametersDiffer), Err(NotSteppable), Err(CursorChanged),
                            Err(DataIncomplete), Err(NoRemainingCandles)}
  {
    hide *;
    ValidInterval(cfg);
    HoldsFacts(cfg, s, n, None);
    Malformed(cfg, s, req, fault);
    if Accepted(cfg, s, n, req, fault) {
      AcceptedIs(cfg, s, n, req, fault);
      StepAccepted(cfg, s, n, req, fault);
      RaisesWhat(cfg, n + Taken(cfg, n, req.steps), Work(req.requestId, n, ToEvaluate), fault);
    } else if Admissible(cfg, req) && Repeats(s, req) {
      AdmissibleIs(cfg, s, req);
      StepRepeated(cfg, s, n, None, req, fault);
    } else if Admissible(cfg, req) {
      AdmissibleIs(cfg, s, req);
      Unaccepted(cfg, s, n, req, fault);
    } else {
      AdmissibleIs(cfg, s, req);
    }
  }

  lemma Malformed(cfg: Config, s: State, req: StepRequest, fault: Fault)
    requires cfg.interval > 0
    ensures !(1 <= req.steps <= 100) ==> Step(cfg, s, req, fault) == (s, Err(InvalidSteps))
    ensures 1 <= req.steps <= 100 && !(0.0 <= cfg.feeBps <= 100.0 && 1.0 <= cfg.maxLeverage <= 10.0) ==>
              Step(cfg, s, req, fault) == (s, Err(InvalidConfiguration))
  {
    hide Advance, Enrich;
  }

  lemma AdmissibleIs(cfg: Config, s: State, req: StepRequest)
    ensures Admissible(cfg, req) <==> 1 <= req.steps <= 100 && 0.0 <= cfg.feeBps <= 100.0 && 1.0 <= cfg.maxLeverage <= 10.0
    ensures Repeats(s, req) <==>
              && req.requestId in s.requests && s.requests[req.requestId].steps == req.steps
              && s.requests[req.requestId].expectedCursor == req.expectedCursor
  {
  }

  lemma AcceptedIs(cfg: Config, s: State, n: nat, req: StepRequest, fault: Fault)
    requires cfg.interval > 0
    ensures Accepted(cfg, s, n, req, fault) <==>
              && 1 <= req.steps <= 100 && 0.0 <= cfg.feeBps <= 100.0 && 1.0 <= cfg.maxLeverage <= 10.0
              && req.requestId !in s.requests && req.expectedCursor == s.row.cursor && |cfg.snapshot| == cfg.Total()
              && n < cfg.Total() && fault != AdvanceFault
  {
    hide cfg.Total;
  }

  lemma RaisesWhat(cfg: Config, n: nat, w: Work, fault: Fault)
    requires cfg.interval > 0 && n <= |cfg.snapshot|
    ensures Raises(cfg, n, w, fault) == StoreFailure || Raises(cfg, n, w, fault).ExecutionFailed?
  {
    hide Replay;
  }

  /** A well-formed request under another or a known id that is not taken on. */
  lemma Unaccepted(cfg: Config, s: State, n: nat, req: StepRequest, fault: Fault)
    requires cfg.Valid() && n <= cfg.Total() && s.row.cursor == CursorAt(cfg, n) && s.row.status == StatusAt(cfg, n)
    requires Admissible(cfg, req) && !Repeats(s, req) && !Accepted(cfg, s, n, req, fault)
    ensures Step(cfg, s, req, fault) ==
              (s, Err(if req.requestId in s.requests then ParametersDiffer
                      else if n == cfg.Total() then NotSteppable
                      else if req.expectedCursor != s.row.cursor then CursorChanged
                      else if |cfg.snapshot| != cfg.Total() then DataIncomplete
                      else StoreFailure))
  {
    FreshBatch(cfg, n, req.steps);
    assert cfg.Total() > 0;
    hide cfg.Valid, cfg.Total, Times, ExpectedTimes, NextTime, BatchSize, BatchCandles, CursorAt, Commit, Enrich, cfg.ExecutionBounds;
  }

  // ---------------------------------------------------------------- creation, reset and the marker

  /** A created session, and one that was reset while it was not waiting for a retry, stand before the first candle with
  the initial balance and an empty log but for that; a reset forgets everything but the answered requests. */
  lemma ResetClears(cfg: Config, s: State)
    ensures var row := SessionRow(Ready, None, cfg.initial, cfg.initial, Summary(None, false, 0, 0));
            && Create(cfg) == State(row, [Event(0, SessionCreated)], [], map[])
            && Reset(cfg, s) == if s.row.status == Running then s else State(row, [Event(0, SessionReset)], [], s.requests)
  {
  }

  /** A request that raised on the way waits for its retry: the marker names it and the status its success will leave, the
  cursor stands behind its candles, and what it raised is the error of the execution or that of the store. */
  lemma RequestStuck(cfg: Config, s: State, n: nat, req: StepRequest, fault: Fault)
    requires cfg.Valid() && Holds(cfg, s, n, None) && Accepted(cfg, s, n, req, fault)
    requires var n' := n + Taken(cfg, n, req.steps);
             n' <= |cfg.snapshot| ==> fault in {StrategyFault, ExecutionFault, FinalizeFault} || Replay(cfg, n').Err?
    ensures var n' := n + Taken(cfg, n, req.steps);
            var (s', r) := Step(cfg, s, req, fault);
            && n < n' <= |cfg.snapshot|
            && s'.row.status == Running && s'.row.cursor == Some(cfg.snapshot[n' - 1].openTime)
            && s'.row.summary.recovery == Some(Recovery(if n' == cfg.Total() then Completed else Paused, req.requestId))
            && r == Err(if fault == StrategyFault || Replay(cfg, n').Ok? then StoreFailure else ExecutionFailed(Replay(cfg, n').error))
  {
    hide *;
    ValidInterval(cfg);
    AcceptedFacts(cfg, s, n, req, fault);
    StepAccepted(cfg, s, n, req, fault);
    var n', w := n + Taken(cfg, n, req.steps), Work(req.requestId, n, ToEvaluate);
    StuckIs(cfg, n', w, fault);
    HoldsFacts(cfg, Step(cfg, s, req, fault).0, n', Some(Stuck(cfg, n', w, fault)));
    FullSnapshotIsGrid(cfg, n' - 1);
    MarkerIs(cfg, n');
  }

  lemma StuckIs(cfg: Config, n: nat, w: Work, fault: Fault)
    requires cfg.interval > 0 && n <= |cfg.snapshot| && w.stage == ToEvaluate
    requires fault in {StrategyFault, ExecutionFault, FinalizeFault} || Replay(cfg, n).Err?
    ensures !RunsThrough(cfg, n, w, fault) && Stuck(cfg, n, w, fault).requestId == w.requestId
    ensures Raises(cfg, n, w, fault) ==
              if fault == StrategyFault || Replay(cfg, n).Ok? then StoreFailure else ExecutionFailed(Replay(cfg, n).error)
  {
    hide Replay;
  }

  lemma MarkerIs(cfg: Config, n: nat)
    requires cfg.interval > 0 && n > 0
    ensures StatusAt(cfg, n) == (if n == cfg.Total() then Completed else Paused) && CursorAt(cfg, n) == Some(Time(cfg, n - 1))
  {
    hide cfg.Total, Time;
  }
}

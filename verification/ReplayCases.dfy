/** Two sessions in full: one that the planner's own plan blocks for ever, and one whose reported net result misses
what its trades realized. */
module ReplayCases {
  import opened Common
  import opened ReplayMoney
  import opened ReplayExecution
  import opened ReplayAccount
  import opened ReplayFailures
  import opened ReplayPlanner
  import opened ReplayPipeline
  import opened ReplayRecovery
  import opened ReplayGuarantees

  /** The first request of a session, whatever it leaves: idle behind its candles, or blocked. */
  lemma FirstRequest(cfg: Config, id: string, steps: int)
    requires cfg.Valid() && cfg.ExecutionBounds() && |cfg.snapshot| == cfg.Total() && 1 <= steps <= MAX_STEP_CANDLES
    requires steps <= cfg.Total()
    ensures var s := Run(cfg, [DoStep(StepRequest(id, steps, None), NoFault)]);
            if Replay(cfg, steps).Ok? then Holds(cfg, s, steps, None)
            else Holds(cfg, s, steps, Some(Work(id, 0, ToExecute)))
  {
    hide *;
    var req := StepRequest(id, steps, None);
    ValidInterval(cfg);
    FreshAccepts(cfg, req);
    FreshHolds(cfg);
    RunOne(cfg, [DoStep(req, NoFault)]);
    StepAccepted(cfg, Create(cfg), 0, req, NoFault);
    NoFaultRuns(cfg, steps, Work(id, 0, ToEvaluate));
  }

  lemma FreshHolds(cfg: Config)
    requires cfg.Valid()
    ensures Holds(cfg, Create(cfg), 0, None)
  {
    FreshSession(cfg, map[], SessionCreated);
    hide Idle, cfg.Valid;
  }

  lemma FreshAccepts(cfg: Config, req: StepRequest)
    requires cfg.interval > 0 && cfg.ExecutionBounds() && |cfg.snapshot| == cfg.Total()
    requires 1 <= req.steps <= MAX_STEP_CANDLES && req.steps <= cfg.Total() && req.expectedCursor == None
    ensures Accepted(cfg, Create(cfg), 0, req, NoFault) && Taken(cfg, 0, req.steps) == req.steps
  {
    hide cfg.Total, cfg.ExecutionBounds;
  }

  lemma RunOne(cfg: Config, ops: seq<Op>)
    requires cfg.interval > 0 && |ops| == 1 && ops[0].DoStep?
    ensures Run(cfg, ops) == Step(cfg, Create(cfg), ops[0].req, ops[0].fault).0
  {
    assert ops[..0] == [];
    hide Step;
  }

  // ---------------------------------------------------------------- blocked by a plan

  /** Stepped to its fiftieth candle, the session whose planned target lies below zero stays blocked, whatever is
  requested, retried or reset afterwards. */
  lemma PlannedTargetBlocksForever(ops: seq<Op>)
    ensures var cfg := DropSession();
            var s := Run(cfg, [DoStep(StepRequest("step-drop", 50, None), NoFault)]);
            ApplyAll(cfg, s, ops).row.status == Running
  {
    hide *;
    var cfg := DropSession();
    ShortTargetBelowZero();
    ValidInterval(cfg);
    ReplayFailsExactly(cfg, 50);
    assert MAX_STEP_CANDLES == 100 by { StepLimit(); }
    FirstRequest(cfg, "step-drop", 50);
    var s := Run(cfg, [DoStep(StepRequest("step-drop", 50, None), NoFault)]);
    var w := PriceErrorIsForever(cfg, s, 50, Work("step-drop", 0, ToExecute), 49, ops);
    HoldsFacts(cfg, ApplyAll(cfg, s, ops), 50, Some(w));
  }

  lemma StepLimit()
    ensures MAX_STEP_CANDLES == 100
  {
  }

  // ---------------------------------------------------------------- a gain the net result misses

  /** Two steps up, bought at the first and sold with the end of the session, from a balance half a unit off the money
  grid. */
  function RiseSession(): Config {
    MoveSession(100000000000.5, 6.0, 90.0, 115.0)
  }

  const BOUGHT := MoveCandle(49, 6.0, 90.0, 115.0)
  const SOLD := MoveCandle(50, 6.0, 90.0, 115.0)
  const RISE_PLAN := Plan(0.75, 68.5, 181.0, 37.5)

  function RiseTrade(): Trade {
    Trade(BOUGHT.openTime, Buy, BOUGHT.openTime, 106.0, 20000000, 68.5, 181.0, 750000000, 0, 0, None)
  }

  function RiseClosed(): Trade {
    RiseTrade().(closing := Some(Closing(SOLD.openTime, 112.0, SessionEnd, 0, 120000000, 120000000, 0, false, false)),
                 realizedPnl := 120000000)
  }

  /** What a plan opens when there is no fee and its prices are on the grid. */
  lemma OpensAs(cfg: Config, d: Decision, c: Candle, balance: real, equity: real, side: Side, p: Plan)
    requires d.verdict == Verdict(true, true, Enter(side), Some(p))
    requires balance > 0.0 && c.close > 0.0 && p.stop > 0.0 && p.target > 0.0 && p.riskPct > 0.0 && Protected(side, c.close, p)
    requires Quantity(cfg, equity, c.close, p) > 0 && Fee(c.close, Quantity(cfg, equity, c.close, p), cfg.feeBps) == 0
    requires QuantizePrice(c.close) == c.close && QuantizePrice(p.stop) == p.stop && QuantizePrice(p.target) == p.target
    ensures OpenTrade(cfg, d, c, balance, equity) ==
              Ok(Opened(Trade(c.openTime, side, c.openTime, c.close, Quantity(cfg, equity, c.close, p),
                              p.stop, p.target, RiskAmount(equity, p), 0, 0, None)))
  {
    hide Quantity, Fee, QuantizePrice, RiskAmount, Protected;
  }

  /** What a trade without fees books when it closes at a price on the grid. */
  lemma BooksGross(t: Trade, c: Candle, e: Exit, feeBps: real, available: real, gross: int)
    requires t.entryPrice > 0.0 && t.quantity > 0 && t.fees == 0
    requires GrossPnl(t.side, t.entryPrice, e.price, t.quantity) == gross && Fee(e.price, t.quantity, feeBps) == 0
    requires QuantizePrice(e.price) == e.price && LimitedLiability(gross, available) == Liability(gross, 0, false)
    ensures CloseTrade(t, c, e, feeBps, available) ==
              Ok((t.(closing := Some(Closing(c.openTime, e.price, e.reason, 0, gross, gross, 0, false, e.conflict)),
                     realizedPnl := gross), gross))
  {
    hide GrossPnl, Fee, QuantizePrice, LimitedLiability;
  }

  lemma NoFee(price: real, quantity: int)
    ensures Fee(price, quantity, 0.0) == 0
  {
  }

  lemma OnGrid(p: real, t: int)
    requires p * GRID == t as real && p >= 0.0
    ensures QuantizePrice(p) == p
  {
    assert Trunc(p * GRID) == t;
    assert t as real / GRID == p;
  }

  lemma RisePrices()
    ensures QuantizePrice(106.0) == 106.0 && QuantizePrice(112.0) == 112.0
    ensures QuantizePrice(68.5) == 68.5 && QuantizePrice(181.0) == 181.0
  {
    OnGrid(106.0, 10600000000);
    OnGrid(112.0, 11200000000);
    OnGrid(68.5, 6850000000);
    OnGrid(181.0, 18100000000);
    hide QuantizePrice;
  }

  lemma RiseRisks()
    ensures RiskAmount(100000000000.0, RISE_PLAN) == 750000000
  {
    assert 100000000000.0 * 0.75 / 100.0 == 750000000.0;
  }

  lemma RiseSizes()
    ensures Quantity(RiseSession(), 100000000000.0, 106.0, RISE_PLAN) == 20000000
  {
    RiseRisks();
    assert RiskLimit(100000000000.0, 106.0, RISE_PLAN) == 20000000.0 by { hide RiskAmount; }
    assert LeverageLimit(RiseSession(), 100000000000.0, 106.0) == 100000000000.0 / 106.0 by { hide MoveCandles; }
    assert Trunc(20000000.0) == 20000000 && Trunc(100000000000.0 / 106.0) >= 20000000;
    hide RiskLimit, LeverageLimit, Trunc;
  }

  lemma RiseVerdict()
    ensures var cfg := RiseSession();
            && cfg.snapshot[49] == BOUGHT && cfg.snapshot[50] == SOLD
            && PureDecision(cfg, 49).verdict == Verdict(true, true, Enter(Buy), Some(RISE_PLAN))
  {
    MovePrefix(50, 51, 6.0, 90.0, 115.0);
    MoveIsFollowed(6.0, 90.0, 115.0);
    hide Evaluate;
  }

  lemma RiseOpens()
    ensures OpenTrade(RiseSession(), PureDecision(RiseSession(), 49), BOUGHT, 100000000000.5, 100000000000.0) == Ok(Opened(RiseTrade()))
  {
    RiseVerdict();
    RiseRisks();
    RiseSizes();
    RisePrices();
    NoFee(106.0, 20000000);
    hide Evaluate, Quantity, RiskAmount, Fee, QuantizePrice, OpenTrade, MoveCandles;
    OpensAs(RiseSession(), PureDecision(RiseSession(), 49), BOUGHT, 100000000000.5, 100000000000.0, Buy, RISE_PLAN);
  }

  lemma RiseEnters()
    ensures var cfg := RiseSession();
            ApplyEntry(cfg, Account(100000000000.5, 100000000000.0, []), BOUGHT, Some(PureDecision(cfg, 49)), false) ==
              Ok((Account(100000000000.0, 100000000000.0, [RiseTrade()]), [NoteOpened(BOUGHT.openTime, RiseTrade())]))
  {
    RiseVerdict();
    RiseOpens();
    assert LoadOpen([]) == None;
    assert InsertRow([], RiseTrade()) == Ok([RiseTrade()]) by {
      assert [] + [RiseTrade()] == [RiseTrade()];
    }
    assert Trunc(100000000000.5) == 100000000000;
    hide Evaluate, OpenTrade, LoadOpen, InsertRow, Trunc, MoveCandles;
  }

  lemma NoMove(side: Side, price: real, quantity: int)
    ensures GrossPnl(side, price, price, quantity) == 0
  {
  }

  lemma RiseMarks()
    ensures var r := ApplyMark(Account(100000000000.0, 100000000000.0, [RiseTrade()]), BOUGHT);
            r.Ok? && r.value.0 == Account(100000000000.0, 100000000000.0, [RiseTrade()])
  {
    assert LoadOpen([RiseTrade()]) == Some(RiseTrade());
    NoMove(Buy, 106.0, 20000000);
    assert Trunc(100000000000.0) == 100000000000;
    hide LoadOpen, GrossPnl, Trunc;
  }

  lemma RiseFirst()
    ensures var cfg := RiseSession();
            var r := StepCandle(cfg, Account(100000000000.5, 100000000000.0, []), BOUGHT, Some(PureDecision(cfg, 49)), false);
            r.Ok? && r.value.0 == Account(100000000000.0, 100000000000.0, [RiseTrade()])
  {
    var cfg, a := RiseSession(), Account(100000000000.5, 100000000000.0, []);
    RiseEnters();
    RiseMarks();
    assert ApplyExit(cfg, a, BOUGHT) == Ok((a, []));
    hide Evaluate, MoveCandles, ApplyEntry, ApplyMark, ApplyExit;
    NoEndBefore(cfg, Account(100000000000.0, 100000000000.0, [RiseTrade()]), BOUGHT);
    hide ApplySessionEnd;
  }

  lemma RiseGains()
    ensures GrossPnl(Buy, 106.0, 112.0, 20000000) == 120000000
    ensures LimitedLiability(120000000, 100000000000.0) == Liability(120000000, 0, false)
    ensures Trunc(100000000000.0 + 120000000 as real) == 100120000000
  {
    assert (112.0 - 106.0) * 20000000.0 * 1.0 == 120000000.0;
  }

  lemma RiseReplaces()
    ensures CloseRow([RiseTrade()], RiseClosed()) == Ok([RiseClosed()])
  {
    assert [RiseClosed()] + [RiseTrade()][1..] == [RiseClosed()];
  }

  lemma RiseCloses()
    ensures Settle(RiseSession(), Account(100000000000.0, 100000000000.0, [RiseTrade()]), RiseTrade(), SOLD, Exit(SessionEnd, 112.0, false))
            == Ok((Account(100120000000.0, 100120000000.0, [RiseClosed()]), RiseClosed()))
  {
    hide GrossPnl, Fee, QuantizePrice, LimitedLiability, CloseTrade, CloseRow, Trunc, MoveCandles;
    RiseGains();
    RisePrices();
    NoFee(112.0, 20000000);
    RiseReplaces();
    BooksGross(RiseTrade(), SOLD, Exit(SessionEnd, 112.0, false), 0.0, 100000000000.0, 120000000);
  }

  lemma RiseStays()
    ensures var cfg := RiseSession();
            var a := Account(100000000000.0, 100000000000.0, [RiseTrade()]);
            var r := ApplyEntry(cfg, a, SOLD, Some(PureDecision(cfg, 50)), true);
            && ApplyExit(cfg, a, SOLD) == Ok((a, []))
            && r.Ok? && r.value.0 == a
            && LoadOpen(a.trades) == Some(RiseTrade())
  {
    assert LoadOpen([RiseTrade()]) == Some(RiseTrade());
    assert ExitDecision(RiseTrade(), SOLD) == Ok(None);
    hide Evaluate, MoveCandles, LoadOpen, ExitDecision, OpenTrade, Settle;
  }

  lemma RiseEnds()
    ensures var a := Account(100000000000.0, 100000000000.0, [RiseTrade()]);
            var r := ApplySessionEnd(RiseSession(), a, SOLD, true);
            r.Ok? && r.value.0 == Account(100120000000.0, 100120000000.0, [RiseClosed()])
  {
    RiseStays();
    RiseCloses();
    hide Evaluate, MoveCandles, LoadOpen, Settle, ApplyExit, ApplyEntry;
  }

  lemma RiseSettled()
    ensures var a := Account(100120000000.0, 100120000000.0, [RiseClosed()]);
            var r := ApplyMark(a, SOLD);
            r.Ok? && r.value.0 == a
  {
    assert LoadOpen([RiseClosed()]) == None;
    assert Trunc(100120000000.0) == 100120000000;
    hide LoadOpen, Trunc;
  }

  lemma RiseSecond()
    ensures var cfg := RiseSession();
            var r := StepCandle(cfg, Account(100000000000.0, 100000000000.0, [RiseTrade()]), SOLD, Some(PureDecision(cfg, 50)), true);
            r.Ok? && r.value.0 == Account(100120000000.0, 100120000000.0, [RiseClosed()])
  {
    RiseStays();
    RiseEnds();
    RiseSettled();
    hide Evaluate, MoveCandles, LoadOpen, ApplyExit, ApplyEntry, ApplySessionEnd, ApplyMark;
  }

  lemma RiseIsValid()
    ensures var cfg := RiseSession();
            && cfg.Valid() && cfg.ExecutionBounds() && |cfg.snapshot| == cfg.Total() == 51
            && cfg.initial == 100000000000.5 && Trunc(cfg.initial) == 100000000000
  {
    MoveIsValid(100000000000.5, 6.0, 90.0, 115.0);
    hide MoveCandles, RiseSession().Valid;
  }

  lemma RiseCompletes()
    ensures StatusAt(RiseSession(), 51) == Completed
  {
    RiseIsValid();
    hide MoveCandles, RiseSession().Valid;
  }

  lemma RiseReplays()
    ensures var cfg := RiseSession();
            && cfg.interval > 0 && |cfg.snapshot| == 51
            && Replay(cfg, 51).Ok? && Replay(cfg, 51).value.0 == Account(100120000000.0, 100120000000.0, [RiseClosed()])
  {
    hide *;
    var cfg := RiseSession();
    RiseIsValid();
    ValidInterval(cfg);
    RiseVerdict();
    RiseQuiet();
    RiseFirst();
    ReplayUnfold(cfg, 50);
    RiseSecond();
    ReplayUnfold(cfg, 51);
  }

  lemma RiseQuiet()
    ensures var cfg := RiseSession();
            && cfg.interval > 0 && |cfg.snapshot| == 51
            && Replay(cfg, 49).Ok? && Replay(cfg, 49).value.0 == Account(100000000000.5, 100000000000.0, [])
  {
    RiseIsValid();
    MoveQuiet(100000000000.5, 6.0, 90.0, 115.0);
    hide Replay, Evaluate, MoveCandles, Trunc;
  }

  lemma RiseTotals(s: State)
    requires AccountOf(s) == Account(100120000000.0, 100120000000.0, [RiseClosed()])
    ensures RealizedTotal(s.trades) == 120000000 && Trunc(s.row.balance - 100000000000.5) == 119999999
  {
    assert [RiseClosed()][..0] == [];
    assert RealizedTotal([]) == 0;
  }

  /** After its one request the session is completed, its trades have realized 120000000 units, and the net result it
  reports is one unit less. */
  lemma OffGridGainIsLost()
    ensures var cfg := RiseSession();
            var s := Run(cfg, [DoStep(StepRequest("step-rise", 51, None), NoFault)]);
            && cfg.Valid() && s.row.status == Completed
            && RealizedTotal(s.trades) == 120000000 && Trunc(s.row.balance - cfg.initial) == 119999999
  {
    hide *;
    var cfg := RiseSession();
    RiseIsValid();
    RiseCompletes();
    RiseReplays();
    assert MAX_STEP_CANDLES == 100 by { StepLimit(); }
    FirstRequest(cfg, "step-rise", 51);
    var ops := [DoStep(StepRequest("step-rise", 51, None), NoFault)];
    HoldsFacts(cfg, Run(cfg, ops), 51, None);
    PositionIs(cfg, Run(cfg, ops), 51, None);
    RunIsReplay(cfg, ops);
    RiseTotals(Run(cfg, ops));
  }
}

/** Which candles the simulated execution raises on, and which frozen inputs never contain one. */
module ReplayFailures {
  import opened Common
  import opened ReplayMoney
  import opened ReplayExecution
  import opened ReplayAccount
  import opened ReplayTrading

  // ---------------------------------------------------------------- prices that are not positive

  /** Smaller than one step of the price grid. */
  predicate BelowGrid(p: real) {
    p * GRID < 1.0
  }

  /** A price below the grid is stored as zero. */
  lemma CutToZero(p: real)
    requires p > 0.0
    ensures QuantizePrice(p) <= 0.0 <==> BelowGrid(p)
  {
  }

  /** A stored price that exit, close or mark refuse. */
  predicate Unpriced(t: Trade) {
    t.stop <= 0.0 || t.target <= 0.0 || t.entryPrice <= 0.0
  }

  /** The plan of an eligible verdict that opening a trade raises on instead of skipping it. */
  predicate PlanRaises(entry: real, v: Verdict) {
    && v.plan.Some? && v.signal.Enter?
    && var p := v.plan.value;
       p.stop <= 0.0 || p.target <= 0.0 || (Protected(v.signal.side, entry, p) && p.riskPct <= 0.0)
  }

  /** The verdict opens a trade on this account. */
  predicate Opens(cfg: Config, a: Account, entry: real, v: Verdict)
    requires entry > 0.0
  {
    && v.eligible && v.plan.Some? && v.signal.Enter? && !PlanRaises(entry, v)
    && Protected(v.signal.side, entry, v.plan.value)
    && var quantity := Quantity(cfg, a.equity, entry, v.plan.value);
       quantity > 0 && Fee(entry, quantity, cfg.feeBps) as real < a.balance
  }

  /** The account the entry of this candle is decided on. */
  function AfterExit(cfg: Config, a: Account, c: Candle): Account {
    var r := ApplyExit(cfg, a, c);
    if r.Ok? then r.value.0 else a
  }

  /** On an account without an open trade: an eligible verdict whose plan raises, or that opens a trade at a price
  too small to store. */
  predicate EntryFails(cfg: Config, a: Account, c: Candle, v: Verdict)
    requires c.close > 0.0
  {
    && v.eligible && a.equity > 0.0 && a.balance > 0.0
    && (PlanRaises(c.close, v) || (Opens(cfg, a, c.close, v) && BelowGrid(c.close)))
  }

  /** The guard: an open trade with a stored price that is not positive, or, with no trade open or the open one
  closed by this candle, an entry that fails; the final candle takes no entry. */
  predicate CandleFails(cfg: Config, a: Account, c: Candle, v: Verdict, final: bool)
    requires c.close > 0.0
  {
    var open := LoadOpen(a.trades);
    || (open.Some? && Unpriced(open.value))
    || (!final && (open.Some? ==> Touched(open.value, c)) && EntryFails(cfg, AfterExit(cfg, a, c), c, v))
  }

  // ---------------------------------------------------------------- phase by phase

  /** What every candle of the replay finds. */
  predicate Fits(cfg: Config, a: Account, c: Candle) {
    cfg.ExecutionBounds() && CandleOk(c) && AccountOk(cfg, a) && EnteredBefore(a, c.openTime)
  }

  lemma ExitPhase(cfg: Config, a: Account, c: Candle)
    requires Fits(cfg, a, c)
    ensures var open, r := LoadOpen(a.trades), ApplyExit(cfg, a, c);
            if open.None? then r == Ok((a, []))
            else if open.value.stop <= 0.0 || open.value.target <= 0.0 then r.Err?
            else if !Touched(open.value, c) then r == Ok((a, []))
            else if open.value.entryPrice <= 0.0 then r.Err?
            else r.Ok? && LoadOpen(r.value.0.trades) == None && Fits(cfg, r.value.0, c)
  {
    hide LoadOpen, AccountOk, Settle, EnteredBefore, cfg.ExecutionBounds, StopTouched, TargetTouched, ExitDecision;
    var open := LoadOpen(a.trades);
    if open.Some? {
      OpenTradeFacts(cfg, a, open.value, c.openTime);
      hide TradeOk;
      UnpricedExit(open.value, c);
      if open.value.stop > 0.0 && open.value.target > 0.0 {
        StopGoesFirst(open.value, c);
        if Touched(open.value, c) {
          ExitPricePositive(open.value, c);
          SettleKeeps(cfg, a, open.value, c, ExitDecision(open.value, c).value.value);
        }
      }
    }
  }

  lemma UnpricedExit(t: Trade, c: Candle)
    ensures t.stop <= 0.0 || t.target <= 0.0 ==> ExitDecision(t, c).Err?
  {
  }

  /** With a trade open the entry does nothing, and closing or marking it needs its entry price. */
  lemma OpenTradeStays(cfg: Config, a: Account, c: Candle, d: Option<Decision>, final: bool)
    requires Fits(cfg, a, c) && LoadOpen(a.trades).Some?
    ensures ApplyEntry(cfg, a, c, d, final).Ok? && ApplyEntry(cfg, a, c, d, final).value.0 == a
    ensures var t, r := LoadOpen(a.trades).value, ApplySessionEnd(cfg, a, c, final);
            && (final ==> (r.Err? <==> t.entryPrice <= 0.0))
            && (final && r.Ok? ==> LoadOpen(r.value.0.trades) == None)
            && (!final ==> r == Ok((a, [])) && (ApplyMark(a, c).Err? <==> t.entryPrice <= 0.0))
  {
    hide LoadOpen, AccountOk, Settle, EnteredBefore, cfg.ExecutionBounds, OpenTrade, InsertRow, GrossPnl;
    var t := LoadOpen(a.trades).value;
    OpenTradeFacts(cfg, a, t, c.openTime);
    hide TradeOk;
    if final {
      SettleKeeps(cfg, a, t, c, Exit(SessionEnd, c.close, false));
    }
  }

  lemma NoTradeNoRaise(cfg: Config, a: Account, c: Candle, final: bool)
    requires LoadOpen(a.trades) == None
    ensures ApplySessionEnd(cfg, a, c, final) == Ok((a, [])) && ApplyMark(a, c).Ok?
  {
    hide LoadOpen;
  }

  /** A trade that opens has a stored price of zero exactly where the plan or the close lies below the grid. */
  lemma OpenedUnpriced(cfg: Config, d: Decision, c: Candle, balance: real, equity: real)
    requires c.close > 0.0
    ensures var o := OpenTrade(cfg, d, c, balance, equity);
            o.Ok? && o.value.Opened? ==>
              && d.verdict.plan.Some?
              && (o.value.trade.entryPrice <= 0.0 <==> BelowGrid(c.close))
              && (o.value.trade.stop <= 0.0 <==> BelowGrid(d.verdict.plan.value.stop))
              && (o.value.trade.target <= 0.0 <==> BelowGrid(d.verdict.plan.value.target))
  {
    hide Quantity, Fee, QuantizePrice, RiskAmount, BelowGrid;
    if d.verdict.plan.Some? {
      var p := d.verdict.plan.value;
      if p.stop > 0.0 { CutToZero(p.stop); }
      if p.target > 0.0 { CutToZero(p.target); }
      CutToZero(c.close);
    }
  }

  /** Opening raises, opens or skips by the guards above. */
  lemma OpenTradeCases(cfg: Config, d: Decision, c: Candle, a: Account)
    requires c.close > 0.0 && d.verdict.eligible
    ensures var o := OpenTrade(cfg, d, c, a.balance, a.equity);
            && (o.Err? <==> PlanRaises(c.close, d.verdict))
            && (o.Ok? && o.value.Opened? <==> Opens(cfg, a, c.close, d.verdict))
  {
    hide Quantity, Fee, QuantizePrice, RiskAmount;
  }

  /** With no trade open, before the final candle, on an account that can trade: an eligible decision raises if and
  only if its plan has a stop or a target that is not positive, or no risk behind a plan that would be taken. */
  lemma EntryRaises(cfg: Config, a: Account, c: Candle, d: Decision)
    requires cfg.ExecutionBounds() && CandleOk(c) && AccountOk(cfg, a) && EnteredBefore(a, c.openTime)
    requires LoadOpen(a.trades) == None && a.equity > 0.0 && a.balance > 0.0 && d.verdict.eligible
    ensures ApplyEntry(cfg, a, c, Some(d), false).Err? <==> PlanRaises(c.close, d.verdict)
    ensures var r := ApplyEntry(cfg, a, c, Some(d), false);
            r.Ok? ==>
              if Opens(cfg, a, c.close, d.verdict) then
                var o := OpenTrade(cfg, d, c, a.balance, a.equity);
                o.Ok? && o.value.Opened? && r.value.0.trades == a.trades + [o.value.trade] && AccountOk(cfg, r.value.0)
              else r.value.0 == a
  {
    hide LoadOpen, AccountOk, InsertRow, OpenTrade, Opens, PlanRaises, TradeOk;
    OpenTradeWithinLimits(cfg, d, c, a.balance, a.equity);
    OpenTradeCases(cfg, d, c, a);
    var o := OpenTrade(cfg, d, c, a.balance, a.equity);
    if o.Ok? && o.value.Opened? {
      OpenedEntry(o.value.trade);
      EnteredFacts(a, c.openTime);
      OpeningBooks(cfg, a, o.value.trade);
    }
  }

  /** The entry of a candle that finds no trade open. */
  lemma EntryPhase(cfg: Config, a: Account, c: Candle, d: Decision, final: bool)
    requires Fits(cfg, a, c) && LoadOpen(a.trades) == None
    ensures var r, alive := ApplyEntry(cfg, a, c, Some(d), final), a.equity > 0.0 && a.balance > 0.0;
            && (r.Err? <==> !final && alive && d.verdict.eligible && PlanRaises(c.close, d.verdict))
            && (r.Ok? && !(!final && alive && Opens(cfg, a, c.close, d.verdict)) ==> r.value.0 == a)
            && (r.Ok? && !final && alive && Opens(cfg, a, c.close, d.verdict) ==>
                  var open := LoadOpen(r.value.0.trades);
                  && open.Some? && open.value.quantity > 0 && d.verdict.plan.Some?
                  && (open.value.entryPrice <= 0.0 <==> BelowGrid(c.close))
                  && (open.value.stop <= 0.0 <==> BelowGrid(d.verdict.plan.value.stop))
                  && (open.value.target <= 0.0 <==> BelowGrid(d.verdict.plan.value.target)))
  {
    hide LoadOpen, AccountOk, OpenTrade, InsertRow, PlanRaises, EnteredBefore, cfg.ExecutionBounds, BelowGrid;
    if d.verdict.eligible && !final && a.equity > 0.0 && a.balance > 0.0 {
      EntryRaises(cfg, a, c, d);
      if !PlanRaises(c.close, d.verdict) && Opens(cfg, a, c.close, d.verdict) {
        OpenedUnpriced(cfg, d, c, a.balance, a.equity);
        OpenedIsLoaded(cfg, a, c, d, ApplyEntry(cfg, a, c, Some(d), final).value.0);
      }
    }
  }

  lemma OpenedIsLoaded(cfg: Config, a: Account, c: Candle, d: Decision, b: Account)
    requires cfg.ExecutionBounds() && CandleOk(c) && AccountOk(cfg, b) && a.equity >= 0.0
    requires var o := OpenTrade(cfg, d, c, a.balance, a.equity);
             o.Ok? && o.value.Opened? && b.trades == a.trades + [o.value.trade]
    ensures LoadOpen(b.trades) == Some(OpenTrade(cfg, d, c, a.balance, a.equity).value.trade)
    ensures OpenTrade(cfg, d, c, a.balance, a.equity).value.trade.quantity > 0
  {
    hide LoadOpen, TradeOk, Booked, OpenTrade;
    OpenTradeWithinLimits(cfg, d, c, a.balance, a.equity);
    OpenIsLast(b.trades);
    OpenedFacts(OpenTrade(cfg, d, c, a.balance, a.equity).value.trade);
  }

  lemma OpenedFacts(t: Trade)
    requires TradeOk(t)
    ensures t.quantity > 0
  {
    hide RiskBounded;
  }

  lemma MarkRaises(a: Account, c: Candle)
    requires LoadOpen(a.trades).Some? && LoadOpen(a.trades).value.quantity > 0
    ensures ApplyMark(a, c).Err? <==> LoadOpen(a.trades).value.entryPrice <= 0.0
  {
    hide LoadOpen, GrossPnl;
  }

  lemma NoEndBefore(cfg: Config, a: Account, c: Candle)
    ensures ApplySessionEnd(cfg, a, c, false) == Ok((a, []))
  {
    hide LoadOpen, Settle;
  }

  /** What follows the exit fails exactly as the entry does. */
  lemma RestFails(cfg: Config, a: Account, c: Candle, d: Decision, final: bool)
    requires Fits(cfg, a, c) && LoadOpen(a.trades) == None
    ensures var entered := ApplyEntry(cfg, a, c, Some(d), final);
            && (!final && EntryFails(cfg, a, c, d.verdict) ==>
                  || entered.Err?
                  || (ApplySessionEnd(cfg, entered.value.0, c, final) == Ok((entered.value.0, [])) && ApplyMark(entered.value.0, c).Err?))
            && (!(!final && EntryFails(cfg, a, c, d.verdict)) ==>
                  && entered.Ok?
                  && ApplySessionEnd(cfg, entered.value.0, c, final) == Ok((entered.value.0, [])) && ApplyMark(entered.value.0, c).Ok?)
  {
    hide LoadOpen, ApplyEntry, ApplySessionEnd, ApplyMark, Fits, PlanRaises, BelowGrid;
    CandlePositive(cfg, a, c);
    EntryPhase(cfg, a, c, d, final);
    var entered := ApplyEntry(cfg, a, c, Some(d), final);
    if entered.Ok? {
      OpensIsEligible(cfg, a, c, d.verdict);
      hide Opens;
      NoEndBefore(cfg, entered.value.0, c);
      if LoadOpen(entered.value.0.trades).Some? {
        MarkRaises(entered.value.0, c);
      } else {
        NoTradeNoRaise(cfg, entered.value.0, c, final);
      }
    }
  }

  lemma CandlePositive(cfg: Config, a: Account, c: Candle)
    requires Fits(cfg, a, c)
    ensures c.close > 0.0
  {
  }

  lemma OpensIsEligible(cfg: Config, a: Account, c: Candle, v: Verdict)
    requires c.close > 0.0
    ensures Opens(cfg, a, c.close, v) ==> v.eligible && !PlanRaises(c.close, v)
  {
    hide PlanRaises, Quantity, Fee;
  }

  /** One candle raises if and only if its guard holds. */
  lemma StepFailsExactly(cfg: Config, a: Account, c: Candle, d: Decision, final: bool)
    requires Fits(cfg, a, c) && c.close > 0.0
    ensures StepCandle(cfg, a, c, Some(d), final).Err? <==> CandleFails(cfg, a, c, d.verdict, final)
  {
    hide LoadOpen, ApplyExit, ApplyEntry, ApplySessionEnd, ApplyMark, Fits, EntryFails, Touched;
    ExitPhase(cfg, a, c);
    var open, exited := LoadOpen(a.trades), ApplyExit(cfg, a, c);
    if exited.Ok? {
      var b := exited.value.0;
      if LoadOpen(b.trades).None? {
        RestFails(cfg, b, c, d, final);
      } else {
        OpenTradeStays(cfg, b, c, Some(d), final);
        var ended := ApplySessionEnd(cfg, b, c, final);
        if final && ended.Ok? {
          NoTradeNoRaise(cfg, ended.value.0, c, final);
        }
      }
    }
  }

  // ---------------------------------------------------------------- the whole replay

  /** The first i candles replay, and the next one raises. */
  ghost predicate FailsAt(cfg: Config, i: nat)
    requires cfg.interval > 0 && i < |cfg.snapshot|
  {
    && Replay(cfg, i).Ok? && cfg.snapshot[i].close > 0.0
    && CandleFails(cfg, Replay(cfg, i).value.0, cfg.snapshot[i], cfg.evaluate(cfg.snapshot[..i + 1]), i + 1 == cfg.Total())
  }

  lemma FitsAt(cfg: Config, i: nat)
    requires cfg.Valid() && cfg.ExecutionBounds() && i < |cfg.snapshot| && Replay(cfg, i).Ok?
    ensures Fits(cfg, Replay(cfg, i).value.0, cfg.snapshot[i]) && cfg.snapshot[i].close > 0.0
  {
    ReplayKeeps(cfg, i);
    SnapshotAt(cfg, i);
    hide Replay, AccountOk, EnteredBefore, cfg.Valid;
  }

  /** The replay of n candles raises if and only if one of these candles meets its guard. */
  lemma {:induction false} ReplayFailsExactly(cfg: Config, n: nat)
    requires cfg.Valid() && cfg.ExecutionBounds() && n <= |cfg.snapshot|
    ensures Replay(cfg, n).Err? <==> exists i | 0 <= i < n :: FailsAt(cfg, i)
  {
    hide *;
    ValidInterval(cfg);
    if n == 0 {
      ReplayZero(cfg);
    } else {
      ReplayFailsExactly(cfg, n - 1);
      ReplayGoesOn(cfg, n);
      if FailsAt(cfg, n - 1) {
      } else {
        assert forall i | 0 <= i < n :: FailsAt(cfg, i) ==> i < n - 1;
      }
    }
  }

  lemma ReplayZero(cfg: Config)
    requires cfg.interval > 0
    ensures Replay(cfg, 0) == Ok((Account(cfg.initial, cfg.initial, []), []))
  {
  }

  lemma ReplayGoesOn(cfg: Config, n: nat)
    requires cfg.Valid() && cfg.ExecutionBounds() && 0 < n <= |cfg.snapshot|
    ensures Replay(cfg, n).Err? <==> Replay(cfg, n - 1).Err? || FailsAt(cfg, n - 1)
  {
    hide *;
    ValidInterval(cfg);
    FailsMeans(cfg, n - 1);
    ReplayUnfold(cfg, n);
    if Replay(cfg, n - 1).Ok? {
      FitsAt(cfg, n - 1);
      StepFailsExactly(cfg, Replay(cfg, n - 1).value.0, cfg.snapshot[n - 1], PureDecision(cfg, n - 1), n == cfg.Total());
    }
  }

  lemma FailsMeans(cfg: Config, i: nat)
    requires cfg.Valid() && i < |cfg.snapshot|
    ensures cfg.snapshot[i].close > 0.0
    ensures FailsAt(cfg, i) <==>
            && Replay(cfg, i).Ok?
            && CandleFails(cfg, Replay(cfg, i).value.0, cfg.snapshot[i], PureDecision(cfg, i).verdict, i + 1 == cfg.Total())
  {
    SnapshotAt(cfg, i);
    hide Replay, CandleFails, cfg.Total;
  }

  // ---------------------------------------------------------------- inputs that never raise

  /** The prices an eligible verdict would trade at are on the scale of the grid, and it risks something. */
  predicate OnScale(close: real, v: Verdict) {
    && !BelowGrid(close)
    && (v.eligible && v.signal.Enter? && v.plan.Some? ==>
          !BelowGrid(v.plan.value.stop) && !BelowGrid(v.plan.value.target) && v.plan.value.riskPct > 0.0)
  }

  /** The frozen candles and what the planner says about each prefix of them. */
  predicate InputsOnScale(cfg: Config, n: nat)
    requires n <= |cfg.snapshot|
  {
    forall i | 0 <= i < n :: OnScale(cfg.snapshot[i].close, cfg.evaluate(cfg.snapshot[..i + 1]))
  }

  predicate Priced(a: Account) {
    var open := LoadOpen(a.trades);
    open.Some? ==> !Unpriced(open.value)
  }

  lemma OnScaleTrades(cfg: Config, a: Account, c: Candle, v: Verdict)
    requires c.close > 0.0 && OnScale(c.close, v)
    ensures !EntryFails(cfg, a, c, v)
    ensures Opens(cfg, a, c.close, v) ==>
              v.eligible && v.signal.Enter? && v.plan.Some? && !BelowGrid(v.plan.value.stop) && !BelowGrid(v.plan.value.target)
  {
    hide Quantity, Fee, Protected;
  }

  /** On such inputs an account with priced trades goes on to one with priced trades. */
  lemma StepKeepsPriced(cfg: Config, a: Account, c: Candle, d: Decision, final: bool)
    requires Fits(cfg, a, c) && c.close > 0.0 && Priced(a) && OnScale(c.close, d.verdict)
    ensures var r := StepCandle(cfg, a, c, Some(d), final); r.Ok? && Priced(r.value.0)
  {
    StepFailsExactly(cfg, a, c, d, final);
    OnScaleTrades(cfg, AfterExit(cfg, a, c), c, d.verdict);
    hide LoadOpen, ApplyExit, ApplyEntry, ApplySessionEnd, ApplyMark, Fits, EntryFails, Touched, Opens, OnScale, BelowGrid, PlanRaises;
    ExitPhase(cfg, a, c);
    var b := ApplyExit(cfg, a, c).value.0;
    if LoadOpen(b.trades).Some? {
      OpenTradeStays(cfg, b, c, Some(d), final);
    } else {
      EntryPricesTrades(cfg, b, c, d, final);
    }
    var e := ApplyEntry(cfg, b, c, Some(d), final).value.0;
    MarkKeepsTrades(ApplySessionEnd(cfg, e, c, final).value.0, c);
  }

  lemma EntryPricesTrades(cfg: Config, a: Account, c: Candle, d: Decision, final: bool)
    requires Fits(cfg, a, c) && LoadOpen(a.trades) == None && c.close > 0.0 && OnScale(c.close, d.verdict)
    ensures var r := ApplyEntry(cfg, a, c, Some(d), final);
            r.Ok? && Priced(r.value.0) && ApplySessionEnd(cfg, r.value.0, c, final) == Ok((r.value.0, []))
  {
    EntryPhase(cfg, a, c, d, final);
    OnScaleTrades(cfg, a, c, d.verdict);
    NotBelow(c, d.verdict);
    hide LoadOpen, ApplyEntry, ApplySessionEnd, Fits, Opens, BelowGrid, PlanRaises;
    RestFails(cfg, a, c, d, final);
  }

  lemma NotBelow(c: Candle, v: Verdict)
    requires OnScale(c.close, v)
    ensures !BelowGrid(c.close)
  {
  }

  lemma MarkKeepsTrades(a: Account, c: Candle)
    ensures ApplyMark(a, c).Ok? ==> ApplyMark(a, c).value.0.trades == a.trades
  {
    hide LoadOpen, GrossPnl;
  }

  /** Closes, stops and targets on the scale of the grid are enough: every prefix replays. */
  lemma {:induction false} OnScaleReplays(cfg: Config, n: nat)
    requires cfg.Valid() && cfg.ExecutionBounds() && n <= |cfg.snapshot| && InputsOnScale(cfg, n)
    ensures Replay(cfg, n).Ok? && Priced(Replay(cfg, n).value.0)
  {
    hide *;
    ValidInterval(cfg);
    if n == 0 {
      ReplayZero(cfg);
      NothingOpen(cfg.initial, cfg.initial);
    } else {
      PrefixOnScale(cfg, n);
      OnScaleReplays(cfg, n - 1);
      FitsAt(cfg, n - 1);
      StepKeepsPriced(cfg, Replay(cfg, n - 1).value.0, cfg.snapshot[n - 1], PureDecision(cfg, n - 1), n == cfg.Total());
      ReplayOf(cfg, n);
    }
  }

  lemma PrefixOnScale(cfg: Config, n: nat)
    requires 0 < n <= |cfg.snapshot| && InputsOnScale(cfg, n)
    ensures InputsOnScale(cfg, n - 1) && OnScale(cfg.snapshot[n - 1].close, PureDecision(cfg, n - 1).verdict)
  {
    hide OnScale;
    assert cfg.snapshot[..n - 1 + 1] == cfg.snapshot[..n];
  }

  lemma ReplayOf(cfg: Config, n: nat)
    requires cfg.Valid() && 0 < n <= |cfg.snapshot| && Replay(cfg, n - 1).Ok?
    ensures var next := StepCandle(cfg, Replay(cfg, n - 1).value.0, cfg.snapshot[n - 1], Some(PureDecision(cfg, n - 1)), n == cfg.Total());
            next.Ok? ==> Replay(cfg, n).Ok? && Replay(cfg, n).value.0 == next.value.0
  {
    assert cfg.interval > 0;
    ReplayUnfold(cfg, n);
    hide *;
  }

  lemma NothingOpen(balance: real, equity: real)
    ensures Priced(Account(balance, equity, []))
  {
  }

  /** Without an eligible verdict nothing is traded, and the account stays what it was but for the fraction of the
  equity below the money grid. */
  lemma {:induction false} NothingEligible(cfg: Config, n: nat)
    requires cfg.interval > 0 && n <= |cfg.snapshot|
    requires forall i | 0 <= i < n :: !PureDecision(cfg, i).verdict.eligible
    ensures Replay(cfg, n).Ok?
    ensures Replay(cfg, n).value.0 == Account(cfg.initial, if n == 0 then cfg.initial else Trunc(cfg.initial) as real, [])
  {
    hide *;
    if n == 0 {
      ReplayZero(cfg);
    } else {
      NothingEligible(cfg, n - 1);
      IdleCandle(cfg, Replay(cfg, n - 1).value.0, cfg.snapshot[n - 1], PureDecision(cfg, n - 1), n == cfg.Total());
      ReplayUnfold(cfg, n);
      TruncTwice(cfg.initial);
    }
  }

  lemma TruncTwice(x: real)
    ensures Trunc(Trunc(x) as real) == Trunc(x)
  {
  }

  lemma IdleCandle(cfg: Config, a: Account, c: Candle, d: Decision, final: bool)
    requires a.trades == [] && !d.verdict.eligible
    ensures StepCandle(cfg, a, c, Some(d), final).Ok?
    ensures StepCandle(cfg, a, c, Some(d), final).value.0 == a.(equity := Trunc(a.balance) as real)
  {
    assert LoadOpen(a.trades) == None;
    hide LoadOpen, Trunc;
  }
}

/** The rules of simulated trading in plain amounts: what opens a trade and how large, what closes it at which price,
what a close books, and what a candle leaves in the account and in the audit notes.  The rules use exact products and
quotients and say how far they are cut; the program is proved to follow them, and where a rule decides, to do nothing
else. */
module ReplayRules {
  import opened Common
  import opened ReplayMoney
  import opened ReplayExecution
  import opened ReplayAccount
  import opened ReplayTrading

  // ---------------------------------------------------------------- whole units and grid prices

  /** Whole units of an exact amount, the fraction dropped toward zero. */
  predicate IsCut(units: int, exact: real) {
    if exact >= 0.0 then units as real <= exact < units as real + 1.0 else units as real - 1.0 < exact <= units as real
  }

  /** An amount that is the whole units of an exact one. */
  predicate IsCutAmount(amount: real, exact: real) {
    amount == amount.Floor as real && IsCut(amount.Floor, exact)
  }

  /** A price with eight decimals. */
  predicate IsGridPrice(price: real, exact: real) {
    var units := (price * 100000000.0).Floor;
    price == units as real / 100000000.0 && IsCut(units, exact * 100000000.0)
  }

  lemma CutIsUnique(units: int, exact: real)
    ensures IsCut(units, exact) <==> units == Trunc(exact)
  {
  }

  lemma CutAmountIsUnique(amount: real, exact: real)
    ensures IsCutAmount(amount, exact) <==> amount == Trunc(exact) as real
  {
    CutIsUnique(amount.Floor, exact);
    hide IsCut, Trunc;
  }

  lemma GridFloor(units: int)
    ensures (units as real / 100000000.0 * 100000000.0).Floor == units
  {
    assert units as real / 100000000.0 * 100000000.0 == units as real;
  }

  lemma QuantizedIs(exact: real)
    ensures QuantizePrice(exact) == Trunc(exact * 100000000.0) as real / 100000000.0
  {
    hide Trunc;
  }

  lemma GridPriceIsUnique(price: real, exact: real)
    ensures IsGridPrice(price, exact) <==> price == QuantizePrice(exact)
  {
    QuantizedIs(exact);
    GridFloor(Trunc(exact * 100000000.0));
    CutIsUnique((price * 100000000.0).Floor, exact * 100000000.0);
    hide Trunc, IsCut, QuantizePrice;
  }

  function Gain(side: Side, entry: real, exit: real, quantity: int): real {
    if side == Buy then (exit - entry) * quantity as real else (entry - exit) * quantity as real
  }

  function FeeOn(price: real, quantity: int, feeBps: real): real {
    price * quantity as real * feeBps / 10000.0
  }

  function RiskShare(equity: real, riskPct: real): real {
    equity * riskPct / 100.0
  }

  function Notional(equity: real, leverage: real): real {
    equity * leverage
  }

  lemma GainIsExact(side: Side, entry: real, exit: real, quantity: int)
    ensures ExactGross(side, entry, exit, quantity) == Gain(side, entry, exit, quantity)
  {
  }

  lemma GrossIsCut(side: Side, entry: real, exit: real, quantity: int)
    ensures GrossPnl(side, entry, exit, quantity) == Trunc(ExactGross(side, entry, exit, quantity))
  {
    hide Direction, Trunc;
  }

  lemma GrossIsGain(side: Side, entry: real, exit: real, quantity: int)
    ensures GrossPnl(side, entry, exit, quantity) == Trunc(Gain(side, entry, exit, quantity))
  {
    hide *;
    GainIsExact(side, entry, exit, quantity);
    GrossIsCut(side, entry, exit, quantity);
  }

  lemma FeeIsCut(price: real, quantity: int, feeBps: real)
    ensures Fee(price, quantity, feeBps) == Trunc(FeeOn(price, quantity, feeBps))
  {
  }

  // ---------------------------------------------------------------- opening

  /** A quantity within the risk at the stop and within the notional. */
  predicate Fits(quantity: int, close: real, stop: real, risk: int, notional: real) {
    && quantity as real * (if stop < close then close - stop else stop - close) <= risk as real
    && quantity as real * close <= notional
  }

  predicate IsLargest(quantity: int, close: real, stop: real, risk: int, notional: real) {
    Fits(quantity, close, stop, risk, notional) && !Fits(quantity + 1, close, stop, risk, notional)
  }

  /** The prices of the plan are positive and lie on their own sides of the close. */
  predicate Sides(side: Side, close: real, p: Plan) {
    && 0.0 < p.stop && 0.0 < p.target
    && if side == Buy then p.stop < close < p.target else p.target < close < p.stop
  }

  /** The verdict opens the trade t at the close. */
  predicate OpenedBy(cfg: Config, v: Verdict, c: Candle, balance: real, equity: real, t: Trade) {
    && v.eligible && v.plan.Some? && v.signal == Enter(t.side)
    && var p := v.plan.value;
       && Sides(t.side, c.close, p) && 0.0 < p.riskPct
       && t.id == t.entryTime == c.openTime
       && IsGridPrice(t.entryPrice, c.close) && IsGridPrice(t.stop, p.stop) && IsGridPrice(t.target, p.target)
       && IsCut(t.riskAmount, RiskShare(equity, p.riskPct))
       && t.quantity > 0 && IsLargest(t.quantity, c.close, p.stop, t.riskAmount, Notional(equity, cfg.maxLeverage))
       && IsCut(t.fees, FeeOn(c.close, t.quantity, cfg.feeBps)) && t.fees as real < balance
       && t.realizedPnl == 0 && t.closing.None?
  }

  lemma QuotientLe(x: real, num: real, den: real)
    requires den > 0.0
    ensures x <= num / den <==> x * den <= num
  {
    var q := num / den;
    assert q * den == num;
    if x <= q {
      ScaleLe(x, q, den);
    } else {
      ScaleLess(q, x, den);
    }
  }

  lemma ScaleLess(x: real, y: real, q: real)
    requires x < y && q > 0.0
    ensures x * q < y * q
  {
  }

  lemma FitsBelow(a: int, b: int, close: real, stop: real, risk: int, notional: real)
    requires a <= b && close > 0.0 && Fits(b, close, stop, risk, notional)
    ensures Fits(a, close, stop, risk, notional)
  {
    ScaleLe(a as real, b as real, if stop < close then close - stop else stop - close);
    ScaleLe(a as real, b as real, close);
  }

  lemma LargestIsUnique(a: int, b: int, close: real, stop: real, risk: int, notional: real)
    requires close > 0.0 && IsLargest(a, close, stop, risk, notional) && IsLargest(b, close, stop, risk, notional)
    ensures a == b
  {
    hide Fits;
    if a < b {
      FitsBelow(a + 1, b, close, stop, risk, notional);
    } else if b < a {
      FitsBelow(b + 1, a, close, stop, risk, notional);
    }
  }

  lemma FitsIsLimits(quantity: int, cfg: Config, equity: real, close: real, p: Plan)
    requires close > 0.0 && p.stop != close
    ensures Fits(quantity, close, p.stop, RiskAmount(equity, p), equity * cfg.maxLeverage) <==>
              quantity as real <= RiskLimit(equity, close, p) && quantity as real <= LeverageLimit(cfg, equity, close)
  {
    hide RiskAmount;
    ApartPositive(close, p.stop);
    LimitsAre(cfg, equity, close, p);
    QuotientLe(quantity as real, RiskAmount(equity, p) as real, Abs(close - p.stop));
    QuotientLe(quantity as real, equity * cfg.maxLeverage, close);
    hide RiskLimit, LeverageLimit;
  }

  lemma QuantityFits(cfg: Config, equity: real, close: real, p: Plan)
    requires equity >= 0.0 && close > 0.0 && p.stop != close && p.riskPct > 0.0 && cfg.maxLeverage >= 0.0
    ensures IsLargest(Quantity(cfg, equity, close, p), close, p.stop, RiskAmount(equity, p), Notional(equity, cfg.maxLeverage))
    ensures Quantity(cfg, equity, close, p) >= 0
  {
    QuantityIsLargest(cfg, equity, close, p);
    LimitsNonnegative(cfg, equity, close, p);
    var q := Quantity(cfg, equity, close, p);
    FitsIsLimits(q, cfg, equity, close, p);
    FitsIsLimits(q + 1, cfg, equity, close, p);
    hide RiskLimit, LeverageLimit, RiskAmount, Fits;
  }

  /** What a plan with positive prices on their sides comes to. */
  lemma PlanDecided(cfg: Config, d: Decision, c: Candle, balance: real, equity: real)
    requires cfg.ExecutionBounds() && equity >= 0.0 && c.close > 0.0
    requires d.verdict.eligible && d.verdict.plan.Some? && d.verdict.signal.Enter?
    requires Sides(d.verdict.signal.side, c.close, d.verdict.plan.value) && d.verdict.plan.value.riskPct > 0.0
    ensures var p, side := d.verdict.plan.value, d.verdict.signal.side;
            var q := Quantity(cfg, equity, c.close, p);
            var fee := Fee(c.close, q, cfg.feeBps);
            OpenTrade(cfg, d, c, balance, equity) ==
              if q <= 0 then Ok(Skipped(QuantityZero))
              else if fee as real >= balance then Ok(Skipped(InsufficientBalanceForFee))
              else Ok(Opened(Trade(c.openTime, side, c.openTime, QuantizePrice(c.close), q, QuantizePrice(p.stop),
                                   QuantizePrice(p.target), RiskAmount(equity, p), 0, fee, None)))
  {
    hide Quantity, Fee, QuantizePrice, RiskAmount;
  }

  /** What an eligible entry comes to, case by case: the risk is the share of the equity in whole units, the quantity
  the largest within it and within the notional, the fee in whole units of the exact one. */
  lemma EntryDecided(cfg: Config, d: Decision, c: Candle, balance: real, equity: real)
    returns (risk: int, quantity: int, fee: int)
    requires cfg.ExecutionBounds() && equity >= 0.0 && c.close > 0.0
    ensures var v, r := d.verdict, OpenTrade(cfg, d, c, balance, equity);
            if !v.eligible || v.plan.None? then r == Ok(Skipped(NotEligible))
            else if v.signal.Wait? then r == Ok(Skipped(InvalidSide))
            else
              var p, side := v.plan.value, v.signal.side;
              if p.stop <= 0.0 then r == Err(NotPositive("stopLoss"))
              else if p.target <= 0.0 then r == Err(NotPositive("takeProfit"))
              else if !Sides(side, c.close, p) then r == Ok(Skipped(InvalidProtection))
              else if p.riskPct <= 0.0 then r == Err(NotPositive("riskPct"))
              else
                && IsCut(risk, RiskShare(equity, p.riskPct))
                && quantity >= 0 && IsLargest(quantity, c.close, p.stop, risk, Notional(equity, cfg.maxLeverage))
                && if quantity == 0 then r == Ok(Skipped(QuantityZero))
                   else
                     && IsCut(fee, FeeOn(c.close, quantity, cfg.feeBps))
                     && if fee as real >= balance then r == Ok(Skipped(InsufficientBalanceForFee))
                        else r.Ok? && r.value.Opened? && r.value.trade.fees == fee && r.value.trade.quantity == quantity
  {
    var v := d.verdict;
    risk, quantity, fee := 0, 0, 0;
    if v.eligible && v.plan.Some? && v.signal.Enter? {
      var p := v.plan.value;
      if Sides(v.signal.side, c.close, p) && p.riskPct > 0.0 {
        risk := RiskAmount(equity, p);
        quantity := Quantity(cfg, equity, c.close, p);
        fee := Fee(c.close, quantity, cfg.feeBps);
        RiskIsCut(equity, p);
        CutIsUnique(risk, RiskShare(equity, p.riskPct));
        QuantityFits(cfg, equity, c.close, p);
        FeeIsCut(c.close, quantity, cfg.feeBps);
        CutIsUnique(fee, FeeOn(c.close, quantity, cfg.feeBps));
        PlanDecided(cfg, d, c, balance, equity);
        hide OpenTrade, Quantity, Fee, QuantizePrice, IsLargest, IsCut, Sides, RiskShare, Notional, FeeOn, RiskAmount;
      } else {
        hide Quantity, Fee, QuantizePrice, RiskAmount, RiskShare, Notional, FeeOn, IsCut, IsLargest;
      }
    }
  }

  /** The trade the rule describes is the one that is opened, and the only one. */
  lemma OpensExactly(cfg: Config, d: Decision, c: Candle, balance: real, equity: real, t: Trade)
    requires cfg.ExecutionBounds() && equity >= 0.0 && c.close > 0.0
    ensures OpenTrade(cfg, d, c, balance, equity) == Ok(Opened(t)) <==> OpenedBy(cfg, d.verdict, c, balance, equity, t)
  {
    var v := d.verdict;
    if v.eligible && v.plan.Some? && v.signal.Enter? && Sides(v.signal.side, c.close, v.plan.value) && v.plan.value.riskPct > 0.0 {
      PlanDecided(cfg, d, c, balance, equity);
      PlannedTrade(cfg, v, c, balance, equity, t);
    } else {
      hide Quantity, Fee, QuantizePrice, RiskAmount, IsCut, IsGridPrice, IsLargest;
    }
  }

  lemma PlannedTrade(cfg: Config, v: Verdict, c: Candle, balance: real, equity: real, t: Trade)
    requires cfg.ExecutionBounds() && equity >= 0.0 && c.close > 0.0
    requires v.eligible && v.plan.Some? && v.signal.Enter? && Sides(v.signal.side, c.close, v.plan.value) && v.plan.value.riskPct > 0.0
    ensures var p, side := v.plan.value, v.signal.side;
            var q := Quantity(cfg, equity, c.close, p);
            var fee := Fee(c.close, q, cfg.feeBps);
            OpenedBy(cfg, v, c, balance, equity, t) <==>
              && q > 0 && (fee as real < balance)
              && t == Trade(c.openTime, side, c.openTime, QuantizePrice(c.close), q, QuantizePrice(p.stop),
                            QuantizePrice(p.target), RiskAmount(equity, p), 0, fee, None)
  {
    var p := v.plan.value;
    var risk := RiskAmount(equity, p);
    RiskIsCut(equity, p);
    CutIsUnique(t.riskAmount, RiskShare(equity, p.riskPct));
    hide RiskShare, RiskAmount, Notional;
    QuantityFits(cfg, equity, c.close, p);
    if t.riskAmount == risk && IsLargest(t.quantity, c.close, p.stop, risk, Notional(equity, cfg.maxLeverage)) {
      LargestIsUnique(t.quantity, Quantity(cfg, equity, c.close, p), c.close, p.stop, risk, Notional(equity, cfg.maxLeverage));
    }
    GridPriceIsUnique(t.entryPrice, c.close);
    GridPriceIsUnique(t.stop, p.stop);
    GridPriceIsUnique(t.target, p.target);
    FeeIsCut(c.close, t.quantity, cfg.feeBps);
    CutIsUnique(t.fees, FeeOn(c.close, t.quantity, cfg.feeBps));
    hide Quantity, Fee, QuantizePrice, IsCut, IsGridPrice, IsLargest, FeeOn, Sides, Trunc;
  }

  lemma RiskIsCut(equity: real, p: Plan)
    ensures RiskAmount(equity, p) == Trunc(RiskShare(equity, p.riskPct))
  {
  }

  lemma BoundsFacts(cfg: Config)
    requires cfg.ExecutionBounds()
    ensures cfg.feeBps >= 0.0 && cfg.maxLeverage >= 0.0
  {
  }

  lemma FeeLaw(price: real, quantity: int, feeBps: real, fee: int)
    requires price >= 0.0 && quantity >= 0 && feeBps >= 0.0 && IsCut(fee, FeeOn(price, quantity, feeBps))
    ensures var exact := price * quantity as real * feeBps / 10000.0; exact - 1.0 < fee as real <= exact
  {
    var n := price * quantity as real;
    assert n >= 0.0;
    assert n * feeBps >= 0.0;
  }

  /** What the risk buys at the distance to the stop that the plan records. */
  lemma CandidateSized(p: Plan, equity: real) returns (risk: int)
    ensures IsCut(risk, RiskShare(equity, p.riskPct))
    ensures if p.stopDistance > 0.0 then IsCut(CandidateQuantity(p, equity), risk as real / p.stopDistance) else CandidateQuantity(p, equity) == 0
  {
    RiskIsCut(equity, p);
    risk := RiskAmount(equity, p);
    CutIsUnique(risk, RiskShare(equity, p.riskPct));
    hide RiskAmount, RiskShare, IsCut, Trunc;
    if p.stopDistance > 0.0 {
      CutIsUnique(CandidateQuantity(p, equity), risk as real / p.stopDistance);
    }
  }

  /** A stored decision: the verdict over its candles, and the candidate quantity that its plan comes to with the equity
  at hand. */
  lemma DecidedAs(cfg: Config, prefix: seq<Candle>, time: int, equity: real) returns (risk: int)
    ensures var d := Decide(cfg, prefix, time, equity);
            && d.time == time && d.verdict == cfg.evaluate(prefix) && (d.quantity.Some? <==> d.verdict.plan.Some?)
            && (d.verdict.plan.Some? ==>
                  var p := d.verdict.plan.value;
                  && IsCut(risk, RiskShare(equity, p.riskPct))
                  && if p.stopDistance > 0.0 then IsCut(d.quantity.value, risk as real / p.stopDistance) else d.quantity == Some(0))
  {
    hide IsCut, RiskShare, CandidateQuantity;
    risk := 0;
    if cfg.evaluate(prefix).plan.Some? {
      risk := CandidateSized(cfg.evaluate(prefix).plan.value, equity);
    }
  }

  // ---------------------------------------------------------------- closing

  function ExitBy(t: Trade, c: Candle): Exit {
    if StopTouched(t, c) then Exit(StopLoss, StopPrice(t, c), TargetTouched(t, c)) else Exit(TakeProfit, t.target, false)
  }

  /** A trade is closed on the first candle after its entry that touches one of its prices. */
  lemma ExitsExactly(t: Trade, c: Candle)
    ensures ExitDecision(t, c) ==
              if t.stop <= 0.0 then Err(NotPositive("stopLoss"))
              else if t.target <= 0.0 then Err(NotPositive("takeProfit"))
              else if c.openTime > t.entryTime && Touched(t, c) then Ok(Some(ExitBy(t, c)))
              else Ok(None)
  {
  }

  /** The exit e closes the open trade t as `closed`, with `available` on the account before and `balance` behind it.
  A loss larger than the account is cut to what it holds. */
  predicate ClosedBy(feeBps: real, t: Trade, c: Candle, e: Exit, available: real, closed: Trade, balance: real) {
    && closed.closing.Some?
    && var x := closed.closing.value;
       && closed == t.(closing := Some(x), realizedPnl := closed.realizedPnl, fees := closed.fees)
       && x.time == c.openTime && x.reason == e.reason && x.conflict == e.conflict && IsGridPrice(x.price, e.price)
       && IsCut(x.grossPnl, Gain(t.side, t.entryPrice, e.price, t.quantity))
       && IsCut(x.exitFee, FeeOn(e.price, t.quantity, feeBps))
       && x.adjustment >= 0 && (x.limited <==> x.adjustment > 0) && x.effectiveGross == x.grossPnl + x.adjustment
       && var delta := x.effectiveGross - x.exitFee;
          && delta as real >= -available && (x.limited ==> IsCut(-delta, available))
          && closed.fees == t.fees + x.exitFee && closed.realizedPnl == delta - t.fees
          && IsCutAmount(balance, available + delta as real)
  }

  lemma LiabilityIsUnique(raw: int, available: real, adjustment: int, limited: bool)
    requires available >= 0.0
    ensures var l := LimitedLiability(raw, available);
            (adjustment >= 0 && (limited <==> adjustment > 0) && (raw + adjustment) as real >= -available
             && (limited ==> IsCut(-(raw + adjustment), available)))
            <==> adjustment == l.adjustment && limited == l.limited
    ensures LimitedLiability(raw, available).applied == raw + LimitedLiability(raw, available).adjustment
  {
    CutIsUnique(-(raw + adjustment), available);
  }

  lemma CloseUnfold(t: Trade, c: Candle, e: Exit, feeBps: real, available: real)
    requires t.entryPrice > 0.0 && t.quantity > 0
    ensures var gross, exitFee := GrossPnl(t.side, t.entryPrice, e.price, t.quantity), Fee(e.price, t.quantity, feeBps);
            var l := LimitedLiability(gross - exitFee, available);
            CloseTrade(t, c, e, feeBps, available) ==
              Ok((t.(closing := Some(Closing(c.openTime, QuantizePrice(e.price), e.reason, exitFee, gross,
                                             gross + l.adjustment, l.adjustment, l.limited, e.conflict)),
                     realizedPnl := l.applied - t.fees, fees := t.fees + exitFee), l.applied))
  {
    hide GrossPnl, Fee, QuantizePrice, LimitedLiability;
  }

  /** A close is the one the rule describes, and no other. */
  lemma ClosesExactly(t: Trade, c: Candle, e: Exit, feeBps: real, available: real, closed: Trade, balance: real)
    requires t.entryPrice > 0.0 && t.quantity > 0 && available >= 0.0
    ensures CloseTrade(t, c, e, feeBps, available).Ok?
    ensures var r := CloseTrade(t, c, e, feeBps, available).value;
            closed == r.0 && balance == Trunc(available + r.1 as real) as real <==>
              ClosedBy(feeBps, t, c, e, available, closed, balance)
  {
    CloseUnfold(t, c, e, feeBps, available);
    if closed.closing.Some? {
      var x := closed.closing.value;
      GrossIsGain(t.side, t.entryPrice, e.price, t.quantity);
      CutIsUnique(x.grossPnl, Gain(t.side, t.entryPrice, e.price, t.quantity));
      FeeIsCut(e.price, t.quantity, feeBps);
      CutIsUnique(x.exitFee, FeeOn(e.price, t.quantity, feeBps));
      GridPriceIsUnique(x.price, e.price);
      LiabilityIsUnique(x.grossPnl - x.exitFee, available, x.adjustment, x.limited);
      CutAmountIsUnique(balance, available + (x.effectiveGross - x.exitFee) as real);
    }
    hide CloseTrade, GrossPnl, Fee, QuantizePrice, LimitedLiability, IsCut, IsCutAmount, IsGridPrice, Gain, FeeOn, Trunc;
  }

  // ---------------------------------------------------------------- one candle

  /** The open trade, if there is one, is the last of the table. */
  function OpenRow(trades: seq<Trade>): Option<Trade> {
    if trades != [] && trades[|trades| - 1].IsOpen() then Some(trades[|trades| - 1]) else None
  }

  /** The open trade t is closed by e: its row, balance and equity, and the note. */
  predicate ClosedTold(cfg: Config, a: Account, t: Trade, c: Candle, e: Exit, b: Account, notes: seq<Note>) {
    && a.trades != [] && |notes| == 1 && notes[0].NoteClosed?
    && var closed := notes[0].trade;
       && notes[0].time == c.openTime && b.trades == a.trades[..|a.trades| - 1] + [closed]
       && ClosedBy(cfg.feeBps, t, c, e, a.balance, closed, b.balance) && b.equity == b.balance
  }

  /** First the stop and the target of the open trade. */
  predicate ExitTold(cfg: Config, a: Account, c: Candle, b: Account, notes: seq<Note>) {
    var open := OpenRow(a.trades);
    if open.Some? && Touched(open.value, c) then ClosedTold(cfg, a, open.value, c, ExitBy(open.value, c), b, notes)
    else b == a && notes == []
  }

  predicate OpenedTold(cfg: Config, a: Account, c: Candle, v: Verdict, b: Account, notes: seq<Note>) {
    && |notes| == 1 && notes[0].NoteOpened?
    && var t := notes[0].trade;
       && notes[0].time == c.openTime && OpenedBy(cfg, v, c, a.balance, a.equity, t)
       && b.trades == a.trades + [t] && b.equity == a.equity && IsCutAmount(b.balance, a.balance - t.fees as real)
  }

  /** Then the entry. */
  ghost predicate EntryTold(cfg: Config, a: Account, c: Candle, v: Verdict, final: bool, b: Account, notes: seq<Note>) {
    if !v.eligible then b == a && notes == []
    else if OpenRow(a.trades).Some? then b == a && notes == [NoteSkipped(c.openTime, OpenTradeExists)]
    else if final then b == a && notes == [NoteSkipped(c.openTime, SessionFinalCandle)]
    else if a.equity <= 0.0 || a.balance <= 0.0 then b == a && notes == [NoteSkipped(c.openTime, AccountDepleted)]
    else
      || OpenedTold(cfg, a, c, v, b, notes)
      || (&& b == a && |notes| == 1 && notes[0].NoteSkipped? && notes[0].time == c.openTime
          && notes[0].reason !in {OpenTradeExists, SessionFinalCandle, AccountDepleted}
          && forall t :: !OpenedBy(cfg, v, c, a.balance, a.equity, t))
  }

  /** Then, on the final candle, the end of the session at the close. */
  predicate EndTold(cfg: Config, a: Account, c: Candle, final: bool, b: Account, notes: seq<Note>) {
    var open := OpenRow(a.trades);
    if final && open.Some? then ClosedTold(cfg, a, open.value, c, Exit(SessionEnd, c.close, false), b, notes)
    else b == a && notes == []
  }

  /** At last the mark: the balance and the open result at the close, never below zero, in whole units. */
  predicate MarkTold(a: Account, c: Candle, b: Account, mark: Mark) {
    && b.balance == a.balance && b.trades == a.trades
    && mark.time == c.openTime && mark.balance == b.balance && mark.equity == b.equity
    && match OpenRow(a.trades)
       case None => mark.unrealized == 0 && mark.openTrade == None && IsCutAmount(b.equity, a.balance)
       case Some(t) =>
         && IsCut(mark.unrealized, Gain(t.side, t.entryPrice, c.close, t.quantity)) && mark.openTrade == Some(t.id)
         && var worth := a.balance + mark.unrealized as real;
            IsCutAmount(b.equity, if worth >= 0.0 then worth else 0.0)
  }

  lemma OpenRowIsLoaded(trades: seq<Trade>)
    requires TableOk(trades)
    ensures OpenRow(trades) == LoadOpen(trades)
  {
    OpenIsLast(trades);
    hide TableOk, LoadOpen;
  }

  lemma SettleTold(cfg: Config, a: Account, t: Trade, c: Candle, e: Exit)
    requires cfg.ExecutionBounds() && AccountOk(cfg, a) && EnteredBefore(a, c.openTime)
    requires LoadOpen(a.trades) == Some(t) && e.price > 0.0 && Settle(cfg, a, t, c, e).Ok?
    ensures var (b, closed) := Settle(cfg, a, t, c, e).value;
            ClosedTold(cfg, a, t, c, e, b, [NoteClosed(c.openTime, closed)])
  {
    hide *;
    SettleKeeps(cfg, a, t, c, e);
    OpenTradeFacts(cfg, a, t, c.openTime);
    AccountNonnegative(cfg, a);
    SettleUnfold(cfg, a, t, c, e);
    SettleBalance(cfg, a, t, c, e);
    var (b, closed) := Settle(cfg, a, t, c, e).value;
    ClosesExactly(t, c, e, cfg.feeBps, a.balance, closed, b.balance);
    ClosedToldIs(cfg, a, t, c, e, b, closed);
  }

  lemma SettleBalance(cfg: Config, a: Account, t: Trade, c: Candle, e: Exit)
    ensures var r, s := CloseTrade(t, c, e, cfg.feeBps, a.balance), Settle(cfg, a, t, c, e);
            s.Ok? ==> r.Ok? && s.value.0.balance == s.value.0.equity == Trunc(a.balance + r.value.1 as real) as real
  {
    hide CloseTrade, CloseRow, Trunc;
  }

  lemma ClosedToldIs(cfg: Config, a: Account, t: Trade, c: Candle, e: Exit, b: Account, closed: Trade)
    requires a.trades != [] && b.trades == a.trades[..|a.trades| - 1] + [closed] && b.equity == b.balance
    requires ClosedBy(cfg.feeBps, t, c, e, a.balance, closed, b.balance)
    ensures ClosedTold(cfg, a, t, c, e, b, [NoteClosed(c.openTime, closed)])
  {
    hide ClosedBy;
  }

  lemma ExitFollows(cfg: Config, a: Account, c: Candle)
    requires cfg.ExecutionBounds() && CandleOk(c) && AccountOk(cfg, a) && EnteredBefore(a, c.openTime)
    ensures var r := ApplyExit(cfg, a, c); r.Ok? ==> ExitTold(cfg, a, c, r.value.0, r.value.1)
  {
    hide *;
    TableOf(cfg, a);
    OpenRowIsLoaded(a.trades);
    ExitUnfold(cfg, a, c);
    if OpenRow(a.trades).Some? && ApplyExit(cfg, a, c).Ok? {
      var t := OpenRow(a.trades).value;
      OpenTradeFacts(cfg, a, t, c.openTime);
      ExitsExactly(t, c);
      ExitByPositive(t, c);
      if Touched(t, c) {
        SettleTold(cfg, a, t, c, ExitBy(t, c));
      }
    }
    ExitToldIs(cfg, a, c);
  }

  lemma TableOf(cfg: Config, a: Account)
    requires AccountOk(cfg, a)
    ensures TableOk(a.trades)
  {
  }

  lemma ExitByPositive(t: Trade, c: Candle)
    requires CandleOk(c)
    ensures t.stop > 0.0 && t.target > 0.0 ==> ExitBy(t, c).price > 0.0
  {
  }

  lemma ExitUnfold(cfg: Config, a: Account, c: Candle)
    ensures var open := LoadOpen(a.trades);
            ApplyExit(cfg, a, c) ==
              if open.None? then Ok((a, []))
              else
                var exit := ExitDecision(open.value, c);
                if exit.Err? then Err(exit.error)
                else if exit.value.None? then Ok((a, []))
                else
                  var s := Settle(cfg, a, open.value, c, exit.value.value);
                  if s.Err? then Err(s.error) else Ok((s.value.0, [NoteClosed(c.openTime, s.value.1)]))
  {
    hide LoadOpen, ExitDecision, Settle;
  }

  lemma ExitToldIs(cfg: Config, a: Account, c: Candle)
    ensures forall b: Account, notes: seq<Note> {:trigger ExitTold(cfg, a, c, b, notes)} ::
              ExitTold(cfg, a, c, b, notes) <==>
                if OpenRow(a.trades).Some? && Touched(OpenRow(a.trades).value, c)
                then ClosedTold(cfg, a, OpenRow(a.trades).value, c, ExitBy(OpenRow(a.trades).value, c), b, notes)
                else b == a && notes == []
  {
    hide OpenRow, Touched, ClosedTold, ExitBy;
  }

  lemma EntryFollows(cfg: Config, a: Account, c: Candle, d: Decision, final: bool)
    requires cfg.ExecutionBounds() && CandleOk(c) && AccountOk(cfg, a) && EnteredBefore(a, c.openTime)
    ensures var r := ApplyEntry(cfg, a, c, Some(d), final);
            r.Ok? ==> EntryTold(cfg, a, c, d.verdict, final, r.value.0, r.value.1)
  {
    hide *;
    TableOf(cfg, a);
    OpenRowIsLoaded(a.trades);
    AccountNonnegative(cfg, a);
    PositiveClose(c);
    EntryCases(cfg, a, c, d, final);
    var r := ApplyEntry(cfg, a, c, Some(d), final);
    if r.Ok? && d.verdict.eligible && OpenRow(a.trades).None? && !final && a.equity > 0.0 && a.balance > 0.0 {
      var o := OpenTrade(cfg, d, c, a.balance, a.equity).value;
      if o.Opened? {
        OpensExactly(cfg, d, c, a.balance, a.equity, o.trade);
        OpenTradeWithinLimits(cfg, d, c, a.balance, a.equity);
        EnteredFacts(a, c.openTime);
        OpenedEntry(o.trade);
        OpeningBooks(cfg, a, o.trade);
        CutAmountIsUnique(r.value.0.balance, a.balance - o.trade.fees as real);
        EntryToldOpened(cfg, a, c, d.verdict, r.value.0, o.trade);
      } else {
        forall t ensures !OpenedBy(cfg, d.verdict, c, a.balance, a.equity, t) {
          OpensExactly(cfg, d, c, a.balance, a.equity, t);
        }
        SkipReasons(cfg, d, c, a.balance, a.equity);
      }
    }
    EntryToldIs(cfg, a, c, d.verdict, final);
  }

  lemma PositiveClose(c: Candle)
    requires CandleOk(c)
    ensures c.close > 0.0
  {
  }

  lemma SkipReasons(cfg: Config, d: Decision, c: Candle, balance: real, equity: real)
    ensures var r := OpenTrade(cfg, d, c, balance, equity);
            r.Ok? && r.value.Skipped? ==> r.value.reason !in {OpenTradeExists, SessionFinalCandle, AccountDepleted}
  {
    hide Quantity, Fee, QuantizePrice, RiskAmount, Protected;
  }

  lemma EntryCases(cfg: Config, a: Account, c: Candle, d: Decision, final: bool)
    ensures ApplyEntry(cfg, a, c, Some(d), final) ==
              if !d.verdict.eligible then Ok((a, []))
              else if LoadOpen(a.trades).Some? then Ok((a, [NoteSkipped(c.openTime, OpenTradeExists)]))
              else if final then Ok((a, [NoteSkipped(c.openTime, SessionFinalCandle)]))
              else if a.equity <= 0.0 || a.balance <= 0.0 then Ok((a, [NoteSkipped(c.openTime, AccountDepleted)]))
              else
                var o := OpenTrade(cfg, d, c, a.balance, a.equity);
                if o.Err? then Err(o.error)
                else if o.value.Skipped? then Ok((a, [NoteSkipped(c.openTime, o.value.reason)]))
                else
                  var t, trades := o.value.trade, InsertRow(a.trades, o.value.trade);
                  if trades.Err? then Err(trades.error)
                  else Ok((Account(Trunc(a.balance - t.fees as real) as real, a.equity, trades.value), [NoteOpened(c.openTime, t)]))
  {
    hide LoadOpen, OpenTrade, InsertRow, Trunc;
  }

  lemma EntryToldOpened(cfg: Config, a: Account, c: Candle, v: Verdict, b: Account, t: Trade)
    requires OpenedBy(cfg, v, c, a.balance, a.equity, t)
    requires b.trades == a.trades + [t] && b.equity == a.equity && IsCutAmount(b.balance, a.balance - t.fees as real)
    ensures OpenedTold(cfg, a, c, v, b, [NoteOpened(c.openTime, t)])
  {
    hide OpenedBy, IsCutAmount;
  }

  lemma EntryToldIs(cfg: Config, a: Account, c: Candle, v: Verdict, final: bool)
    ensures forall b: Account, notes: seq<Note> {:trigger EntryTold(cfg, a, c, v, final, b, notes)} ::
              EntryTold(cfg, a, c, v, final, b, notes) <==>
                if !v.eligible then b == a && notes == []
                else if OpenRow(a.trades).Some? then b == a && notes == [NoteSkipped(c.openTime, OpenTradeExists)]
                else if final then b == a && notes == [NoteSkipped(c.openTime, SessionFinalCandle)]
                else if a.equity <= 0.0 || a.balance <= 0.0 then b == a && notes == [NoteSkipped(c.openTime, AccountDepleted)]
                else
                  || OpenedTold(cfg, a, c, v, b, notes)
                  || (&& b == a && |notes| == 1 && notes[0].NoteSkipped? && notes[0].time == c.openTime
                      && notes[0].reason !in {OpenTradeExists, SessionFinalCandle, AccountDepleted}
                      && forall t :: !OpenedBy(cfg, v, c, a.balance, a.equity, t))
  {
    hide OpenedBy, OpenedTold, OpenRow;
  }

  lemma EndFollows(cfg: Config, a: Account, c: Candle, final: bool)
    requires cfg.ExecutionBounds() && CandleOk(c) && AccountOk(cfg, a) && (final ==> EnteredBefore(a, c.openTime))
    ensures var r := ApplySessionEnd(cfg, a, c, final); r.Ok? ==> EndTold(cfg, a, c, final, r.value.0, r.value.1)
  {
    hide *;
    TableOf(cfg, a);
    OpenRowIsLoaded(a.trades);
    PositiveClose(c);
    EndUnfold(cfg, a, c, final);
    if final && OpenRow(a.trades).Some? && ApplySessionEnd(cfg, a, c, final).Ok? {
      SettleTold(cfg, a, OpenRow(a.trades).value, c, Exit(SessionEnd, c.close, false));
    }
    EndToldIs(cfg, a, c, final);
  }

  lemma EndUnfold(cfg: Config, a: Account, c: Candle, final: bool)
    ensures var open := LoadOpen(a.trades);
            ApplySessionEnd(cfg, a, c, final) ==
              if !final || open.None? then Ok((a, []))
              else
                var s := Settle(cfg, a, open.value, c, Exit(SessionEnd, c.close, false));
                if s.Err? then Err(s.error) else Ok((s.value.0, [NoteClosed(c.openTime, s.value.1)]))
  {
    hide LoadOpen, Settle;
  }

  lemma EndToldIs(cfg: Config, a: Account, c: Candle, final: bool)
    ensures forall b: Account, notes: seq<Note> {:trigger EndTold(cfg, a, c, final, b, notes)} ::
              EndTold(cfg, a, c, final, b, notes) <==>
                if final && OpenRow(a.trades).Some?
                then ClosedTold(cfg, a, OpenRow(a.trades).value, c, Exit(SessionEnd, c.close, false), b, notes)
                else b == a && notes == []
  {
    hide OpenRow, ClosedTold;
  }

  lemma MarkFollows(cfg: Config, a: Account, c: Candle)
    requires AccountOk(cfg, a)
    ensures var r := ApplyMark(a, c); r.Ok? ==> MarkTold(a, c, r.value.0, r.value.1)
  {
    TableOf(cfg, a);
    OpenRowIsLoaded(a.trades);
    var r := ApplyMark(a, c);
    if r.Ok? {
      var b, mark := r.value.0, r.value.1;
      if OpenRow(a.trades).Some? {
        var t := OpenRow(a.trades).value;
        GrossIsGain(t.side, t.entryPrice, c.close, t.quantity);
        CutIsUnique(mark.unrealized, Gain(t.side, t.entryPrice, c.close, t.quantity));
        var worth := a.balance + mark.unrealized as real;
        CutAmountIsUnique(b.equity, if worth >= 0.0 then worth else 0.0);
      } else {
        CutAmountIsUnique(b.equity, a.balance);
      }
    }
    hide AccountOk, TableOk, LoadOpen, GrossPnl, Gain, IsCut, IsCutAmount, Trunc, OpenRow;
  }

  /** What one candle does to a well-formed account, step by step, and the notes it leaves in that order. */
  lemma CandleFollows(cfg: Config, a: Account, c: Candle, d: Decision, final: bool)
    returns (a1: Account, n1: seq<Note>, a2: Account, n2: seq<Note>, a3: Account, n3: seq<Note>, mark: Mark)
    requires cfg.ExecutionBounds() && CandleOk(c) && AccountOk(cfg, a) && EnteredBefore(a, c.openTime)
    requires StepCandle(cfg, a, c, Some(d), final).Ok?
    ensures var (b, notes) := StepCandle(cfg, a, c, Some(d), final).value;
            && ExitTold(cfg, a, c, a1, n1) && EntryTold(cfg, a1, c, d.verdict, final, a2, n2)
            && EndTold(cfg, a2, c, final, a3, n3) && MarkTold(a3, c, b, mark)
            && notes == n1 + n2 + n3 + [NoteMarked(mark)]
    ensures AccountOk(cfg, a1) && AccountOk(cfg, a2) && AccountOk(cfg, a3)
  {
    hide *;
    StepUnfold(cfg, a, c, d, final);
    ApplyExitKeeps(cfg, a, c);
    ExitFollows(cfg, a, c);
    a1, n1 := ApplyExit(cfg, a, c).value.0, ApplyExit(cfg, a, c).value.1;
    ApplyEntryKeeps(cfg, a1, c, Some(d), final);
    EntryFollows(cfg, a1, c, d, final);
    var r2 := ApplyEntry(cfg, a1, c, Some(d), final).value;
    a2, n2 := r2.0, r2.1;
    ApplySessionEndKeeps(cfg, a2, c, final);
    EndFollows(cfg, a2, c, final);
    var r3 := ApplySessionEnd(cfg, a2, c, final).value;
    a3, n3 := r3.0, r3.1;
    MarkFollows(cfg, a3, c);
    mark := ApplyMark(a3, c).value.1;
  }

  lemma StepUnfold(cfg: Config, a: Account, c: Candle, d: Decision, final: bool)
    requires StepCandle(cfg, a, c, Some(d), final).Ok?
    ensures var r1 := ApplyExit(cfg, a, c);
            && r1.Ok?
            && var r2 := ApplyEntry(cfg, r1.value.0, c, Some(d), final);
               && r2.Ok?
               && var r3 := ApplySessionEnd(cfg, r2.value.0, c, final);
                  && r3.Ok?
                  && var r4 := ApplyMark(r3.value.0, c);
                     && r4.Ok?
                     && StepCandle(cfg, a, c, Some(d), final).value
                        == (r4.value.0, r1.value.1 + r2.value.1 + r3.value.1 + [NoteMarked(r4.value.1)])
  {
    hide ApplyExit, ApplyEntry, ApplySessionEnd, ApplyMark;
  }
}

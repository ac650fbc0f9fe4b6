/** What one simulated trade means in exact money: how it is sized, where it is filled, and how far truncation can
carry its result from the exact one. */
module ReplayTrading {
  import opened Common
  import opened ReplayMoney
  import opened ReplayExecution

  // ---------------------------------------------------------------- exits

  predicate StopTouched(t: Trade, c: Candle) {
    if t.side == Buy then c.low <= t.stop else c.high >= t.stop
  }

  predicate TargetTouched(t: Trade, c: Candle) {
    if t.side == Buy then c.high >= t.target else c.low <= t.target
  }

  predicate Touched(t: Trade, c: Candle) {
    StopTouched(t, c) || TargetTouched(t, c)
  }

  /** Price a is no better for the trade than price b. */
  predicate NoBetter(t: Trade, a: real, b: real) {
    (a - b) * Direction(t.side) <= 0.0
  }

  /** The open, if the candle opened beyond the stop, and otherwise the stop. */
  function StopPrice(t: Trade, c: Candle): real {
    if (t.side == Buy && c.open < t.stop) || (t.side == Sell && c.open > t.stop) then c.open else t.stop
  }

  /** A candle after the entry closes the trade exactly when it touches the stop or the target; the stop goes first,
  at the stop or at the open beyond it, a price that was traded and is no better than the stop, and the target never
  pays more than the target.  The entry candle closes nothing. */
  lemma StopGoesFirst(t: Trade, c: Candle)
    requires CandleOk(c) && t.stop > 0.0 && t.target > 0.0
    ensures ExitDecision(t, c).Ok?
    ensures var e := ExitDecision(t, c).value;
            && (e.Some? <==> c.openTime > t.entryTime && Touched(t, c))
            && (e.Some? && e.value.reason == StopLoss <==> c.openTime > t.entryTime && StopTouched(t, c))
            && (e.Some? && StopTouched(t, c) ==>
                  && c.low <= e.value.price <= c.high && NoBetter(t, e.value.price, t.stop)
                  && e.value.price == StopPrice(t, c)
                  && (e.value.conflict <==> TargetTouched(t, c)))
            && (e.Some? && !StopTouched(t, c) ==> e.value == Exit(TakeProfit, t.target, false))
  {
  }

  // ---------------------------------------------------------------- closing

  lemma LiabilityIsCapped(rawDelta: int, available: real)
    requires available >= 0.0
    ensures var l := LimitedLiability(rawDelta, available);
            && l.applied >= rawDelta && l.applied as real >= -available && l.adjustment == l.applied - rawDelta
            && (l.limited <==> rawDelta < -Trunc(available))
            && (if l.limited then l.applied == -Trunc(available) else l.applied == rawDelta)
  {
  }

  /** Profit of a close after its exit fee, without any rounding. */
  function ExactDelta(t: Trade, exit: real, feeBps: real): real {
    ExactGross(t.side, t.entryPrice, exit, t.quantity) - ExactFee(exit, t.quantity, feeBps)
  }

  function ExactGross(side: Side, entry: real, exit: real, quantity: int): real {
    (exit - entry) * quantity as real * Direction(side)
  }

  function ExactFee(price: real, quantity: int, feeBps: real): real {
    price * quantity as real * feeBps / BPS_DIVISOR
  }

  /** What the two truncations of a close can differ from the exact amounts. */
  lemma RawNearExact(t: Trade, exit: real, feeBps: real)
    requires t.quantity > 0 && exit > 0.0 && feeBps >= 0.0
    ensures var raw := GrossPnl(t.side, t.entryPrice, exit, t.quantity) - Fee(exit, t.quantity, feeBps);
            ExactDelta(t, exit, feeBps) - 1.0 < raw as real < ExactDelta(t, exit, feeBps) + 2.0
  {
    hide GrossPnl, Fee, ExactGross, ExactFee;
    GrossNearExact(t.side, t.entryPrice, exit, t.quantity);
    FeeNearExact(exit, t.quantity, feeBps);
  }

  lemma GrossNearExact(side: Side, entry: real, exit: real, quantity: int)
    ensures ExactGross(side, entry, exit, quantity) - 1.0 < GrossPnl(side, entry, exit, quantity) as real
            < ExactGross(side, entry, exit, quantity) + 1.0
  {
    hide Direction;
  }

  lemma FeeNearExact(price: real, quantity: int, feeBps: real)
    requires quantity > 0 && price > 0.0 && feeBps >= 0.0
    ensures Fee(price, quantity, feeBps) as real <= ExactFee(price, quantity, feeBps) < Fee(price, quantity, feeBps) as real + 1.0
  {
    hide Trunc;
    var n := price * quantity as real;
    assert n >= 0.0 && n * feeBps >= 0.0;
  }

  /** What a close brings the account is less than two units from the exact result, or exactly all the account had
  if the exact result would have cost it more. */
  lemma CloseIsNearExact(t: Trade, c: Candle, e: Exit, feeBps: real, available: real)
    requires t.entryPrice > 0.0 && t.quantity > 0 && e.price > 0.0 && feeBps >= 0.0 && available >= 0.0
    ensures CloseTrade(t, c, e, feeBps, available).Ok?
    ensures var (closed, delta) := CloseTrade(t, c, e, feeBps, available).value;
            var exact := ExactDelta(t, e.price, feeBps);
            && closed.closing.Some? && delta == closed.realizedPnl + t.fees
            && (if closed.closing.value.limited then delta == -Trunc(available) && exact < delta as real + 1.0
                else exact - 1.0 < delta as real < exact + 2.0)
  {
    hide Fee, GrossPnl, ExactDelta, LimitedLiability, QuantizePrice;
    RawNearExact(t, e.price, feeBps);
    LiabilityIsCapped(GrossPnl(t.side, t.entryPrice, e.price, t.quantity) - Fee(e.price, t.quantity, feeBps), available);
  }

  // ---------------------------------------------------------------- marking

  /** The marked equity is the balance plus the exact open result, cut by less than two units and never below zero. */
  lemma MarkIsNearExact(balance: real, t: Trade, close: real)
    requires balance >= 0.0 && t.entryPrice > 0.0 && t.quantity > 0
    ensures MarkedEquity(balance, Some(t), close).Ok?
    ensures var (equity, unrealized) := MarkedEquity(balance, Some(t), close).value;
            var exact := (close - t.entryPrice) * t.quantity as real * Direction(t.side);
            && exact - 1.0 < unrealized as real < exact + 1.0
            && equity >= 0 && equity as real < (if balance + exact >= 0.0 then balance + exact else 0.0) + 1.0
            && balance + exact < equity as real + 2.0
  {
    var exact := (close - t.entryPrice) * t.quantity as real * Direction(t.side);
    assert exact - 1.0 < GrossPnl(t.side, t.entryPrice, close, t.quantity) as real < exact + 1.0;
    hide GrossPnl;
  }
}

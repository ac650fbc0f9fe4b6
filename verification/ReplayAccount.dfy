/** What the simulated execution keeps true of the account: money is conserved to the last unit, the account
is never negative, and trades stay well formed. */
module ReplayAccount {
  import opened Common
  import opened ReplayMoney
  import opened ReplayExecution

  /** What the trades have added to the account so far: realized results, and the entry fee of an open trade. */
  function Booked(trades: seq<Trade>): int {
    if trades == [] then 0
    else
      var t := trades[|trades| - 1];
      Booked(trades[..|trades| - 1]) + if t.IsOpen() then -t.fees else t.realizedPnl
  }

  /** At its own stop price the trade loses at most the risk it was sized by, plus one price step per coin. */
  predicate RiskBounded(t: Trade) {
    GrossPnl(t.side, t.entryPrice, t.stop, t.quantity) as real >= -(t.riskAmount as real + t.quantity as real / GRID)
  }

  predicate TradeOk(t: Trade) {
    && t.id == t.entryTime
    && t.quantity > 0 && t.fees >= 0 && t.entryPrice >= 0.0
    && RiskBounded(t)
    && (t.closing.None? ==> t.realizedPnl == 0)
    && (t.closing.Some? ==>
          && t.closing.value.time > t.entryTime
          && t.closing.value.effectiveGross - t.fees == t.realizedPnl)
  }

  /** The table: entries in time order, and only the last one may still be open. */
  predicate TableOk(trades: seq<Trade>) {
    && (forall t <- trades :: TradeOk(t))
    && (forall i, j | 0 <= i < j < |trades| :: trades[i].entryTime < trades[j].entryTime)
    && (forall i | 0 <= i < |trades| - 1 :: !trades[i].IsOpen())
  }

  /** The account: money is conserved exactly, counted from the initial balance cut to the money grid as soon
  as there has been a trade. */
  predicate AccountOk(cfg: Config, a: Account) {
    && a.balance >= 0.0 && a.equity >= 0.0
    && TableOk(a.trades)
    && a.balance == if a.trades == [] then cfg.initial else (Trunc(cfg.initial) + Booked(a.trades)) as real
  }

  /** Every trade of the account was entered before time t. */
  predicate EnteredBefore(a: Account, t: int) {
    forall u <- a.trades :: u.entryTime < t
  }

  /** The only errors a candle can end in: a stored or proposed price that is not positive. */
  predicate PriceError(e: ExecError) {
    e in {NotPositive("stopLoss"), NotPositive("takeProfit"), NotPositive("entryPrice"), NotPositive("riskPct")}
  }

  // ---------------------------------------------------------------- the table

  lemma {:induction false} OpenIsLast(trades: seq<Trade>)
    requires TableOk(trades)
    ensures LoadOpen(trades) ==
            if trades != [] && trades[|trades| - 1].IsOpen() then Some(trades[|trades| - 1]) else None
  {
    if |trades| > 1 {
      OpenIsLast(trades[1..]);
    }
  }

  lemma {:induction false} CloseRowAtEnd(trades: seq<Trade>, closed: Trade)
    requires trades != [] && (forall i | 0 <= i < |trades| - 1 :: !trades[i].IsOpen())
    requires trades[|trades| - 1].IsOpen() && trades[|trades| - 1].id == closed.id
    ensures CloseRow(trades, closed) == Ok(trades[..|trades| - 1] + [closed])
  {
    if |trades| > 1 {
      CloseRowAtEnd(trades[1..], closed);
      assert [trades[0]] + (trades[1..][..|trades| - 2] + [closed]) == trades[..|trades| - 1] + [closed];
    } else {
      assert [closed] + trades[1..] == trades[..0] + [closed];
    }
  }

  /** Two OPEN rows at once cannot be: the table form rules it out. */
  lemma AtMostOneOpen(trades: seq<Trade>, i: nat, j: nat)
    requires TableOk(trades) && i < |trades| && j < |trades|
    requires trades[i].IsOpen() && trades[j].IsOpen()
    ensures i == j
  {
  }

  lemma BookedAppend(trades: seq<Trade>, t: Trade)
    ensures Booked(trades + [t]) == Booked(trades) + if t.IsOpen() then -t.fees else t.realizedPnl
  {
    assert (trades + [t])[..|trades|] == trades;
  }

  // ---------------------------------------------------------------- closing

  /** Effective gross minus all fees is the realized result, and the account never loses more than it has. */
  lemma CloseTradeBooks(t: Trade, c: Candle, e: Exit, feeBps: real, available: real)
    requires TradeOk(t) && t.IsOpen() && t.entryTime < c.openTime && t.entryPrice > 0.0
    requires available >= 0.0 && e.price > 0.0 && feeBps >= 0.0
    ensures var r := CloseTrade(t, c, e, feeBps, available);
            && r.Ok?
            && r.value.0.id == t.id && r.value.0.entryTime == t.entryTime && !r.value.0.IsOpen()
            && TradeOk(r.value.0)
            && r.value.1 >= -Trunc(available)
            && r.value.0.realizedPnl == r.value.1 - t.fees
  {
    FeeNonnegative(e.price, t.quantity, feeBps);
    hide GrossPnl, Fee, QuantizePrice;
  }

  lemma ReplaceLastKeepsTable(trades: seq<Trade>, closed: Trade)
    requires TableOk(trades) && trades != [] && trades[|trades| - 1].IsOpen()
    requires TradeOk(closed) && !closed.IsOpen() && closed.entryTime == trades[|trades| - 1].entryTime
    ensures var after := trades[..|trades| - 1] + [closed];
            && TableOk(after) && LoadOpen(after) == None
            && Booked(after) == Booked(trades) + trades[|trades| - 1].fees + closed.realizedPnl
            && CloseRow(trades, closed) == Ok(after)
  {
    assert TradeOk(trades[|trades| - 1]);
    hide TradeOk;
    var rest := trades[..|trades| - 1];
    var after := rest + [closed];
    assert trades == rest + [trades[|trades| - 1]];
    CloseRowAtEnd(trades, closed);
    BookedAppend(rest, trades[|trades| - 1]);
    BookedAppend(rest, closed);
    assert TableOk(after);
    OpenIsLast(after);
  }

  lemma SettleKeeps(cfg: Config, a: Account, t: Trade, c: Candle, e: Exit)
    requires cfg.ExecutionBounds() && AccountOk(cfg, a) && EnteredBefore(a, c.openTime)
    requires LoadOpen(a.trades) == Some(t) && e.price > 0.0
    ensures var r := Settle(cfg, a, t, c, e);
            if t.entryPrice <= 0.0 then r == Err(NotPositive("entryPrice"))
            else
              && r.Ok?
              && AccountOk(cfg, r.value.0) && EnteredBefore(r.value.0, c.openTime)
              && LoadOpen(r.value.0.trades) == None
              && r.value.0.trades == a.trades[..|a.trades| - 1] + [r.value.1]
              && CloseTrade(t, c, e, cfg.feeBps, a.balance).Ok?
              && r.value.1 == CloseTrade(t, c, e, cfg.feeBps, a.balance).value.0
  {
    hide GrossPnl, Fee, QuantizePrice, LimitedLiability, CloseTrade, CloseRow, LoadOpen, TradeOk, TableOk, Booked, Settle;
    OpenIsLast(a.trades);
    OpenTradeFacts(cfg, a, t, c.openTime);
    SettleUnfold(cfg, a, t, c, e);
    if t.entryPrice > 0.0 {
      CloseTradeBooks(t, c, e, cfg.feeBps, a.balance);
      var (closed, delta) := CloseTrade(t, c, e, cfg.feeBps, a.balance).value;
      ReplaceLastKeepsTable(a.trades, closed);
      var after := a.trades[..|a.trades| - 1] + [closed];
      assert a.balance + delta as real == (Trunc(cfg.initial) + Booked(after)) as real;
      assert forall u <- after :: u in a.trades || u == closed;
    }
  }

  lemma OpenTradeFacts(cfg: Config, a: Account, t: Trade, now: int)
    requires AccountOk(cfg, a) && EnteredBefore(a, now) && LoadOpen(a.trades) == Some(t)
    ensures t in a.trades && TradeOk(t) && t.IsOpen() && t.entryTime < now && t.quantity > 0
  {
    hide RiskBounded, Booked;
  }

  lemma SettleUnfold(cfg: Config, a: Account, t: Trade, c: Candle, e: Exit)
    requires t.quantity > 0
    ensures t.entryPrice <= 0.0 ==> Settle(cfg, a, t, c, e) == Err(NotPositive("entryPrice"))
    ensures var r := CloseTrade(t, c, e, cfg.feeBps, a.balance);
            r.Ok? && a.balance + r.value.1 as real >= 0.0 && CloseRow(a.trades, r.value.0).Ok? ==>
              Settle(cfg, a, t, c, e) ==
                var balance := Trunc(a.balance + r.value.1 as real) as real;
                Ok((Account(balance, balance, CloseRow(a.trades, r.value.0).value), r.value.0))
  {
    hide GrossPnl, Fee, QuantizePrice, LimitedLiability, CloseRow;
  }

  // ---------------------------------------------------------------- opening

  lemma DivNonnegative(x: real, y: real)
    requires x >= 0.0 && y > 0.0
    ensures x / y >= 0.0
  {
  }

  lemma RiskWithinShare(equity: real, p: Plan)
    requires equity >= 0.0 && p.riskPct > 0.0
    ensures 0 <= RiskAmount(equity, p) && RiskAmount(equity, p) as real <= equity * p.riskPct / 100.0
  {
    assert equity * p.riskPct >= 0.0;
  }

  lemma LimitsNonnegative(cfg: Config, equity: real, entry: real, p: Plan)
    requires equity >= 0.0 && entry > 0.0 && p.stop != entry && p.riskPct > 0.0 && cfg.maxLeverage >= 0.0
    ensures RiskLimit(equity, entry, p) >= 0.0 && LeverageLimit(cfg, equity, entry) >= 0.0
  {
    RiskWithinShare(equity, p);
    hide RiskAmount;
    DivNonnegative(RiskAmount(equity, p) as real, Abs(entry - p.stop));
    assert equity * cfg.maxLeverage >= 0.0;
    DivNonnegative(equity * cfg.maxLeverage, entry);
  }

  /** The quantity is the largest one on the grid within both the risk and the leverage. */
  lemma QuantityIsLargest(cfg: Config, equity: real, entry: real, p: Plan)
    requires equity >= 0.0 && entry > 0.0 && p.stop != entry && p.riskPct > 0.0 && cfg.maxLeverage >= 0.0
    ensures var q := Quantity(cfg, equity, entry, p);
            var byRisk, byLeverage := RiskLimit(equity, entry, p), LeverageLimit(cfg, equity, entry);
            && q as real <= byRisk && q as real <= byLeverage
            && (byRisk < q as real + 1.0 || byLeverage < q as real + 1.0)
  {
    LimitsNonnegative(cfg, equity, entry, p);
    hide RiskLimit, LeverageLimit;
  }

  lemma LimitsAre(cfg: Config, equity: real, entry: real, p: Plan)
    requires entry > 0.0 && p.stop != entry && Abs(entry - p.stop) > 0.0
    ensures RiskLimit(equity, entry, p) == RiskAmount(equity, p) as real / Abs(entry - p.stop)
    ensures LeverageLimit(cfg, equity, entry) == equity * cfg.maxLeverage / entry
  {
    hide RiskAmount, Abs;
  }

  lemma ApartPositive(a: real, b: real)
    requires a != b
    ensures Abs(a - b) > 0.0
  {
  }

  /** Notional at the recorded entry price stays within the leverage, and the loss at the stop within the
  risk although prices, risk and quantity are each cut to the grid on the way. */
  lemma SizedQuantity(cfg: Config, equity: real, entry: real, p: Plan, side: Side)
    requires equity >= 0.0 && entry > 0.0 && p.stop > 0.0 && p.stop != entry && p.riskPct > 0.0
    requires cfg.maxLeverage >= 0.0 && Quantity(cfg, equity, entry, p) > 0
    ensures var q := Quantity(cfg, equity, entry, p);
            && q as real * QuantizePrice(entry) <= equity * cfg.maxLeverage
            && GrossPnl(side, QuantizePrice(entry), QuantizePrice(p.stop), q) as real
               >= -(RiskAmount(equity, p) as real + q as real / GRID)
  {
    hide *;
    var q := Quantity(cfg, equity, entry, p);
    QuantityIsLargest(cfg, equity, entry, p);
    ApartPositive(entry, p.stop);
    LimitsAre(cfg, equity, entry, p);
    QuantizePriceNear(entry);
    SizedLossBound(entry, p.stop, RiskAmount(equity, p), q, side);
    NotionalBound(q as real, entry, QuantizePrice(entry), equity * cfg.maxLeverage);
  }

  lemma NotionalBound(q: real, entry: real, recorded: real, cap: real)
    requires q >= 0.0 && entry > 0.0 && recorded <= entry && q <= cap / entry
    ensures q * recorded <= cap
  {
    QuotientTimes(cap, entry, q);
    ScaleLe(recorded, entry, q);
    assert recorded * q == q * recorded;
  }

  /** What a newly opened trade is. */
  lemma OpenTradeWithinLimits(cfg: Config, d: Decision, c: Candle, balance: real, equity: real)
    requires cfg.ExecutionBounds() && equity >= 0.0 && CandleOk(c)
    ensures var r := OpenTrade(cfg, d, c, balance, equity);
            && (r.Err? ==> PriceError(r.error))
            && (r.Ok? && r.value.Opened? ==>
                  var t := r.value.trade;
                  && TradeOk(t) && t.IsOpen() && t.id == c.openTime
                  && IsFeeOn(t.fees, c.close, t.quantity, cfg.feeBps) && t.fees as real < balance
                  && t.quantity as real * t.entryPrice <= equity * cfg.maxLeverage
                  && t.riskAmount as real <= equity * d.verdict.plan.value.riskPct / 100.0)
  {
    hide Quantity, Fee, QuantizePrice, RiskAmount, GrossPnl, IsFeeOn;
    var r := OpenTrade(cfg, d, c, balance, equity);
    if r.Ok? && r.value.Opened? {
      var p, side := d.verdict.plan.value, d.verdict.signal.side;
      SizedQuantity(cfg, equity, c.close, p, side);
      RiskWithinShare(equity, p);
      FeeNonnegative(c.close, r.value.trade.quantity, cfg.feeBps);
      FeeIsExact(c.close, r.value.trade.quantity, cfg.feeBps);
      QuantizePriceNear(c.close);
    }
  }

  // ---------------------------------------------------------------- one candle

  lemma ExitPricePositive(t: Trade, c: Candle)
    requires CandleOk(c)
    ensures var r := ExitDecision(t, c);
            && (r.Err? ==> PriceError(r.error))
            && (r.Ok? && r.value.Some? ==> r.value.value.price > 0.0)
  {
  }

  lemma ApplyExitKeeps(cfg: Config, a: Account, c: Candle)
    requires cfg.ExecutionBounds() && CandleOk(c) && AccountOk(cfg, a) && EnteredBefore(a, c.openTime)
    ensures var r := ApplyExit(cfg, a, c);
            && (r.Err? ==> PriceError(r.error))
            && (r.Ok? ==> AccountOk(cfg, r.value.0) && EnteredBefore(r.value.0, c.openTime))
  {
    var open := LoadOpen(a.trades);
    if open.Some? {
      ExitPricePositive(open.value, c);
      hide AccountOk, Settle, ExitDecision, EnteredBefore;
      var exit := ExitDecision(open.value, c);
      if exit.Ok? && exit.value.Some? {
        SettleKeeps(cfg, a, open.value, c, exit.value.value);
      }
    }
  }

  lemma ApplySessionEndKeeps(cfg: Config, a: Account, c: Candle, final: bool)
    requires cfg.ExecutionBounds() && CandleOk(c) && AccountOk(cfg, a)
    requires EnteredBefore(a, c.openTime + 1) && (final ==> EnteredBefore(a, c.openTime))
    ensures var r := ApplySessionEnd(cfg, a, c, final);
            && (r.Err? ==> PriceError(r.error))
            && (r.Ok? ==>
                  && AccountOk(cfg, r.value.0) && EnteredBefore(r.value.0, c.openTime + 1)
                  && (final ==> LoadOpen(r.value.0.trades) == None)
                  && forall n <- r.value.1 :: n.NoteClosed?)
  {
    var open := LoadOpen(a.trades);
    if final && open.Some? {
      SettleKeeps(cfg, a, open.value, c, Exit(SessionEnd, c.close, false));
      hide AccountOk, Settle;
    }
  }

  /** Appending a freshly opened trade keeps the table, and books its entry fee. */
  lemma OpenKeepsTable(trades: seq<Trade>, t: Trade)
    requires TableOk(trades) && LoadOpen(trades) == None && TradeOk(t) && t.IsOpen()
    requires forall u <- trades :: u.entryTime < t.entryTime
    ensures InsertRow(trades, t) == Ok(trades + [t]) && TableOk(trades + [t])
    ensures Booked(trades + [t]) == Booked(trades) - t.fees
  {
    BookedAppend(trades, t);
    assert forall u <- trades :: TradeOk(u) && u.id == u.entryTime;
  }

  lemma OpeningBooks(cfg: Config, a: Account, t: Trade)
    requires AccountOk(cfg, a) && LoadOpen(a.trades) == None && TradeOk(t) && t.IsOpen()
    requires forall u <- a.trades :: u.entryTime < t.entryTime
    requires t.fees as real < a.balance && a.equity >= 0.0
    ensures InsertRow(a.trades, t) == Ok(a.trades + [t])
    ensures AccountOk(cfg, Account(Trunc(a.balance - t.fees as real) as real, a.equity, a.trades + [t]))
  {
    hide TableOk, LoadOpen, InsertRow, TradeOk, Booked, Trunc;
    OpenKeepsTable(a.trades, t);
    FeesNonnegative(t);
    TruncSub(a.balance, t.fees);
    AccountOnGrid(cfg, a);
    TruncOfSum(a.balance - t.fees as real, Trunc(cfg.initial) + Booked(a.trades) - t.fees);
  }

  lemma FeesNonnegative(t: Trade)
    requires TradeOk(t)
    ensures t.fees >= 0
  {
    hide RiskBounded;
  }

  lemma TruncOfSum(x: real, n: int)
    requires x >= 0.0 && Trunc(x) == n
    ensures n >= 0
  {
  }

  /** Cut to the grid, the balance is the cut initial balance plus what was booked, traded or not. */
  lemma AccountOnGrid(cfg: Config, a: Account)
    requires AccountOk(cfg, a)
    ensures Trunc(a.balance) == Trunc(cfg.initial) + Booked(a.trades)
  {
    hide TableOk;
  }

  lemma ApplyEntryKeeps(cfg: Config, a: Account, c: Candle, d: Option<Decision>, final: bool)
    requires cfg.ExecutionBounds() && CandleOk(c) && AccountOk(cfg, a) && EnteredBefore(a, c.openTime)
    ensures var r := ApplyEntry(cfg, a, c, d, final);
            && (r.Err? ==> PriceError(r.error))
            && (r.Ok? ==>
                  && AccountOk(cfg, r.value.0) && EnteredBefore(r.value.0, c.openTime + 1)
                  && (final ==> r.value.0 == a && forall n <- r.value.1 :: n.NoteSkipped?))
  {
    hide *;
    EntryUnfold(cfg, a, c, d, final);
    if d.Some? && LoadOpen(a.trades).None? {
      AccountNonnegative(cfg, a);
      OpenTradeWithinLimits(cfg, d.value, c, a.balance, a.equity);
      var o := OpenTrade(cfg, d.value, c, a.balance, a.equity);
      if o.Ok? && o.value.Opened? {
        OpenedEntry(o.value.trade);
        EnteredFacts(a, c.openTime);
        OpeningBooks(cfg, a, o.value.trade);
        EnteredNow(a, o.value.trade);
      }
    }
    EnteredBeforeLater(a, c.openTime, c.openTime + 1);
  }

  lemma AccountNonnegative(cfg: Config, a: Account)
    requires AccountOk(cfg, a)
    ensures a.balance >= 0.0 && a.equity >= 0.0
  {
    hide TableOk, Booked;
  }

  lemma EnteredFacts(a: Account, now: int)
    requires EnteredBefore(a, now)
    ensures forall u <- a.trades :: u.entryTime < now
  {
  }

  lemma EnteredNow(a: Account, t: Trade)
    requires EnteredBefore(a, t.entryTime)
    ensures forall balance: real, equity: real {:trigger Account(balance, equity, a.trades + [t])} ::
              EnteredBefore(Account(balance, equity, a.trades + [t]), t.entryTime + 1)
  {
  }

  /** An entry leaves the account alone, fails, or opens a trade and pays its fee. */
  lemma EntryUnfold(cfg: Config, a: Account, c: Candle, d: Option<Decision>, final: bool)
    ensures var r := ApplyEntry(cfg, a, c, d, final);
            || (r.Ok? && r.value.0 == a && forall n <- r.value.1 :: n.NoteSkipped?)
            || (!final && d.Some? && LoadOpen(a.trades).None? &&
                var o := OpenTrade(cfg, d.value, c, a.balance, a.equity);
                || (o.Err? && r == Err(o.error))
                || (o.Ok? && o.value.Opened? &&
                    var t, trades := o.value.trade, InsertRow(a.trades, o.value.trade);
                    if trades.Err? then r == Err(trades.error)
                    else r.Ok? && r.value.0 == Account(Trunc(a.balance - t.fees as real) as real, a.equity, trades.value)))
  {
    hide OpenTrade, InsertRow, LoadOpen;
  }

  lemma OpenedEntry(t: Trade)
    requires TradeOk(t)
    ensures t.entryTime == t.id
  {
  }

  lemma ApplyMarkKeeps(cfg: Config, a: Account, c: Candle)
    requires AccountOk(cfg, a)
    ensures var r := ApplyMark(a, c);
            && (r.Err? ==> PriceError(r.error))
            && (r.Ok? ==>
                  && AccountOk(cfg, r.value.0) && r.value.0.trades == a.trades
                  && r.value.1.time == c.openTime)
  {
    var open := LoadOpen(a.trades);
    if open.Some? {
      assert TradeOk(open.value);
    }
    hide TableOk, Booked, GrossPnl, LoadOpen, TradeOk;
  }

  predicate NoOpening(notes: seq<Note>) {
    forall n <- notes :: !n.NoteOpened?
  }

  /** One candle keeps the account well formed and conserved, can only fail on a price that is not positive,
  and on the final candle neither opens a trade nor leaves one open. */
  lemma StepCandleKeeps(cfg: Config, a: Account, c: Candle, d: Option<Decision>, final: bool)
    requires cfg.ExecutionBounds() && CandleOk(c) && AccountOk(cfg, a) && EnteredBefore(a, c.openTime)
    ensures var r := StepCandle(cfg, a, c, d, final);
            && (r.Err? ==> PriceError(r.error))
            && (r.Ok? ==>
                  && AccountOk(cfg, r.value.0) && EnteredBefore(r.value.0, c.openTime + 1)
                  && (final ==> LoadOpen(r.value.0.trades) == None && NoOpening(r.value.1)))
  {
    hide AccountOk, ApplyExit, ApplyEntry, ApplySessionEnd, ApplyMark, LoadOpen;
    ApplyExitKeeps(cfg, a, c);
    var r1 := ApplyExit(cfg, a, c);
    if r1.Ok? {
      ApplyEntryKeeps(cfg, r1.value.0, c, d, final);
      var r2 := ApplyEntry(cfg, r1.value.0, c, d, final);
      if r2.Ok? {
        ApplySessionEndKeeps(cfg, r2.value.0, c, final);
        var r3 := ApplySessionEnd(cfg, r2.value.0, c, final);
        if r3.Ok? {
          ApplyMarkKeeps(cfg, r3.value.0, c);
        }
      }
    }
    ExitOnlyCloses(cfg, a, c);
  }

  lemma ExitOnlyCloses(cfg: Config, a: Account, c: Candle)
    ensures var r := ApplyExit(cfg, a, c); r.Ok? ==> forall n <- r.value.1 :: n.NoteClosed?
  {
    hide Settle, ExitDecision, LoadOpen;
  }

  // ---------------------------------------------------------------- the whole replay

  /** The replay of any prefix is conserved and well formed, and its failures are price errors: neither
  negative-balance check can ever fire, no row is lost and no id repeats. */
  lemma {:induction false} ReplayKeeps(cfg: Config, n: nat)
    requires cfg.Valid() && cfg.ExecutionBounds() && n <= |cfg.snapshot|
    ensures var r := Replay(cfg, n);
            && (r.Err? ==> PriceError(r.error))
            && (r.Ok? ==>
                  && AccountOk(cfg, r.value.0)
                  && (n < |cfg.snapshot| ==> EnteredBefore(r.value.0, cfg.snapshot[n].openTime))
                  && (n == cfg.Total() ==> LoadOpen(r.value.0.trades) == None))
  {
    if n == 0 {
      InitialAccountOk(cfg);
    } else {
      ReplayKeeps(cfg, n - 1);
      SnapshotAt(cfg, n - 1);
      hide *;
      ReplayUnfold(cfg, n);
      var prev := Replay(cfg, n - 1);
      if prev.Ok? {
        StepCandleKeeps(cfg, prev.value.0, cfg.snapshot[n - 1], Some(PureDecision(cfg, n - 1)), n == cfg.Total());
        var r := StepCandle(cfg, prev.value.0, cfg.snapshot[n - 1], Some(PureDecision(cfg, n - 1)), n == cfg.Total());
        if r.Ok? && n < |cfg.snapshot| {
          EnteredBeforeLater(r.value.0, cfg.snapshot[n - 1].openTime + 1, cfg.snapshot[n].openTime);
        }
      }
    }
  }

  lemma InitialAccountOk(cfg: Config)
    requires cfg.Valid()
    ensures AccountOk(cfg, InitialAccount(cfg)) && cfg.Total() > 0
    ensures forall t :: EnteredBefore(InitialAccount(cfg), t)
  {
  }

  lemma ValidInterval(cfg: Config)
    requires cfg.Valid()
    ensures cfg.interval > 0
  {
  }

  lemma SnapshotAt(cfg: Config, i: nat)
    requires cfg.Valid() && i < |cfg.snapshot|
    ensures CandleOk(cfg.snapshot[i]) && cfg.start <= cfg.snapshot[i].openTime <= cfg.end
    ensures i + 1 < |cfg.snapshot| ==> cfg.snapshot[i].openTime < cfg.snapshot[i + 1].openTime
  {
  }

  lemma EnteredBeforeLater(a: Account, t: int, u: int)
    requires EnteredBefore(a, t) && t <= u
    ensures EnteredBefore(a, u)
  {
  }

  lemma ReplayUnfold(cfg: Config, n: nat)
    requires cfg.interval > 0 && 0 < n <= |cfg.snapshot|
    ensures Replay(cfg, n) ==
            var prev := Replay(cfg, n - 1);
            if prev.Err? then prev
            else
              var next := StepCandle(cfg, prev.value.0, cfg.snapshot[n - 1], Some(PureDecision(cfg, n - 1)), n == cfg.Total());
              if next.Err? then Err(next.error) else Ok((next.value.0, prev.value.1 + next.value.1))
  {
    hide StepCandle;
  }

  /** Whether anything was ever booked or not, the difference between the balance and the plain sum is the
  fraction of the initial balance below the money grid: the sum is exact if and only if that fraction is
  zero or nothing was traded. */
  lemma ConservedExactlyOnGrid(cfg: Config, a: Account)
    requires AccountOk(cfg, a) && cfg.initial > 0.0
    ensures a.balance == cfg.initial + Booked(a.trades) as real
            <==> (a.trades == [] || Trunc(cfg.initial) as real == cfg.initial)
  {
  }

  /** With no trade open, the books hold realized results alone. */
  lemma {:induction false} BookedIsRealized(trades: seq<Trade>)
    requires forall t <- trades :: !t.IsOpen()
    ensures Booked(trades) == RealizedTotal(trades)
  {
    if trades != [] {
      BookedIsRealized(trades[..|trades| - 1]);
    }
  }

  /** SUM(realized_pnl) over the CLOSED rows. */
  function RealizedTotal(trades: seq<Trade>): int {
    if trades == [] then 0
    else
      var t := trades[|trades| - 1];
      RealizedTotal(trades[..|trades| - 1]) + if t.IsOpen() then 0 else t.realizedPnl
  }

  /** A stop hit without a gap: the gross loss is within the risk the trade was sized by, plus one price step
  per coin. */
  lemma StoppedWithinRisk(cfg: Config, a: Account, c: Candle, t: Trade)
    requires cfg.ExecutionBounds() && CandleOk(c) && AccountOk(cfg, a) && EnteredBefore(a, c.openTime)
    requires LoadOpen(a.trades) == Some(t) && t.stop > 0.0 && t.target > 0.0 && t.entryPrice > 0.0
    requires if t.side == Buy then c.low <= t.stop <= c.open else c.open <= t.stop <= c.high
    ensures var r := ApplyExit(cfg, a, c);
            && r.Ok? && |r.value.1| == 1 && r.value.1[0].NoteClosed?
            && var closed := r.value.1[0].trade;
               && closed.id == t.id && closed.closing.Some? && closed.closing.value.reason == StopLoss
               && closed.closing.value.grossPnl as real >= -(t.riskAmount as real + t.quantity as real / GRID)
  {
    assert TradeOk(t) && t.entryTime < c.openTime;
    var e := ExitDecision(t, c).value.value;
    assert e.price == t.stop && e.reason == StopLoss;
    SettleKeeps(cfg, a, t, c, e);
    hide AccountOk, Settle, GrossPnl, Fee, LimitedLiability, LoadOpen;
  }
}

/** The simulated execution of one candle, and the pure replay of a frozen candle stream that every batched
run has to agree with. */
module ReplayExecution {
  import opened Common
  import opened ReplayMoney

  // ---------------------------------------------------------------- market data and strategy

  datatype Candle = Candle(openTime: int, open: real, high: real, low: real, close: real, volume: real)

  predicate CandleOk(c: Candle) {
    && 0.0 < c.low <= c.open <= c.high
    && c.low <= c.close <= c.high
    && c.volume >= 0.0
  }

  datatype Signal = Wait | Enter(side: Side)

  datatype Plan = Plan(riskPct: real, stop: real, target: real, stopDistance: real)

  /** What the indicators say about a candle prefix.  Eligible verdicts without a plan are representable, as
  they are in the stored JSON. */
  datatype Verdict = Verdict(evaluated: bool, eligible: bool, signal: Signal, plan: Option<Plan>)

  /** A stored strategy decision.  `quantity` is sized from the session equity the step started with, so it
  depends on how the candles were batched. */
  datatype Decision = Decision(time: int, verdict: Verdict, quantity: Option<int>)

  /** The immutable part of a session; `evaluate` stands for the indicator arithmetic. */
  datatype Config = Config(
    start: int, end: int, interval: int, initial: real,
    feeBps: real, maxLeverage: real,
    snapshot: seq<Candle>, evaluate: seq<Candle> -> Verdict)
  {
    /** Session creation: positive balance, a non-empty range, validated candles keyed by open time, each on
    the interval grid (the collector refuses misaligned ones). */
    ghost predicate Valid() {
      && start < end && interval > 0 && initial > 0.0
      && (forall c <- snapshot :: CandleOk(c) && start <= c.openTime <= end && (c.openTime - start) % interval == 0)
      && (forall i, j | 0 <= i < j < |snapshot| :: snapshot[i].openTime < snapshot[j].openTime)
    }

    /** The bounds that the execution configuration is held to before every step. */
    predicate ExecutionBounds() {
      0.0 <= feeBps <= 100.0 && 1.0 <= maxLeverage <= 10.0
    }

    /** Number of candles between start and end, both included. */
    function Total(): int
      requires interval > 0
    {
      (end - start) / interval + 1
    }
  }

  /** The share of the equity that a plan puts at risk. */
  function RiskAmount(equity: real, p: Plan): int {
    Trunc(equity * p.riskPct / 100.0)
  }

  function CandidateQuantity(plan: Plan, equity: real): int {
    if plan.stopDistance > 0.0 then Trunc(RiskAmount(equity, plan) as real / plan.stopDistance) else 0
  }

  function Decide(cfg: Config, prefix: seq<Candle>, time: int, equity: real): Decision {
    var v := cfg.evaluate(prefix);
    Decision(time, v, if v.plan.Some? then Some(CandidateQuantity(v.plan.value, equity)) else None)
  }

  // ---------------------------------------------------------------- trades

  datatype Reason = StopLoss | TakeProfit | SessionEnd

  datatype Closing = Closing(
    time: int, price: real, reason: Reason, exitFee: int, grossPnl: int,
    effectiveGross: int, adjustment: int, limited: bool, conflict: bool)

  /** A row of the trade table; it is OPEN until it has a closing. */
  datatype Trade = Trade(
    id: int, side: Side, entryTime: int, entryPrice: real, quantity: int,
    stop: real, target: real, riskAmount: int,
    realizedPnl: int, fees: int, closing: Option<Closing>)
  {
    predicate IsOpen() {
      closing.None?
    }
  }

  datatype ExecError =
    | NotPositive(field: string)
    | NegativeBalance
    | TradeNotClosable
    | DuplicateTrade

  /** The first OPEN row of the table, if any. */
  function LoadOpen(trades: seq<Trade>): (r: Option<Trade>)
    ensures r.Some? ==> r.value in trades && r.value.IsOpen()
    ensures r.None? <==> forall t <- trades :: !t.IsOpen()
  {
    if trades == [] then None
    else if trades[0].IsOpen() then Some(trades[0])
    else LoadOpen(trades[1..])
  }

  /** Replace the OPEN row with the id of `closed`; no such row is an error. */
  function CloseRow(trades: seq<Trade>, closed: Trade): Result<seq<Trade>, ExecError> {
    if trades == [] then Err(TradeNotClosable)
    else if trades[0].id == closed.id && trades[0].IsOpen() then Ok([closed] + trades[1..])
    else
      var rest :- CloseRow(trades[1..], closed);
      Ok([trades[0]] + rest)
  }

  /** Insert under the primary key of the table. */
  function InsertRow(trades: seq<Trade>, t: Trade): Result<seq<Trade>, ExecError> {
    if exists u <- trades :: u.id == t.id then Err(DuplicateTrade) else Ok(trades + [t])
  }

  datatype Exit = Exit(reason: Reason, price: real, conflict: bool)

  /** Stop before target, a gap through the stop fills at the open, and never on the entry candle. */
  function ExitDecision(t: Trade, c: Candle): Result<Option<Exit>, ExecError> {
    if t.stop <= 0.0 then Err(NotPositive("stopLoss"))
    else if t.target <= 0.0 then Err(NotPositive("takeProfit"))
    else if c.openTime <= t.entryTime then Ok(None)
    else if t.side == Buy then
      if c.low <= t.stop then
        Ok(Some(Exit(StopLoss, if c.open < t.stop then c.open else t.stop, c.high >= t.target)))
      else if c.high >= t.target then Ok(Some(Exit(TakeProfit, t.target, false)))
      else Ok(None)
    else
      if c.high >= t.stop then
        Ok(Some(Exit(StopLoss, if c.open > t.stop then c.open else t.stop, c.low <= t.target)))
      else if c.low <= t.target then Ok(Some(Exit(TakeProfit, t.target, false)))
      else Ok(None)
  }

  /** The closed form of a trade, and what the account gains by it. */
  function CloseTrade(t: Trade, c: Candle, e: Exit, feeBps: real, available: real): Result<(Trade, int), ExecError> {
    if t.entryPrice <= 0.0 then Err(NotPositive("entryPrice"))
    else if t.quantity <= 0 then Err(NotPositive("quantity"))
    else
      var gross := GrossPnl(t.side, t.entryPrice, e.price, t.quantity);
      var exitFee := Fee(e.price, t.quantity, feeBps);
      var l := LimitedLiability(gross - exitFee, available);
      var closing := Closing(c.openTime, QuantizePrice(e.price), e.reason, exitFee, gross,
                             gross + l.adjustment, l.adjustment, l.limited, e.conflict);
      Ok((t.(closing := Some(closing), realizedPnl := l.applied - t.fees, fees := t.fees + exitFee), l.applied))
  }

  datatype SkipReason =
    | NotEligible | InvalidSide | InvalidProtection | QuantityZero | InsufficientBalanceForFee
    | OpenTradeExists | SessionFinalCandle | AccountDepleted

  datatype OpenOutcome = Opened(trade: Trade) | Skipped(reason: SkipReason)

  /** The stop and the target lie on their own sides of the entry. */
  predicate Protected(side: Side, entry: real, p: Plan) {
    if side == Buy then p.stop < entry < p.target else p.target < entry < p.stop
  }

  /** What the risk amount buys at the stop distance. */
  function RiskLimit(equity: real, entry: real, p: Plan): real
    requires p.stop != entry
  {
    RiskAmount(equity, p) as real / Abs(entry - p.stop)
  }

  function LeverageLimit(cfg: Config, equity: real, entry: real): real
    requires entry > 0.0
  {
    equity * cfg.maxLeverage / entry
  }

  /** The smaller of what the risk and what the leverage allow. */
  function Quantity(cfg: Config, equity: real, entry: real, p: Plan): int
    requires entry > 0.0 && p.stop != entry
  {
    MinInt(Trunc(RiskLimit(equity, entry, p)), Trunc(LeverageLimit(cfg, equity, entry)))
  }

  /** Size and open a trade at the close.  Only the plan's prices and risk percentage are used: the decision's
  own quantity is not. */
  function OpenTrade(cfg: Config, d: Decision, c: Candle, balance: real, equity: real): Result<OpenOutcome, ExecError> {
    if !d.verdict.eligible || d.verdict.plan.None? then Ok(Skipped(NotEligible))
    else if d.verdict.signal.Wait? then Ok(Skipped(InvalidSide))
    else
      var side, p, entry := d.verdict.signal.side, d.verdict.plan.value, c.close;
      if entry <= 0.0 then Err(NotPositive("entryPrice"))
      else if p.stop <= 0.0 then Err(NotPositive("stopLoss"))
      else if p.target <= 0.0 then Err(NotPositive("takeProfit"))
      else if !Protected(side, entry, p) then Ok(Skipped(InvalidProtection))
      else if p.riskPct <= 0.0 then Err(NotPositive("riskPct"))
      else
        var quantity := Quantity(cfg, equity, entry, p);
        if quantity <= 0 then Ok(Skipped(QuantityZero))
        else
          var fee := Fee(entry, quantity, cfg.feeBps);
          if fee as real >= balance then Ok(Skipped(InsufficientBalanceForFee))
          else Ok(Opened(Trade(c.openTime, side, c.openTime, QuantizePrice(entry), quantity,
                               QuantizePrice(p.stop), QuantizePrice(p.target), RiskAmount(equity, p), 0, fee, None)))
  }

  // ---------------------------------------------------------------- one candle

  datatype Account = Account(balance: real, equity: real, trades: seq<Trade>)

  datatype Mark = Mark(time: int, balance: real, equity: real, unrealized: int, openTrade: Option<int>)

  /** Audit entries of the execution phase, in the order they are written. */
  datatype Note =
    | NoteClosed(time: int, trade: Trade)
    | NoteOpened(time: int, trade: Trade)
    | NoteSkipped(time: int, reason: SkipReason)
    | NoteMarked(mark: Mark)

  function InitialAccount(cfg: Config): Account {
    Account(cfg.initial, cfg.initial, [])
  }

  function MarkedEquity(balance: real, open: Option<Trade>, close: real): Result<(int, int), ExecError> {
    if open.None? then Ok((Trunc(balance), 0))
    else if open.value.entryPrice <= 0.0 then Err(NotPositive("entryPrice"))
    else if open.value.quantity <= 0 then Err(NotPositive("quantity"))
    else
      var u := GrossPnl(open.value.side, open.value.entryPrice, close, open.value.quantity);
      var e := balance + u as real;
      Ok((Trunc(if e >= 0.0 then e else 0.0), u))
  }

  /** Close the OPEN trade `t` by `e`: table row and balance together. */
  function Settle(cfg: Config, a: Account, t: Trade, c: Candle, e: Exit): Result<(Account, Trade), ExecError> {
    var (closed, delta) :- CloseTrade(t, c, e, cfg.feeBps, a.balance);
    var trades :- CloseRow(a.trades, closed);
    var balance := Trunc(a.balance + delta as real) as real;
    if balance < 0.0 then Err(NegativeBalance) else Ok((Account(balance, balance, trades), closed))
  }

  function ApplyExit(cfg: Config, a: Account, c: Candle): Result<(Account, seq<Note>), ExecError> {
    var open := LoadOpen(a.trades);
    if open.None? then Ok((a, []))
    else
      var exit :- ExitDecision(open.value, c);
      if exit.None? then Ok((a, []))
      else
        var (b, closed) :- Settle(cfg, a, open.value, c, exit.value);
        Ok((b, [NoteClosed(c.openTime, closed)]))
  }

  function ApplyEntry(cfg: Config, a: Account, c: Candle, d: Option<Decision>, final: bool): Result<(Account, seq<Note>), ExecError> {
    if d.None? || !d.value.verdict.eligible then Ok((a, []))
    else if LoadOpen(a.trades).Some? then Ok((a, [NoteSkipped(c.openTime, OpenTradeExists)]))
    else if final then Ok((a, [NoteSkipped(c.openTime, SessionFinalCandle)]))
    else if a.equity <= 0.0 || a.balance <= 0.0 then Ok((a, [NoteSkipped(c.openTime, AccountDepleted)]))
    else
      var o :- OpenTrade(cfg, d.value, c, a.balance, a.equity);
      if o.Skipped? then Ok((a, [NoteSkipped(c.openTime, o.reason)]))
      else
        var trades :- InsertRow(a.trades, o.trade);
        Ok((Account(Trunc(a.balance - o.trade.fees as real) as real, a.equity, trades), [NoteOpened(c.openTime, o.trade)]))
  }

  function ApplySessionEnd(cfg: Config, a: Account, c: Candle, final: bool): Result<(Account, seq<Note>), ExecError> {
    var open := LoadOpen(a.trades);
    if !final || open.None? then Ok((a, []))
    else
      var (b, closed) :- Settle(cfg, a, open.value, c, Exit(SessionEnd, c.close, false));
      Ok((b, [NoteClosed(c.openTime, closed)]))
  }

  function ApplyMark(a: Account, c: Candle): Result<(Account, Mark), ExecError> {
    var open := LoadOpen(a.trades);
    var (equity, unrealized) :- MarkedEquity(a.balance, open, c.close);
    Ok((a.(equity := equity as real),
        Mark(c.openTime, a.balance, equity as real, unrealized, if open.Some? then Some(open.value.id) else None)))
  }

  /** What one candle does to the account, and the audit entries it writes. */
  function StepCandle(cfg: Config, a: Account, c: Candle, d: Option<Decision>, final: bool): Result<(Account, seq<Note>), ExecError> {
    var (a1, n1) :- ApplyExit(cfg, a, c);
    var (a2, n2) :- ApplyEntry(cfg, a1, c, d, final);
    var (a3, n3) :- ApplySessionEnd(cfg, a2, c, final);
    var (a4, mark) :- ApplyMark(a3, c);
    Ok((a4, n1 + n2 + n3 + [NoteMarked(mark)]))
  }

  // ---------------------------------------------------------------- the pure replay

  /** The decision at candle i as the pure replay sees it: no batch, hence no candidate quantity. */
  function PureDecision(cfg: Config, i: nat): Decision
    requires i < |cfg.snapshot|
  {
    Decision(cfg.snapshot[i].openTime, cfg.evaluate(cfg.snapshot[..i + 1]), None)
  }

  /** The reference: walk the first n frozen candles one by one. */
  function Replay(cfg: Config, n: nat): Result<(Account, seq<Note>), ExecError>
    requires cfg.interval > 0 && n <= |cfg.snapshot|
  {
    if n == 0 then Ok((InitialAccount(cfg), []))
    else
      var (a, notes) :- Replay(cfg, n - 1);
      var (b, more) :- StepCandle(cfg, a, cfg.snapshot[n - 1], Some(PureDecision(cfg, n - 1)), n == cfg.Total());
      Ok((b, notes + more))
  }

  lemma OpenTradeIgnoresCandidateQuantity(cfg: Config, d: Decision, q: Option<int>, c: Candle, balance: real, equity: real)
    ensures OpenTrade(cfg, d, c, balance, equity) == OpenTrade(cfg, d.(quantity := q), c, balance, equity)
  {
    hide Quantity, Fee, QuantizePrice, RiskAmount;
  }

  /** The candidate quantity is never used: decisions that differ only in it trade alike. */
  lemma StepIgnoresCandidateQuantity(cfg: Config, a: Account, c: Candle, d: Decision, q: Option<int>, final: bool)
    ensures StepCandle(cfg, a, c, Some(d), final) == StepCandle(cfg, a, c, Some(d.(quantity := q)), final)
  {
    hide OpenTrade, ApplyExit, ApplySessionEnd, ApplyMark;
    var r := ApplyExit(cfg, a, c);
    if r.Ok? {
      OpenTradeIgnoresCandidateQuantity(cfg, d, q, c, r.value.0.balance, r.value.0.equity);
    }
  }
}

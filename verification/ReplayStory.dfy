/** What the trades of a replay are, told from the frozen candles alone: which candle each was entered on and sized
from what, that nothing touched it until the candle that closed it, and what it then booked. */
module ReplayStory {
  import opened Common
  import opened ReplayMoney
  import opened ReplayExecution
  import opened ReplayAccount
  import opened ReplayTrading
  import opened ReplayRules

  /** The balance with the first k trades closed and no other opened: the initial balance until something is traded,
  and from then on its whole units and the realized results. */
  function BalanceBefore(cfg: Config, trades: seq<Trade>, k: nat): real
    requires k <= |trades|
  {
    if k == 0 then cfg.initial else (cfg.initial.Floor + RealizedTotal(trades[..k])) as real
  }

  /** The equity that sizes the next trade at candle i: marked once, the initial balance is cut to whole units. */
  function EquityBefore(cfg: Config, trades: seq<Trade>, k: nat, i: nat): real
    requires k <= |trades|
  {
    if k == 0 && i > 0 then cfg.initial.Floor as real else BalanceBefore(cfg, trades, k)
  }

  /** The trade as it was while it was open. */
  function AsOpened(t: Trade): Trade {
    if t.IsOpen() then t else t.(closing := None, realizedPnl := 0, fees := t.fees - t.closing.value.exitFee)
  }

  /** Trade k was opened by the verdict over the candles up to and with the i-th, sized from what the trades before it
  had left. */
  predicate EnteredAt(cfg: Config, trades: seq<Trade>, k: nat, i: nat)
    requires k < |trades| && i < |cfg.snapshot| && cfg.interval > 0
  {
    && i + 1 != cfg.Total()
    && OpenedBy(cfg, cfg.evaluate(cfg.snapshot[..i + 1]), cfg.snapshot[i],
                BalanceBefore(cfg, trades, k), EquityBefore(cfg, trades, k, i), AsOpened(trades[k]))
  }

  /** What closes the trade at this candle: the stop or the target if the candle touches them, otherwise the close. */
  function ClosingExit(t: Trade, c: Candle): Exit {
    if Touched(t, c) then ExitBy(t, c) else Exit(SessionEnd, c.close, false)
  }

  /** Trade k was closed at candle j, by a touch or by the end of the session at the final candle. */
  predicate ClosedAt(cfg: Config, trades: seq<Trade>, k: nat, j: nat)
    requires k < |trades| && j < |cfg.snapshot| && cfg.interval > 0
  {
    var t, c := AsOpened(trades[k]), cfg.snapshot[j];
    && (Touched(t, c) || j + 1 == cfg.Total())
    && ClosedBy(cfg.feeBps, t, c, ClosingExit(t, c), HeldWith(cfg, trades[..k], t), trades[k], BalanceBefore(cfg, trades, k + 1))
  }

  /** The balance while t is open behind these closed trades. */
  function HeldWith(cfg: Config, closed: seq<Trade>, t: Trade): real {
    (cfg.initial.Floor + RealizedTotal(closed) - t.fees) as real
  }

  predicate UntouchedBetween(cfg: Config, t: Trade, i: nat, j: nat)
    requires j <= |cfg.snapshot|
  {
    forall m | i < m < j :: !Touched(t, cfg.snapshot[m])
  }

  // ---------------------------------------------------------------- the account between candles

  lemma RealizedAppend(trades: seq<Trade>, t: Trade)
    ensures RealizedTotal(trades + [t]) == RealizedTotal(trades) + if t.IsOpen() then 0 else t.realizedPnl
  {
    assert (trades + [t])[..|trades|] == trades;
  }

  /** The balance is a closed form of the table. */
  lemma AccountBalance(cfg: Config, a: Account)
    requires AccountOk(cfg, a) && cfg.initial > 0.0
    ensures match OpenRow(a.trades)
            case None => a.balance == BalanceBefore(cfg, a.trades, |a.trades|)
            case Some(t) => a.balance == HeldWith(cfg, a.trades[..|a.trades| - 1], t)
  {
    var n := |a.trades|;
    if n > 0 {
      var front, t := a.trades[..n - 1], a.trades[n - 1];
      assert a.trades == front + [t] && a.trades[..n] == a.trades;
      AllClosed(a.trades);
      BookedIsRealized(front);
      BookedAppend(front, t);
      RealizedAppend(front, t);
    }
    hide TableOk, Booked, RealizedTotal;
  }

  lemma AllClosed(trades: seq<Trade>)
    requires TableOk(trades) && trades != []
    ensures forall t <- trades[..|trades| - 1] :: !t.IsOpen()
  {
    hide TradeOk;
  }

  /** With no trade open, the equity is what the next one is sized from. */
  predicate EquityKnown(cfg: Config, a: Account, n: nat) {
    OpenRow(a.trades).None? ==> a.equity == EquityBefore(cfg, a.trades, |a.trades|, n)
  }

  lemma WholeBalance(cfg: Config, trades: seq<Trade>, n: nat, amount: real)
    requires IsCutAmount(amount, BalanceBefore(cfg, trades, |trades|)) && cfg.initial > 0.0 && n > 0
    ensures amount == EquityBefore(cfg, trades, |trades|, n)
  {
    hide RealizedTotal, IsCutAmount;
    if |trades| > 0 {
      WholeIsCut(amount, cfg.initial.Floor + RealizedTotal(trades[..|trades|]));
    } else {
      CutAmountIsUnique(amount, cfg.initial);
    }
  }

  lemma WholeIsCut(amount: real, units: int)
    requires IsCutAmount(amount, units as real)
    ensures amount == units as real
  {
    CutAmountIsUnique(amount, units as real);
    assert IsCut(units, units as real);
    CutIsUnique(units, units as real);
    hide IsCut, IsCutAmount, Trunc;
  }

  // ---------------------------------------------------------------- one candle of the table

  /** The open trade of the table before, if the candle closed it, and the others as they were. */
  predicate Settled(cfg: Config, before: seq<Trade>, c: Candle, final: bool, base: seq<Trade>) {
    var open := OpenRow(before);
    if open.Some? && (Touched(open.value, c) || final) then
      var n := |before| - 1;
      && |base| == n + 1 && base[..n] == before[..n] && base[n].closing.Some?
      && ClosedBy(cfg.feeBps, open.value, c, ClosingExit(open.value, c), HeldWith(cfg, before[..n], open.value), base[n],
                  BalanceBefore(cfg, base, n + 1))
    else base == before
  }

  /** A new trade behind them exactly if none is open any more, the session goes on, something is left, and the verdict
  opens it. */
  ghost predicate Entered(cfg: Config, base: seq<Trade>, c: Candle, v: Verdict, n: nat, final: bool, after: seq<Trade>) {
    var balance, equity := BalanceBefore(cfg, base, |base|), EquityBefore(cfg, base, |base|, n);
    if OpenRow(base).None? && !final && balance > 0.0 && equity > 0.0 && exists t :: OpenedBy(cfg, v, c, balance, equity, t) then
      |after| == |base| + 1 && after[..|base|] == base && OpenedBy(cfg, v, c, balance, equity, after[|base|])
    else after == base
  }

  lemma ClosedIsSettled(cfg: Config, a: Account, t: Trade, c: Candle, final: bool, b: Account, notes: seq<Note>)
    requires AccountOk(cfg, a) && AccountOk(cfg, b) && cfg.initial > 0.0 && OpenRow(a.trades) == Some(t)
    requires Touched(t, c) || final
    requires ClosedTold(cfg, a, t, c, ClosingExit(t, c), b, notes)
    ensures Settled(cfg, a.trades, c, final, b.trades) && OpenRow(b.trades).None?
    ensures b.equity == BalanceBefore(cfg, b.trades, |b.trades|) && |b.trades| > 0
  {
    hide AccountOk, HeldWith, BalanceBefore, ClosingExit, Touched;
    var n, closed := |a.trades| - 1, notes[0].trade;
    assert b.trades[..n] == a.trades[..n] && b.trades[n] == closed;
    ClosedIsNotOpen(cfg.feeBps, t, c, ClosingExit(t, c), a.balance, closed, b.balance);
    AccountBalance(cfg, a);
    AccountBalance(cfg, b);
    hide ClosedBy;
  }

  lemma ClosedIsNotOpen(feeBps: real, t: Trade, c: Candle, e: Exit, available: real, closed: Trade, balance: real)
    requires ClosedBy(feeBps, t, c, e, available, closed, balance)
    ensures closed.closing.Some?
  {
  }

  lemma SettledIs(cfg: Config, before: seq<Trade>, c: Candle, final: bool)
    requires OpenRow(before).Some? ==> !Touched(OpenRow(before).value, c) && !final
    ensures Settled(cfg, before, c, final, before)
  {
    hide ClosedBy, Touched;
  }

  /** The entry leaves the table as the rule says. */
  lemma EntryIsEntered(cfg: Config, a: Account, c: Candle, v: Verdict, n: nat, final: bool, b: Account, notes: seq<Note>)
    requires AccountOk(cfg, a) && cfg.initial > 0.0 && EquityKnown(cfg, a, n) && EntryTold(cfg, a, c, v, final, b, notes)
    ensures Entered(cfg, a.trades, c, v, n, final, b.trades)
    ensures b.trades == a.trades ==> b == a
    ensures b.trades != a.trades ==> !final
  {
    AccountBalance(cfg, a);
    hide AccountOk, BalanceBefore, EquityBefore, HeldWith;
    if OpenedTold(cfg, a, c, v, b, notes) {
      assert OpenedBy(cfg, v, c, a.balance, a.equity, notes[0].trade);
      assert b.trades[..|a.trades|] == a.trades && b.trades[|a.trades|] == notes[0].trade;
    }
    NotEligible(cfg, v, c, a.balance, a.equity);
    hide OpenedBy;
  }

  lemma NotEligible(cfg: Config, v: Verdict, c: Candle, balance: real, equity: real)
    ensures !v.eligible ==> forall t :: !OpenedBy(cfg, v, c, balance, equity, t)
  {
  }

  /** The mark leaves the table, and cuts the equity of a flat account to whole units. */
  lemma MarkedEquityKnown(cfg: Config, a: Account, c: Candle, b: Account, mark: Mark, n: nat)
    requires AccountOk(cfg, a) && cfg.initial > 0.0 && n > 0 && MarkTold(a, c, b, mark)
    ensures b.trades == a.trades && EquityKnown(cfg, b, n)
  {
    AccountBalance(cfg, a);
    if OpenRow(a.trades).None? {
      WholeBalance(cfg, a.trades, n, b.equity);
    }
    hide AccountOk, BalanceBefore, EquityBefore, HeldWith, IsCut, IsCutAmount, Gain;
  }

  /** A candle that finds nothing open, or touches what is. */
  lemma ExitSettles(cfg: Config, a: Account, c: Candle, final: bool, a1: Account, notes: seq<Note>, n: nat)
    requires AccountOk(cfg, a) && AccountOk(cfg, a1) && cfg.initial > 0.0 && EquityKnown(cfg, a, n) && ExitTold(cfg, a, c, a1, notes)
    requires OpenRow(a.trades).None? || Touched(OpenRow(a.trades).value, c)
    ensures Settled(cfg, a.trades, c, final, a1.trades) && OpenRow(a1.trades).None? && EquityKnown(cfg, a1, n)
  {
    hide AccountOk, Touched, ClosedTold, BalanceBefore, Settled;
    if OpenRow(a.trades).Some? {
      ClosedIsSettled(cfg, a, OpenRow(a.trades).value, c, final, a1, notes);
    } else {
      SettledIs(cfg, a.trades, c, final);
    }
  }

  /** A candle that finds a trade open and touches neither of its prices: only the end of the session closes it. */
  lemma OpenStays(cfg: Config, a: Account, c: Candle, v: Verdict, final: bool, n: nat, a1: Account, n1: seq<Note>, a2: Account,
                  n2: seq<Note>, a3: Account, n3: seq<Note>)
    requires AccountOk(cfg, a) && AccountOk(cfg, a3) && cfg.initial > 0.0
    requires OpenRow(a.trades).Some? && !Touched(OpenRow(a.trades).value, c)
    requires ExitTold(cfg, a, c, a1, n1) && EntryTold(cfg, a1, c, v, final, a2, n2) && EndTold(cfg, a2, c, final, a3, n3)
    ensures Settled(cfg, a.trades, c, final, a3.trades) && Entered(cfg, a3.trades, c, v, n, final, a3.trades)
  {
    hide AccountOk, Touched, ClosedTold, OpenedTold, OpenedBy, BalanceBefore, EquityBefore, Settled;
    assert a1 == a && a2 == a;
    if final {
      ClosedIsSettled(cfg, a, OpenRow(a.trades).value, c, final, a3, n3);
    } else {
      SettledIs(cfg, a.trades, c, final);
    }
  }

  lemma NothingEnds(cfg: Config, a: Account, c: Candle, final: bool, b: Account, notes: seq<Note>)
    requires EndTold(cfg, a, c, final, b, notes) && (final ==> OpenRow(a.trades).None?)
    ensures b == a
  {
    hide ClosedTold;
  }

  /** One candle of a replay: the table before it, the same with the trade settled that it closes, and with the trade
  that it opens. */
  lemma CandleMoves(cfg: Config, a: Account, n: nat, c: Candle, d: Decision, final: bool) returns (base: seq<Trade>)
    requires cfg.ExecutionBounds() && CandleOk(c) && AccountOk(cfg, a) && EnteredBefore(a, c.openTime)
    requires cfg.initial > 0.0 && EquityKnown(cfg, a, n) && StepCandle(cfg, a, c, Some(d), final).Ok?
    ensures var b := StepCandle(cfg, a, c, Some(d), final).value.0;
            && Settled(cfg, a.trades, c, final, base) && EquityKnown(cfg, b, n + 1)
            && Entered(cfg, base, c, d.verdict, n, final, b.trades)
  {
    hide *;
    var a1, n1, a2, n2, a3, n3, mark := CandleFollows(cfg, a, c, d, final);
    var b := StepCandle(cfg, a, c, Some(d), final).value.0;
    MarkedEquityKnown(cfg, a3, c, b, mark, n + 1);
    if OpenRow(a.trades).Some? && !Touched(OpenRow(a.trades).value, c) {
      OpenStays(cfg, a, c, d.verdict, final, n, a1, n1, a2, n2, a3, n3);
      base := a3.trades;
    } else {
      ExitSettles(cfg, a, c, final, a1, n1, n);
      EntryIsEntered(cfg, a1, c, d.verdict, n, final, a2, n2);
      NothingEnds(cfg, a2, c, final, a3, n3);
      base := a1.trades;
    }
  }

  // ---------------------------------------------------------------- the whole replay

  /** One candle of the pure replay, with what is known of the accounts around it. */
  lemma {:induction false} ReplayMoves(cfg: Config, n: nat) returns (base: seq<Trade>)
    requires cfg.Valid() && cfg.ExecutionBounds() && n <= |cfg.snapshot| && cfg.interval > 0 && Replay(cfg, n).Ok?
    ensures EquityKnown(cfg, Replay(cfg, n).value.0, n)
    ensures n == 0 ==> Replay(cfg, n).value.0.trades == []
    ensures n > 0 ==>
              && Replay(cfg, n - 1).Ok? && AccountOk(cfg, Replay(cfg, n - 1).value.0)
              && Settled(cfg, Replay(cfg, n - 1).value.0.trades, cfg.snapshot[n - 1], n == cfg.Total(), base)
              && Entered(cfg, base, cfg.snapshot[n - 1], cfg.evaluate(cfg.snapshot[..n]), n - 1, n == cfg.Total(),
                         Replay(cfg, n).value.0.trades)
  {
    hide *;
    base := [];
    if n == 0 {
      NothingReplayed(cfg);
    } else {
      ReplayUnfold(cfg, n);
      ReplayKeeps(cfg, n - 1);
      var a := Replay(cfg, n - 1).value.0;
      SnapshotAt(cfg, n - 1);
      PositiveInitial(cfg);
      PureVerdict(cfg, n - 1);
      var _ := ReplayMoves(cfg, n - 1);
      base := CandleMoves(cfg, a, n - 1, cfg.snapshot[n - 1], PureDecision(cfg, n - 1), n == cfg.Total());
    }
  }

  lemma NothingReplayed(cfg: Config)
    requires cfg.interval > 0
    ensures Replay(cfg, 0) == Ok((Account(cfg.initial, cfg.initial, []), [])) && EquityKnown(cfg, Account(cfg.initial, cfg.initial, []), 0)
  {
  }

  lemma PositiveInitial(cfg: Config)
    requires cfg.Valid()
    ensures cfg.initial > 0.0
  {
  }

  lemma PureVerdict(cfg: Config, i: nat)
    requires i < |cfg.snapshot|
    ensures PureDecision(cfg, i).verdict == cfg.evaluate(cfg.snapshot[..i + 1])
  {
  }

  lemma SettledFacts(cfg: Config, before: seq<Trade>, c: Candle, final: bool, base: seq<Trade>)
    requires Settled(cfg, before, c, final, base)
    ensures |base| == |before| && forall k | 0 <= k < |base| - 1 :: base[k] == before[k]
    ensures base != [] && base[|base| - 1] != before[|before| - 1] ==> OpenRow(before).Some?
  {
    hide ClosedBy, Touched;
  }

  lemma EntryFacts(cfg: Config, base: seq<Trade>, c: Candle, v: Verdict, n: nat, final: bool, after: seq<Trade>)
    requires Entered(cfg, base, c, v, n, final, after)
    ensures |base| <= |after| <= |base| + 1 && after[..|base|] == base
    ensures |after| > |base| ==>
              !final && OpenedBy(cfg, v, c, BalanceBefore(cfg, base, |base|), EquityBefore(cfg, base, |base|, n), after[|base|])
  {
    hide OpenedBy, OpenRow, BalanceBefore, EquityBefore;
    assert after == base ==> after[..|base|] == base;
  }

  /** The fields of a trade that its closing leaves alone are those it was opened with. */
  lemma ClosedFromOpen(feeBps: real, t: Trade, c: Candle, e: Exit, available: real, closed: Trade, balance: real)
    requires ClosedBy(feeBps, t, c, e, available, closed, balance) && t.IsOpen() && t.realizedPnl == 0
    ensures AsOpened(closed) == t && !closed.IsOpen()
  {
    hide IsCut, IsCutAmount, IsGridPrice, Gain, FeeOn;
  }

  lemma PrefixBalances(cfg: Config, x: seq<Trade>, y: seq<Trade>, k: nat, i: nat)
    requires k <= |x| && k <= |y| && x[..k] == y[..k]
    ensures BalanceBefore(cfg, x, k) == BalanceBefore(cfg, y, k) && EquityBefore(cfg, x, k, i) == EquityBefore(cfg, y, k, i)
  {
    hide RealizedTotal;
  }

  lemma EnteredStays(cfg: Config, x: seq<Trade>, y: seq<Trade>, k: nat, i: nat)
    requires cfg.interval > 0 && k < |x| && k < |y| && x[..k] == y[..k] && AsOpened(x[k]) == AsOpened(y[k]) && i < |cfg.snapshot|
    requires EnteredAt(cfg, x, k, i)
    ensures EnteredAt(cfg, y, k, i)
  {
    hide OpenedBy, BalanceBefore, EquityBefore, AsOpened, cfg.Total;
    PrefixBalances(cfg, x, y, k, i);
  }

  lemma ClosedStays(cfg: Config, x: seq<Trade>, y: seq<Trade>, k: nat, j: nat)
    requires cfg.interval > 0 && k < |x| && k < |y| && x[..k + 1] == y[..k + 1] && j < |cfg.snapshot|
    requires ClosedAt(cfg, x, k, j)
    ensures ClosedAt(cfg, y, k, j)
  {
    hide ClosedBy, Touched, BalanceBefore, HeldWith, AsOpened, cfg.Total;
    PrefixBalances(cfg, x, y, k + 1, 0);
    assert x[k] == x[..k + 1][k] && y[k] == y[..k + 1][k] && x[..k] == x[..k + 1][..k] && y[..k] == y[..k + 1][..k];
  }

  lemma UntouchedLonger(cfg: Config, t: Trade, i: nat, j: nat)
    requires j < |cfg.snapshot| && UntouchedBetween(cfg, t, i, j) && !Touched(t, cfg.snapshot[j])
    ensures UntouchedBetween(cfg, t, i, j + 1)
  {
    hide Touched;
  }

  /** The candle that opened the last trade of the table. */
  lemma OpenedNow(cfg: Config, base: seq<Trade>, n: nat, after: seq<Trade>)
    requires cfg.interval > 0 && 0 < n <= |cfg.snapshot| && |after| == |base| + 1
    requires Entered(cfg, base, cfg.snapshot[n - 1], cfg.evaluate(cfg.snapshot[..n]), n - 1, n == cfg.Total(), after)
    ensures EnteredAt(cfg, after, |base|, n - 1) && after[|base|].IsOpen()
    ensures UntouchedBetween(cfg, after[|base|], n - 1, n)
  {
    EntryFacts(cfg, base, cfg.snapshot[n - 1], cfg.evaluate(cfg.snapshot[..n]), n - 1, n == cfg.Total(), after);
    hide BalanceBefore, EquityBefore, cfg.Total, IsGridPrice, IsCut, IsLargest, Sides, Touched, Entered, FeeOn, RiskShare, Notional;
    assert base[..|base|] == base;
    PrefixBalances(cfg, base, after, |base|, n - 1);
  }

  /** The candle that closed the open trade of the table. */
  lemma ClosedNow(cfg: Config, before: seq<Trade>, n: nat, base: seq<Trade>, after: seq<Trade>)
    requires cfg.interval > 0 && 0 < n <= |cfg.snapshot| && OpenRow(before).Some? && OpenRow(before).value.realizedPnl == 0
    requires Touched(OpenRow(before).value, cfg.snapshot[n - 1]) || n == cfg.Total()
    requires Settled(cfg, before, cfg.snapshot[n - 1], n == cfg.Total(), base)
    requires |base| <= |after| && after[..|base|] == base
    ensures var k := |before| - 1;
            && AsOpened(after[k]) == before[k] && !after[k].IsOpen() && after[..k] == before[..k] && ClosedAt(cfg, after, k, n - 1)
  {
    var k, c, t := |before| - 1, cfg.snapshot[n - 1], OpenRow(before).value;
    ClosedFromOpen(cfg.feeBps, t, c, ClosingExit(t, c), HeldWith(cfg, before[..k], t), base[k], BalanceBefore(cfg, base, k + 1));
    hide ClosedBy, Touched, BalanceBefore, HeldWith, AsOpened, cfg.Total, ClosingExit;
    assert base[..k + 1] == base && base[..k] == before[..k];
    assert after[k] == after[..|base|][k] && after[..k] == after[..|base|][..k];
    PrefixBalances(cfg, base, after, k + 1, 0);
  }

  lemma KeptNow(cfg: Config, before: seq<Trade>, n: nat, base: seq<Trade>, after: seq<Trade>, k: nat)
    requires 0 < n <= |cfg.snapshot| && cfg.interval > 0 && k < |before| && |base| <= |after| && after[..|base|] == base
    requires Settled(cfg, before, cfg.snapshot[n - 1], n == cfg.Total(), base)
    requires k == |before| - 1 && before[k].IsOpen() ==> !Touched(before[k], cfg.snapshot[n - 1]) && n != cfg.Total()
    ensures k < |after| && after[..k + 1] == before[..k + 1] && after[k] == before[k]
  {
    SettledFacts(cfg, before, cfg.snapshot[n - 1], n == cfg.Total(), base);
    hide ClosedBy, Touched, cfg.Total;
    forall i | 0 <= i <= k ensures after[i] == before[i] { assert after[i] == after[..|base|][i]; }
  }

  /** Every trade of every prefix: entered on a candle by its verdict, at the size the earlier results allow; touched by
  no candle while it stayed open; and closed, if it is, by the first candle that touches it or by the final one. */
  lemma {:induction false} TradeExplained(cfg: Config, n: nat, k: nat) returns (i: nat, j: nat)
    requires cfg.Valid() && cfg.ExecutionBounds() && n <= |cfg.snapshot| && cfg.interval > 0
    requires Replay(cfg, n).Ok? && k < |Replay(cfg, n).value.0.trades|
    ensures var trades := Replay(cfg, n).value.0.trades;
            && i < j <= n && EnteredAt(cfg, trades, k, i) && UntouchedBetween(cfg, AsOpened(trades[k]), i, j)
            && (if trades[k].IsOpen() then j == n && k == |trades| - 1 else j < n && ClosedAt(cfg, trades, k, j))
    decreases n
  {
    hide *;
    var base := ReplayMoves(cfg, n);
    if n > 0 {
      var a, b := Replay(cfg, n - 1).value.0, Replay(cfg, n).value.0;
      var c, final := cfg.snapshot[n - 1], n == cfg.Total();
      SettledFacts(cfg, a.trades, c, final, base);
      EntryFacts(cfg, base, c, cfg.evaluate(cfg.snapshot[..n]), n - 1, final, b.trades);
      if k == |base| {
        OpenedNow(cfg, base, n, b.trades);
        i, j := n - 1, n;
        OpenIsItself(b.trades[k]);
      } else {
        i, j := TradeExplained(cfg, n - 1, k);
        OpenTradeIsLast(cfg, a, k);
        if k == |a.trades| - 1 && a.trades[k].IsOpen() && (Touched(a.trades[k], c) || final) {
          OpenRowIs(a.trades);
          ClosedNow(cfg, a.trades, n, base, b.trades);
          OpenIsItself(a.trades[k]);
          j := n - 1;
        } else {
          KeptNow(cfg, a.trades, n, base, b.trades, k);
          if a.trades[k].IsOpen() {
            OpenIsItself(a.trades[k]);
            UntouchedLonger(cfg, AsOpened(a.trades[k]), i, n - 1);
            j := n;
            LastStays(cfg, a.trades, base, c, n - 1, final, b.trades);
          } else {
            ClosedStays(cfg, a.trades, b.trades, k, j);
          }
        }
        assert a.trades[..k] == a.trades[..k + 1][..k] && b.trades[..k] == b.trades[..k + 1][..k];
        EnteredStays(cfg, a.trades, b.trades, k, i);
      }
    }
  }

  lemma OpenIsItself(t: Trade)
    ensures t.IsOpen() ==> AsOpened(t) == t
  {
  }

  lemma OpenRowIs(trades: seq<Trade>)
    ensures trades != [] && trades[|trades| - 1].IsOpen() ==> OpenRow(trades) == Some(trades[|trades| - 1])
  {
  }

  lemma OpenTradeIsLast(cfg: Config, a: Account, k: nat)
    requires AccountOk(cfg, a) && k < |a.trades|
    ensures a.trades[k].IsOpen() ==> k == |a.trades| - 1 && a.trades[k].realizedPnl == 0
  {
    assert TradeOk(a.trades[k]);
    hide RiskBounded, Booked;
  }

  /** Behind an open trade that the candle leaves alone none is opened. */
  lemma LastStays(cfg: Config, before: seq<Trade>, base: seq<Trade>, c: Candle, n: nat, final: bool, after: seq<Trade>)
    requires exists v :: Entered(cfg, base, c, v, n, final, after)
    requires before != [] && before[|before| - 1].IsOpen() && !Touched(before[|before| - 1], c) && !final
    requires Settled(cfg, before, c, final, base)
    ensures after == before
  {
    hide OpenedBy, BalanceBefore, EquityBefore, Touched, ClosedBy;
  }

  // ---------------------------------------------------------------- fees

  lemma TwoFees(entry: real, exit: real, quantity: int, feeBps: real, first: int, second: int)
    requires entry >= 0.0 && exit >= 0.0 && quantity >= 0 && feeBps >= 0.0
    requires IsCut(first, FeeOn(entry, quantity, feeBps)) && IsCut(second, FeeOn(exit, quantity, feeBps))
    ensures var exact := entry * quantity as real * feeBps / 10000.0 + exit * quantity as real * feeBps / 10000.0;
            exact - 2.0 < (first + second) as real <= exact
  {
    hide *;
    FeeLaw(entry, quantity, feeBps, first);
    FeeLaw(exit, quantity, feeBps, second);
  }

  lemma ClosingFee(feeBps: real, t: Trade, c: Candle, e: Exit, available: real, closed: Trade, balance: real)
    requires ClosedBy(feeBps, t, c, e, available, closed, balance)
    ensures closed.closing.Some? && IsCut(closed.closing.value.exitFee, FeeOn(e.price, t.quantity, feeBps))
    ensures closed.fees == t.fees + closed.closing.value.exitFee
  {
    hide IsCut, IsCutAmount, IsGridPrice, Gain, FeeOn;
  }

  lemma ClosingPricePositive(t: Trade, c: Candle)
    requires CandleOk(c) && (StopTouched(t, c) ==> t.stop >= 0.0) && t.target >= 0.0
    ensures ClosingExit(t, c).price >= 0.0
  {
  }

  lemma GridPricePositive(price: real, exact: real)
    requires IsGridPrice(price, exact) && exact > 0.0
    ensures price >= 0.0
  {
    hide *;
    GridPriceIsUnique(price, exact);
    QuantizePriceNear(exact);
  }

  lemma OpenedPrices(cfg: Config, v: Verdict, c: Candle, balance: real, equity: real, t: Trade)
    requires OpenedBy(cfg, v, c, balance, equity, t)
    ensures t.stop >= 0.0 && t.target >= 0.0 && t.quantity > 0 && IsCut(t.fees, FeeOn(c.close, t.quantity, cfg.feeBps))
  {
    hide IsCut, FeeOn, IsGridPrice, IsLargest, RiskShare, Notional;
    GridPricePositive(t.stop, v.plan.value.stop);
    GridPricePositive(t.target, v.plan.value.target);
  }

  lemma AsOpenedFields(t: Trade)
    ensures AsOpened(t).quantity == t.quantity
    ensures t.closing.Some? ==> AsOpened(t).fees == t.fees - t.closing.value.exitFee
  {
  }

  /** The fees of every trade of every prefix: of an open one the exact entry fee less than one unit cut, of a closed
  one the exact entry fee and the exact exit fee, less than two units cut. */
  lemma FeesAreExact(cfg: Config, n: nat, k: nat) returns (i: nat, j: nat)
    requires cfg.Valid() && cfg.ExecutionBounds() && n <= |cfg.snapshot| && cfg.interval > 0
    requires Replay(cfg, n).Ok? && k < |Replay(cfg, n).value.0.trades|
    ensures var t := Replay(cfg, n).value.0.trades[k];
            && i < n && cfg.snapshot[i].openTime == t.entryTime
            && var entry := cfg.snapshot[i].close * t.quantity as real * cfg.feeBps / 10000.0;
               if t.IsOpen() then entry - 1.0 < t.fees as real <= entry
               else
                 && i < j < n && cfg.snapshot[j].openTime == t.closing.value.time
                 && var exact := entry + ClosingExit(AsOpened(t), cfg.snapshot[j]).price * t.quantity as real * cfg.feeBps / 10000.0;
                    exact - 2.0 < t.fees as real <= exact
  {
    hide *;
    i, j := TradeExplained(cfg, n, k);
    var trades := Replay(cfg, n).value.0.trades;
    var t := trades[k];
    BoundsFacts(cfg);
    SnapshotAt(cfg, i);
    PositiveClose(cfg.snapshot[i]);
    EnteredOn(cfg, trades, k, i);
    AsOpenedFields(t);
    OpenIsItself(t);
    if t.IsOpen() {
      FeeLaw(cfg.snapshot[i].close, t.quantity, cfg.feeBps, t.fees);
    } else {
      SnapshotAt(cfg, j);
      ClosedOn(cfg, trades, k, j);
      ClosingPricePositive(AsOpened(t), cfg.snapshot[j]);
      TwoFees(cfg.snapshot[i].close, ClosingExit(AsOpened(t), cfg.snapshot[j]).price, t.quantity, cfg.feeBps,
              AsOpened(t).fees, t.closing.value.exitFee);
    }
  }

  lemma EnteredOn(cfg: Config, trades: seq<Trade>, k: nat, i: nat)
    requires cfg.interval > 0 && k < |trades| && i < |cfg.snapshot| && EnteredAt(cfg, trades, k, i)
    ensures var t, c := AsOpened(trades[k]), cfg.snapshot[i];
            && trades[k].entryTime == c.openTime && t.stop >= 0.0 && t.target >= 0.0 && t.quantity > 0
            && IsCut(t.fees, FeeOn(c.close, t.quantity, cfg.feeBps))
  {
    OpenedPrices(cfg, cfg.evaluate(cfg.snapshot[..i + 1]), cfg.snapshot[i], BalanceBefore(cfg, trades, k),
                 EquityBefore(cfg, trades, k, i), AsOpened(trades[k]));
    hide IsCut, FeeOn, IsGridPrice, IsLargest, RiskShare, Notional, Sides, BalanceBefore, EquityBefore, cfg.Total;
  }

  lemma ClosedOn(cfg: Config, trades: seq<Trade>, k: nat, j: nat)
    requires cfg.interval > 0 && k < |trades| && j < |cfg.snapshot| && ClosedAt(cfg, trades, k, j)
    ensures var t, c := AsOpened(trades[k]), cfg.snapshot[j];
            && trades[k].closing.Some? && trades[k].closing.value.time == c.openTime
            && IsCut(trades[k].closing.value.exitFee, FeeOn(ClosingExit(t, c).price, t.quantity, cfg.feeBps))
  {
    var t, c := AsOpened(trades[k]), cfg.snapshot[j];
    ClosingFee(cfg.feeBps, t, c, ClosingExit(t, c), HeldWith(cfg, trades[..k], t), trades[k], BalanceBefore(cfg, trades, k + 1));
    hide IsCut, IsCutAmount, IsGridPrice, Gain, FeeOn, Touched, ClosingExit, BalanceBefore, HeldWith, AsOpened, cfg.Total;
  }
}

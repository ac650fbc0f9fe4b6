/** The strategy that proposes the trades of a replay: indicators over a candle prefix, votes, and a plan at a fixed
multiple of the average range. */
module ReplayPlanner {
  import opened Common
  import opened ReplayMoney
  import opened ReplayExecution
  import opened ReplayFailures

  const MIN_HISTORY := 50

  // ---------------------------------------------------------------- indicators

  function Sum(values: seq<real>): (r: real)
    ensures (forall i | 0 <= i < |values| :: values[i] >= 0.0) ==> r >= 0.0
  {
    if values == [] then 0.0 else Sum(values[..|values| - 1]) + values[|values| - 1]
  }

  /** The exponential average, seeded with the plain average of the first `period` values. */
  function Ema(values: seq<real>, period: nat): real
    requires 0 < period <= |values|
  {
    if |values| == period then Sum(values) / period as real
    else
      var alpha := 2.0 / (period + 1) as real;
      values[|values| - 1] * alpha + Ema(values[..|values| - 1], period) * (1.0 - alpha)
  }

  function Closes(candles: seq<Candle>): (r: seq<real>)
    ensures |r| == |candles|
    ensures forall i | 0 <= i < |r| :: r[i] == candles[i].close
  {
    seq(|candles|, i requires 0 <= i < |candles| => candles[i].close)
  }

  function Max(x: real, y: real): (r: real)
    ensures r >= x && r >= y
  {
    if x >= y then x else y
  }

  function Move(values: seq<real>, i: nat, direction: real): (r: real)
    requires i + 1 < |values|
    ensures r >= 0.0
  {
    Max((values[i + 1] - values[i]) * direction, 0.0)
  }

  /** The last fourteen changes, as far as they go in this direction. */
  function Moves(values: seq<real>, direction: real): (r: seq<real>)
    requires |values| >= 15
    ensures |r| == 14
    ensures forall i | 0 <= i < 14 :: r[i] == Move(values, |values| - 15 + i, direction)
    ensures forall i | 0 <= i < 14 :: r[i] >= 0.0
  {
    seq(14, i requires 0 <= i < 14 => Move(values, |values| - 15 + i, direction))
  }

  /** The relative strength over the last fourteen changes. */
  function Rsi(values: seq<real>): real
    requires |values| >= 15
  {
    var gains, losses := Sum(Moves(values, 1.0)) / 14.0, Sum(Moves(values, -1.0)) / 14.0;
    if losses == 0.0 then 100.0 else 100.0 - 100.0 / (1.0 + gains / losses)
  }

  function TrueRange(c: Candle, previousClose: real): real {
    Max(c.high - c.low, Max(Abs(c.high - previousClose), Abs(c.low - previousClose)))
  }

  /** The average true range of the last fourteen candles. */
  function Atr(candles: seq<Candle>): real
    requires |candles| >= 15
  {
    var rows := candles[|candles| - 15..];
    Sum(seq(14, i requires 0 <= i < 14 => TrueRange(rows[i + 1], rows[i].close))) / 14.0
  }

  function MacdLine(values: seq<real>): real
    requires |values| >= 26
  {
    Ema(values, 12) - Ema(values, 26)
  }

  /** The line less its average over the last nine prefixes, each of which is long enough here. */
  function MacdHistogram(values: seq<real>): real
    requires |values| >= MIN_HISTORY
  {
    MacdLine(values) - Sum(seq(9, i requires 0 <= i < 9 => MacdLine(values[..|values| - 8 + i]))) / 9.0
  }

  // ---------------------------------------------------------------- votes and plan

  function Vote(b: bool): nat {
    if b then 1 else 0
  }

  function LongScore(close: real, ema20: real, ema50: real, histogram: real, rsi: real): nat {
    Vote(close > ema20) + Vote(ema20 > ema50) + Vote(histogram > 0.0) + Vote(48.0 <= rsi <= 70.0)
  }

  function ShortScore(close: real, ema20: real, ema50: real, histogram: real, rsi: real): nat {
    Vote(close < ema20) + Vote(ema20 < ema50) + Vote(histogram < 0.0) + Vote(30.0 <= rsi <= 52.0)
  }

  /** Three or four of one side's votes, and not as many of the other's. */
  function Judge(long: nat, short: nat): Signal {
    if MaxInt(long, short) < 3 || long == short then Wait
    else if long > short then Enter(Buy)
    else Enter(Sell)
  }

  function RiskPct(score: nat): real {
    if score == 4 then 1.0 else 0.75
  }

  /** One and a half average ranges to the stop, twice that to the target. */
  function PlanAt(close: real, side: Side, atr: real, riskPct: real): Plan {
    var d := atr * 1.5;
    if side == Buy then Plan(riskPct, close - d, close + d * 2.0, d) else Plan(riskPct, close + d, close - d * 2.0, d)
  }

  function Evaluate(prefix: seq<Candle>): Verdict {
    if |prefix| < MIN_HISTORY then Verdict(false, false, Wait, None)
    else
      var closes := Closes(prefix);
      var close, ema20, ema50 := closes[|closes| - 1], Ema(closes, 20), Ema(closes, 50);
      var histogram, rsi, atr := MacdHistogram(closes), Rsi(closes), Atr(prefix);
      var long, short := LongScore(close, ema20, ema50, histogram, rsi), ShortScore(close, ema20, ema50, histogram, rsi);
      var signal := Judge(long, short);
      if signal.Wait? || atr <= 0.0 then Verdict(true, false, signal, None)
      else Verdict(true, true, signal, Some(PlanAt(close, signal.side, atr, RiskPct(MaxInt(long, short)))))
  }

  // ---------------------------------------------------------------- what the plans come to

  /** Every eligible verdict of the planner has the shape of a plan at the last close. */
  lemma EvaluateShape(prefix: seq<Candle>)
    ensures var v := Evaluate(prefix);
            v.eligible ==>
              && |prefix| >= MIN_HISTORY && Atr(prefix) > 0.0 && v.signal.Enter? && v.plan.Some?
              && v.plan.value.riskPct in {0.75, 1.0}
              && v.plan.value == PlanAt(prefix[|prefix| - 1].close, v.signal.side, Atr(prefix), v.plan.value.riskPct)
  {
    hide Sum, Ema, Moves, Rsi, Atr, MacdHistogram, LongScore, ShortScore;
  }

  /** At least three of four. */
  predicate Most(a: bool, b: bool, c: bool, d: bool) {
    (a && b && (c || d)) || (c && d && (a || b))
  }

  /** The votes behind a verdict: with fifty candles it goes long exactly if three of the long votes agree, and short
  exactly if three of the short ones do; both never happen, so no tie is ever broken.  All four votes risk one percent,
  three of them three quarters. */
  lemma VotesDecide(prefix: seq<Candle>)
    requires |prefix| >= 50
    ensures var closes := Closes(prefix);
            var close, ema20, ema50 := prefix[|prefix| - 1].close, Ema(closes, 20), Ema(closes, 50);
            var histogram, rsi, v := MacdHistogram(closes), Rsi(closes), Evaluate(prefix);
            && (v.signal == Enter(Buy) <==> Most(close > ema20, ema20 > ema50, histogram > 0.0, 48.0 <= rsi <= 70.0))
            && (v.signal == Enter(Sell) <==> Most(close < ema20, ema20 < ema50, histogram < 0.0, 30.0 <= rsi <= 52.0))
            && (v.eligible <==> v.signal.Enter? && Atr(prefix) > 0.0) && (v.plan.Some? <==> v.eligible) && v.evaluated
            && (v.eligible ==>
                  v.plan.value.riskPct ==
                    if (if v.signal.side == Buy then close > ema20 && ema20 > ema50 && histogram > 0.0 && 48.0 <= rsi <= 70.0
                        else close < ema20 && ema20 < ema50 && histogram < 0.0 && 30.0 <= rsi <= 52.0) then 1.0 else 0.75)
  {
    hide Ema, Rsi, Atr, MacdHistogram;
  }

  /** The plan of an eligible verdict: the stop one and a half average ranges behind the close, the target three ahead. */
  lemma PlanIs(prefix: seq<Candle>)
    requires Evaluate(prefix).eligible
    ensures |prefix| >= 50 && Evaluate(prefix).signal.Enter? && Evaluate(prefix).plan.Some?
    ensures var p, close, range := Evaluate(prefix).plan.value, prefix[|prefix| - 1].close, Atr(prefix);
            && p.stopDistance == range * 1.5
            && if Evaluate(prefix).signal.side == Buy then p.stop == close - range * 1.5 && p.target == close + range * 3.0
               else p.stop == close + range * 1.5 && p.target == close - range * 3.0
  {
    EvaluateShape(prefix);
    hide Evaluate, Atr;
  }

  /** A plan of the planner raises if and only if three halves of the average range reach the price for a long, or
  three whole ones for a short. */
  lemma PlannedRaises(prefix: seq<Candle>)
    requires Evaluate(prefix).eligible && prefix[|prefix| - 1].close > 0.0
    ensures |prefix| >= MIN_HISTORY && Evaluate(prefix).signal.Enter?
    ensures var close := prefix[|prefix| - 1].close;
            PlanRaises(close, Evaluate(prefix)) <==>
              if Evaluate(prefix).signal.side == Buy then Atr(prefix) * 1.5 >= close else Atr(prefix) * 3.0 >= close
  {
    EvaluateShape(prefix);
    hide Evaluate, Atr;
  }

  /** A close whose distance to the nearer side of zero leaves room for the plan. */
  predicate Roomy(prefix: seq<Candle>)
    requires prefix != []
  {
    var close := prefix[|prefix| - 1].close;
    && !BelowGrid(close)
    && (Evaluate(prefix).eligible && |prefix| >= MIN_HISTORY && Evaluate(prefix).signal.Enter? ==>
          !BelowGrid(if Evaluate(prefix).signal.side == Buy then close - Atr(prefix) * 1.5 else close - Atr(prefix) * 3.0))
  }

  lemma PlannedOnScale(prefix: seq<Candle>)
    requires prefix != []
    ensures OnScale(prefix[|prefix| - 1].close, Evaluate(prefix)) <==> Roomy(prefix)
  {
    EvaluateShape(prefix);
    hide Evaluate, Atr;
  }

  /** The frozen candles up to and with the i-th, all that the strategy sees at it. */
  function Prefix(cfg: Config, i: nat): (r: seq<Candle>)
    requires i < |cfg.snapshot|
    ensures r != []
  {
    cfg.snapshot[..i + 1]
  }

  /** A session of the program's own planner whose plans have room at every candle replays to its end. */
  lemma PlannedReplays(cfg: Config, n: nat)
    requires cfg.Valid() && cfg.ExecutionBounds() && n <= |cfg.snapshot|
    requires forall prefix :: cfg.evaluate(prefix) == Evaluate(prefix)
    requires forall i | 0 <= i < n :: Roomy(Prefix(cfg, i))
    ensures Replay(cfg, n).Ok?
  {
    hide Replay, OnScale, Roomy, Evaluate, cfg.Valid, cfg.ExecutionBounds;
    forall i | 0 <= i < n ensures OnScale(cfg.snapshot[i].close, cfg.evaluate(cfg.snapshot[..i + 1])) {
      PlannedOnScale(Prefix(cfg, i));
    }
    OnScaleReplays(cfg, n);
  }

  // ---------------------------------------------------------------- a plan that raises

  lemma {:induction false} SumConst(values: seq<real>, x: real)
    requires forall i | 0 <= i < |values| :: values[i] == x
    ensures Sum(values) == |values| as real * x
  {
    if values != [] {
      SumConst(values[..|values| - 1], x);
      assert |values| as real * x == (|values| - 1) as real * x + x;
    }
  }

  /** All of a sum lies in its last value. */
  lemma SumLast(values: seq<real>)
    requires values != [] && forall i | 0 <= i < |values| - 1 :: values[i] == 0.0
    ensures Sum(values) == values[|values| - 1]
  {
    SumConst(values[..|values| - 1], 0.0);
  }

  predicate Flat(values: seq<real>) {
    forall i | 0 <= i < |values| :: values[i] == 100.0
  }

  /** Flat at 100, and then one step away from it. */
  predicate Moved(values: seq<real>, step: real) {
    |values| == MIN_HISTORY && Flat(values[..49]) && values[49] == 100.0 + step
  }

  lemma {:induction false} EmaFlat(values: seq<real>, period: nat)
    requires 0 < period <= |values| && Flat(values)
    ensures Ema(values, period) == 100.0
  {
    if |values| == period {
      SumConst(values, 100.0);
    } else {
      EmaFlat(values[..|values| - 1], period);
    }
  }

  lemma Blend(step: real, alpha: real)
    ensures (100.0 + step) * alpha + 100.0 * (1.0 - alpha) == 100.0 + step * alpha
  {
  }

  lemma EmaMoved(values: seq<real>, step: real, period: nat)
    requires 0 < period < 50 && Moved(values, step)
    ensures Ema(values, period) == 100.0 + step * (2.0 / (period + 1) as real)
  {
    EmaFlat(values[..49], period);
    Blend(step, 2.0 / (period + 1) as real);
  }

  lemma SlowEmaMoved(values: seq<real>, step: real)
    requires Moved(values, step)
    ensures Ema(values, 50) == 100.0 + step / 50.0
  {
    SumConst(values[..49], 100.0);
  }

  lemma LineFlat(values: seq<real>, step: real, n: nat)
    requires Moved(values, step) && 26 <= n < 50
    ensures MacdLine(values[..n]) == 0.0
  {
    assert Flat(values[..n]) by {
      assert forall i | 0 <= i < n :: values[..n][i] == values[..49][i];
    }
    EmaFlat(values[..n], 12);
    EmaFlat(values[..n], 26);
  }

  lemma LineMoved(values: seq<real>, step: real)
    requires Moved(values, step)
    ensures MacdLine(values) == step * (2.0 / 13.0) - step * (2.0 / 27.0)
  {
    EmaMoved(values, step, 12);
    EmaMoved(values, step, 26);
    hide Ema, Moved;
  }

  lemma HistogramMoved(values: seq<real>, step: real)
    requires Moved(values, step)
    ensures step > 0.0 ==> MacdHistogram(values) > 0.0
    ensures step < 0.0 ==> MacdHistogram(values) < 0.0
  {
    var lines := seq(9, i requires 0 <= i < 9 => MacdLine(values[..|values| - 8 + i]));
    forall i | 0 <= i < 8 ensures lines[i] == 0.0 {
      LineFlat(values, step, 42 + i);
    }
    assert values[..|values| - 8 + 8] == values;
    SumLast(lines);
    LineMoved(values, step);
    hide MacdLine, Sum;
  }

  lemma RsiMoved(values: seq<real>, step: real)
    requires Moved(values, step)
    ensures step > 0.0 ==> Rsi(values) == 100.0
    ensures step < 0.0 ==> Rsi(values) == 0.0
  {
    var gains, losses := Moves(values, 1.0), Moves(values, -1.0);
    assert forall i | 0 <= i < 49 :: values[i] == 100.0 by {
      assert forall i | 0 <= i < 49 :: values[i] == values[..49][i];
    }
    assert forall i | 0 <= i < 14 :: gains[i] == Move(values, 35 + i, 1.0) && losses[i] == Move(values, 35 + i, -1.0);
    assert forall i | 0 <= i < 13 :: gains[i] == 0.0 && losses[i] == 0.0;
    SumLast(gains);
    SumLast(losses);
    assert gains[13] == Max(step, 0.0) && losses[13] == Max(-step, 0.0);
    hide Sum, Moves;
  }

  // ---------------------------------------------------------------- sessions of one move

  /** Five minutes, the shortest of the intervals, and a start on its grid. */
  const INTERVAL := 300000
  const OPENING := 1000000200000

  function MoveClose(i: nat, step: real): real {
    if i < 49 then 100.0 else if i == 49 then 100.0 + step else 100.0 + step + step
  }

  /** The i-th of fifty-one candles of one range that close at 100, and from the fiftieth on `step` further each. */
  function MoveCandle(i: nat, step: real, low: real, high: real): Candle {
    Candle(OPENING + i * INTERVAL, 100.0, high, low, MoveClose(i, step), 0.0)
  }

  function MoveCandles(n: nat, step: real, low: real, high: real): (r: seq<Candle>)
    ensures |r| == n && forall i | 0 <= i < n :: r[i] == MoveCandle(i, step, low, high)
  {
    seq(n, i requires 0 <= i < n => MoveCandle(i, step, low, high))
  }

  lemma MovePrefix(n: nat, m: nat, step: real, low: real, high: real)
    requires n <= m
    ensures MoveCandles(m, step, low, high)[..n] == MoveCandles(n, step, low, high)
  {
  }

  lemma AtrMoved(candles: seq<Candle>, step: real, low: real, high: real)
    requires low <= 100.0 <= high && candles == MoveCandles(50, step, low, high)
    ensures Atr(candles) == high - low
  {
    var rows := candles[35..];
    var ranges := seq(14, i requires 0 <= i < 14 => TrueRange(rows[i + 1], rows[i].close));
    assert forall i | 0 <= i < 15 :: rows[i] == MoveCandle(35 + i, step, low, high);
    assert forall i | 0 <= i < 14 :: ranges[i] == high - low;
    SumConst(ranges, high - low);
    hide Sum;
  }

  function MoveSide(step: real): Side {
    if step > 0.0 then Buy else Sell
  }

  /** Three of four votes go with the move, and none against it. */
  lemma MoveVotes(step: real, histogram: real, rsi: real)
    requires step != 0.0
    requires if step > 0.0 then histogram > 0.0 && rsi == 100.0 else histogram < 0.0 && rsi == 0.0
    ensures LongScore(100.0 + step, 100.0 + step * (2.0 / 21.0), 100.0 + step / 50.0, histogram, rsi) == if step > 0.0 then 3 else 0
    ensures ShortScore(100.0 + step, 100.0 + step * (2.0 / 21.0), 100.0 + step / 50.0, histogram, rsi) == if step > 0.0 then 0 else 3
  {
  }

  lemma MoveIndicators(candles: seq<Candle>, step: real, low: real, high: real)
    requires low <= 100.0 <= high && step != 0.0 && candles == MoveCandles(50, step, low, high)
    ensures var closes := Closes(candles);
            && Ema(closes, 20) == 100.0 + step * (2.0 / 21.0) && Ema(closes, 50) == 100.0 + step / 50.0
            && (if step > 0.0 then MacdHistogram(closes) > 0.0 else MacdHistogram(closes) < 0.0)
            && Rsi(closes) == (if step > 0.0 then 100.0 else 0.0)
            && Atr(candles) == high - low && closes[49] == 100.0 + step
  {
    var closes := Closes(candles);
    assert Moved(closes, step);
    EmaMoved(closes, step, 20);
    SlowEmaMoved(closes, step);
    HistogramMoved(closes, step);
    RsiMoved(closes, step);
    AtrMoved(candles, step, low, high);
    hide Moved, Ema, Rsi, Atr, MacdHistogram;
  }

  /** The planner follows the move. */
  lemma MoveIsFollowed(step: real, low: real, high: real)
    requires low <= 100.0 <= high && low < high && step != 0.0
    ensures Evaluate(MoveCandles(50, step, low, high)) ==
              Verdict(true, true, Enter(MoveSide(step)), Some(PlanAt(100.0 + step, MoveSide(step), high - low, 0.75)))
  {
    var candles := MoveCandles(50, step, low, high);
    MoveIndicators(candles, step, low, high);
    MoveVotes(step, MacdHistogram(Closes(candles)), Rsi(Closes(candles)));
    hide MoveCandles, Ema, Rsi, Atr, MacdHistogram, LongScore, ShortScore, PlanAt;
  }

  /** A session over these candles under the program's own planner, without fees and leverage. */
  function MoveSession(initial: real, step: real, low: real, high: real): Config {
    Config(OPENING, OPENING + 50 * INTERVAL, INTERVAL, initial, 0.0, 1.0, MoveCandles(51, step, low, high), Evaluate)
  }

  predicate InRange(step: real, low: real, high: real) {
    && 0.0 < low <= 100.0 <= high && low < high && step != 0.0
    && low <= 100.0 + step <= high && low <= 100.0 + step + step <= high
  }

  lemma MoveOnInterval(i: nat)
    ensures (OPENING + i * INTERVAL - OPENING) % INTERVAL == 0
  {
  }

  lemma MoveCandleOk(i: nat, step: real, low: real, high: real)
    requires InRange(step, low, high) && i <= 50
    ensures var c := MoveCandle(i, step, low, high);
            CandleOk(c) && OPENING <= c.openTime <= OPENING + 50 * INTERVAL && (c.openTime - OPENING) % INTERVAL == 0
  {
    MoveOnInterval(i);
  }

  lemma MoveIsValid(initial: real, step: real, low: real, high: real)
    requires initial > 0.0 && InRange(step, low, high)
    ensures var cfg := MoveSession(initial, step, low, high);
            && cfg.Valid() && cfg.ExecutionBounds() && |cfg.snapshot| == cfg.Total() == 51
            && OPENING % INTERVAL == 0 && OPENING >= 1000000000000
  {
    var cfg := MoveSession(initial, step, low, high);
    hide CandleOk, InRange, Evaluate;
    forall c <- cfg.snapshot ensures CandleOk(c) && cfg.start <= c.openTime <= cfg.end && (c.openTime - cfg.start) % cfg.interval == 0 {
      var i :| 0 <= i < 51 && c == cfg.snapshot[i];
      MoveCandleOk(i, step, low, high);
    }
  }

  lemma TooShort(prefix: seq<Candle>)
    requires |prefix| < 50
    ensures Evaluate(prefix) == Verdict(false, false, Wait, None)
  {
  }

  /** Nothing happens before the planner has its history. */
  lemma MoveQuiet(initial: real, step: real, low: real, high: real)
    ensures var cfg := MoveSession(initial, step, low, high);
            Replay(cfg, 49).Ok? && Replay(cfg, 49).value.0 == Account(initial, Trunc(initial) as real, [])
  {
    var cfg := MoveSession(initial, step, low, high);
    forall i | 0 <= i < 49 ensures !PureDecision(cfg, i).verdict.eligible {
      TooShort(cfg.snapshot[..i + 1]);
    }
    hide Evaluate, Replay;
    NothingEligible(cfg, 49);
  }

  // ---------------------------------------------------------------- a plan that raises

  /** Down to 94 on an average range of 199, which puts the target of the short 597 below. */
  function DropSession(): Config {
    MoveSession(100000000000.0, -6.0, 1.0, 200.0)
  }

  /** A session whose fiftieth candle the execution raises on: the plan the program itself makes for it puts the
  target of a short below zero. */
  lemma ShortTargetBelowZero()
    ensures var cfg := DropSession();
            && cfg.Valid() && cfg.ExecutionBounds() && |cfg.snapshot| == cfg.Total() == 51
            && Replay(cfg, 49).Ok? && FailsAt(cfg, 49)
  {
    var cfg := DropSession();
    MoveIsValid(100000000000.0, -6.0, 1.0, 200.0);
    MoveQuiet(100000000000.0, -6.0, 1.0, 200.0);
    DropFails(Replay(cfg, 49).value.0);
    hide *;
  }

  lemma DropRaises()
    ensures var v := Evaluate(MoveCandles(50, -6.0, 1.0, 200.0)); v.eligible && PlanRaises(94.0, v)
  {
    MoveIsFollowed(-6.0, 1.0, 200.0);
    hide Evaluate;
  }

  lemma DropFails(a: Account)
    requires a.balance > 0.0 && a.equity > 0.0 && a.trades == []
    ensures var cfg := DropSession();
            && cfg.snapshot[49].close > 0.0
            && CandleFails(cfg, a, cfg.snapshot[49], cfg.evaluate(cfg.snapshot[..50]), false)
  {
    MovePrefix(50, 51, -6.0, 1.0, 200.0);
    DropRaises();
    hide Evaluate, Replay, PlanRaises;
    assert LoadOpen(a.trades) == None;
  }
}

/** Exact money arithmetic of the simulated execution.

Money and quantities are counted in units of 1e-8, the quantum of the simulation, so a quantized amount is
an integer.  Prices are exact rationals in quote currency per coin; price times quantity is therefore
already an amount in money units. */
module ReplayMoney {

  datatype Side = Buy | Sell

  const GRID: real := 100000000.0
  const BPS_DIVISOR: real := 10000.0

  /** ROUND_DOWN: drop the fraction, toward zero. */
  function Trunc(x: real): (t: int)
    ensures x >= 0.0 ==> 0 <= t && t as real <= x < t as real + 1.0
    ensures x <= 0.0 ==> t <= 0 && t as real - 1.0 < x <= t as real
  {
    if x >= 0.0 then x.Floor else -((-x).Floor)
  }

  /** A price cut to eight decimals. */
  function QuantizePrice(p: real): real {
    Trunc(p * GRID) as real / GRID
  }

  function Fee(price: real, quantity: int, feeBps: real): int {
    Trunc(price * quantity as real * feeBps / BPS_DIVISOR)
  }

  function Direction(side: Side): real {
    if side == Buy then 1.0 else -1.0
  }

  function GrossPnl(side: Side, entry: real, exit: real, quantity: int): int {
    Trunc((exit - entry) * quantity as real * Direction(side))
  }

  function MaxInt(a: int, b: int): int {
    if a >= b then a else b
  }

  function MinInt(a: int, b: int): int {
    if a <= b then a else b
  }

  function Abs(x: real): real {
    if x >= 0.0 then x else -x
  }

  datatype Liability = Liability(applied: int, adjustment: int, limited: bool)

  /** The account can lose no more than it holds; what is cut off is reported as the adjustment. */
  function LimitedLiability(rawDelta: int, available: real): Liability {
    var cap := MaxInt(0, Trunc(available));
    var applied := MaxInt(rawDelta, -cap);
    Liability(applied, applied - rawDelta, applied - rawDelta > 0)
  }

  lemma QuantizePriceNear(p: real)
    requires p >= 0.0
    ensures 0.0 <= QuantizePrice(p) <= p < QuantizePrice(p) + 1.0 / GRID
  {
    var t := Trunc(p * GRID);
    assert t as real <= p * GRID < t as real + 1.0;
    assert p * GRID / GRID == p;
  }

  lemma FeeNonnegative(price: real, quantity: int, feeBps: real)
    requires price >= 0.0 && quantity >= 0 && feeBps >= 0.0
    ensures Fee(price, quantity, feeBps) >= 0
  {
    var n := price * quantity as real;
    assert n >= 0.0;
    assert n * feeBps >= 0.0;
  }

  /** A fee is the exact one, less than a unit cut off. */
  predicate IsFeeOn(fee: int, price: real, quantity: int, feeBps: real) {
    var exact := price * quantity as real * feeBps / 10000.0;
    exact - 1.0 < fee as real <= exact
  }

  lemma FeeIsExact(price: real, quantity: int, feeBps: real)
    requires price >= 0.0 && quantity >= 0 && feeBps >= 0.0
    ensures IsFeeOn(Fee(price, quantity, feeBps), price, quantity, feeBps)
  {
    hide Trunc;
    var n := price * quantity as real;
    assert n >= 0.0 && n * feeBps >= 0.0;
  }

  lemma TruncSub(x: real, k: int)
    requires 0.0 <= k as real <= x
    ensures Trunc(x - k as real) == Trunc(x) - k
  {
  }

  /** Cutting both prices to the grid can widen the distance between them by less than one grid step. */
  lemma QuantizedDistance(a: real, b: real)
    requires a >= 0.0 && b >= 0.0
    ensures Abs(QuantizePrice(a) - QuantizePrice(b)) < Abs(a - b) + 1.0 / GRID
  {
    QuantizePriceNear(a);
    QuantizePriceNear(b);
  }

  lemma ScaleLe(x: real, y: real, q: real)
    requires x <= y && q >= 0.0
    ensures x * q <= y * q
  {
  }

  lemma GapWithinRisk(gap: real, dist: real, step: real, q: real, risk: real)
    requires gap <= dist + step && q >= 0.0 && q * dist <= risk
    ensures gap * q <= risk + step * q
  {
    ScaleLe(gap, dist + step, q);
    assert (dist + step) * q == q * dist + step * q;
  }

  lemma QuotientTimes(risk: real, dist: real, q: real)
    requires dist > 0.0 && q <= risk / dist
    ensures q * dist <= risk
  {
    ScaleLe(q, risk / dist, dist);
  }

  /** A signed move of at most `gap` over `q` coins gives at least -gap * q. */
  lemma MoveBound(move: real, gap: real, q: real, side: Side)
    requires -gap <= move <= gap && q >= 0.0
    ensures move * q * Direction(side) >= -(gap * q)
  {
    ScaleLe(-gap, move, q);
    ScaleLe(move, gap, q);
    assert (-gap) * q == -(gap * q);
  }

  /** A move between two prices over q coins comes to at most the limit. */
  predicate MoveWithin(entry: real, exit: real, q: real, limit: real) {
    Abs(exit - entry) * q <= limit && limit >= 0.0
  }

  lemma LossOfMove(side: Side, entry: real, exit: real, quantity: int, limit: real)
    requires quantity >= 0 && MoveWithin(entry, exit, quantity as real, limit)
    ensures GrossPnl(side, entry, exit, quantity) as real >= -limit
  {
    MoveBound(exit - entry, Abs(exit - entry), quantity as real, side);
  }

  lemma GapBound(gap: real, dist: real, step: real, q: real, risk: real)
    requires gap <= dist + step && dist > 0.0 && q > 0.0 && step >= 0.0 && q <= risk / dist
    ensures gap * q <= risk + step * q && risk + step * q >= 0.0
  {
    QuotientTimes(risk, dist, q);
    assert q * dist >= 0.0 && step * q >= 0.0;
    GapWithinRisk(gap, dist, step, q, risk);
  }

  lemma GapNear(entry: real, stop: real)
    requires entry > 0.0 && stop > 0.0 && entry != stop
    ensures Abs(QuantizePrice(stop) - QuantizePrice(entry)) <= Abs(entry - stop) + 1.0 / GRID && Abs(entry - stop) > 0.0
  {
    QuantizedDistance(stop, entry);
    hide QuantizePrice;
  }

  /** What the quantity can lose between the grid prices. */
  lemma SizedMove(entry: real, stop: real, risk: real, q: real)
    requires entry > 0.0 && stop > 0.0 && entry != stop
    requires q > 0.0 && q <= risk / Abs(entry - stop)
    ensures MoveWithin(QuantizePrice(entry), QuantizePrice(stop), q, risk + q / GRID)
  {
    hide Abs, QuantizePrice;
    GapNear(entry, stop);
    GapBound(Abs(QuantizePrice(stop) - QuantizePrice(entry)), Abs(entry - stop), 1.0 / GRID, q, risk);
  }

  /** The loss between two grid prices, truncated, stays within the risk that sized the quantity, plus one
  grid step per coin. */
  lemma SizedLossBound(entry: real, stop: real, risk: int, quantity: int, side: Side)
    requires entry > 0.0 && stop > 0.0 && entry != stop
    requires quantity > 0 && quantity as real <= risk as real / Abs(entry - stop)
    ensures GrossPnl(side, QuantizePrice(entry), QuantizePrice(stop), quantity) as real
            >= -(risk as real + quantity as real / GRID)
  {
    SizedMove(entry, stop, risk as real, quantity as real);
    hide QuantizePrice, GrossPnl, Abs, MoveWithin;
    LossOfMove(side, QuantizePrice(entry), QuantizePrice(stop), quantity, risk as real + quantity as real / GRID);
  }
}

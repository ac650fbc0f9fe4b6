/** The analytics of a finished replay: the streaming drawdown against its brute-force meaning, and the sampling of
the equity curve. */
module ReplayPerformance {
  import opened Arithmetic
  import opened Common

  // ---------------------------------------------------------------- drawdown

  datatype Point = Point(time: Option<int>, equity: real)

  /** The highest equity up to index j. */
  function Peak(points: seq<Point>, j: nat): real
    requires j < |points|
  {
    if j == 0 then points[0].equity
    else if points[j].equity > Peak(points, j - 1) then points[j].equity
    else Peak(points, j - 1)
  }

  function Drop(points: seq<Point>, j: nat): real
    requires j < |points|
  {
    Peak(points, j) - points[j].equity
  }

  function Percent(amount: real, peak: real): real {
    if peak > 0.0 then amount * 100.0 / peak else 0.0
  }

  function DropPct(points: seq<Point>, j: nat): real
    requires j < |points|
  {
    Percent(Drop(points, j), Peak(points, j))
  }

  /** The peak is attained, and nothing before is higher. */
  lemma {:induction false} PeakIsHighest(points: seq<Point>, j: nat) returns (i: nat)
    requires j < |points|
    ensures i <= j && points[i].equity == Peak(points, j)
    ensures forall k | 0 <= k <= j :: points[k].equity <= Peak(points, j)
  {
    if j == 0 {
      i := 0;
    } else {
      i := PeakIsHighest(points, j - 1);
      if points[j].equity > Peak(points, j - 1) { i := j; }
    }
  }

  datatype Drawdown = Drawdown(peak: real, current: real, peakTime: Option<int>, maxAmount: real, maxPct: real,
                               maxPeakTime: Option<int>, maxTroughTime: Option<int>)

  /** Point q is where the recorded maximum was reached, and p where its peak stood. */
  predicate RecordedAt(d: Drawdown, points: seq<Point>, p: nat, q: nat)
    requires p <= q < |points|
  {
    && d.maxAmount == Drop(points, q) && d.maxPct == DropPct(points, q) && d.maxTroughTime == points[q].time
    && points[p].equity == Peak(points, q) && d.maxPeakTime == points[p].time
    && forall k | 0 <= k < p :: points[k].equity < points[p].equity
  }

  /** A drop that is smaller, or as large with a smaller percentage. */
  predicate Smaller(d: Drawdown, points: seq<Point>, j: nat)
    requires j < |points|
  {
    Drop(points, j) < d.maxAmount || (Drop(points, j) == d.maxAmount && DropPct(points, j) < d.maxPct)
  }

  /** No drop is larger, and none as large has a larger percentage. */
  predicate Bounds(d: Drawdown, points: seq<Point>, j: nat)
    requires j < |points|
  {
    Drop(points, j) < d.maxAmount || (Drop(points, j) == d.maxAmount && DropPct(points, j) <= d.maxPct)
  }

  method AdvanceDrawdown(d: Drawdown, equity: real, time: Option<int>) returns (r: Drawdown)
    ensures var peak := if equity > d.peak then equity else d.peak;
            var amount, pct := peak - equity, Percent(peak - equity, peak);
            && r.peak == peak && r.current == equity && r.peakTime == (if equity > d.peak then time else d.peakTime)
            && if amount > d.maxAmount || (amount == d.maxAmount && pct > d.maxPct)
               then r.maxAmount == amount && r.maxPct == pct && r.maxPeakTime == r.peakTime && r.maxTroughTime == time
               else r.maxAmount == d.maxAmount && r.maxPct == d.maxPct && r.maxPeakTime == d.maxPeakTime && r.maxTroughTime == d.maxTroughTime
  {
    r := d.(current := equity);
    if equity > r.peak {
      r := r.(peak := equity, peakTime := time);
    }
    var amount := r.peak - equity;
    var pct := Percent(amount, r.peak);
    if amount > r.maxAmount || (amount == r.maxAmount && pct > r.maxPct) {
      r := r.(maxAmount := amount, maxPct := pct, maxPeakTime := r.peakTime, maxTroughTime := time);
    }
  }

  /** The streaming drawdown over the initial equity and every mark: the maximum is one of the drops, no drop is
  larger, and its percentage is the largest among the points that attain it; its time is that of the first point that
  attains both, and the time of its peak that of the first point as high. */
  method CalculateDrawdown(initial: Point, marks: seq<Point>) returns (d: Drawdown)
    ensures var points := [initial] + marks;
            && (exists p: nat, q: nat :: p <= q < |points| && RecordedAt(d, points, p, q)
                                         && forall j | 0 <= j < q :: Smaller(d, points, j))
            && (forall j | 0 <= j < |points| :: Bounds(d, points, j))
            && d.peak == Peak(points, |marks|) && d.current == points[|marks|].equity
  {
    var points := [initial] + marks;
    d := Drawdown(initial.equity, initial.equity, initial.time, 0.0, 0.0, initial.time, initial.time);
    ghost var p: nat, q: nat, top: nat := 0, 0, 0;
    for i := 0 to |marks|
      invariant p <= q <= i && RecordedAt(d, points, p, q)
      invariant forall j | 0 <= j <= i :: Bounds(d, points, j)
      invariant forall j | 0 <= j < q :: Smaller(d, points, j)
      invariant top <= i && points[top].equity == d.peak == Peak(points, i) && points[top].time == d.peakTime
      invariant forall k | 0 <= k < top :: points[k].equity < points[top].equity
      invariant d.current == points[i].equity
    {
      ghost var before := d;
      if marks[i].equity > d.peak {
        var _ := PeakIsHighest(points, i);
        top := i + 1;
      }
      d := AdvanceDrawdown(d, marks[i].equity, marks[i].time);
      assert points[i + 1] == marks[i];
      if d.maxAmount != before.maxAmount || d.maxPct != before.maxPct {
        p, q := top, i + 1;
      }
      BoundsGrow(before, d, points, i);
      SmallerAgain(before, d, points);
    }
    assert RecordedAt(d, points, p, q);
  }

  lemma BoundsGrow(d: Drawdown, d': Drawdown, points: seq<Point>, i: nat)
    requires i + 1 < |points| && forall j | 0 <= j <= i :: Bounds(d, points, j)
    requires d.maxAmount < d'.maxAmount || (d.maxAmount == d'.maxAmount && d.maxPct <= d'.maxPct)
    ensures forall j | 0 <= j <= i :: Bounds(d', points, j)
    ensures d.maxAmount < d'.maxAmount || d.maxPct < d'.maxPct ==> forall j | 0 <= j <= i :: Smaller(d', points, j)
  {
    hide Drop, DropPct;
    forall j | 0 <= j <= i
      ensures Bounds(d', points, j)
      ensures d.maxAmount < d'.maxAmount || d.maxPct < d'.maxPct ==> Smaller(d', points, j)
    {
      assert Bounds(d, points, j);
    }
  }

  lemma SmallerAgain(d: Drawdown, d': Drawdown, points: seq<Point>)
    ensures d.maxAmount == d'.maxAmount && d.maxPct == d'.maxPct ==>
              forall j | 0 <= j < |points| :: Smaller(d, points, j) ==> Smaller(d', points, j)
  {
    hide Drop, DropPct;
  }

  /** What the recorded maximum is by brute force: the largest fall from any point to a later one. */
  lemma MaximumIsLargestFall(d: Drawdown, points: seq<Point>, p: nat, q: nat)
    requires p <= q < |points| && RecordedAt(d, points, p, q)
    requires forall j | 0 <= j < |points| :: Bounds(d, points, j)
    ensures points[p].equity - points[q].equity == d.maxAmount
    ensures d.maxPct == if points[p].equity > 0.0 then d.maxAmount * 100.0 / points[p].equity else 0.0
    ensures forall i, j | 0 <= i <= j < |points| :: points[i].equity - points[j].equity <= d.maxAmount
  {
    forall i, j | 0 <= i <= j < |points| ensures points[i].equity - points[j].equity <= d.maxAmount {
      var top := PeakIsHighest(points, j);
      assert Bounds(d, points, j);
    }
  }

  /** On an account that started with money and never went below zero, no drawdown exceeds 100 percent. */
  lemma PercentWithinHundred(points: seq<Point>, j: nat)
    requires j < |points| && points[0].equity > 0.0 && forall k | 0 <= k < |points| :: points[k].equity >= 0.0
    ensures 0.0 <= DropPct(points, j) <= 100.0
  {
    var i := PeakIsHighest(points, j);
    var peak, amount := Peak(points, j), Drop(points, j);
    assert points[0].equity <= peak && points[j].equity <= peak;
    hide Peak, Drop;
    assert 0.0 <= amount <= peak;
    ShareOf(amount, peak);
  }

  lemma ShareOf(amount: real, peak: real)
    requires 0.0 <= amount <= peak && peak > 0.0
    ensures 0.0 <= amount * 100.0 / peak <= 100.0
  {
    var x := amount * 100.0 / peak;
    assert x * peak == amount * 100.0;
  }

  // ---------------------------------------------------------------- sampling indexes

  function SampleAt(i: int, count: int, limit: int): int
    requires limit >= 2
  {
    i * (count - 1) / (limit - 1)
  }

  function Range(n: nat): (r: set<int>)
    ensures |r| == n && forall i :: i in r <==> 0 <= i < n
  {
    if n == 0 then {} else Range(n - 1) + {n - 1}
  }

  /** equity_sample_indexes */
  function SampleIndexes(count: nat, limit: nat): set<int>
    requires limit >= 2
  {
    if count <= limit then Range(count) else set i | 0 <= i < limit :: SampleAt(i, count, limit)
  }

  /** The largest gap between samples: the ceiling of (count - 1) / (limit - 1). */
  function Stride(count: nat, limit: nat): int
    requires limit >= 2
  {
    if count > limit then -(-(count - 1) / (limit - 1)) else 1
  }

  lemma DivAddWhole(x: int, k: int)
    requires k > 0
    ensures (x + k) / k == x / k + 1
  {
    assert x + k == x - (-1) * k;
    DivShift(x, -1, k);
  }

  lemma CeilAtLeast(x: int, k: int)
    requires k > 0
    ensures -(-x / k) * k >= x
  {
    var q := -x / k;
    assert -x == q * k + -x % k;
  }

  lemma QuotientBounds(x: int, k: int)
    requires k > 0
    ensures x / k * k <= x < (x / k + 1) * k
  {
    assert x == x / k * k + x % k;
    MulDistrib(x / k, 1, k);
  }

  lemma NegatedProduct(q: int, k: int)
    ensures (-q) * k == -(q * k) && (-q - 1) * k == -((q + 1) * k)
  {
  }

  /** The i-th sample is the share i / (limit - 1) of the way to the last mark, rounded down; the stride is the length of
  that share, rounded up. */
  lemma SamplesAreShares(i: nat, count: nat, limit: nat)
    requires 2 <= limit < count
    ensures SampleAt(i, count, limit) * (limit - 1) <= i * (count - 1) < (SampleAt(i, count, limit) + 1) * (limit - 1)
    ensures (Stride(count, limit) - 1) * (limit - 1) < count - 1 <= Stride(count, limit) * (limit - 1)
  {
    SampleIs(i, count, limit);
    StrideIs(count, limit);
    hide SampleAt, Stride;
  }

  lemma SampleIs(i: nat, count: nat, limit: nat)
    requires 2 <= limit < count
    ensures SampleAt(i, count, limit) * (limit - 1) <= i * (count - 1) < (SampleAt(i, count, limit) + 1) * (limit - 1)
  {
    QuotientBounds(i * (count - 1), limit - 1);
  }

  lemma StrideIs(count: nat, limit: nat)
    requires 2 <= limit < count
    ensures (Stride(count, limit) - 1) * (limit - 1) < count - 1 <= Stride(count, limit) * (limit - 1)
  {
    var q := -(count - 1) / (limit - 1);
    QuotientBounds(-(count - 1), limit - 1);
    NegatedProduct(q, limit - 1);
    assert Stride(count, limit) == -q;
    hide Stride;
  }

  /** Neighbouring samples lie at least one and at most a stride apart. */
  lemma SampleGap(i: nat, count: nat, limit: nat)
    requires 2 <= limit < count
    ensures SampleAt(i, count, limit) + 1 <= SampleAt(i + 1, count, limit) <= SampleAt(i, count, limit) + Stride(count, limit)
  {
    var c, k := count - 1, limit - 1;
    var x := i * c;
    assert (i + 1) * c == x + c by { MulDistrib(i, 1, c); }
    DivAddWhole(x, k);
    DivMonotone(x + k, x + c, k);
    var stride := Stride(count, limit);
    CeilAtLeast(c, k);
    DivMonotone(x + c, x + stride * k, k);
    assert x + stride * k == x - (-stride) * k;
    DivShift(x, -stride, k);
  }

  lemma {:induction false} SamplesIncrease(i: nat, j: nat, count: nat, limit: nat)
    requires 2 <= limit < count && i < j
    ensures SampleAt(i, count, limit) < SampleAt(j, count, limit)
    decreases j
  {
    hide SampleAt, Stride;
    SampleGap(j - 1, count, limit);
    if i < j - 1 {
      SamplesIncrease(i, j - 1, count, limit);
    }
  }

  lemma SampleEnds(count: nat, limit: nat)
    requires 2 <= limit < count
    ensures SampleAt(0, count, limit) == 0 && SampleAt(limit - 1, count, limit) == count - 1
  {
    DivUnique(0, limit - 1, 0, 0);
    DivUnique((limit - 1) * (count - 1), limit - 1, count - 1, 0);
  }

  /** The first n samples are n different indexes. */
  lemma {:induction false} SamplesDiffer(n: nat, count: nat, limit: nat)
    requires 2 <= limit < count && n <= limit
    ensures |set i | 0 <= i < n :: SampleAt(i, count, limit)| == n
  {
    hide SampleAt;
    var s := set i | 0 <= i < n :: SampleAt(i, count, limit);
    if n == 0 {
      assert s == {};
    } else {
      SamplesDiffer(n - 1, count, limit);
      var rest := set i | 0 <= i < n - 1 :: SampleAt(i, count, limit);
      forall i | 0 <= i < n - 1 ensures SampleAt(i, count, limit) != SampleAt(n - 1, count, limit) {
        SamplesIncrease(i, n - 1, count, limit);
      }
      assert s == rest + {SampleAt(n - 1, count, limit)};
    }
  }

  /** Exactly min(count, limit) different indexes of the curve, its first and last among them; all of them, at stride one,
  if the limit allows. */
  lemma SamplesCoverTheCurve(count: nat, limit: nat)
    requires limit >= 2
    ensures var s := SampleIndexes(count, limit);
            && |s| == (if count <= limit then count else limit)
            && (forall i <- s :: 0 <= i < count)
            && (count > 0 ==> 0 in s && count - 1 in s)
    ensures count <= limit ==> Stride(count, limit) == 1 && forall i | 0 <= i < count :: i in SampleIndexes(count, limit)
  {
    if count > limit {
      SamplesDiffer(limit, count, limit);
      SampleEnds(count, limit);
      hide SampleAt;
      assert SampleAt(0, count, limit) in SampleIndexes(count, limit) && SampleAt(limit - 1, count, limit) in SampleIndexes(count, limit);
      forall x | x in SampleIndexes(count, limit) ensures 0 <= x < count {
        var i :| 0 <= i < limit && x == SampleAt(i, count, limit);
        if i > 0 { SamplesIncrease(0, i, count, limit); }
        if i < limit - 1 { SamplesIncrease(i, limit - 1, count, limit); }
      }
    }
  }

  // ---------------------------------------------------------------- the sampled curve

  /** A stored mark; a malformed one has no equity. */
  datatype Mark = Mark(sequenceNo: int, equity: Option<real>)

  predicate Increasing(marks: seq<Mark>) {
    forall i, j | 0 <= i < j < |marks| :: marks[i].sequenceNo < marks[j].sequenceNo
  }

  /** The sampled indexes whose marks are valid, in order. */
  function PickedAt(marks: seq<Mark>, indexes: set<int>, n: nat): (r: seq<int>)
    requires n <= |marks|
    ensures forall i | 0 <= i < |r| :: 0 <= r[i] < n && r[i] in indexes && marks[r[i]].equity.Some?
    ensures forall i, j | 0 <= i < j < |r| :: r[i] < r[j]
    ensures forall i | 0 <= i < n && i in indexes && marks[i].equity.Some? :: i in r
  {
    if n == 0 then []
    else PickedAt(marks, indexes, n - 1) + if marks[n - 1].equity.Some? && n - 1 in indexes then [n - 1] else []
  }

  function MarksAt(marks: seq<Mark>, at: seq<int>): (r: seq<Mark>)
    requires forall i | 0 <= i < |at| :: 0 <= at[i] < |marks|
    ensures |r| == |at|
  {
    seq(|at|, i requires 0 <= i < |at| => marks[at[i]])
  }

  /** The index of the last valid mark. */
  function LastValid(marks: seq<Mark>, n: nat): (r: Option<nat>)
    requires n <= |marks|
    ensures r.None? ==> forall i | 0 <= i < n :: marks[i].equity.None?
    ensures r.Some? ==> r.value < n && marks[r.value].equity.Some? && forall i | r.value < i < n :: marks[i].equity.None?
  {
    if n == 0 then None
    else if marks[n - 1].equity.Some? then Some(n - 1)
    else LastValid(marks, n - 1)
  }

  /** Strictly increasing indexes out of a set are no more than the set has, and all of it if none is missing. */
  lemma {:induction false} IndexCount(at: seq<int>, indexes: set<int>)
    requires forall i, j | 0 <= i < j < |at| :: at[i] < at[j]
    requires forall i | 0 <= i < |at| :: at[i] in indexes
    ensures |at| <= |indexes|
    ensures (forall x <- indexes :: x in at) ==> |at| == |indexes|
    decreases |at|
  {
    if at != [] {
      var n := |at| - 1;
      var front := at[..n];
      assert at[n] !in front;
      assert at == front + [at[n]];
      IndexCount(front, indexes - {at[n]});
    } else if forall x <- indexes :: x in at {
      assert indexes == {};
    }
  }

  /** The loop over the marks, and the last valid mark put at the end of the curve. */
  method SampleCurve(marks: seq<Mark>, limit: nat) returns (sampled: seq<Mark>)
    requires limit >= 2
    ensures sampled == Curve(marks, limit)
  {
    var indexes := SampleIndexes(|marks|, limit);
    hide SampleIndexes, MarksAt;
    sampled := [];
    var last: Option<nat> := None;
    NoMarks(marks);
    for i := 0 to |marks|
      invariant sampled == MarksAt(marks, PickedAt(marks, indexes, i)) && last == LastValid(marks, i)
    {
      if marks[i].equity.Some? {
        last := Some(i);
        if i in indexes {
          MarksNext(marks, PickedAt(marks, indexes, i), i);
          sampled := sampled + [marks[i]];
        }
      }
      assert PickedAt(marks, indexes, i) + [] == PickedAt(marks, indexes, i);
    }
    hide PickedAt, LastValid, EndWith;
    if last.Some? {
      sampled := CloseCurve(sampled, marks[last.value], limit);
    }
  }

  method CloseCurve(curve: seq<Mark>, last: Mark, limit: nat) returns (closed: seq<Mark>)
    requires limit >= 2
    ensures closed == EndWith(curve, last, limit)
  {
    closed := curve;
    if closed == [] {
      closed := [last];
    } else if closed[|closed| - 1].sequenceNo != last.sequenceNo {
      if |closed| >= limit {
        closed := closed[..|closed| - 1] + [last];
      } else {
        closed := closed + [last];
      }
    }
  }

  lemma NoMarks(marks: seq<Mark>)
    ensures MarksAt(marks, []) == []
  {
  }

  lemma MarksNext(marks: seq<Mark>, at: seq<int>, i: nat)
    requires i < |marks| && forall k | 0 <= k < |at| :: 0 <= at[k] < |marks|
    ensures MarksAt(marks, at + [i]) == MarksAt(marks, at) + [marks[i]]
  {
  }

  function EndWith(sampled: seq<Mark>, last: Mark, limit: nat): seq<Mark> {
    if sampled == [] then [last]
    else if sampled[|sampled| - 1].sequenceNo == last.sequenceNo then sampled
    else if |sampled| >= limit then sampled[..|sampled| - 1] + [last]
    else sampled + [last]
  }

  function Curve(marks: seq<Mark>, limit: nat): seq<Mark>
    requires limit >= 2
  {
    var picked, last := MarksAt(marks, PickedAt(marks, SampleIndexes(|marks|, limit), |marks|)), LastValid(marks, |marks|);
    if last.None? then picked else EndWith(picked, marks[last.value], limit)
  }

  /** The returned curve: valid marks in order, never more than the limit, ending at the last valid mark whatever was
  skipped as malformed, and empty only if every mark is malformed. */
  lemma CurveEndsAtLastValid(marks: seq<Mark>, limit: nat)
    requires limit >= 2 && Increasing(marks)
    ensures var curve, last := Curve(marks, limit), LastValid(marks, |marks|);
            && |curve| <= limit && Increasing(curve)
            && (forall i | 0 <= i < |curve| :: curve[i] in marks && curve[i].equity.Some?)
            && (last.None? <==> curve == [])
            && (last.Some? ==> curve[|curve| - 1] == marks[last.value])
  {
    hide SampleIndexes, SampleAt, PickedAt, MarksAt, LastValid, Increasing, EndWith;
    var indexes := SampleIndexes(|marks|, limit);
    SamplesCoverTheCurve(|marks|, limit);
    var at, last := PickedAt(marks, indexes, |marks|), LastValid(marks, |marks|);
    IndexCount(at, indexes);
    PickedUpTo(marks, indexes);
    if last.Some? {
      EndsWith(MarksAt(marks, at), marks[last.value], limit);
    }
  }

  /** The curve keeps every sampled mark that is valid, but for the last of them if they fill it. */
  lemma CurveKeepsSamples(marks: seq<Mark>, limit: nat)
    requires limit >= 2
    ensures var curve, picked := Curve(marks, limit), MarksAt(marks, PickedAt(marks, SampleIndexes(|marks|, limit), |marks|));
            if |picked| < limit then picked <= curve else picked[..|picked| - 1] <= curve
  {
    hide SampleIndexes, PickedAt, MarksAt, LastValid;
  }

  lemma PickedUpTo(marks: seq<Mark>, indexes: set<int>)
    requires Increasing(marks)
    ensures var picked, last := MarksAt(marks, PickedAt(marks, indexes, |marks|)), LastValid(marks, |marks|);
            && Increasing(picked)
            && (last.None? ==> picked == [])
            && (forall i | 0 <= i < |picked| :: picked[i] in marks && picked[i].equity.Some?)
            && (last.Some? ==>
                  forall i | 0 <= i < |picked| :: picked[i] == marks[last.value] || picked[i].sequenceNo < marks[last.value].sequenceNo)
  {
    hide PickedAt, LastValid;
    var at, last := PickedAt(marks, indexes, |marks|), LastValid(marks, |marks|);
    var picked := MarksAt(marks, at);
    assert Increasing(picked) by {
      assert forall i, j | 0 <= i < j < |at| :: at[i] < at[j];
    }
    forall i | 0 <= i < |at|
      ensures last.Some? && at[i] <= last.value && picked[i] == marks[at[i]]
      ensures picked[i] in marks && picked[i].equity.Some?
    {
      assert marks[at[i]].equity.Some?;
    }
    assert at == [] || (at[0] < |marks| && last.Some?);
    hide MarksAt;
  }

  lemma EndsWith(picked: seq<Mark>, last: Mark, limit: nat)
    requires limit >= 2 && |picked| <= limit && Increasing(picked)
    requires forall i | 0 <= i < |picked| :: picked[i] == last || picked[i].sequenceNo < last.sequenceNo
    ensures var curve := EndWith(picked, last, limit);
            && |curve| <= limit && Increasing(curve) && curve != [] && curve[|curve| - 1] == last
            && forall i | 0 <= i < |curve| :: curve[i] == last || (i < |picked| && curve[i] == picked[i])
  {
  }

  /** Without malformed marks the curve is exactly the sampled marks. */
  lemma CurveIsTheSample(marks: seq<Mark>, limit: nat)
    requires limit >= 2 && Increasing(marks) && forall i | 0 <= i < |marks| :: marks[i].equity.Some?
    ensures var indexes := SampleIndexes(|marks|, limit);
            && |Curve(marks, limit)| == |indexes|
            && Curve(marks, limit) == MarksAt(marks, PickedAt(marks, indexes, |marks|))
            && forall i | 0 <= i < |marks| :: i in PickedAt(marks, indexes, |marks|) <==> i in indexes
  {
    hide SampleIndexes, SampleAt, PickedAt;
    var indexes, n := SampleIndexes(|marks|, limit), |marks|;
    SamplesCoverTheCurve(n, limit);
    var at := PickedAt(marks, indexes, n);
    IndexCount(at, indexes);
    if n > 0 {
      LastIsValid(marks);
      LastIsPicked(marks, at, limit);
    } else {
      assert marks == [];
    }
    hide LastValid, EndWith, MarksAt;
  }

  lemma LastIsValid(marks: seq<Mark>)
    requires marks != [] && marks[|marks| - 1].equity.Some?
    ensures LastValid(marks, |marks|) == Some(|marks| - 1)
  {
  }

  lemma LastIsPicked(marks: seq<Mark>, at: seq<int>, limit: nat)
    requires marks != [] && |marks| - 1 in at
    requires forall i | 0 <= i < |at| :: 0 <= at[i] < |marks|
    requires forall i, j | 0 <= i < j < |at| :: at[i] < at[j]
    ensures EndWith(MarksAt(marks, at), marks[|marks| - 1], limit) == MarksAt(marks, at)
  {
    assert at[|at| - 1] == |marks| - 1;
  }
}

/** Metrics::compute: the accumulation loop over the threads and Jain's fairness index, over exact reals. */
module Metrics {
  import opened RwSpec

  datatype Option<T> = None | Some(value: T)

  /** What compute reads of a ThreadInfo. */
  datatype Info = Info(role: Role, opsCompleted: nat, totalWaitMs: int, starveCount: nat)

  /** The sum of xs. */
  ghost function Total(xs: seq<real>): real
  {
    if xs == [] then 0.0 else Total(xs[..|xs|-1]) + xs[|xs|-1]
  }

  /** The sum of the squares of xs. */
  ghost function Squares(xs: seq<real>): real
  {
    if xs == [] then 0.0 else Squares(xs[..|xs|-1]) + xs[|xs|-1] * xs[|xs|-1]
  }

  /** How far xs is from being constantly y. */
  ghost function Deviation(xs: seq<real>, y: real): real
  {
    if xs == [] then 0.0 else Deviation(xs[..|xs|-1], y) + (xs[|xs|-1] - y) * (xs[|xs|-1] - y)
  }

  /** n times the sum of squares minus the square of the sum. */
  ghost function Spread(xs: seq<real>): real
  {
    (|xs| as real) * Squares(xs) - Total(xs) * Total(xs)
  }

  ghost predicate AllEqual(xs: seq<real>)
  {
    forall i, j :: 0 <= i < |xs| && 0 <= j < |xs| ==> xs[i] == xs[j]
  }

  ghost predicate AllZero(xs: seq<real>)
  {
    forall i :: 0 <= i < |xs| ==> xs[i] == 0.0
  }

  ghost predicate AtMostOneNonzero(xs: seq<real>)
  {
    forall i, j :: 0 <= i < j < |xs| ==> xs[i] == 0.0 || xs[j] == 0.0
  }

  ghost predicate NonNegative(xs: seq<real>)
  {
    forall i :: 0 <= i < |xs| ==> xs[i] >= 0.0
  }

  lemma DeviationAlgebra(d: real, q: real, t: real, n: real, x: real, y: real, q': real, t': real, n': real)
    requires d == q - 2.0 * y * t + n * (y * y) && q' == q + x * x && t' == t + x && n' == n + 1.0
    ensures d + (x - y) * (x - y) == q' - 2.0 * y * t' + n' * (y * y)
  {
    assert 2.0 * y * t' == 2.0 * y * t + 2.0 * y * x;
    assert n' * (y * y) == n * (y * y) + y * y;
    assert (x - y) * (x - y) == x * x - 2.0 * y * x + y * y;
  }

  lemma {:induction false} DeviationExpands(xs: seq<real>, y: real)
    ensures Deviation(xs, y) == Squares(xs) - 2.0 * y * Total(xs) + (|xs| as real) * (y * y)
  {
    if xs == [] {
    } else {
      var n := |xs| - 1;
      DeviationExpands(xs[..n], y);
      DeviationAlgebra(Deviation(xs[..n], y), Squares(xs[..n]), Total(xs[..n]), n as real, xs[n], y,
                       Squares(xs), Total(xs), |xs| as real);
    }
  }

  lemma SpreadAlgebra(q: real, t: real, n: real, x: real, q': real, t': real, n': real)
    requires q' == q + x * x && t' == t + x && n' == n + 1.0
    ensures n' * q' - t' * t' == (n * q - t * t) + (q - 2.0 * x * t + n * (x * x))
  {
    assert n' * q' == n * q + n * (x * x) + q + x * x;
    assert t' * t' == t * t + 2.0 * x * t + x * x;
  }

  /** Adding x adds to the spread the deviation of the others from x. */
  lemma SpreadGrows(xs: seq<real>)
    requires xs != []
    ensures var n := |xs| - 1; Spread(xs) == Spread(xs[..n]) + Deviation(xs[..n], xs[n])
  {
    var n := |xs| - 1;
    DeviationExpands(xs[..n], xs[n]);
    SpreadAlgebra(Squares(xs[..n]), Total(xs[..n]), n as real, xs[n], Squares(xs), Total(xs), |xs| as real);
  }

  lemma {:induction false} DeviationSign(xs: seq<real>, y: real)
    ensures Deviation(xs, y) >= 0.0
    ensures Deviation(xs, y) == 0.0 <==> forall i :: 0 <= i < |xs| ==> xs[i] == y
  {
    if xs == [] {
    } else {
      var n := |xs| - 1;
      DeviationSign(xs[..n], y);
      SquareSign(xs[n] - y);
      if Deviation(xs, y) == 0.0 {
        forall i | 0 <= i < |xs| ensures xs[i] == y {
          if i < n { assert xs[..n][i] == xs[i]; }
        }
      }
    }
  }

  lemma SquareSign(d: real)
    ensures d * d >= 0.0 && (d * d == 0.0 <==> d == 0.0)
  {
    var m := if d < 0.0 then -d else d;
    assert m * m == d * d;
    ProductSign(m, m);
  }

  /** Cauchy-Schwarz against the constant vector, with its case of equality. */
  lemma {:induction false} SpreadSign(xs: seq<real>)
    ensures Spread(xs) >= 0.0 && (Spread(xs) == 0.0 <==> AllEqual(xs))
  {
    if xs == [] {
    } else {
      var n := |xs| - 1;
      SpreadSign(xs[..n]);
      SpreadGrows(xs);
      DeviationSign(xs[..n], xs[n]);
      if Spread(xs) == 0.0 {
        forall i | 0 <= i < |xs| ensures xs[i] == xs[n] {
          if i < n { assert xs[..n][i] == xs[i]; }
        }
      }
      if AllEqual(xs) {
        assert forall i :: 0 <= i < n ==> xs[..n][i] == xs[i];
      }
    }
  }

  /** The sums are non-negative, and zero exactly when everything is. */
  lemma {:induction false} SumSigns(xs: seq<real>)
    requires NonNegative(xs)
    ensures Total(xs) >= 0.0 && (Total(xs) == 0.0 <==> AllZero(xs))
    ensures Squares(xs) >= 0.0 && (Squares(xs) == 0.0 <==> AllZero(xs))
  {
    if xs == [] {
    } else {
      var n := |xs| - 1;
      assert forall i :: 0 <= i < n ==> xs[..n][i] == xs[i];
      SumSigns(xs[..n]);
      SquareSign(xs[n]);
      assert AllZero(xs) <==> AllZero(xs[..n]) && xs[n] == 0.0;
    }
  }

  lemma CrossAlgebra(t: real, q: real, x: real, t': real, q': real)
    requires t' == t + x && q' == q + x * x
    ensures t' * t' - q' == (t * t - q) + 2.0 * (t * x)
  {
    assert t' * t' == t * t + 2.0 * (t * x) + x * x;
  }

  lemma ProductSign(a: real, b: real)
    requires a >= 0.0 && b >= 0.0
    ensures a * b >= 0.0 && (a * b == 0.0 <==> a == 0.0 || b == 0.0)
  {
    if a > 0.0 && b > 0.0 { assert a * b > 0.0; }
  }

  /** The square of the sum is at least the sum of the squares, with its case of equality. */
  lemma {:induction false} CrossSign(xs: seq<real>)
    requires NonNegative(xs)
    ensures Total(xs) * Total(xs) - Squares(xs) >= 0.0
    ensures Total(xs) * Total(xs) - Squares(xs) == 0.0 <==> AtMostOneNonzero(xs)
  {
    if xs == [] {
    } else {
      var n := |xs| - 1;
      assert forall i :: 0 <= i < n ==> xs[..n][i] == xs[i];
      CrossSign(xs[..n]);
      SumSigns(xs[..n]);
      CrossAlgebra(Total(xs[..n]), Squares(xs[..n]), xs[n], Total(xs), Squares(xs));
      ProductSign(Total(xs[..n]), xs[n]);
      OneMore(xs);
    }
  }

  lemma OneMore(xs: seq<real>)
    requires xs != []
    ensures var n := |xs| - 1; AtMostOneNonzero(xs) <==> AtMostOneNonzero(xs[..n]) && (AllZero(xs[..n]) || xs[n] == 0.0)
  {
    var n := |xs| - 1;
    assert forall i :: 0 <= i < n ==> xs[..n][i] == xs[i];
  }

  /** a / (n * q) against 1 and 1 / n. */
  lemma RatioBounds(a: real, n: real, q: real)
    requires n > 0.0 && q > 0.0 && q <= a <= n * q
    ensures n * q > 0.0 && 1.0 / n <= a / (n * q) <= 1.0
    ensures a / (n * q) == 1.0 <==> a == n * q
    ensures (a / (n * q) == 1.0 / n <==> a == q) && a / (n * q) * (n * q) == a
  {
    ProductSign(n, q);
    var j := a / (n * q);
    assert j * (n * q) == a;
    var c := 1.0 / n;
    assert c * n == 1.0;
    assert c * (n * q) == q by { assert c * (n * q) == (c * n) * q; }
    if j > 1.0 { assert j * (n * q) > n * q by { ProductSign(j - 1.0, n * q); } }
    if j < c { assert j * (n * q) < c * (n * q) by { ProductSign(c - j, n * q); } }
    if a == q { assert (j - c) * (n * q) == 0.0; Cancel(j - c, n * q); }
    if a == n * q { assert (j - 1.0) * (n * q) == 0.0; Cancel(j - 1.0, n * q); }
  }

  lemma Cancel(d: real, p: real)
    requires d * p == 0.0 && p > 0.0
    ensures d == 0.0
  {
    if d > 0.0 { ProductSign(d, p); } else if d < 0.0 { ProductSign(-d, p); }
  }

  /** What the fairness index says of non-negative counts: 0 without threads, otherwise in [1/n, 1]; 1 exactly
      when all counts agree (all zero included), and 1/n exactly when one thread did everything. */
  ghost predicate FairnessOf(index: real, xs: seq<real>)
  {
    && (xs == [] ==> index == 0.0)
    && (xs != [] ==> if Squares(xs) == 0.0 then index == 1.0
                     else index * ((|xs| as real) * Squares(xs)) == Total(xs) * Total(xs))
    && (xs != [] ==> 1.0 / (|xs| as real) <= index <= 1.0 && (index == 1.0 <==> AllEqual(xs)))
    && (|xs| > 1 ==> (index == 1.0 / (|xs| as real) <==> AtMostOneNonzero(xs) && !AllZero(xs)))
  }

  lemma Reciprocal(n: real)
    requires n >= 1.0
    ensures 1.0 / n <= 1.0 && (n > 1.0 ==> 1.0 / n < 1.0)
  {
  }

  /** The two inequalities behind the index and their cases of equality. */
  lemma SumBounds(xs: seq<real>, t: real, q: real)
    requires NonNegative(xs) && t == Total(xs) && q == Squares(xs)
    ensures q <= t * t <= (|xs| as real) * q
    ensures (t * t == (|xs| as real) * q <==> AllEqual(xs)) && (t * t == q <==> AtMostOneNonzero(xs))
  {
    hide AllEqual, AtMostOneNonzero, Total, Squares, NonNegative;
    SpreadSign(xs);
    CrossSign(xs);
  }

  function Ratio(ghost xs: seq<real>, sumX: real, sumX2: real, n: real): (index: real)
    requires xs != [] && NonNegative(xs) && sumX == Total(xs)
    requires sumX2 == Squares(xs) && sumX2 > 0.0 && n == |xs| as real
    ensures FairnessOf(index, xs)
  {
    SumBounds(xs, sumX, sumX2);
    RatioBounds(sumX * sumX, n, sumX2);
    RatioIsFair(xs, (sumX * sumX) / (n * sumX2));
    (sumX * sumX) / (n * sumX2)
  }

  lemma RatioIsFair(xs: seq<real>, index: real)
    requires xs != [] && NonNegative(xs) && Squares(xs) > 0.0
    requires index * ((|xs| as real) * Squares(xs)) == Total(xs) * Total(xs)
    requires 1.0 / (|xs| as real) <= index <= 1.0 && (index == 1.0 <==> AllEqual(xs))
    requires index == 1.0 / (|xs| as real) <==> AtMostOneNonzero(xs)
    ensures FairnessOf(index, xs)
  {
    SumSigns(xs);
    hide Total, Squares, AllEqual, AtMostOneNonzero, AllZero;
  }

  lemma NothingDone(xs: seq<real>)
    requires xs != [] && AllZero(xs) && Squares(xs) == 0.0
    ensures FairnessOf(1.0, xs)
  {
    Reciprocal(|xs| as real);
  }

  lemma Nobody(xs: seq<real>)
    requires xs == []
    ensures FairnessOf(0.0, xs)
  {
  }

  /** Jain's index, with the two sums accumulated in a loop. */
  method JainsIndex(xs: seq<real>) returns (index: real)
    requires NonNegative(xs)
    ensures FairnessOf(index, xs)
  {
    hide FairnessOf;
    var sumX, sumX2 := 0.0, 0.0;
    index := 0.0;
    if |xs| == 0 {
      Nobody(xs);
    } else {
      for i := 0 to |xs|
        invariant sumX == Total(xs[..i]) && sumX2 == Squares(xs[..i])
      {
        assert xs[..i+1][..i] == xs[..i];
        sumX := sumX + xs[i];
        sumX2 := sumX2 + xs[i] * xs[i];
      }
      assert xs[..|xs|] == xs;
      SumSigns(xs);
      if sumX2 > 0.0 {
        index := Ratio(xs, sumX, sumX2, |xs| as real);
      } else {
        index := 1.0;
        NothingDone(xs);
      }
    }
  }

  // ----- the entries of the thread list -----

  /** Milliseconds waited per operation; 0 for a thread without operations. */
  function AvgWait(t: Info): (r: real)
    ensures t.opsCompleted > 0 ==> r * (t.opsCompleted as real) == t.totalWaitMs as real
    ensures t.opsCompleted == 0 ==> r == 0.0
  {
    if t.opsCompleted > 0 then (t.totalWaitMs as real) / (t.opsCompleted as real) else 0.0
  }

  /** The operation counts of the entries that are present. */
  function PerThreadOps(threads: seq<Option<Info>>): (r: seq<real>)
    ensures |r| <= |threads| && forall i :: 0 <= i < |r| ==> r[i] >= 0.0
  {
    if threads == [] then []
    else
      var r := PerThreadOps(threads[..|threads|-1]);
      match threads[|threads|-1]
      case None => r
      case Some(t) => r + [t.opsCompleted as real]
  }

  /** Entry by entry: operations, starvation events, and the waits per operation of one role; an entry that is null, or
      of the other role, contributes 0. */
  ghost function OpsAt(threads: seq<Option<Info>>): seq<real>
  {
    seq(|threads|, i requires 0 <= i < |threads| =>
      if threads[i].Some? then threads[i].value.opsCompleted as real else 0.0)
  }

  ghost function StarvesAt(threads: seq<Option<Info>>): seq<real>
  {
    seq(|threads|, i requires 0 <= i < |threads| =>
      if threads[i].Some? then threads[i].value.starveCount as real else 0.0)
  }

  ghost function WaitsAt(threads: seq<Option<Info>>, role: Role): seq<real>
  {
    seq(|threads|, i requires 0 <= i < |threads| =>
      if threads[i].Some? && threads[i].value.role == role then AvgWait(threads[i].value) else 0.0)
  }

  ghost function Present(threads: seq<Option<Info>>): set<nat>
  {
    set i: nat | i < |threads| && threads[i].Some?
  }

  ghost function PresentAs(threads: seq<Option<Info>>, role: Role): set<nat>
  {
    set i: nat | i < |threads| && threads[i].Some? && threads[i].value.role == role
  }

  lemma TotalMore(xs: seq<real>, x: real)
    ensures Total(xs + [x]) == Total(xs) + x && Squares(xs + [x]) == Squares(xs) + x * x
  {
    assert (xs + [x])[..|xs|] == xs;
  }

  /** The lists and sets above, one entry longer. */
  lemma OneMoreEntry(threads: seq<Option<Info>>, e: Option<Info>)
    ensures var more := threads + [e];
      && OpsAt(more) == OpsAt(threads) + [if e.Some? then e.value.opsCompleted as real else 0.0]
      && StarvesAt(more) == StarvesAt(threads) + [if e.Some? then e.value.starveCount as real else 0.0]
      && |Present(more)| == |Present(threads)| + (if e.Some? then 1 else 0)
  {
    var more := threads + [e];
    assert Present(more) == Present(threads) + if e.Some? then {|threads|} else {};
  }

  lemma OneMorePresent(threads: seq<Option<Info>>, e: Option<Info>, role: Role)
    ensures |PresentAs(threads + [e], role)| ==
      |PresentAs(threads, role)| + (if e.Some? && e.value.role == role then 1 else 0)
  {
    var more := threads + [e];
    assert PresentAs(more, role) ==
      PresentAs(threads, role) + if e.Some? && e.value.role == role then {|threads|} else {};
  }

  lemma OneMoreWait(threads: seq<Option<Info>>, e: Option<Info>, role: Role)
    ensures WaitsAt(threads + [e], role) ==
      WaitsAt(threads, role) + [if e.Some? && e.value.role == role then AvgWait(e.value) else 0.0]
  {
    hide AvgWait;
  }

  /** The list that the index is computed from has one element per entry that is present, and the sums of the
      entries. */
  lemma {:induction false} PerThreadOpsSums(threads: seq<Option<Info>>)
    ensures |PerThreadOps(threads)| == |Present(threads)|
    ensures Total(PerThreadOps(threads)) == Total(OpsAt(threads))
    ensures Squares(PerThreadOps(threads)) == Squares(OpsAt(threads))
  {
    if threads == [] {
      assert OpsAt(threads) == [] && Present(threads) == {};
    } else {
      var n := |threads| - 1;
      PerThreadOpsSums(threads[..n]);
      assert threads == threads[..n] + [threads[n]];
      OneMoreEntry(threads[..n], threads[n]);
      TotalMore(OpsAt(threads[..n]), if threads[n].Some? then threads[n].value.opsCompleted as real else 0.0);
      if threads[n].Some? {
        TotalMore(PerThreadOps(threads[..n]), threads[n].value.opsCompleted as real);
      }
    }
  }

  /** Every entry that is present has its operation count in the list, and nothing else is in it. */
  lemma {:induction false} PerThreadOpsElements(threads: seq<Option<Info>>, x: real)
    ensures x in PerThreadOps(threads) <==>
      exists i :: 0 <= i < |threads| && threads[i].Some? && threads[i].value.opsCompleted as real == x
  {
    if threads == [] {
    } else {
      var n := |threads| - 1;
      PerThreadOpsElements(threads[..n], x);
      if x in PerThreadOps(threads[..n]) {
        var i :| 0 <= i < n && threads[..n][i].Some? && threads[..n][i].value.opsCompleted as real == x;
        assert threads[i].Some? && threads[i].value.opsCompleted as real == x;
      }
      if i :| 0 <= i < n && threads[i].Some? && threads[i].value.opsCompleted as real == x {
        assert threads[..n][i].Some? && threads[..n][i].value.opsCompleted as real == x;
      }
    }
  }

  /** All present threads have completed equally many operations. */
  ghost predicate AllAlike(threads: seq<Option<Info>>)
  {
    forall i, j :: 0 <= i < |threads| && 0 <= j < |threads| && threads[i].Some? && threads[j].Some? ==>
      threads[i].value.opsCompleted == threads[j].value.opsCompleted
  }

  /** One present thread has completed all operations, and there were some. */
  ghost predicate OneDidAll(threads: seq<Option<Info>>)
  {
    exists i :: 0 <= i < |threads| && threads[i].Some? && threads[i].value.opsCompleted > 0 &&
      forall j :: 0 <= j < |threads| && j != i && threads[j].Some? ==> threads[j].value.opsCompleted == 0
  }

  lemma AlikeInList(threads: seq<Option<Info>>)
    ensures AllEqual(PerThreadOps(threads)) <==> AllAlike(threads)
  {
    var xs := PerThreadOps(threads);
    if AllEqual(xs) {
      forall i, j | 0 <= i < |threads| && 0 <= j < |threads| && threads[i].Some? && threads[j].Some?
        ensures threads[i].value.opsCompleted == threads[j].value.opsCompleted
      {
        PerThreadOpsElements(threads, threads[i].value.opsCompleted as real);
        PerThreadOpsElements(threads, threads[j].value.opsCompleted as real);
      }
    }
    if AllAlike(threads) {
      forall a, b | 0 <= a < |xs| && 0 <= b < |xs| ensures xs[a] == xs[b] {
        PerThreadOpsElements(threads, xs[a]);
        PerThreadOpsElements(threads, xs[b]);
      }
    }
  }

  lemma SameSums(xs: seq<real>, ys: seq<real>)
    requires NonNegative(xs) && NonNegative(ys) && Total(xs) == Total(ys) && Squares(xs) == Squares(ys)
    ensures (AtMostOneNonzero(xs) <==> AtMostOneNonzero(ys)) && (AllZero(xs) <==> AllZero(ys))
  {
    hide NonNegative, Total, Squares, AtMostOneNonzero, AllZero;
    CrossSign(xs);
    CrossSign(ys);
    SumSigns(xs);
    SumSigns(ys);
  }

  lemma OneInList(threads: seq<Option<Info>>)
    ensures AtMostOneNonzero(PerThreadOps(threads)) && !AllZero(PerThreadOps(threads)) <==> OneDidAll(threads)
  {
    assert NonNegative(PerThreadOps(threads)) && NonNegative(OpsAt(threads));
    PerThreadOpsSums(threads);
    hide PerThreadOps, Total, Squares, AtMostOneNonzero, AllZero, NonNegative, OpsAt, OneDidAll;
    SameSums(PerThreadOps(threads), OpsAt(threads));
    OneAtEntry(threads);
  }

  lemma OneAtEntry(threads: seq<Option<Info>>)
    ensures AtMostOneNonzero(OpsAt(threads)) && !AllZero(OpsAt(threads)) <==> OneDidAll(threads)
  {
    var ys := OpsAt(threads);
    assert forall i :: 0 <= i < |threads| ==> (ys[i] != 0.0 <==> threads[i].Some? && threads[i].value.opsCompleted > 0);
    if AtMostOneNonzero(ys) && !AllZero(ys) {
      var i :| 0 <= i < |ys| && ys[i] != 0.0;
      assert threads[i].Some? && threads[i].value.opsCompleted > 0;
    }
  }

  lemma {:induction false} TotalWithin(xs: seq<real>, lo: real, hi: real)
    requires forall i :: 0 <= i < |xs| ==> lo <= xs[i] <= hi
    ensures lo * (|xs| as real) <= Total(xs) <= hi * (|xs| as real)
  {
    if xs == [] {
    } else {
      var n := |xs| - 1;
      assert forall i :: 0 <= i < n ==> xs[..n][i] == xs[i];
      TotalWithin(xs[..n], lo, hi);
      OneMoreTime(lo, n);
      OneMoreTime(hi, n);
    }
  }

  lemma MulOrder(a: real, b: real, n: real)
    requires n > 0.0
    ensures a < b <==> a * n < b * n
  {
    assert (b - a) * n == b * n - a * n;
    ProductSign(if a < b then b - a else a - b, n);
  }

  lemma OneMoreTime(a: real, n: nat)
    ensures a * ((n + 1) as real) == a * (n as real) + a
  {
    assert (n + 1) as real == (n as real) + 1.0;
  }

  /** mean is the total divided by the number of what was added up, and 0 without any. */
  ghost predicate IsMean(mean: real, total: real, count: nat)
  {
    if count == 0 then mean == 0.0 else mean * (count as real) == total
  }

  /** A mean lies between any bounds of what it is the mean of. */
  lemma MeanWithin(xs: seq<real>, mean: real, lo: real, hi: real)
    requires IsMean(mean, Total(xs), |xs|) && xs != [] && forall i :: 0 <= i < |xs| ==> lo <= xs[i] <= hi
    ensures lo <= mean <= hi
  {
    TotalWithin(xs, lo, hi);
    MulOrder(mean, lo, |xs| as real);
    MulOrder(hi, mean, |xs| as real);
  }

  function Mean(sum: real, count: nat): (mean: real)
    ensures IsMean(mean, sum, count)
  {
    if count > 0 then sum / (count as real) else 0.0
  }

  /** What compute's loop accumulates. */
  datatype Sums = Sums(readerWaitSum: real, readerCount: nat, writerWaitSum: real, writerCount: nat,
                       totalOpsActual: nat, starveEvents: nat, perThreadOps: seq<real>)

  ghost predicate Collected(r: Sums, threads: seq<Option<Info>>)
  {
    && r.totalOpsActual as real == Total(OpsAt(threads)) && r.starveEvents as real == Total(StarvesAt(threads))
    && r.perThreadOps == PerThreadOps(threads)
    && r.readerWaitSum == Total(WaitsAt(threads, Reader)) && r.readerCount == |PresentAs(threads, Reader)|
    && r.writerWaitSum == Total(WaitsAt(threads, Writer)) && r.writerCount == |PresentAs(threads, Writer)|
  }

  lemma CollectedOneMore(threads: seq<Option<Info>>, e: Option<Info>)
    ensures var more := threads + [e];
      && Total(OpsAt(more)) == Total(OpsAt(threads)) + (if e.Some? then e.value.opsCompleted as real else 0.0)
      && Total(StarvesAt(more)) == Total(StarvesAt(threads)) + (if e.Some? then e.value.starveCount as real else 0.0)
      && PerThreadOps(more) == PerThreadOps(threads) + (if e.Some? then [e.value.opsCompleted as real] else [])
  {
    OneMoreEntry(threads, e);
    TotalMore(OpsAt(threads), if e.Some? then e.value.opsCompleted as real else 0.0);
    TotalMore(StarvesAt(threads), if e.Some? then e.value.starveCount as real else 0.0);
    assert (threads + [e])[..|threads|] == threads;
    hide Total;
  }

  lemma WaitsOneMore(threads: seq<Option<Info>>, e: Option<Info>, role: Role)
    ensures var more := threads + [e];
      && Total(WaitsAt(more, role)) ==
         Total(WaitsAt(threads, role)) + (if e.Some? && e.value.role == role then AvgWait(e.value) else 0.0)
      && |PresentAs(more, role)| == |PresentAs(threads, role)| + (if e.Some? && e.value.role == role then 1 else 0)
  {
    OneMoreWait(threads, e, role);
    OneMorePresent(threads, e, role);
    hide WaitsAt, PresentAs, AvgWait;
    TotalMore(WaitsAt(threads, role), if e.Some? && e.value.role == role then AvgWait(e.value) else 0.0);
  }

  /** One entry more, and what it adds to each accumulator. */
  lemma CollectedMore(r: Sums, r': Sums, threads: seq<Option<Info>>, e: Option<Info>)
    requires Collected(r, threads)
    requires match e
      case None => r' == r
      case Some(t) =>
        && r'.totalOpsActual == r.totalOpsActual + t.opsCompleted && r'.starveEvents == r.starveEvents + t.starveCount
        && r'.perThreadOps == r.perThreadOps + [t.opsCompleted as real]
        && r'.readerWaitSum == r.readerWaitSum + (if t.role == Reader then AvgWait(t) else 0.0)
        && r'.readerCount == r.readerCount + (if t.role == Reader then 1 else 0)
        && r'.writerWaitSum == r.writerWaitSum + (if t.role == Writer then AvgWait(t) else 0.0)
        && r'.writerCount == r.writerCount + (if t.role == Writer then 1 else 0)
    ensures Collected(r', threads + [e])
  {
    hide Total, OpsAt, StarvesAt, WaitsAt, PresentAs, PerThreadOps, AvgWait;
    CollectedOneMore(threads, e);
    WaitsOneMore(threads, e, Reader);
    WaitsOneMore(threads, e, Writer);
  }

  lemma NothingCollected()
    ensures Collected(Sums(0.0, 0, 0.0, 0, 0, 0, []), [])
  {
    assert OpsAt([]) == StarvesAt([]) == WaitsAt([], Reader) == WaitsAt([], Writer) == [];
    assert PresentAs([], Reader) == PresentAs([], Writer) == {};
  }

  /** The accumulation loop of compute; null entries are skipped. */
  method Collect(threads: seq<Option<Info>>) returns (r: Sums)
    ensures Collected(r, threads)
  {
    var readerWaitSum, readerCount: nat, writerWaitSum, writerCount: nat := 0.0, 0, 0.0, 0;
    var totalOpsActual: nat, starveEvents: nat, perThreadOps := 0, 0, [];
    NothingCollected();
    for i := 0 to |threads|
      invariant Collected(Sums(readerWaitSum, readerCount, writerWaitSum, writerCount,
                               totalOpsActual, starveEvents, perThreadOps), threads[..i])
    {
      hide Collected, AvgWait;
      ghost var before := Sums(readerWaitSum, readerCount, writerWaitSum, writerCount,
                               totalOpsActual, starveEvents, perThreadOps);
      match threads[i] {
        case None =>
        case Some(t) =>
          totalOpsActual := totalOpsActual + t.opsCompleted;
          starveEvents := starveEvents + t.starveCount;
          perThreadOps := perThreadOps + [t.opsCompleted as real];
          var avgWait := AvgWait(t);
          if t.role == Reader {
            readerWaitSum, readerCount := readerWaitSum + avgWait, readerCount + 1;
          } else {
            writerWaitSum, writerCount := writerWaitSum + avgWait, writerCount + 1;
          }
      }
      assert threads[..i+1] == threads[..i] + [threads[i]];
      CollectedMore(before, Sums(readerWaitSum, readerCount, writerWaitSum, writerCount,
                                 totalOpsActual, starveEvents, perThreadOps), threads[..i], threads[i]);
    }
    assert threads[..|threads|] == threads;
    r := Sums(readerWaitSum, readerCount, writerWaitSum, writerCount, totalOpsActual, starveEvents, perThreadOps);
  }

  /** The fairness index in terms of the thread list: 0 without threads; otherwise the square of the sum over n times
      the sum of squares (1 if nothing was done), in [1/n, 1], 1 exactly when all present threads have done equally
      much, and 1/n exactly when one present thread did everything. */
  ghost predicate Fairness(jain: real, threads: seq<Option<Info>>)
  {
    var xs, n := OpsAt(threads), |Present(threads)|;
    if n == 0 then jain == 0.0
    else
      && (if Squares(xs) == 0.0 then jain == 1.0 else jain * ((n as real) * Squares(xs)) == Total(xs) * Total(xs))
      && 1.0 / (n as real) <= jain <= 1.0
      && (jain == 1.0 <==> AllAlike(threads))
      && (n > 1 ==> (jain == 1.0 / (n as real) <==> OneDidAll(threads)))
  }

  lemma FairnessOfList(jain: real, threads: seq<Option<Info>>)
    requires FairnessOf(jain, PerThreadOps(threads))
    ensures Fairness(jain, threads)
  {
    PerThreadOpsSums(threads);
    AlikeInList(threads);
    OneInList(threads);
    hide Total, Squares, PerThreadOps, OpsAt, Present, AllAlike, OneDidAll, AllEqual, AllZero, AtMostOneNonzero;
  }

  /** compute: totals, the mean wait per operation of each role, throughput per second of wall-clock time, and
      the fairness index. */
  method Compute(threads: seq<Option<Info>>, wallMs: real)
    returns (totalOpsActual: nat, starveEvents: nat, avgReaderWaitMs: real, avgWriterWaitMs: real,
             throughput: real, jain: real)
    ensures totalOpsActual as real == Total(OpsAt(threads)) && starveEvents as real == Total(StarvesAt(threads))
    ensures IsMean(avgReaderWaitMs, Total(WaitsAt(threads, Reader)), |PresentAs(threads, Reader)|)
    ensures IsMean(avgWriterWaitMs, Total(WaitsAt(threads, Writer)), |PresentAs(threads, Writer)|)
    ensures wallMs > 0.0 ==> throughput * wallMs == Total(OpsAt(threads)) * 1000.0
    ensures wallMs <= 0.0 ==> throughput == 0.0
    ensures Fairness(jain, threads)
  {
    hide FairnessOf, Fairness, Total, IsMean, OpsAt, StarvesAt, WaitsAt, PresentAs;
    var r := Collect(threads);
    totalOpsActual, starveEvents := r.totalOpsActual, r.starveEvents;
    avgReaderWaitMs := Mean(r.readerWaitSum, r.readerCount);
    avgWriterWaitMs := Mean(r.writerWaitSum, r.writerCount);
    throughput := 0.0;
    if wallMs > 0.0 {
      throughput := PerSecond(totalOpsActual as real, wallMs);
    }
    jain := JainsIndex(r.perThreadOps);
    FairnessOfList(jain, threads);
  }

  /** Operations per second from operations and milliseconds. */
  function PerSecond(n: real, ms: real): (r: real)
    requires ms > 0.0
    ensures r * ms == n * 1000.0
  {
    var q := n / ms;
    assert q * ms == n;
    assert q * 1000.0 * ms == (q * ms) * 1000.0;
    q * 1000.0
  }
}

/**
 Tracker for one lane boundary across the frames of a video. It keeps a bounded
 history of the quadratic fits found in recent frames and, after every new fit,
 the coefficient-wise mean of that history (the "best fit" used to draw the lane).
 */
module LaneLine {

  datatype Option<T> = None | Some(value: T)

  /** The coefficients (a, b, c) of a quadratic x = a*y^2 + b*y + c. */
  type Fit = s: seq<real> | |s| == 3 witness [0.0, 0.0, 0.0]

  /**
   The value held in `best_fit`, which takes two array shapes: before any fit is
   appended it is a stack of rows holding the one zero fit; afterwards it is the
   flat vector that the mean over the history yields.
   */
  datatype FitArray = Rows(rows: seq<Fit>) | Vector(coeffs: Fit)

  const Zero: Fit := [0.0, 0.0, 0.0]

  function Min(a: int, b: int): int
  {
    if a <= b then a else b
  }

  /**
   Appending `f` to a deque whose capacity (`maxlen`) is `n`: once the deque is
   full the oldest entry, at the front, is discarded.
   */
  function Push(buf: seq<Fit>, f: Fit, n: nat): (r: seq<Fit>)
    requires 0 < n && |buf| <= n
    ensures |r| == Min(|buf| + 1, n)
  {
    if |buf| < n then buf + [f] else buf[1..] + [f]
  }

  /** The last min(|all|, n) fits of `all`, in the order they were appended. */
  function Window(all: seq<Fit>, n: nat): seq<Fit>
  {
    all[|all| - Min(|all|, n)..]
  }

  /** The sum of coefficient `i` over all fits of `fits`. */
  function ColumnSum(fits: seq<Fit>, i: nat): real
    requires i < 3
  {
    if fits == [] then 0.0 else ColumnSum(fits[..|fits| - 1], i) + fits[|fits| - 1][i]
  }

  /**
   The coefficient-wise arithmetic mean of a non-empty history: each of the three
   coefficients is averaged on its own.
   */
  function Mean(fits: seq<Fit>): (m: Fit)
    requires |fits| > 0
    ensures m[0] * (|fits| as real) == ColumnSum(fits, 0)
    ensures m[1] * (|fits| as real) == ColumnSum(fits, 1)
    ensures m[2] * (|fits| as real) == ColumnSum(fits, 2)
  {
    var k := |fits| as real;
    [ColumnSum(fits, 0) / k, ColumnSum(fits, 1) / k, ColumnSum(fits, 2) / k]
  }

  /** Pushing onto the window of a history gives the window of the extended history. */
  lemma PushWindow(all: seq<Fit>, f: Fit, n: nat)
    requires 0 < n
    ensures Push(Window(all, n), f, n) == Window(all + [f], n)
  {
  }

  /**
   A push keeps arrival order: the new fit is last, and before it stand the
   newest fits of the old buffer, the oldest one dropped when the buffer was full.
   */
  lemma PushFifo(buf: seq<Fit>, f: Fit, n: nat)
    requires 0 < n && |buf| <= n
    ensures var r := Push(buf, f, n);
      && r[|r| - 1] == f
      && (forall j :: 0 <= j < |r| - 1 ==> r[j] == buf[|buf| + 1 - |r| + j])
  {
  }

  /** Coefficient `i` of the mean depends on coefficient `i` of the fits alone. */
  lemma MeanPerCoefficient(fits: seq<Fit>, other: seq<Fit>, i: nat)
    requires 0 < |fits| == |other| && i < 3
    requires forall j :: 0 <= j < |fits| ==> fits[j][i] == other[j][i]
    ensures Mean(fits)[i] == Mean(other)[i]
  {
    ColumnSumPerCoefficient(fits, other, i);
  }

  lemma {:induction false} ColumnSumPerCoefficient(fits: seq<Fit>, other: seq<Fit>, i: nat)
    requires |fits| == |other| && i < 3
    requires forall j :: 0 <= j < |fits| ==> fits[j][i] == other[j][i]
    ensures ColumnSum(fits, i) == ColumnSum(other, i)
  {
    if fits != [] {
      var k := |fits| - 1;
      assert forall j :: 0 <= j < k ==> fits[..k][j] == fits[j] && other[..k][j] == other[j];
      ColumnSumPerCoefficient(fits[..k], other[..k], i);
    }
  }

  /** A column sum can be split at its first fit as well as at its last. */
  lemma {:induction false} ColumnSumFront(fits: seq<Fit>, i: nat)
    requires |fits| > 0 && i < 3
    ensures ColumnSum(fits, i) == fits[0][i] + ColumnSum(fits[1..], i)
  {
    if |fits| > 1 {
      var init := fits[..|fits| - 1];
      ColumnSumFront(init, i);
      assert init[1..] == fits[1..][..|fits[1..]| - 1];
    } else {
      assert fits[..0] == [] && fits[1..] == [];
    }
  }

  /** When every fit's coefficient `i` lies in [lo, hi], so does their mean times the count. */
  lemma {:induction false} ColumnSumBounds(fits: seq<Fit>, i: nat, lo: real, hi: real)
    requires i < 3
    requires forall j :: 0 <= j < |fits| ==> lo <= fits[j][i] <= hi
    ensures lo * (|fits| as real) <= ColumnSum(fits, i) <= hi * (|fits| as real)
  {
    if fits != [] {
      var init := fits[..|fits| - 1];
      assert forall j :: 0 <= j < |init| ==> init[j] == fits[j];
      ColumnSumBounds(init, i, lo, hi);
      assert lo * (|fits| as real) == lo * (|init| as real) + lo;
      assert hi * (|fits| as real) == hi * (|init| as real) + hi;
    }
  }

  /** Smoothing never leaves the range of the values it averages. */
  lemma MeanWithinBounds(fits: seq<Fit>, i: nat, lo: real, hi: real)
    requires |fits| > 0 && i < 3
    requires forall j :: 0 <= j < |fits| ==> lo <= fits[j][i] <= hi
    ensures lo <= Mean(fits)[i] <= hi
  {
    ColumnSumBounds(fits, i, lo, hi);
    QuotientBounds(ColumnSum(fits, i), |fits| as real, lo, hi);
  }

  lemma QuotientBounds(s: real, k: real, lo: real, hi: real)
    requires 0.0 < k && lo * k <= s <= hi * k
    ensures lo <= s / k <= hi
  {
  }

  /** A history that holds one fit only (however often) has that fit as its mean. */
  lemma MeanOfConstant(fits: seq<Fit>, f: Fit)
    requires |fits| > 0
    requires forall j :: 0 <= j < |fits| ==> fits[j] == f
    ensures Mean(fits) == f
  {
    forall i | 0 <= i < 3 ensures Mean(fits)[i] == f[i] {
      MeanWithinBounds(fits, i, f[i], f[i]);
    }
  }

  /** The mean of a single fit is that fit. */
  lemma MeanOfSingle(f: Fit)
    ensures Mean([f]) == f
  {
    MeanOfConstant([f], f);
  }

  /**
   The sum over the buffer after a push is the old sum plus the new coefficient,
   less the evicted one when the buffer was full.
   */
  lemma PushColumnSum(buf: seq<Fit>, f: Fit, n: nat, i: nat)
    requires 0 < n && |buf| <= n && i < 3
    ensures |buf| < n ==> ColumnSum(Push(buf, f, n), i) == ColumnSum(buf, i) + f[i]
    ensures |buf| == n ==> ColumnSum(Push(buf, f, n), i) == ColumnSum(buf, i) - buf[0][i] + f[i]
  {
    var r := Push(buf, f, n);
    if |buf| < n {
      assert r[..|r| - 1] == buf;
    } else {
      ColumnSumFront(buf, i);
      assert r[..|r| - 1] == buf[1..];
    }
  }

  /** One lane boundary's tracking state. */
  class Line {
    /** Whether the boundary was found in the last frame (written by the caller). */
    var detected: bool
    /** x values of recent fits (written by the caller). */
    var recentXFitted: seq<seq<real>>
    /** Averaged x values (written by the caller). */
    var bestX: Option<seq<real>>
    /** The smoothed fit. */
    var bestFit: FitArray
    /** The bounded history of fits, oldest first. */
    var currentFit: seq<Fit>
    /** The history's capacity. */
    const maxLen: nat
    /** Radius of curvature (written by the caller). */
    var radiusOfCurvature: Option<real>
    /** Distance of the vehicle centre from the line (written by the caller). */
    var lineBasePos: Option<real>
    /** Difference between the last and the new fit (written by the caller). */
    var diffs: seq<real>
    /** Pixel coordinates behind the latest fit (written by the caller). */
    var allX: Option<seq<real>>
    var allY: Option<seq<real>>

    /** Every fit ever appended, oldest first. */
    ghost var appended: seq<Fit>

    ghost predicate Valid()
      reads this
    {
      && 0 < maxLen
      && currentFit == Window(appended, maxLen)
      && (appended == [] ==> bestFit == Rows([Zero]))
      && (appended != [] ==> bestFit == Vector(Mean(currentFit)))
    }

    constructor (n: nat)
      requires 0 < n
      ensures Valid()
      ensures maxLen == n && appended == [] && currentFit == []
      ensures bestFit == Rows([Zero])
      ensures !detected && recentXFitted == [] && bestX == None
      ensures radiusOfCurvature == None && lineBasePos == None
      ensures diffs == Zero && allX == None && allY == None
    {
      detected := false;
      recentXFitted := [];
      bestX := None;
      bestFit := Rows([Zero]);
      currentFit := [];
      maxLen := n;
      radiusOfCurvature := None;
      lineBasePos := None;
      diffs := Zero;
      allX := None;
      allY := None;
      appended := [];
    }

    /**
     Pushes `fit` into the history, evicting the oldest fit when the history is
     full, and stores and returns the mean of the history.
     */
    method AppendFit(fit: Fit) returns (best: Fit)
      requires Valid()
      modifies this
      ensures detected == old(detected) && recentXFitted == old(recentXFitted) && bestX == old(bestX)
      ensures radiusOfCurvature == old(radiusOfCurvature) && lineBasePos == old(lineBasePos)
      ensures diffs == old(diffs) && allX == old(allX) && allY == old(allY)
      ensures Valid()
      ensures appended == old(appended) + [fit]
      ensures |old(currentFit)| < maxLen ==> currentFit == old(currentFit) + [fit]
      ensures |old(currentFit)| == maxLen ==> currentFit == old(currentFit)[1..] + [fit]
      ensures best == Mean(currentFit) && bestFit == Vector(best)
      ensures old(appended) == [] ==> best == fit
    {
      ghost var first := appended == [];
      currentFit := Push(currentFit, fit, maxLen);
      appended := appended + [fit];
      best := Mean(currentFit);
      bestFit := Vector(best);
      if first {
        assert currentFit == [fit];
        MeanOfSingle(fit);
      }
    }

    /** Returns the smoothed fit; changes nothing. */
    method GetBestFit() returns (r: FitArray)
      ensures r == bestFit
      ensures Valid() && appended == [] ==> r == Rows([Zero])
      ensures Valid() && appended != [] ==> r == Vector(Mean(Window(appended, maxLen)))
    {
      r := bestFit;
    }
  }

  /**
   Capacity 3 and four fits whose first coefficients are 1, 2, 3 and 4: the
   first fit is evicted and the mean is taken over the last three.
   */
  lemma EvictionExample()
    ensures var all := [[1.0, 0.0, 0.0], [2.0, 0.0, 0.0], [3.0, 0.0, 0.0], [4.0, 0.0, 0.0]];
      Window(all, 3) == all[1..] && Mean(Window(all, 3)) == [3.0, 0.0, 0.0]
  {
    var f1, f2, f3, f4: Fit := [1.0, 0.0, 0.0], [2.0, 0.0, 0.0], [3.0, 0.0, 0.0], [4.0, 0.0, 0.0];
    var w := [f2, f3, f4];
    assert w[..2] == [f2, f3] && w[..2][..1] == [f2] && |w[..2][..1][..0]| == 0;
    forall i | 0 <= i < 3 ensures ColumnSum(w, i) == f2[i] + f3[i] + f4[i] {
      assert ColumnSum([f2], i) == f2[i];
      assert ColumnSum([f2, f3], i) == f2[i] + f3[i];
    }
  }

  /**
   Two fits with capacity 2: each coefficient is averaged on its own.
   */
  lemma PerCoefficientExample()
    ensures Mean(Push(Push([], [1.0, 10.0, 100.0], 2), [3.0, 20.0, 200.0], 2)) == [2.0, 15.0, 150.0]
  {
  }

  /** A caller's view: reading the best fit twice gives the same value, the one last stored. */
  method RepeatedReads(line: Line, fit: Fit)
    requires line.Valid()
    modifies line
  {
    var best := line.AppendFit(fit);
    var again := line.GetBestFit();
    var twice := line.GetBestFit();
    assert again == twice == Vector(best);
  }
}

// Post-processing of the DeepCalib camera calibration engine: the regression model's
// two outputs become the distortion parameter xi and the focal length on the
// original image; the classification variant picks the class of the largest score
// with an argsort and reads it from one of two class lists built at start-up.

module CameraCalibration {
  import opened Common
  import opened Detections

  /** kDistStart, kDistEnd, kDistInterval: 0 .. 60/50 in steps of 1/50. */
  const DistStart: real := 0.0
  const DistEnd: real := 60.0 / 50.0
  const DistInterval: real := 1.0 / 50.0

  /** kFocalStart, kFocalEnd, kFocalInterval: 40 .. 500 in steps of 10. */
  const FocalStart: real := 40.0
  const FocalEnd: real := 500.0
  const FocalInterval: real := 10.0

  // ---- Class lists ----

  /** A list built by pushing start, start + step, ... while the value stays below
      `end`: every entry is below `end`, and the next one would not be. */
  predicate SteppedList(list: seq<real>, start: real, end: real, step: real) {
    (forall k :: 0 <= k < |list| ==> list[k] == start + k as real * step && list[k] < end) &&
    start + |list| as real * step >= end
  }

  /** The push_back loop `for (i = start; i < end; i += step)`, the value kept
      exactly. */
  method ClassList(start: real, end: real, step: real) returns (list: seq<real>)
    requires step > 0.0
    ensures SteppedList(list, start, end, step)
  {
    list := [];
    var i := start;
    while i < end
      invariant i == start + |list| as real * step
      invariant forall k :: 0 <= k < |list| ==> list[k] == start + k as real * step && list[k] < end
      decreases if i < end then ((end - i) / step).Floor + 1 else 0
    {
      list := list + [i];
      DivStep(end - i, step);
      assert end - (i + step) == (end - i) - step;
      i := i + step;
    }
  }

  /** The two loops of Initialize: 60 distortion classes and the focal classes
      40 .. kFocalEnd + 1 in steps of 10. */
  method ClassLists() returns (distList: seq<real>, focalList: seq<real>)
    ensures SteppedList(distList, DistStart, DistEnd, DistInterval)
    ensures SteppedList(focalList, FocalStart, FocalEnd + 1.0, FocalInterval)
  {
    distList := ClassList(DistStart, DistEnd, DistInterval);
    focalList := ClassList(FocalStart, FocalEnd + 1.0, FocalInterval);
  }

  /** Division by a positive step: one step less is one less. */
  lemma DivStep(a: real, step: real)
    requires step > 0.0
    ensures (a - step) / step == a / step - 1.0
  {
    assert (a - step) / step == a / step - step / step;
  }

  /** Multiplying by a non-negative factor keeps a weak order. */
  lemma MulWeak(a: real, b: real, s: real)
    requires a <= b && s >= 0.0
    ensures a * s <= b * s
  {
    assert (b - a) * s >= 0.0;
  }

  /** The length of a stepped list is the number of steps that stay below `end`. */
  lemma SteppedLength(list: seq<real>, start: real, end: real, step: real, n: nat)
    requires step > 0.0 && SteppedList(list, start, end, step)
    requires start + (n - 1) as real * step < end <= start + n as real * step
    ensures |list| == n
  {
    var m := |list|;
    if m > 0 {
      assert list[m - 1] == start + (m - 1) as real * step;
    }
    StepCount(start, end, step, m, n);
  }

  /** Two counts of steps that both reach `end` from `start` with the step before
      staying below it are equal. */
  lemma StepCount(start: real, end: real, step: real, m: nat, n: nat)
    requires step > 0.0
    requires start + (n - 1) as real * step < end <= start + n as real * step
    requires start + m as real * step >= end
    requires m > 0 ==> start + (m - 1) as real * step < end
    ensures m == n
  {
    if m < n {
      MulWeak(m as real, (n - 1) as real, step);
    } else if m > n {
      MulWeak(n as real, (m - 1) as real, step);
    }
  }

  /** The focal class list is 40, 50, ..., 500: 47 entries. */
  lemma FocalListValues(focalList: seq<real>)
    requires SteppedList(focalList, FocalStart, FocalEnd + 1.0, FocalInterval)
    ensures |focalList| == 47
    ensures forall k :: 0 <= k < 47 ==> focalList[k] == 40.0 + 10.0 * k as real
    ensures focalList[0] == 40.0 && focalList[46] == 500.0
  {
    SteppedLength(focalList, FocalStart, FocalEnd + 1.0, FocalInterval, 47);
  }

  /** The distortion class list is 0, 0.02, ..., 1.18: 60 entries. */
  lemma DistListValues(distList: seq<real>)
    requires SteppedList(distList, DistStart, DistEnd, DistInterval)
    ensures |distList| == 60
    ensures forall k :: 0 <= k < 60 ==> distList[k] == k as real / 50.0
  {
    SteppedLength(distList, DistStart, DistEnd, DistInterval, 60);
  }

  // ---- GetMaxIndex ----

  /** The indices listed in `a` are sorted by decreasing value. */
  predicate PrefixByValue(values: seq<real>, a: array<int>, n: int)
    requires 0 <= n <= a.Length
    requires forall i :: 0 <= i < a.Length ==> 0 <= a[i] < |values|
    reads a
  {
    forall p, q :: 0 <= p < q < n ==> values[a[p]] >= values[a[q]]
  }

  /** Every entry of `a` is an index of `values`. */
  predicate Indices(values: seq<real>, a: array<int>)
    reads a
  {
    forall i :: 0 <= i < a.Length ==> 0 <= a[i] < |values|
  }

  /** `std::iota`: the indices 0 .. n-1 in order. */
  method Iota(n: nat) returns (a: array<int>)
    ensures fresh(a) && a.Length == n
    ensures forall i :: 0 <= i < n ==> a[i] == i
  {
    a := new int[n];
    for i := 0 to n
      invariant forall k :: 0 <= k < i ==> a[k] == k
    {
      a[i] := i;
    }
  }

  method Swap(a: array<int>, i: int, j: int)
    requires 0 <= i < j < a.Length
    modifies a
    ensures a[i] == old(a[j]) && a[j] == old(a[i])
    ensures forall m :: 0 <= m < a.Length && m != i && m != j ==> a[m] == old(a[m])
    ensures multiset(a[..]) == multiset(old(a[..]))
  {
    a[i], a[j] := a[j], a[i];
  }

  /** One insertion step: sinks index a[i] into the prefix a[..i]. */
  method Insert(values: seq<real>, a: array<int>, i: int)
    requires 0 <= i < a.Length && Indices(values, a) && PrefixByValue(values, a, i)
    modifies a
    ensures Indices(values, a) && PrefixByValue(values, a, i + 1)
    ensures multiset(a[..]) == multiset(old(a[..]))
  {
    var j := i;
    while j > 0 && values[a[j - 1]] < values[a[j]]
      invariant 0 <= j <= i
      invariant Indices(values, a)
      invariant forall p, q :: 0 <= p < q <= i && q != j ==> values[a[p]] >= values[a[q]]
      invariant 0 < j < i ==> values[a[j - 1]] >= values[a[j + 1]]
      invariant multiset(a[..]) == multiset(old(a[..]))
    {
      Swap(a, j - 1, j);
      j := j - 1;
    }
  }

  /** `std::sort` of the indices with the comparator values[i1] > values[i2]. The
      sort is not stable: indices of equal values may end in any order, of which
      this insertion sort picks one. */
  method SortByValue(values: seq<real>, a: array<int>)
    requires Indices(values, a)
    modifies a
    ensures Indices(values, a) && PrefixByValue(values, a, a.Length)
    ensures multiset(a[..]) == multiset(old(a[..]))
  {
    for i := 0 to a.Length
      invariant Indices(values, a) && PrefixByValue(values, a, i)
      invariant multiset(a[..]) == multiset(old(a[..]))
    {
      Insert(values, a, i);
    }
  }

  /** An index holding a largest value of the list. */
  predicate IsMaxIndex(values: seq<real>, r: int) {
    0 <= r < |values| && forall k :: 0 <= k < |values| ==> values[k] <= values[r]
  }

  /** The argsort of GetMaxIndex: the indices 0 .. n-1 sorted by decreasing value,
      then the first of them.  The list is a copy, so the caller's is unchanged. */
  method GetMaxIndex(valueList: seq<real>) returns (r: int)
    requires |valueList| > 0
    ensures IsMaxIndex(valueList, r)
  {
    var indices := Iota(|valueList|);
    ghost var before := indices[..];
    assert forall k :: 0 <= k < |valueList| ==> before[k] == k;
    SortByValue(valueList, indices);
    forall k | 0 <= k < |valueList|
      ensures valueList[k] <= valueList[indices[0]]
    {
      assert before[k] in multiset(indices[..]);
      var j :| 0 <= j < indices.Length && indices[j] == k;
      assert j == 0 || valueList[indices[0]] >= valueList[indices[j]];
    }
    r := indices[0];
  }

  /** Every largest index holds the value std::max_element finds; where the largest
      value occurs once, the index is that of std::max_element. */
  lemma MaxIndexAgrees(values: seq<real>, r: int)
    requires IsMaxIndex(values, r)
    ensures values[r] == values[MaxElementOf(values)]
    ensures (forall k :: 0 <= k < |values| && k != r ==> values[k] < values[r]) ==> r == MaxElementOf(values)
  {
    var m := MaxElementOf(values);
    assert values[m] >= values[r];
  }

  // ---- The result ----

  /** The calibration result: xi and the focal length on the original image. */
  datatype Calibration = Calibration(xi: real, focalLength: real)

  /** The regression outputs become xi = out * 1.2 and f = out * (500 + 1 - 40) + 40,
      then f is taken from the tensor width to the crop width (Stretch mode from the
      whole image, so the crop width is the image width). */
  function RegressionResult(xiOut: real, fOut: real, cropW: int, width: int): (c: Calibration)
    requires width > 0
  {
    Calibration(xiOut * 1.2, (fOut * (FocalEnd + 1.0 - FocalStart) + FocalStart) * cropW as real / width as real)
  }

  /** The regression result maps the model's unit interval onto the focal range: 0
      gives 40 and 1 gives 501, on the tensor's scale, and grows with the output. */
  lemma RegressionRange(xiOut: real, fOut: real, fOut2: real, cropW: int, width: int)
    requires width > 0 && cropW > 0 && fOut <= fOut2
    ensures RegressionResult(xiOut, 0.0, width, width).focalLength == FocalStart
    ensures RegressionResult(xiOut, 1.0, width, width).focalLength == FocalEnd + 1.0
    ensures RegressionResult(xiOut, fOut, cropW, width).focalLength <= RegressionResult(xiOut, fOut2, cropW, width).focalLength
    ensures RegressionResult(xiOut, fOut, cropW, width).focalLength ==
      RegressionResult(xiOut, fOut, width, width).focalLength * cropW as real / width as real
    ensures 0.0 <= xiOut <= 1.0 ==> 0.0 <= RegressionResult(xiOut, fOut, cropW, width).xi <= DistEnd
  {
    RegressionEnds(xiOut, width);
    RegressionMonotone(xiOut, fOut, fOut2, cropW, width);
    RegressionScaled(xiOut, fOut, cropW, width);
  }

  /** On the tensor's own scale an output of 0 gives 40 and an output of 1 gives 501. */
  lemma RegressionEnds(xiOut: real, width: int)
    requires width > 0
    ensures RegressionResult(xiOut, 0.0, width, width).focalLength == FocalStart
    ensures RegressionResult(xiOut, 1.0, width, width).focalLength == FocalEnd + 1.0
  {
    var w := width as real;
    assert FocalStart * w / w == FocalStart;
    assert (FocalEnd + 1.0) * w / w == FocalEnd + 1.0;
  }

  /** A larger focal output gives a focal length at least as large. */
  lemma RegressionMonotone(xiOut: real, fOut: real, fOut2: real, cropW: int, width: int)
    requires width > 0 && cropW > 0 && fOut <= fOut2
    ensures RegressionResult(xiOut, fOut, cropW, width).focalLength <= RegressionResult(xiOut, fOut2, cropW, width).focalLength
  {
    var f := fOut * (FocalEnd + 1.0 - FocalStart) + FocalStart;
    var f2 := fOut2 * (FocalEnd + 1.0 - FocalStart) + FocalStart;
    var s := cropW as real / width as real;
    assert s > 0.0;
    assert f <= f2;
    assert f * cropW as real / width as real == f * s;
    assert f2 * cropW as real / width as real == f2 * s;
    MulWeak(f, f2, s);
  }

  /** The focal length on the crop is the one on the tensor scaled by crop width over
      tensor width; xi is the output times 1.2. */
  lemma RegressionScaled(xiOut: real, fOut: real, cropW: int, width: int)
    requires width > 0
    ensures RegressionResult(xiOut, fOut, cropW, width).focalLength ==
      RegressionResult(xiOut, fOut, width, width).focalLength * cropW as real / width as real
    ensures 0.0 <= xiOut <= 1.0 ==> 0.0 <= RegressionResult(xiOut, fOut, cropW, width).xi <= DistEnd
  {
    var f := fOut * (FocalEnd + 1.0 - FocalStart) + FocalStart;
    var w := width as real;
    assert f * w / w == f;
  }

  /** The classification variant (not compiled in the shipped build): the classes of
      the largest scores, read from the two class lists, the focal length scaled as
      in the regression variant. */
  method ClassificationResult(xiList: seq<real>, fList: seq<real>, distList: seq<real>, focalList: seq<real>,
                              cropW: int, width: int) returns (c: Calibration)
    requires width > 0 && 0 < |xiList| <= |distList| && 0 < |fList| <= |focalList|
    ensures exists i, j :: (IsMaxIndex(xiList, i) && IsMaxIndex(fList, j) &&
      c == Calibration(distList[i], focalList[j] * cropW as real / width as real))
  {
    var i := GetMaxIndex(xiList);
    var j := GetMaxIndex(fList);
    c := Calibration(distList[i], focalList[j] * cropW as real / width as real);
  }
}

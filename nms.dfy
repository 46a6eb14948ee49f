// Greedy non-maximum suppression of the palm detection engines: the detection
// list is sorted in place (by box area, or by score in the older engine), a
// merge-flag array is kept, and every unmerged detection absorbs the later
// unmerged detections of its class that overlap it by more than 0.5 IoU.

module PalmNms {
  import opened Common
  import opened TensorsToDetections

  // ---- Intersection over union ----

  /** CalculateIoU as written: the overlap extents are not clamped at zero, so
      two boxes that miss each other on both axes get a positive "overlap".
      A float division by zero gives +inf, -inf or NaN; the model returns
      FltMax, -FltMax and 0.0, which compare against the 0.5 threshold the
      same way. */
  function IoUAsWritten(a: Detection, b: Detection): real {
    var inter := SignedIntersection(a, b);
    FloatQuotient(inter, a.w * a.h + b.w * b.h - inter)
  }

  /** The overlap area as written: the product of the two unclamped extents. */
  function SignedIntersection(a: Detection, b: Detection): real {
    var ix0, iy0 := RMax(a.x, b.x), RMax(a.y, b.y);
    var ix1, iy1 := RMin(a.x + a.w, b.x + b.w), RMin(a.y + a.h, b.y + b.h);
    (ix1 - ix0) * (iy1 - iy0)
  }

  /** The float quotient inter / sum, with the division by zero as above. */
  function FloatQuotient(inter: real, sum: real): real {
    if sum != 0.0 then inter / sum
    else if inter > 0.0 then FltMax
    else if inter < 0.0 then -FltMax
    else 0.0
  }

  function Probe(x: real, y: real): Detection {
    Detection(1.0, 0, x, y, 1.0, 1.0, [])
  }

  /** Two unit boxes that share no point: (0,0)-(1,1) and (2,2)-(3,3). The
      unclamped extents are both -1, their product is +1, and the IoU as
      written is 1.0, so NMS suppresses the second box. */
  lemma IoUAsWrittenOverlapsDisjointBoxes()
    ensures IoUAsWritten(Probe(0.0, 0.0), Probe(2.0, 2.0)) == 1.0
    ensures Suppresses(IoUAsWritten, Probe(0.0, 0.0), Probe(2.0, 2.0))
  {
  }

  /** Width of the overlap of [a0, a0 + aw) and [b0, b0 + bw), zero when they miss. */
  function Overlap(a0: real, aw: real, b0: real, bw: real): (r: real)
    ensures r >= 0.0
    ensures aw >= 0.0 && bw >= 0.0 ==> r <= aw && r <= bw
    ensures r > 0.0 <==> RMin(a0 + aw, b0 + bw) > RMax(a0, b0)
  {
    RMax(0.0, RMin(a0 + aw, b0 + bw) - RMax(a0, b0))
  }

  function Area(a: Detection): real {
    a.w * a.h
  }

  /** The overlap area of two boxes, each extent clamped at zero. */
  function Intersection(a: Detection, b: Detection): real {
    Overlap(a.x, a.w, b.x, b.w) * Overlap(a.y, a.h, b.y, b.h)
  }

  function Ratio(inter: real, union: real): real {
    if union <= 0.0 then 0.0 else inter / union
  }

  /** CalculateIoU with the overlap clamped at zero, and 0 when the union is empty. */
  function IoU(a: Detection, b: Detection): real {
    Ratio(Intersection(a, b), Area(a) + Area(b) - Intersection(a, b))
  }

  lemma MulLe(a: real, b: real, c: real, d: real)
    requires 0.0 <= a <= c && 0.0 <= b <= d
    ensures 0.0 <= a * b <= c * d
  {
    assert a * b <= c * b;
    assert c * b <= c * d;
  }

  lemma MulLt(q: real, r: real, s: real)
    requires q < r && s > 0.0
    ensures q * s < r * s
  {
  }

  /** Dividing lo * s <= w <= hi * s by a positive s. */
  lemma DivBetween(w: real, s: real, lo: real, hi: real)
    requires s > 0.0 && lo * s <= w <= hi * s
    ensures lo <= w / s <= hi
  {
    var q := w / s;
    assert q * s == w;
    if q < lo {
      MulLt(q, lo, s);
    }
    if q > hi {
      MulLt(hi, q, s);
    }
  }

  lemma RatioUnit(inter: real, union: real)
    requires 0.0 <= inter <= union
    ensures 0.0 <= Ratio(inter, union) <= 1.0
  {
    if union > 0.0 {
      DivBetween(inter, union, 0.0, 1.0);
    }
  }

  lemma IntersectionBounds(a: Detection, b: Detection)
    requires a.w >= 0.0 && a.h >= 0.0 && b.w >= 0.0 && b.h >= 0.0
    ensures 0.0 <= Intersection(a, b) <= Area(a) && Intersection(a, b) <= Area(b)
  {
    var ox, oy := Overlap(a.x, a.w, b.x, b.w), Overlap(a.y, a.h, b.y, b.h);
    MulLe(ox, oy, a.w, a.h);
    MulLe(ox, oy, b.w, b.h);
  }

  lemma IoUAsWrittenSymmetric(a: Detection, b: Detection)
    ensures IoUAsWritten(a, b) == IoUAsWritten(b, a)
  {
    var inter := SignedIntersection(a, b);
    assert SignedIntersection(b, a) == inter by {
      assert RMax(a.x, b.x) == RMax(b.x, a.x) && RMax(a.y, b.y) == RMax(b.y, a.y);
      assert RMin(a.x + a.w, b.x + b.w) == RMin(b.x + b.w, a.x + a.w);
      assert RMin(a.y + a.h, b.y + b.h) == RMin(b.y + b.h, a.y + a.h);
    }
    assert b.w * b.h + a.w * a.h - inter == a.w * a.h + b.w * b.h - inter;
  }

  /** The corrected IoU is symmetric, lies in [0, 1] for boxes of non-negative
      size, and is 0 for boxes that do not overlap on some axis. */
  lemma IoUProperties(a: Detection, b: Detection)
    ensures IoU(a, b) == IoU(b, a)
    ensures a.w >= 0.0 && a.h >= 0.0 && b.w >= 0.0 && b.h >= 0.0 ==> 0.0 <= IoU(a, b) <= 1.0
    ensures RMin(a.x + a.w, b.x + b.w) <= RMax(a.x, b.x) || RMin(a.y + a.h, b.y + b.h) <= RMax(a.y, b.y)
            ==> IoU(a, b) == 0.0
  {
    IoUSymmetric(a, b);
    if a.w >= 0.0 && a.h >= 0.0 && b.w >= 0.0 && b.h >= 0.0 {
      IoUInUnit(a, b);
    }
    if RMin(a.x + a.w, b.x + b.w) <= RMax(a.x, b.x) || RMin(a.y + a.h, b.y + b.h) <= RMax(a.y, b.y) {
      IoUDisjoint(a, b);
    }
  }

  lemma IoUSymmetric(a: Detection, b: Detection)
    ensures IoU(a, b) == IoU(b, a)
  {
    assert Overlap(b.x, b.w, a.x, a.w) == Overlap(a.x, a.w, b.x, b.w);
    assert Overlap(b.y, b.h, a.y, a.h) == Overlap(a.y, a.h, b.y, b.h);
    assert Intersection(a, b) == Intersection(b, a);
  }

  lemma IoUInUnit(a: Detection, b: Detection)
    requires a.w >= 0.0 && a.h >= 0.0 && b.w >= 0.0 && b.h >= 0.0
    ensures 0.0 <= IoU(a, b) <= 1.0
  {
    IntersectionBounds(a, b);
    RatioUnit(Intersection(a, b), Area(a) + Area(b) - Intersection(a, b));
  }

  lemma IoUDisjoint(a: Detection, b: Detection)
    requires RMin(a.x + a.w, b.x + b.w) <= RMax(a.x, b.x) || RMin(a.y + a.h, b.y + b.h) <= RMax(a.y, b.y)
    ensures IoU(a, b) == 0.0
  {
    assert Intersection(a, b) == 0.0;
  }

  // ---- Greedy suppression, specified on the sorted list ----

  /** d[j] is absorbed by the anchor a: same class and IoU above 0.5. */
  predicate Suppresses(iou: (Detection, Detection) -> real, a: Detection, b: Detection) {
    a.classId == b.classId && iou(a, b) > 0.5
  }

  /** is_merged[j] when the outer loop reaches index k. */
  function Merged(d: seq<Detection>, iou: (Detection, Detection) -> real, k: int, j: int): bool
    requires 0 <= k <= |d| && 0 <= j < |d|
    decreases k, 0
  {
    if k == 0 then false
    else Merged(d, iou, k - 1, j) || (Kept(d, iou, k - 1) && k - 1 < j && Suppresses(iou, d[k - 1], d[j]))
  }

  /** d[k] becomes an anchor: nothing merged it before its turn. */
  predicate Kept(d: seq<Detection>, iou: (Detection, Detection) -> real, k: int)
    requires 0 <= k < |d|
    decreases k, 1
  {
    !Merged(d, iou, k, k)
  }

  /** The candidates the anchor d[k] absorbs among the indices below m. */
  function Followers(d: seq<Detection>, iou: (Detection, Detection) -> real, k: int, m: int): seq<Detection>
    requires 0 <= k < |d| && k + 1 <= m <= |d|
    decreases m
  {
    if m <= k + 1 then []
    else Followers(d, iou, k, m - 1)
         + (if !Merged(d, iou, k, m - 1) && Suppresses(iou, d[k], d[m - 1]) then [d[m - 1]] else [])
  }

  /** The candidate list of anchor d[k]: the anchor first, then what it absorbs. */
  function Candidates(d: seq<Detection>, iou: (Detection, Detection) -> real, k: int): (c: seq<Detection>)
    requires 0 <= k < |d|
    ensures |c| >= 1 && c[0] == d[k]
  {
    [d[k]] + Followers(d, iou, k, |d|)
  }

  /** What an anchor contributes to the output. */
  function Emit(d: seq<Detection>, iou: (Detection, Detection) -> real, useWeight: bool, k: int): seq<Detection>
    requires 0 <= k < |d|
    requires useWeight ==> SameKeypointCount(d)
  {
    if !useWeight then [d[k]]
    else
      var c := Candidates(d, iou, k);
      CandidatesKeypoints(d, iou, k);
      if |c| < 3 then [] else [WeightedMerge(c)]
  }

  /** The output after the outer loop has passed the first n detections. */
  function NmsOutput(d: seq<Detection>, iou: (Detection, Detection) -> real, useWeight: bool, n: int): seq<Detection>
    requires 0 <= n <= |d|
    requires useWeight ==> SameKeypointCount(d)
    decreases n
  {
    if n == 0 then []
    else NmsOutput(d, iou, useWeight, n - 1) + (if Kept(d, iou, n - 1) then Emit(d, iou, useWeight, n - 1) else [])
  }

  // ---- Score-weighted merge ----

  predicate SameKeypointCount(c: seq<Detection>) {
    forall i :: 0 <= i < |c| ==> |c[i].keypoints| == |c[0].keypoints|
  }

  lemma {:induction false} FollowersFrom(d: seq<Detection>, iou: (Detection, Detection) -> real, k: int, m: int)
    requires 0 <= k < |d| && k + 1 <= m <= |d|
    ensures forall p :: 0 <= p < |Followers(d, iou, k, m)| ==> Followers(d, iou, k, m)[p] in d
    decreases m
  {
    if m > k + 1 {
      FollowersFrom(d, iou, k, m - 1);
    }
  }

  lemma CandidatesKeypoints(d: seq<Detection>, iou: (Detection, Detection) -> real, k: int)
    requires 0 <= k < |d| && SameKeypointCount(d)
    ensures SameKeypointCount(Candidates(d, iou, k))
  {
    FollowersFrom(d, iou, k, |d|);
    var c := Candidates(d, iou, k);
    forall i | 0 <= i < |c| ensures |c[i].keypoints| == |d[0].keypoints| {
      if i > 0 {
        assert c[i] == Followers(d, iou, k, |d|)[i - 1];
      }
    }
  }

  /** Sum of f(c[i]) * c[i].score over the first m candidates. */
  function WeightedSum(c: seq<Detection>, f: Detection -> real, m: int): real
    requires 0 <= m <= |c|
    decreases m
  {
    if m == 0 then 0.0 else WeightedSum(c, f, m - 1) + f(c[m - 1]) * c[m - 1].score
  }

  function ScoreSum(c: seq<Detection>, m: int): real
    requires 0 <= m <= |c|
    decreases m
  {
    if m == 0 then 0.0 else ScoreSum(c, m - 1) + c[m - 1].score
  }

  function KpX(q: int): Detection -> real {
    (e: Detection) => if 0 <= q < |e.keypoints| then e.keypoints[q].0 else 0.0
  }

  function KpY(q: int): Detection -> real {
    (e: Detection) => if 0 <= q < |e.keypoints| then e.keypoints[q].1 else 0.0
  }

  function Scaled(v: real, s: real): real {
    if s == 0.0 then 0.0 else v / s
  }

  /** The merged box: class 0, the mean score, and every coordinate the
      score-weighted mean over the candidates. */
  function WeightedMerge(c: seq<Detection>): (m: Detection)
    requires |c| > 0
    ensures m.classId == 0 && |m.keypoints| == |c[0].keypoints|
  {
    var n, s := |c|, ScoreSum(c, |c|);
    Detection(ScoreSum(c, n) / (n as real), 0,
      Scaled(WeightedSum(c, (e: Detection) => e.x, n), s), Scaled(WeightedSum(c, (e: Detection) => e.y, n), s),
      Scaled(WeightedSum(c, (e: Detection) => e.w, n), s), Scaled(WeightedSum(c, (e: Detection) => e.h, n), s),
      seq(|c[0].keypoints|, q => (Scaled(WeightedSum(c, KpX(q), n), s), Scaled(WeightedSum(c, KpY(q), n), s))))
  }

  lemma {:induction false} WeightedSumBounds(c: seq<Detection>, f: Detection -> real, lo: real, hi: real, m: int)
    requires 0 <= m <= |c|
    requires forall i :: 0 <= i < |c| ==> c[i].score > 0.0 && lo <= f(c[i]) <= hi
    ensures lo * ScoreSum(c, m) <= WeightedSum(c, f, m) <= hi * ScoreSum(c, m)
    ensures m > 0 ==> ScoreSum(c, m) > 0.0
    decreases m
  {
    if m > 0 {
      WeightedSumBounds(c, f, lo, hi, m - 1);
      var e := c[m - 1];
      BoundsStep(lo, hi, ScoreSum(c, m - 1), WeightedSum(c, f, m - 1), e.score, f(e));
    }
  }

  /** Adding one more weighted value between lo and hi keeps the weighted sum
      between lo and hi times the total weight. */
  lemma BoundsStep(lo: real, hi: real, s: real, w: real, weight: real, v: real)
    requires lo * s <= w <= hi * s && weight > 0.0 && lo <= v <= hi
    ensures lo * (s + weight) <= w + v * weight <= hi * (s + weight)
  {
    assert lo * weight <= v * weight <= hi * weight;
    Distribute(lo, s, weight);
    Distribute(hi, s, weight);
  }

  lemma Distribute(a: real, x: real, y: real)
    ensures a * (x + y) == a * x + a * y
  {
  }

  /** With positive scores, each merged coordinate lies between the least and
      the greatest value of that coordinate over the candidates. */
  lemma WeightedMergeBetween(c: seq<Detection>, f: Detection -> real, lo: real, hi: real)
    requires |c| > 0
    requires forall i :: 0 <= i < |c| ==> c[i].score > 0.0 && lo <= f(c[i]) <= hi
    ensures var s := ScoreSum(c, |c|); s > 0.0 && lo <= WeightedSum(c, f, |c|) / s <= hi
  {
    WeightedSumBounds(c, f, lo, hi, |c|);
    var s, w := ScoreSum(c, |c|), WeightedSum(c, f, |c|);
    DivBetween(w, s, lo, hi);
  }

  /** Instantiating WeightedMergeBetween at the x coordinate of WeightedMerge. */
  lemma WeightedMergeX(c: seq<Detection>, lo: real, hi: real)
    requires |c| > 0
    requires forall i :: 0 <= i < |c| ==> c[i].score > 0.0 && lo <= c[i].x <= hi
    ensures lo <= WeightedMerge(c).x <= hi
  {
    WeightedMergeBetween(c, (e: Detection) => e.x, lo, hi);
  }

  // ---- What greedy suppression guarantees ----

  /** is_merged[j] is set by the time index k is reached exactly when some
      earlier anchor below k absorbed d[j]. */
  lemma {:induction false} MergedIff(d: seq<Detection>, iou: (Detection, Detection) -> real, k: int, j: int)
    requires 0 <= k <= |d| && 0 <= j < |d|
    ensures Merged(d, iou, k, j) <==>
      exists i :: 0 <= i < k && i < j && Kept(d, iou, i) && Suppresses(iou, d[i], d[j])
    decreases k
  {
    if k > 0 {
      MergedIff(d, iou, k - 1, j);
    }
  }

  /** A detection is an anchor exactly when no earlier anchor absorbs it. */
  lemma KeptIff(d: seq<Detection>, iou: (Detection, Detection) -> real, j: int)
    requires 0 <= j < |d|
    ensures Kept(d, iou, j) <==> forall i :: 0 <= i < j && Kept(d, iou, i) ==> !Suppresses(iou, d[i], d[j])
  {
    MergedIff(d, iou, j, j);
  }

  /** A merged detection never becomes an anchor. */
  lemma MergedNeverKept(d: seq<Detection>, iou: (Detection, Detection) -> real, k: int, j: int)
    requires 0 <= k <= j < |d| && Merged(d, iou, k, j)
    ensures !Kept(d, iou, j)
  {
    MergedIff(d, iou, k, j);
    MergedIff(d, iou, j, j);
  }

  /** The indices of the anchors among the first n detections. */
  function KeptIndices(d: seq<Detection>, iou: (Detection, Detection) -> real, n: int): seq<int>
    requires 0 <= n <= |d|
    decreases n
  {
    if n == 0 then [] else KeptIndices(d, iou, n - 1) + (if Kept(d, iou, n - 1) then [n - 1] else [])
  }

  /** Without weighting the output lists the anchors themselves, in order. */
  lemma {:induction false} UnweightedOutputIsAnchors(d: seq<Detection>, iou: (Detection, Detection) -> real, n: int)
    requires 0 <= n <= |d|
    ensures var out, idx := NmsOutput(d, iou, false, n), KeptIndices(d, iou, n);
      && |out| == |idx|
      && (forall p :: 0 <= p < |idx| ==> 0 <= idx[p] < n && Kept(d, iou, idx[p]) && out[p] == d[idx[p]])
      && (forall p, q :: 0 <= p < q < |idx| ==> idx[p] < idx[q])
      && (forall i :: 0 <= i < n ==> (Kept(d, iou, i) <==> i in idx))
    decreases n
  {
    if n > 0 {
      UnweightedOutputIsAnchors(d, iou, n - 1);
    }
  }

  /** Without weighting, no two output boxes of the same class overlap by more
      than 0.5 (in either argument order, when the IoU is symmetric), and
      every output box is one of the input boxes. */
  lemma UnweightedOutputSeparated(d: seq<Detection>, iou: (Detection, Detection) -> real, p: int, q: int)
    requires 0 <= p < q < |NmsOutput(d, iou, false, |d|)|
    ensures var out := NmsOutput(d, iou, false, |d|);
      && out[p] in d && out[q] in d
      && (out[p].classId == out[q].classId ==> iou(out[p], out[q]) <= 0.5)
      && ((forall a, b :: iou(a, b) == iou(b, a)) && out[p].classId == out[q].classId ==> iou(out[q], out[p]) <= 0.5)
  {
    UnweightedOutputIsAnchors(d, iou, |d|);
    var idx := KeptIndices(d, iou, |d|);
    KeptIff(d, iou, idx[q]);
  }

  /** Every detection that is not an anchor was absorbed by an earlier anchor of
      its class with IoU above 0.5. */
  lemma DroppedHasAnchor(d: seq<Detection>, iou: (Detection, Detection) -> real, j: int)
    requires 0 <= j < |d| && !Kept(d, iou, j)
    ensures exists i :: 0 <= i < j && Kept(d, iou, i) && d[i].classId == d[j].classId && iou(d[i], d[j]) > 0.5
  {
    KeptIff(d, iou, j);
  }

  // ---- Sorting ----

  datatype SortKey = ByArea | ByScore

  /** The quantity the comparator sorts on, largest first. */
  function KeyOf(key: SortKey, e: Detection): real {
    match key
    case ByArea => e.w * e.h
    case ByScore => e.score
  }

  predicate Descending(key: SortKey, s: seq<Detection>) {
    forall i, j :: 0 <= i < j < |s| ==> KeyOf(key, s[i]) >= KeyOf(key, s[j])
  }

  /** The in-place sort Nms starts with; std::sort is not stable, and ties may
      end in any order, of which this insertion sort picks one. */
  predicate PrefixDescending(key: SortKey, a: array<Detection>, n: int)
    requires 0 <= n <= a.Length
    reads a
  {
    forall p, q :: 0 <= p < q < n ==> KeyOf(key, a[p]) >= KeyOf(key, a[q])
  }

  method SortDescending(a: array<Detection>, key: SortKey)
    modifies a
    ensures Descending(key, a[..])
    ensures multiset(a[..]) == multiset(old(a[..]))
  {
    var i := 0;
    while i < a.Length
      invariant 0 <= i <= a.Length
      invariant PrefixDescending(key, a, i)
      invariant multiset(a[..]) == multiset(old(a[..]))
    {
      Insert(a, key, i);
      i := i + 1;
    }
  }

  /** One insertion step: sinks a[i] into the descending prefix a[..i]. */
  method Insert(a: array<Detection>, key: SortKey, i: int)
    requires 0 <= i < a.Length && PrefixDescending(key, a, i)
    modifies a
    ensures PrefixDescending(key, a, i + 1)
    ensures multiset(a[..]) == multiset(old(a[..]))
  {
    var j := i;
    while j > 0 && KeyOf(key, a[j - 1]) < KeyOf(key, a[j])
      invariant 0 <= j <= i
      invariant forall p, q :: 0 <= p < q <= i && q != j ==> KeyOf(key, a[p]) >= KeyOf(key, a[q])
      invariant 0 < j < i ==> KeyOf(key, a[j - 1]) >= KeyOf(key, a[j + 1])
      invariant multiset(a[..]) == multiset(old(a[..]))
    {
      Swap(a, j - 1, j);
      j := j - 1;
    }
  }

  method Swap(a: array<Detection>, i: int, j: int)
    requires 0 <= i < j < a.Length
    modifies a
    ensures a[i] == old(a[j]) && a[j] == old(a[i])
    ensures forall m :: 0 <= m < a.Length && m != i && m != j ==> a[m] == old(a[m])
    ensures multiset(a[..]) == multiset(old(a[..]))
  {
    a[i], a[j] := a[j], a[i];
  }

  // ---- The imperative suppression ----

  /** The inner loop for anchor k: collects the candidates and marks them merged. */
  method Absorb(d: seq<Detection>, iou: (Detection, Detection) -> real, isMerged: array<bool>, k: int)
    returns (candidates: seq<Detection>)
    requires isMerged.Length == |d| && 0 <= k < |d| && Kept(d, iou, k)
    requires forall j :: k <= j < |d| ==> isMerged[j] == Merged(d, iou, k, j)
    modifies isMerged
    ensures candidates == Candidates(d, iou, k)
    ensures forall j :: k + 1 <= j < |d| ==> isMerged[j] == Merged(d, iou, k + 1, j)
    ensures forall j :: 0 <= j <= k ==> isMerged[j] == old(isMerged[j])
  {
    candidates := [d[k]];
    var low := k + 1;
    while low < |d|
      invariant k + 1 <= low <= |d|
      invariant candidates == [d[k]] + Followers(d, iou, k, low)
      invariant forall j :: k + 1 <= j < low ==> isMerged[j] == Merged(d, iou, k + 1, j)
      invariant forall j :: low <= j < |d| ==> isMerged[j] == Merged(d, iou, k, j)
      invariant forall j :: 0 <= j <= k ==> isMerged[j] == old(isMerged[j])
    {
      if isMerged[low] {
        low := low + 1;
        continue;
      }
      if d[k].classId != d[low].classId {
        low := low + 1;
        continue;
      }
      if iou(d[k], d[low]) > 0.5 {
        candidates := candidates + [d[low]];
        isMerged[low] := true;
      }
      low := low + 1;
    }
  }

  /** The accumulation loop of the weighted branch: the score sums and the
      score-weighted sums of every coordinate. */
  method Accumulate(c: seq<Detection>) returns (sumScore: real, score: real, x: real, y: real, w: real, h: real,
                                               kps: seq<(real, real)>)
    requires |c| > 0 && SameKeypointCount(c)
    ensures sumScore == ScoreSum(c, |c|) && score == ScoreSum(c, |c|)
    ensures x == WeightedSum(c, (e: Detection) => e.x, |c|) && y == WeightedSum(c, (e: Detection) => e.y, |c|)
    ensures w == WeightedSum(c, (e: Detection) => e.w, |c|) && h == WeightedSum(c, (e: Detection) => e.h, |c|)
    ensures |kps| == |c[0].keypoints|
    ensures forall q :: 0 <= q < |kps| ==> kps[q] == (WeightedSum(c, KpX(q), |c|), WeightedSum(c, KpY(q), |c|))
  {
    var nk := |c[0].keypoints|;
    sumScore, score, x, y, w, h := 0.0, 0.0, 0.0, 0.0, 0.0, 0.0;
    kps := seq(nk, _ => (0.0, 0.0));
    var i := 0;
    while i < |c|
      invariant 0 <= i <= |c| && |kps| == nk
      invariant sumScore == ScoreSum(c, i) && score == ScoreSum(c, i)
      invariant x == WeightedSum(c, (e: Detection) => e.x, i) && y == WeightedSum(c, (e: Detection) => e.y, i)
      invariant w == WeightedSum(c, (e: Detection) => e.w, i) && h == WeightedSum(c, (e: Detection) => e.h, i)
      invariant forall q :: 0 <= q < nk ==> kps[q] == (WeightedSum(c, KpX(q), i), WeightedSum(c, KpY(q), i))
    {
      var e := c[i];
      sumScore := sumScore + e.score;
      score := score + e.score;
      x, y, w, h := x + e.x * e.score, y + e.y * e.score, w + e.w * e.score, h + e.h * e.score;
      kps := AccumulateKeypoints(c, i, kps);
      i := i + 1;
    }
  }

  /** The keypoint loop after the accumulation: every sum divided by the score sum. */
  method ScaleKeypoints(kps: seq<(real, real)>, sumScore: real) returns (r: seq<(real, real)>)
    ensures |r| == |kps|
    ensures forall q :: 0 <= q < |r| ==> r[q] == (Scaled(kps[q].0, sumScore), Scaled(kps[q].1, sumScore))
  {
    r := kps;
    var k := 0;
    while k < |r|
      invariant 0 <= k <= |r| && |r| == |kps|
      invariant forall q :: 0 <= q < k ==> r[q] == (Scaled(kps[q].0, sumScore), Scaled(kps[q].1, sumScore))
      invariant forall q :: k <= q < |r| ==> r[q] == kps[q]
    {
      r := r[k := (Scaled(r[k].0, sumScore), Scaled(r[k].1, sumScore))];
      k := k + 1;
    }
  }

  /** The weighted branch's merge of the candidates. */
  method MergeCandidates(candidates: seq<Detection>) returns (merged: Detection)
    requires |candidates| > 0 && SameKeypointCount(candidates)
    ensures merged == WeightedMerge(candidates)
  {
    var c := candidates;
    var sumScore, score, x, y, w, h, kps := Accumulate(c);
    score := score / (|c| as real);
    x, y, w, h := Scaled(x, sumScore), Scaled(y, sumScore), Scaled(w, sumScore), Scaled(h, sumScore);
    kps := ScaleKeypoints(kps, sumScore);
    merged := Detection(score, 0, x, y, w, h, kps);
    assert kps == WeightedMerge(c).keypoints;
  }

  /** The keypoint loop inside the accumulation, for candidate i. */
  method AccumulateKeypoints(c: seq<Detection>, i: int, kps: seq<(real, real)>) returns (r: seq<(real, real)>)
    requires 0 <= i < |c| && SameKeypointCount(c) && |kps| == |c[0].keypoints|
    requires forall q :: 0 <= q < |kps| ==> kps[q] == (WeightedSum(c, KpX(q), i), WeightedSum(c, KpY(q), i))
    ensures |r| == |kps|
    ensures forall q :: 0 <= q < |r| ==> r[q] == (WeightedSum(c, KpX(q), i + 1), WeightedSum(c, KpY(q), i + 1))
  {
    var e := c[i];
    r := kps;
    var k := 0;
    while k < |r|
      invariant 0 <= k <= |r| && |r| == |kps|
      invariant forall q :: 0 <= q < k ==> r[q] == (WeightedSum(c, KpX(q), i + 1), WeightedSum(c, KpY(q), i + 1))
      invariant forall q :: k <= q < |r| ==> r[q] == kps[q]
    {
      assert |e.keypoints| == |kps|;
      ghost var wx, wy := WeightedSum(c, KpX(k), i), WeightedSum(c, KpY(k), i);
      assert r[k] == kps[k] == (wx, wy);
      var nx := r[k].0 + e.keypoints[k].0 * e.score;
      var ny := r[k].1 + e.keypoints[k].1 * e.score;
      assert nx == wx + KpX(k)(e) * e.score == WeightedSum(c, KpX(k), i + 1);
      assert ny == wy + KpY(k)(e) * e.score == WeightedSum(c, KpY(k), i + 1);
      r := r[k := (nx, ny)];
      k := k + 1;
    }
  }

  /** Nms: sorts the list in place, then emits each anchor (or, when weighting,
      the score-weighted merge of an anchor with at least three candidates). */
  method Nms(detections: array<Detection>, iou: (Detection, Detection) -> real, useWeight: bool, key: SortKey)
    returns (out: seq<Detection>)
    requires useWeight ==> SameKeypointCount(detections[..])
    modifies detections
    ensures Descending(key, detections[..]) && multiset(detections[..]) == multiset(old(detections[..]))
    ensures useWeight ==> SameKeypointCount(detections[..])
    ensures out == NmsOutput(detections[..], iou, useWeight, detections.Length)
  {
    ghost var before := detections[..];
    SortDescending(detections, key);
    var d := detections[..];
    if useWeight {
      SortKeepsKeypointCount(before, d);
    }
    var isMerged := new bool[|d|](_ => false);
    out := [];
    var k := 0;
    while k < |d|
      invariant 0 <= k <= |d| && detections[..] == d
      invariant forall j :: k <= j < |d| ==> isMerged[j] == Merged(d, iou, k, j)
      invariant out == NmsOutput(d, iou, useWeight, k)
    {
      out := Visit(d, iou, useWeight, isMerged, k, out);
      k := k + 1;
    }
  }

  /** One pass of the suppression loop: a merged detection is skipped; an
      anchor absorbs its candidates and emits itself or their merge. */
  method Visit(d: seq<Detection>, iou: (Detection, Detection) -> real, useWeight: bool, isMerged: array<bool>, k: int,
               out: seq<Detection>) returns (outNext: seq<Detection>)
    requires isMerged.Length == |d| && 0 <= k < |d| && (useWeight ==> SameKeypointCount(d))
    requires forall j :: k <= j < |d| ==> isMerged[j] == Merged(d, iou, k, j)
    requires out == NmsOutput(d, iou, useWeight, k)
    modifies isMerged
    ensures forall j :: k + 1 <= j < |d| ==> isMerged[j] == Merged(d, iou, k + 1, j)
    ensures outNext == NmsOutput(d, iou, useWeight, k + 1)
  {
    if isMerged[k] {
      return out;
    }
    var candidates := Absorb(d, iou, isMerged, k);
    if useWeight {
      CandidatesKeypoints(d, iou, k);
      if |candidates| < 3 {
        return out;
      }
      var merged := MergeCandidates(candidates);
      outNext := out + [merged];
    } else {
      outNext := out + [candidates[0]];
    }
  }

  lemma SortKeepsKeypointCount(before: seq<Detection>, after: seq<Detection>)
    requires SameKeypointCount(before) && multiset(before) == multiset(after)
    ensures SameKeypointCount(after)
  {
    if |after| > 0 {
      assert after[0] in multiset(before);
      forall i | 0 <= i < |after| ensures |after[i].keypoints| == |before[0].keypoints| {
        assert after[i] in multiset(before);
      }
    }
  }
}

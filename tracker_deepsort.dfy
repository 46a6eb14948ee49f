// The DeepSORT-style tracker: like the other trackers it predicts every
// track with its Kalman filter, pairs predictions and detections through an
// external solver on a square cost matrix, updates, prunes and opens
// tracks, but its cost also weighs the cosine similarity between the
// detection's appearance feature and those stored in the track's history.
// The filter's estimates (KalmanStatus2Bbox), the solver's result, the IoU
// and the square root are inputs.

module DeepSortTracker {
  import opened Common
  import opened Tracking

  /** TrackDeepSort::kMaxHistoryNum. */
  const MaxHistory := 500
  /** TrackerDeepSort::kCostMax. */
  const CostMax := 1.0

  /** One history entry: filtered box, raw box and appearance feature. */
  datatype DeepData = DeepData(bbox: BoundingBox, bboxRaw: BoundingBox, feature: seq<real>)

  // ---------------------------------------------------------------------
  // Cosine similarity

  /** The dot product of two vectors of equal length. */
  function Dot(a: seq<real>, b: seq<real>): real
    requires |a| == |b|
  {
    if |a| == 0 then 0.0 else Dot(a[..|a| - 1], b[..|a| - 1]) + a[|a| - 1] * b[|a| - 1]
  }

  /** A square root that is positive on positive numbers. */
  ghost predicate PositiveRoot(sqrt: real -> real)
  {
    forall x :: x > 0.0 ==> sqrt(x) > 0.0
  }

  /** The exact square root (which is in particular positive on positive numbers). */
  ghost predicate ExactRoot(sqrt: real -> real)
  {
    && PositiveRoot(sqrt)
    && forall x :: x >= 0.0 ==> sqrt(x) >= 0.0 && sqrt(x) * sqrt(x) == x
  }

  /** CosineSimilarity: 999 for an empty or mismatched pair or a zero
      vector, else the cosine clamped below at 0. */
  function Cosine(a: seq<real>, b: seq<real>, sqrt: real -> real): real
    requires PositiveRoot(sqrt)
  {
    if |a| == 0 || |b| == 0 || |a| != |b| then 999.0
    else if Dot(a, a) == 0.0 || Dot(b, b) == 0.0 then 999.0
    else
      SquaresNonNegative(a);
      SquaresNonNegative(b);
      RMax(0.0, Dot(a, b) / Denominator(Dot(a, a), Dot(b, b), sqrt))
  }

  /** sqrt(n0) * sqrt(n1), positive for positive norms. */
  function Denominator(n0: real, n1: real, sqrt: real -> real): (r: real)
    requires PositiveRoot(sqrt) && n0 > 0.0 && n1 > 0.0
    ensures r > 0.0
  {
    PositiveProduct(sqrt(n0), sqrt(n1));
    sqrt(n0) * sqrt(n1)
  }

  lemma PositiveProduct(x: real, y: real)
    requires x > 0.0 && y > 0.0
    ensures x * y > 0.0
  {
  }

  lemma {:induction false} SquaresNonNegative(a: seq<real>)
    ensures Dot(a, a) >= 0.0
  {
    if |a| > 0 {
      SquaresNonNegative(a[..|a| - 1]);
      SquareNonNegative(a[|a| - 1]);
    }
  }

  lemma SquareNonNegative(x: real)
    ensures x * x >= 0.0
  {
  }

  lemma {:induction false} DotSymmetric(a: seq<real>, b: seq<real>)
    requires |a| == |b|
    ensures Dot(a, b) == Dot(b, a)
  {
    if |a| > 0 {
      DotSymmetric(a[..|a| - 1], b[..|a| - 1]);
    }
  }

  /** The similarity does not depend on the order of its arguments. */
  lemma CosineSymmetric(a: seq<real>, b: seq<real>, sqrt: real -> real)
    requires PositiveRoot(sqrt)
    ensures Cosine(a, b, sqrt) == Cosine(b, a, sqrt)
  {
    if |a| == |b| && |a| > 0 && Dot(a, a) != 0.0 && Dot(b, b) != 0.0 {
      DotSymmetric(a, b);
      SquaresNonNegative(a);
      SquaresNonNegative(b);
      assert Denominator(Dot(a, a), Dot(b, b), sqrt) == Denominator(Dot(b, b), Dot(a, a), sqrt);
    }
  }

  /** |a - t b|^2, summed coordinate by coordinate. */
  function GapSquares(a: seq<real>, b: seq<real>, t: real): real
    requires |a| == |b|
  {
    if |a| == 0 then 0.0
    else
      var n := |a| - 1;
      GapSquares(a[..n], b[..n], t) + (a[n] - t * b[n]) * (a[n] - t * b[n])
  }

  lemma {:induction false} GapSquaresNonNegative(a: seq<real>, b: seq<real>, t: real)
    requires |a| == |b|
    ensures GapSquares(a, b, t) >= 0.0
  {
    if |a| > 0 {
      var n := |a| - 1;
      GapSquaresNonNegative(a[..n], b[..n], t);
      SquareNonNegative(a[n] - t * b[n]);
    }
  }

  lemma ExpandSquare(x: real, y: real, t: real)
    ensures (x - t * y) * (x - t * y) == x * x - 2.0 * t * (x * y) + t * t * (y * y)
  {
  }

  lemma Regroup(aa: real, ab: real, bb: real, xx: real, xy: real, yy: real, t: real)
    ensures (aa - 2.0 * t * ab + t * t * bb) + (xx - 2.0 * t * xy + t * t * yy)
         == (aa + xx) - 2.0 * t * (ab + xy) + t * t * (bb + yy)
  {
  }

  /** cc = aa - 2 t ab + t^2 bb. */
  predicate Expanded(cc: real, aa: real, ab: real, bb: real, t: real)
  {
    cc == aa - 2.0 * t * ab + t * t * bb
  }

  /** One more coordinate in the expansion of |a - t b|^2: from the sums
      over the prefix (aa, ab, bb, cc) to the sums with coordinates x and y. */
  lemma CombinationStep(aa: real, ab: real, bb: real, cc: real, x: real, y: real, t: real,
                        aa1: real, ab1: real, bb1: real, cc1: real)
    requires Expanded(cc, aa, ab, bb, t)
    requires aa1 == aa + x * x && ab1 == ab + x * y && bb1 == bb + y * y && cc1 == cc + (x - t * y) * (x - t * y)
    ensures Expanded(cc1, aa1, ab1, bb1, t)
  {
    ExpandSquare(x, y, t);
    Regroup(aa, ab, bb, x * x, x * y, y * y, t);
  }

  /** |a - t b|^2 = |a|^2 - 2 t a.b + t^2 |b|^2. */
  lemma {:induction false} GapExpansion(a: seq<real>, b: seq<real>, t: real)
    requires |a| == |b|
    ensures Expanded(GapSquares(a, b, t), Dot(a, a), Dot(a, b), Dot(b, b), t)
  {
    if |a| > 0 {
      var n := |a| - 1;
      GapExpansion(a[..n], b[..n], t);
      CombinationStep(Dot(a[..n], a[..n]), Dot(a[..n], b[..n]), Dot(b[..n], b[..n]), GapSquares(a[..n], b[..n], t), a[n], b[n], t,
                      Dot(a, a), Dot(a, b), Dot(b, b), GapSquares(a, b, t));
    } else {
      ZeroExpansion(t);
    }
  }

  lemma ZeroExpansion(t: real)
    ensures Expanded(0.0, 0.0, 0.0, 0.0, t)
  {
  }

  /** A non-negative quadratic at its minimum t = ab / bb bounds ab^2. */
  lemma QuadraticBound(g: real, aa: real, ab: real, bb: real)
    requires bb > 0.0 && g >= 0.0 && Expanded(g, aa, ab, bb, ab / bb)
    ensures ab * ab <= aa * bb
  {
    var t := ab / bb;
    assert t * bb == ab;
    assert t * t * bb == t * ab;
    assert aa - t * ab >= 0.0;
    assert aa * bb - t * ab * bb >= 0.0;
  }

  /** The Cauchy-Schwarz inequality, for a nonzero b. */
  lemma CauchySchwarz(a: seq<real>, b: seq<real>)
    requires |a| == |b| && Dot(b, b) != 0.0
    ensures Dot(a, b) * Dot(a, b) <= Dot(a, a) * Dot(b, b)
  {
    SquaresNonNegative(b);
    var t := Dot(a, b) / Dot(b, b);
    GapExpansion(a, b, t);
    GapSquaresNonNegative(a, b, t);
    QuadraticBound(GapSquares(a, b, t), Dot(a, a), Dot(a, b), Dot(b, b));
  }

  /** d / den <= 1 when den = s0 s1 > 0 and d^2 <= s0^2 s1^2. */
  lemma UnitRatio(d: real, den: real, s0: real, s1: real, aa: real, bb: real)
    requires s0 > 0.0 && s1 > 0.0 && den == s0 * s1 && s0 * s0 == aa && s1 * s1 == bb && d * d <= aa * bb
    ensures d / den <= 1.0
  {
    PositiveProduct(s0, s1);
    ProductSquare(s0, s1);
    AtMostRoot(d, den);
    assert d / den * den == d;
  }

  lemma ProductSquare(s0: real, s1: real)
    ensures (s0 * s1) * (s0 * s1) == (s0 * s0) * (s1 * s1)
  {
  }

  /** d * d <= den * den with den > 0 forces d <= den. */
  lemma AtMostRoot(d: real, den: real)
    requires den > 0.0 && d * d <= den * den
    ensures d <= den
  {
    if d > den {
      PositiveProduct(d - den, d + den);
      assert false;
    }
  }

  /** With the exact square root the similarity is 999 exactly for the
      invalid pairs and lies in [0, 1] otherwise. */
  lemma CosineRange(a: seq<real>, b: seq<real>, sqrt: real -> real)
    requires ExactRoot(sqrt)
    ensures var r := Cosine(a, b, sqrt);
      && (r == 999.0 <==> |a| == 0 || |a| != |b| || Dot(a, a) == 0.0 || Dot(b, b) == 0.0)
      && (r != 999.0 ==> 0.0 <= r <= 1.0)
  {
    if |a| == |b| && |a| > 0 && Dot(a, a) != 0.0 && Dot(b, b) != 0.0 {
      ValidCosineAtMostOne(a, b, sqrt);
    }
  }

  lemma ValidCosineAtMostOne(a: seq<real>, b: seq<real>, sqrt: real -> real)
    requires ExactRoot(sqrt) && |a| == |b| && |a| > 0 && Dot(a, a) != 0.0 && Dot(b, b) != 0.0
    ensures Cosine(a, b, sqrt) <= 1.0
  {
    SquaresNonNegative(a);
    SquaresNonNegative(b);
    var aa, bb := Dot(a, a), Dot(b, b);
    CauchySchwarz(a, b);
    var den := Denominator(aa, bb, sqrt);
    UnitRatio(Dot(a, b), den, sqrt(aa), sqrt(bb), aa, bb);
    var q := Dot(a, b) / den;
    assert Cosine(a, b, sqrt) == RMax(0.0, q);
  }

  /** A nonzero vector is fully similar to itself. */
  lemma CosineSelf(a: seq<real>, sqrt: real -> real)
    requires ExactRoot(sqrt) && |a| > 0 && Dot(a, a) != 0.0
    ensures Cosine(a, a, sqrt) == 1.0
  {
    SquaresNonNegative(a);
    var aa := Dot(a, a);
    assert sqrt(aa) * sqrt(aa) == aa;
    assert Denominator(aa, aa, sqrt) == aa;
    assert Dot(a, a) / Denominator(aa, aa, sqrt) == 1.0;
  }

  /** The accumulating loop of CosineSimilarity. */
  method CosineSimilarity(feature0: seq<real>, feature1: seq<real>, sqrt: real -> real) returns (r: real)
    requires PositiveRoot(sqrt)
    ensures r == Cosine(feature0, feature1, sqrt)
  {
    if |feature0| == 0 || |feature1| == 0 || |feature0| != |feature1| {
      return 999.0;
    }
    var norm0, norm1, dot := 0.0, 0.0, 0.0;
    var i := 0;
    while i < |feature0|
      invariant 0 <= i <= |feature0|
      invariant norm0 == Dot(feature0[..i], feature0[..i]) && norm1 == Dot(feature1[..i], feature1[..i])
      invariant dot == Dot(feature0[..i], feature1[..i])
    {
      assert feature0[..i + 1][..i] == feature0[..i] && feature1[..i + 1][..i] == feature1[..i];
      norm0 := norm0 + feature0[i] * feature0[i];
      norm1 := norm1 + feature1[i] * feature1[i];
      dot := dot + feature0[i] * feature1[i];
      i := i + 1;
    }
    assert feature0[..i] == feature0 && feature1[..i] == feature1;
    if norm0 == 0.0 || norm1 == 0.0 {
      return 999.0;
    }
    SquaresNonNegative(feature0);
    SquaresNonNegative(feature1);
    r := RMax(0.0, dot / Denominator(norm0, norm1, sqrt));
  }

  /** AdjustFeatureSimilarity: similarities up to 0.9 count as none, the
      rest is stretched tenfold. */
  function Adjust(value: real): real
  {
    RMax(0.0, (value - 0.9) * 10.0)
  }

  lemma AdjustProperties(v: real, w: real)
    ensures Adjust(v) >= 0.0
    ensures Adjust(v) == 0.0 <==> v <= 0.9
    ensures v <= 1.0 ==> Adjust(v) <= 1.0
    ensures v <= w ==> Adjust(v) <= Adjust(w)
  {
  }

  // ---------------------------------------------------------------------
  // TrackDeepSort

  /** The box TrackDeepSort::Predict returns: the latest box moved to the estimate, score 0. */
  function PredictedBox(t: Track<DeepData>, e: Estimate): (r: BoundingBox)
    requires |t.history| > 0
    ensures r.classId == Latest(t).bbox.classId && r.score == 0.0 && r.x == e.x && r.y == e.y && r.w == e.w && r.h == e.h
  {
    Placed(Latest(t).bbox, e).(score := 0.0)
  }

  /** The latest entry is copied (feature included) with the predicted box
      as filtered and raw box, and the copy is pushed. */
  function Predict(t: Track<DeepData>, e: Estimate): Track<DeepData>
    requires |t.history| > 0
  {
    var b := PredictedBox(t, e);
    t.(history := PushBounded(t.history, Latest(t).(bbox := b, bboxRaw := b), MaxHistory))
  }

  /** TrackDeepSort::Update: the latest entry takes the detection as raw box
      and the detection at the estimate as filtered box. */
  function Update(t: Track<DeepData>, det: BoundingBox, e: Estimate): Track<DeepData>
    requires |t.history| > 0
  {
    t.(history := SetLatest(t.history, Latest(t).(bbox := Placed(det, e), bboxRaw := det)),
       cntDetected := t.cntDetected + 1, cntUndetected := 0)
  }

  /** `GetLatestData().feature = ...`. */
  function WithFeature(t: Track<DeepData>, feature: seq<real>): Track<DeepData>
    requires |t.history| > 0
  {
    t.(history := SetLatest(t.history, Latest(t).(feature := feature)))
  }

  function UpdateNoDetect(t: Track<DeepData>): Track<DeepData>
  {
    t.(cntUndetected := t.cntUndetected + 1)
  }

  /** Predict adds an entry with the predicted box, score 0 and the previous
      feature, within the bound; Update rewrites the latest boxes and keeps
      its feature; UpdateNoDetect only counts a miss. */
  lemma TrackOperations(t: Track<DeepData>, e: Estimate, det: BoundingBox, e2: Estimate)
    requires 1 <= |t.history| <= MaxHistory
    ensures var p := Predict(t, e);
      && 1 <= |p.history| <= MaxHistory
      && (|t.history| < MaxHistory ==> p.history[..|t.history|] == t.history)
      && Latest(p) == DeepData(PredictedBox(t, e), PredictedBox(t, e), Latest(t).feature)
      && p.id == t.id && p.cntDetected == t.cntDetected && p.cntUndetected == t.cntUndetected
    ensures var u := Update(t, det, e2);
      && |u.history| == |t.history| && u.history[..|u.history| - 1] == t.history[..|t.history| - 1]
      && Latest(u) == DeepData(Placed(det, e2), det, Latest(t).feature)
      && u.id == t.id && u.cntDetected == t.cntDetected + 1 && u.cntUndetected == 0
    ensures var n := UpdateNoDetect(t);
      n.history == t.history && n.id == t.id && n.cntDetected == t.cntDetected && n.cntUndetected == t.cntUndetected + 1
  {
    var b := PredictedBox(t, e);
    var d := Latest(t).(bbox := b, bboxRaw := b);
    PushBoundedKeepsNewest(t.history, d, MaxHistory);
    if |t.history| < MaxHistory {
      assert PushBounded(t.history, d, MaxHistory) == t.history + [d];
    }
  }

  // ---------------------------------------------------------------------
  // TrackerDeepSort::CalculateCost

  /** The pair is too far apart: the squared distance of the origins
      exceeds four times the square of the mean side (C division). */
  predicate Far(tb: BoundingBox, db: BoundingBox)
  {
    var dx, dy := tb.x - db.x, tb.y - db.y;
    var side := CDiv(tb.w + tb.h + db.w + db.h, 4);
    dx * dx + dy * dy > side * side * 4
  }

  /** The similarities of the sampled past features, walking back from
      entry i in steps of 5, skipping entries whose raw score is 0, stopping
      at the first invalid similarity (second component false) or once more
      than 10 are collected. */
  function Sampling(h: seq<DeepData>, feature: seq<real>, sqrt: real -> real, i: int, acc: seq<real>): (r: (seq<real>, bool))
    requires i < |h| && PositiveRoot(sqrt)
    decreases i + 1
  {
    if i < 0 then (acc, true)
    else if h[i].bboxRaw.score == 0.0 then Sampling(h, feature, sqrt, i - 5, acc)
    else
      var v := Cosine(h[i].feature, feature, sqrt);
      if v == 999.0 then (acc, false)
      else if |acc + [v]| > 10 then (acc + [v], true)
      else Sampling(h, feature, sqrt, i - 5, acc + [v])
  }

  /** At most 11 similarities are taken, none of them the invalid 999; an
      invalid one stops the walk only at a detected entry whose similarity
      is 999. */
  lemma {:induction false} SamplingBounds(h: seq<DeepData>, feature: seq<real>, sqrt: real -> real, i: int, acc: seq<real>)
    requires i < |h| && PositiveRoot(sqrt) && |acc| <= 10
    ensures var r := Sampling(h, feature, sqrt, i, acc);
      && |acc| <= |r.0| <= 11 && r.0[..|acc|] == acc
      && (forall k :: |acc| <= k < |r.0| ==> r.0[k] != 999.0)
      && (!r.1 ==> exists j :: 0 <= j <= i && h[j].bboxRaw.score != 0.0 && Cosine(h[j].feature, feature, sqrt) == 999.0)
    decreases i + 1
  {
    if i >= 0 {
      if h[i].bboxRaw.score == 0.0 {
        SamplingBounds(h, feature, sqrt, i - 5, acc);
      } else {
        var v := Cosine(h[i].feature, feature, sqrt);
        if v != 999.0 && |acc + [v]| <= 10 {
          SamplingBounds(h, feature, sqrt, i - 5, acc + [v]);
          var r := Sampling(h, feature, sqrt, i - 5, acc + [v]);
          assert r.0[..|acc|] == r.0[..|acc| + 1][..|acc|];
        }
      }
    }
  }

  /** Every value lies in [0, 1]. */
  ghost predicate InUnit(s: seq<real>)
  {
    forall k :: 0 <= k < |s| ==> 0.0 <= s[k] <= 1.0
  }

  /** With the exact square root every sampled similarity lies in [0, 1]. */
  lemma {:induction false} SamplingInUnit(h: seq<DeepData>, feature: seq<real>, sqrt: real -> real, i: int, acc: seq<real>)
    requires i < |h| && ExactRoot(sqrt) && InUnit(acc)
    ensures InUnit(Sampling(h, feature, sqrt, i, acc).0)
    decreases i + 1
  {
    if i >= 0 {
      if h[i].bboxRaw.score == 0.0 {
        SamplingInUnit(h, feature, sqrt, i - 5, acc);
      } else {
        var v := Cosine(h[i].feature, feature, sqrt);
        CosineRange(h[i].feature, feature, sqrt);
        if v != 999.0 {
          var acc' := acc + [v];
          assert InUnit(acc');
          if |acc'| <= 10 {
            SamplingInUnit(h, feature, sqrt, i - 5, acc');
          }
        }
      }
    }
  }

  function Sum(s: seq<real>): real
  {
    if |s| == 0 then 0.0 else Sum(s[..|s| - 1]) + s[|s| - 1]
  }

  /** The average of the samples, 0 for none. */
  function Mean(s: seq<real>): real
  {
    if |s| > 0 then Sum(s) / (|s| as real) else 0.0
  }

  lemma {:induction false} SumInUnit(s: seq<real>)
    requires InUnit(s)
    ensures 0.0 <= Sum(s) <= |s| as real
  {
    if |s| > 0 {
      SumInUnit(s[..|s| - 1]);
    }
  }

  lemma MeanInUnit(s: seq<real>)
    requires InUnit(s)
    ensures 0.0 <= Mean(s) <= 1.0
  {
    SumInUnit(s);
  }

  /** The similarity of the pair: IoU and adjusted feature similarity with
      weight 1 each, or the IoU alone when the feature weight was zeroed. */
  function Blend(samples: seq<real>, featureValid: bool, iou: real): real
  {
    var weight := if featureValid then 1.0 else 0.0;
    (weight * Adjust(Mean(samples)) + iou) / (weight + 1.0)
  }

  /** The cost of pairing a (predicted) track with a detection. */
  function PairCost(t: Track<DeepData>, det: BoundingBox, feature: seq<real>, iou: (BoundingBox, BoundingBox) -> real,
                    sqrt: real -> real): real
    requires |t.history| > 0 && PositiveRoot(sqrt)
  {
    var tb := Latest(t).bbox;
    if Far(tb, det) then CostMax
    else
      var v := iou(tb, det);
      if v < 0.8 && tb.classId != det.classId then CostMax
      else
        var s := Sampling(t.history, feature, sqrt, |t.history| - 2, []);
        CostMax - Blend(s.0, s.1, v)
  }

  /** The cost lies in [kCostMax - 1, kCostMax]; it is below kCostMax
      exactly when the pair is near, of one class or overlapping by 0.8,
      and similar (positive IoU, or a valid mean feature similarity above
      0.9); without a valid feature it is kCostMax minus the IoU. */
  lemma PairCostGate(t: Track<DeepData>, det: BoundingBox, feature: seq<real>, iou: (BoundingBox, BoundingBox) -> real,
                     sqrt: real -> real)
    requires |t.history| > 0 && ExactRoot(sqrt) && 0.0 <= iou(Latest(t).bbox, det) <= 1.0
    ensures
      var tb := Latest(t).bbox;
      var v := iou(tb, det);
      var s := Sampling(t.history, feature, sqrt, |t.history| - 2, []);
      var c := PairCost(t, det, feature, iou, sqrt);
      && CostMax - 1.0 <= c <= CostMax
      && (c < CostMax <==> !Far(tb, det) && (v >= 0.8 || tb.classId == det.classId) && (v > 0.0 || (s.1 && Mean(s.0) > 0.9)))
      && (!Far(tb, det) && (v >= 0.8 || tb.classId == det.classId) && !s.1 ==> c == CostMax - v)
  {
    var s := Sampling(t.history, feature, sqrt, |t.history| - 2, []);
    SamplingInUnit(t.history, feature, sqrt, |t.history| - 2, []);
    MeanInUnit(s.0);
    AdjustProperties(Mean(s.0), 1.0);
  }

  /** CalculateCost with its sampling loop. */
  method CalculateCost(t: Track<DeepData>, det: BoundingBox, feature: seq<real>, iou: (BoundingBox, BoundingBox) -> real,
                       sqrt: real -> real) returns (c: real)
    requires |t.history| > 0 && PositiveRoot(sqrt)
    ensures c == PairCost(t, det, feature, iou, sqrt)
  {
    var tb := Latest(t).bbox;
    if Far(tb, det) {
      return CostMax;
    }
    var v := iou(tb, det);
    if v < 0.8 && tb.classId != det.classId {
      return CostMax;
    }
    var featureValid := true;
    var history: seq<real> := [];
    var i := |t.history| - 2;
    ghost var whole := Sampling(t.history, feature, sqrt, |t.history| - 2, []);
    while i >= 0
      invariant i < |t.history|
      invariant Sampling(t.history, feature, sqrt, i, history) == whole
      invariant featureValid
      decreases i + 1
    {
      var data := t.history[i];
      if data.bboxRaw.score == 0.0 {
        i := i - 5;
        continue;
      }
      var val := CosineSimilarity(data.feature, feature, sqrt);
      if val == 999.0 {
        featureValid := false;
        break;
      }
      history := history + [val];
      if |history| > 10 {
        break;
      }
      i := i - 5;
    }
    assert (history, featureValid) == whole;
    c := CostMax - Blend(history, featureValid, v);
  }

  // ---------------------------------------------------------------------
  // One call of TrackerDeepSort::Update

  function CostRow(ps: seq<Track<DeepData>>, dets: seq<BoundingBox>, features: seq<seq<real>>, i: int, n: nat,
                   iou: (BoundingBox, BoundingBox) -> real, sqrt: real -> real): (r: seq<real>)
    requires HistoriesNonEmpty(ps) && |features| == |dets| && PositiveRoot(sqrt)
    ensures |r| == n
    ensures forall j :: 0 <= j < n ==>
      r[j] == if 0 <= i < |ps| && j < |dets| then PairCost(ps[i], dets[j], features[j], iou, sqrt) else CostMax
  {
    seq(n, j => if 0 <= i < |ps| && 0 <= j < |dets| then PairCost(ps[i], dets[j], features[j], iou, sqrt) else CostMax)
  }

  /** The square matrix of size max(#tracks, #detections), kCostMax outside
      the real pairs. */
  function CostMatrix(ps: seq<Track<DeepData>>, dets: seq<BoundingBox>, features: seq<seq<real>>,
                      iou: (BoundingBox, BoundingBox) -> real, sqrt: real -> real): (m: seq<seq<real>>)
    requires HistoriesNonEmpty(ps) && |features| == |dets| && PositiveRoot(sqrt)
    ensures |m| == Max(|ps|, |dets|) && Rectangular(m, Max(|ps|, |dets|))
    ensures forall i :: 0 <= i < |m| ==> m[i] == CostRow(ps, dets, features, i, |m|, iou, sqrt)
  {
    var n := Max(|ps|, |dets|);
    seq(n, i => CostRow(ps, dets, features, i, n, iou, sqrt))
  }

  function Predicted(ts: seq<Track<DeepData>>, pe: seq<Estimate>): (r: seq<Track<DeepData>>)
    requires |pe| == |ts| && HistoriesNonEmpty(ts)
    ensures |r| == |ts| && forall i :: 0 <= i < |ts| ==> r[i] == Predict(ts[i], pe[i])
    ensures HistoriesNonEmpty(r)
  {
    seq(|ts|, i requires 0 <= i < |ts| => Predict(ts[i], pe[i]))
  }

  /** The detection each (predicted) track is updated with, or -1. */
  function Matches(ps: seq<Track<DeepData>>, dets: seq<BoundingBox>, features: seq<seq<real>>, solverOut: seq<int>,
                   iou: (BoundingBox, BoundingBox) -> real, sqrt: real -> real): (r: seq<int>)
    requires HistoriesNonEmpty(ps) && |features| == |dets| && PositiveRoot(sqrt) && |solverOut| == Max(|ps|, |dets|)
    ensures |r| == |ps| && forall i :: 0 <= i < |ps| ==> -1 <= r[i] < |dets|
  {
    var m := CostMatrix(ps, dets, features, iou, sqrt);
    Accepted(m, Solution(|ps|, |dets|, solverOut), |ps|, |dets|, CostMax)
  }

  /** A track is updated with detection d exactly when the solver paired
      them and their cost is below kCostMax. */
  lemma MatchesGate(ps: seq<Track<DeepData>>, dets: seq<BoundingBox>, features: seq<seq<real>>, solverOut: seq<int>,
                    iou: (BoundingBox, BoundingBox) -> real, sqrt: real -> real, i: int, d: int)
    requires HistoriesNonEmpty(ps) && |features| == |dets| && PositiveRoot(sqrt) && |solverOut| == Max(|ps|, |dets|)
    requires 0 <= i < |ps| && 0 <= d < |dets|
    ensures Matches(ps, dets, features, solverOut, iou, sqrt)[i] == d
      <==> solverOut[i] == d && PairCost(ps[i], dets[d], features[d], iou, sqrt) < CostMax
  {
    var m := CostMatrix(ps, dets, features, iou, sqrt);
    AcceptedIff(m, Solution(|ps|, |dets|, solverOut), |ps|, |dets|, CostMax, i, d);
    assert m[i][d] == PairCost(ps[i], dets[d], features[d], iou, sqrt);
  }

  function Corrected(p: Track<DeepData>, paired: int, dets: seq<BoundingBox>, features: seq<seq<real>>, e: Estimate): Track<DeepData>
    requires |p.history| > 0 && paired < |dets| == |features|
  {
    if paired >= 0 then WithFeature(Update(p, dets[paired], e), features[paired]) else UpdateNoDetect(p)
  }

  function CorrectedAll(ps: seq<Track<DeepData>>, matches: seq<int>, dets: seq<BoundingBox>, features: seq<seq<real>>,
                        ue: seq<Estimate>): (r: seq<Track<DeepData>>)
    requires HistoriesNonEmpty(ps) && |matches| == |ps| == |ue| && |dets| == |features|
    requires forall i :: 0 <= i < |ps| ==> matches[i] < |dets|
    ensures |r| == |ps| && forall i :: 0 <= i < |ps| ==> r[i] == Corrected(ps[i], matches[i], dets, features, ue[i])
  {
    seq(|ps|, i requires 0 <= i < |ps| => Corrected(ps[i], matches[i], dets, features, ue[i]))
  }

  /** The first entries of the tracks opened for the detections. */
  function Firsts(dets: seq<BoundingBox>, features: seq<seq<real>>): (r: seq<DeepData>)
    requires |dets| == |features|
    ensures |r| == |dets| && forall d :: 0 <= d < |dets| ==> r[d] == DeepData(dets[d], dets[d], features[d])
  {
    seq(|dets|, d requires 0 <= d < |dets| => DeepData(dets[d], dets[d], features[d]))
  }

  /** The track list after TrackerDeepSort::Update; pe and ue are the
      filters' estimates after predicting and after updating. */
  function Stepped(ts: seq<Track<DeepData>>, next: int, dets: seq<BoundingBox>, features: seq<seq<real>>,
                   pe: seq<Estimate>, ue: seq<Estimate>, solverOut: seq<int>,
                   iou: (BoundingBox, BoundingBox) -> real, sqrt: real -> real, thresholdDelete: int): seq<Track<DeepData>>
    requires |pe| == |ts| == |ue| && HistoriesNonEmpty(ts) && |features| == |dets| && PositiveRoot(sqrt)
    requires |solverOut| == Max(|ts|, |dets|)
  {
    var ps := Predicted(ts, pe);
    var matches := Matches(ps, dets, features, solverOut, iou, sqrt);
    Surviving(CorrectedAll(ps, matches, dets, features, ue), thresholdDelete)
      + Spawned(Firsts(dets, features), Unclaimed(matches, |dets|), next)
  }

  /** The number of tracks one Update opens. */
  function Added(ts: seq<Track<DeepData>>, dets: seq<BoundingBox>, features: seq<seq<real>>, pe: seq<Estimate>,
                 solverOut: seq<int>, iou: (BoundingBox, BoundingBox) -> real, sqrt: real -> real): nat
    requires |pe| == |ts| && HistoriesNonEmpty(ts) && |features| == |dets| && PositiveRoot(sqrt)
    requires |solverOut| == Max(|ts|, |dets|)
  {
    CountTrue(Unclaimed(Matches(Predicted(ts, pe), dets, features, solverOut, iou, sqrt), |dets|))
  }

  lemma PredictedNumbered(ts: seq<Track<DeepData>>, pe: seq<Estimate>, next: int)
    requires |pe| == |ts| && WellNumbered(ts, next, MaxHistory)
    ensures WellNumbered(Predicted(ts, pe), next, MaxHistory)
  {
    var r := Predicted(ts, pe);
    forall i | 0 <= i < |ts|
      ensures r[i].id == ts[i].id && 1 <= |r[i].history| <= MaxHistory
    {
      TrackOperations(ts[i], pe[i], BoundingBox(0, 0.0, 0, 0, 0, 0), pe[i]);
    }
  }

  lemma CorrectedNumbered(ps: seq<Track<DeepData>>, matches: seq<int>, dets: seq<BoundingBox>, features: seq<seq<real>>,
                          ue: seq<Estimate>, next: int)
    requires |matches| == |ps| == |ue| && |dets| == |features| && forall i :: 0 <= i < |ps| ==> matches[i] < |dets|
    requires WellNumbered(ps, next, MaxHistory)
    ensures WellNumbered(CorrectedAll(ps, matches, dets, features, ue), next, MaxHistory)
  {
    var r := CorrectedAll(ps, matches, dets, features, ue);
    forall i | 0 <= i < |ps|
      ensures r[i].id == ps[i].id && |r[i].history| == |ps[i].history|
    {
    }
  }

  /** An updated track's latest entry carries its detection's feature. */
  lemma CorrectedFeature(p: Track<DeepData>, paired: int, dets: seq<BoundingBox>, features: seq<seq<real>>, e: Estimate)
    requires |p.history| > 0 && 0 <= paired < |dets| == |features|
    ensures Latest(Corrected(p, paired, dets, features, e)) == DeepData(Placed(dets[paired], e), dets[paired], features[paired])
  {
  }

  /** TrackerDeepSort::Update keeps ids distinct and below the next id and
      histories within 500 entries; surviving old tracks missed fewer than
      threshold frames; every detection either updates a track or opens the
      track whose id is next plus the number of such detections before it. */
  lemma SteppedProperties(ts: seq<Track<DeepData>>, next: int, dets: seq<BoundingBox>, features: seq<seq<real>>,
                          pe: seq<Estimate>, ue: seq<Estimate>, solverOut: seq<int>,
                          iou: (BoundingBox, BoundingBox) -> real, sqrt: real -> real, thresholdDelete: int)
    requires |pe| == |ts| == |ue| && |features| == |dets| && PositiveRoot(sqrt) && |solverOut| == Max(|ts|, |dets|)
    requires next >= 0 && WellNumbered(ts, next, MaxHistory)
    ensures StepOutcome(Stepped(ts, next, dets, features, pe, ue, solverOut, iou, sqrt, thresholdDelete),
                        |ts|, thresholdDelete, Firsts(dets, features),
                        Matches(Predicted(ts, pe), dets, features, solverOut, iou, sqrt), next, MaxHistory)
  {
    var ps := Predicted(ts, pe);
    PredictedNumbered(ts, pe, next);
    var matches := Matches(ps, dets, features, solverOut, iou, sqrt);
    CorrectedNumbered(ps, matches, dets, features, ue, next);
    var r := Stepped(ts, next, dets, features, pe, ue, solverOut, iou, sqrt, thresholdDelete);
    PruneThenSpawnOutcome(r, CorrectedAll(ps, matches, dets, features, ue), thresholdDelete, Firsts(dets, features), matches, next, MaxHistory);
  }

  // ---------------------------------------------------------------------
  // The loops of TrackerDeepSort::Update

  method PredictAll(ts: seq<Track<DeepData>>, pe: seq<Estimate>) returns (ps: seq<Track<DeepData>>)
    requires |pe| == |ts| && HistoriesNonEmpty(ts)
    ensures ps == Predicted(ts, pe)
  {
    ps := ts;
    var i := 0;
    while i < |ts|
      invariant 0 <= i <= |ts| && |ps| == |ts|
      invariant forall k :: 0 <= k < i ==> ps[k] == Predict(ts[k], pe[k])
      invariant forall k :: i <= k < |ts| ==> ps[k] == ts[k]
    {
      ps := ps[i := Predict(ts[i], pe[i])];
      i := i + 1;
    }
  }

  /** The matrix starts at kCostMax; each real pair gets CalculateCost. */
  method FillCostMatrix(ps: seq<Track<DeepData>>, dets: seq<BoundingBox>, features: seq<seq<real>>,
                        iou: (BoundingBox, BoundingBox) -> real, sqrt: real -> real) returns (m: seq<seq<real>>)
    requires HistoriesNonEmpty(ps) && |features| == |dets| && PositiveRoot(sqrt)
    ensures m == CostMatrix(ps, dets, features, iou, sqrt)
  {
    var n := Max(|ps|, |dets|);
    var blank := seq(n, _ => CostMax);
    m := seq(n, _ => blank);
    var i := 0;
    while i < |ps|
      invariant 0 <= i <= |ps| && |m| == n
      invariant forall a :: 0 <= a < i ==> m[a] == CostRow(ps, dets, features, a, n, iou, sqrt)
      invariant forall a :: i <= a < n ==> m[a] == blank
    {
      var row := m[i];
      var j := 0;
      while j < |dets|
        invariant 0 <= j <= |dets| && |row| == n
        invariant forall b :: 0 <= b < n ==> row[b] == if b < j then PairCost(ps[i], dets[b], features[b], iou, sqrt) else CostMax
      {
        var c := CalculateCost(ps[i], dets[j], features[j], iou, sqrt);
        row := row[j := c];
        j := j + 1;
      }
      m := m[i := row];
      i := i + 1;
    }
    forall a | |ps| <= a < n
      ensures m[a] == CostRow(ps, dets, features, a, n, iou, sqrt)
    {
    }
  }

  /** The update loop: matched tracks take their detection and its feature
      and mark it assigned, the others count a miss. */
  method CorrectLoop(ps: seq<Track<DeepData>>, matches: seq<int>, dets: seq<BoundingBox>, features: seq<seq<real>>,
                     ue: seq<Estimate>) returns (us: seq<Track<DeepData>>, marked: seq<bool>)
    requires HistoriesNonEmpty(ps) && |matches| == |ps| == |ue| && |dets| == |features|
    requires forall i :: 0 <= i < |ps| ==> -1 <= matches[i] < |dets|
    ensures us == CorrectedAll(ps, matches, dets, features, ue)
    ensures marked == Unclaimed(matches, |dets|)
  {
    us := ps;
    var free := seq(|dets|, _ => true);
    var i := 0;
    while i < |ps|
      invariant 0 <= i <= |ps| && |us| == |ps| && |free| == |dets|
      invariant forall k :: 0 <= k < i ==> us[k] == Corrected(ps[k], matches[k], dets, features, ue[k])
      invariant forall k :: i <= k < |ps| ==> us[k] == ps[k]
      invariant forall d :: 0 <= d < |dets| ==> (free[d] <==> d !in matches[..i])
    {
      var a := matches[i];
      if a >= 0 {
        us := us[i := WithFeature(Update(ps[i], dets[a], ue[i]), features[a])];
        free := free[a := false];
      } else {
        us := us[i := UpdateNoDetect(ps[i])];
      }
      assert matches[..i + 1] == matches[..i] + [a];
      i := i + 1;
    }
    assert matches[..i] == matches;
    marked := free;
  }

  /** The body of TrackerDeepSort::Update on the track list and the id counter. */
  method Step(ts: seq<Track<DeepData>>, next: int, dets: seq<BoundingBox>, features: seq<seq<real>>,
              pe: seq<Estimate>, ue: seq<Estimate>, solverOut: seq<int>,
              iou: (BoundingBox, BoundingBox) -> real, sqrt: real -> real, thresholdDelete: int)
    returns (r: seq<Track<DeepData>>, nextOut: int)
    requires |pe| == |ts| == |ue| && HistoriesNonEmpty(ts) && |features| == |dets| && PositiveRoot(sqrt)
    requires |solverOut| == Max(|ts|, |dets|)
    ensures r == Stepped(ts, next, dets, features, pe, ue, solverOut, iou, sqrt, thresholdDelete)
    ensures nextOut == next + Added(ts, dets, features, pe, solverOut, iou, sqrt)
  {
    var ps := PredictAll(ts, pe);
    var m := FillCostMatrix(ps, dets, features, iou, sqrt);
    var sol := Solution(|ps|, |dets|, solverOut);
    var matches := Accepted(m, sol, |ps|, |dets|, CostMax);
    var us, free := CorrectLoop(ps, matches, dets, features, ue);
    var kept := EraseLost(us, thresholdDelete);
    r, nextOut := AddTracks(kept, Firsts(dets, features), free, next);
  }

  class TrackerDeepSort {
    const thresholdFrameToDelete: int
    var trackList: seq<Track<DeepData>>
    var trackSequenceNum: int

    ghost predicate Valid()
      reads this
    {
      trackSequenceNum >= 0 && WellNumbered(trackList, trackSequenceNum, MaxHistory)
    }

    constructor(thresholdFrameToDelete: int)
      ensures Valid() && trackList == [] && trackSequenceNum == 0 && this.thresholdFrameToDelete == thresholdFrameToDelete
    {
      this.thresholdFrameToDelete := thresholdFrameToDelete;
      trackList, trackSequenceNum := [], 0;
    }

    method Reset()
      modifies this
      ensures Valid() && trackList == [] && trackSequenceNum == 0
    {
      trackList, trackSequenceNum := [], 0;
    }

    /** One frame: featureList holds each detection's appearance feature,
        pe and ue the filters' estimates, solverOut the solver's
        `det_index_for_track` on the square matrix. */
    method Update(detList: seq<BoundingBox>, featureList: seq<seq<real>>, pe: seq<Estimate>, ue: seq<Estimate>,
                  solverOut: seq<int>, iou: (BoundingBox, BoundingBox) -> real, sqrt: real -> real)
      requires Valid() && |pe| == |trackList| == |ue| && |featureList| == |detList| && PositiveRoot(sqrt)
      requires |solverOut| == Max(|trackList|, |detList|)
      modifies this
      ensures Valid()
      ensures trackList == Stepped(old(trackList), old(trackSequenceNum), detList, featureList, pe, ue, solverOut, iou, sqrt,
                                   thresholdFrameToDelete)
      ensures trackSequenceNum == old(trackSequenceNum) + Added(old(trackList), detList, featureList, pe, solverOut, iou, sqrt)
    {
      var ts, next := trackList, trackSequenceNum;
      var r, nextOut := Step(ts, next, detList, featureList, pe, ue, solverOut, iou, sqrt, thresholdFrameToDelete);
      assert WellNumbered(r, nextOut, MaxHistory) by {
        SteppedProperties(ts, next, detList, featureList, pe, ue, solverOut, iou, sqrt, thresholdFrameToDelete);
        StepOutcomeNumbered(r, |ts|, thresholdFrameToDelete, Firsts(detList, featureList),
                            Matches(Predicted(ts, pe), detList, featureList, solverOut, iou, sqrt), next, MaxHistory, |detList|);
      }
      trackList, trackSequenceNum := r, nextOut;
    }
  }
}

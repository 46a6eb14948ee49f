// The MediaPipe "tensors to detections" calculator used by the palm
// detectors: it decodes the regressor buffer against SSD anchors, picks the
// best class of every box and keeps the boxes whose score clears a threshold.

module TensorsToDetections {
  import opened Common

  datatype Anchor = Anchor(xCenter: real, yCenter: real, w: real, h: real)

  /** A detection in normalised image coordinates; keypoints are (x, y). */
  datatype Detection = Detection(score: real, classId: int, x: real, y: real, w: real, h: real,
                                 keypoints: seq<(real, real)>)

  datatype Options = Options(
    numClasses: int, numBoxes: int, numCoords: int,
    boxCoordOffset: int, keypointCoordOffset: int, numKeypoints: int, numValuesPerKeypoint: int,
    sigmoidScore: bool, reverseOutputOrder: bool,
    xScale: real, yScale: real, hScale: real, wScale: real,
    minScoreThresh: real, applyExponentialOnBoxSize: bool)

  /** The options every palm detector constructs. */
  function DefaultOptions(): Options {
    Options(1, 2944, 18, 0, 4, 7, 2, true, true, 256.0, 256.0, 256.0, 256.0, 0.7, false)
  }

  /** The slot of value s (0 or 1) of keypoint k inside a record. */
  function KpSlot(o: Options, k: int, s: int): int {
    o.keypointCoordOffset + k * o.numValuesPerKeypoint + s
  }

  /** Options under which every read and write stays inside its record. */
  predicate LayoutOk(o: Options) {
    && o.numBoxes >= 0 && o.numClasses >= 0 && o.numCoords >= 4
    && 0 <= o.boxCoordOffset && o.boxCoordOffset + 4 <= o.numCoords
    && o.numKeypoints >= 0 && o.numValuesPerKeypoint >= 1 && o.keypointCoordOffset >= 0
    && (o.numKeypoints > 0 ==> KpSlot(o, o.numKeypoints - 1, 1) < o.numCoords)
    && o.xScale != 0.0 && o.yScale != 0.0 && o.hScale != 0.0 && o.wScale != 0.0
  }

  /** Options under which no keypoint slot overlaps a box slot or another keypoint. */
  predicate Disjoint(o: Options) {
    o.keypointCoordOffset >= 4 && o.numValuesPerKeypoint >= 2
  }

  lemma DefaultOptionsWellFormed()
    ensures LayoutOk(DefaultOptions()) && Disjoint(DefaultOptions())
    ensures DefaultOptions().numCoords == 4 + 2 * DefaultOptions().numKeypoints
  {
  }

  /** Position of coordinate c of record i in a flat buffer of records of n values. */
  function Flat(i: int, c: int, n: int): int {
    i * n + c
  }

  lemma FlatBounds(i: int, c: int, n: int, count: int)
    requires 0 <= i < count && 0 <= c < n
    ensures 0 <= Flat(i, c, n) < count * n
    ensures i * n <= Flat(i, c, n) < (i + 1) * n
  {
    MulNonNeg(count - (i + 1), n);
  }

  lemma FlatDivMod(i: int, c: int, n: int)
    requires 0 <= i && 0 <= c < n
    ensures Flat(i, c, n) / n == i && Flat(i, c, n) % n == c
  {
    DivModOf(i * n + c, i, c, n);
  }

  lemma KpSlotInRecord(o: Options, k: int, s: int)
    requires LayoutOk(o) && 0 <= k < o.numKeypoints && 0 <= s < 2
    ensures 0 <= KpSlot(o, k, s) < o.numCoords
  {
    MulNonNeg(k, o.numValuesPerKeypoint);
    MulNonNeg(o.numKeypoints - 1 - k, o.numValuesPerKeypoint);
  }

  /** The raw (y_center, x_center, h, w) of a record, read in the order the model emits. */
  datatype RawBox = RawBox(yCenter: real, xCenter: real, h: real, w: real)

  function ReadRaw(o: Options, raw: seq<real>, i: int): RawBox
    requires LayoutOk(o) && 0 <= i < o.numBoxes && |raw| >= o.numBoxes * o.numCoords
  {
    FlatBounds(i, o.boxCoordOffset + 3, o.numCoords, o.numBoxes);
    var off := Flat(i, o.boxCoordOffset, o.numCoords);
    if o.reverseOutputOrder then RawBox(raw[off + 1], raw[off], raw[off + 3], raw[off + 2])
    else RawBox(raw[off], raw[off + 1], raw[off + 2], raw[off + 3])
  }

  /** The decoded box: its centre and size relative to the anchor. */
  datatype Decoded = Decoded(xCenter: real, yCenter: real, w: real, h: real)

  function DecodeBox(o: Options, raw: seq<real>, a: Anchor, i: int, exp: real -> real): Decoded
    requires LayoutOk(o) && 0 <= i < o.numBoxes && |raw| >= o.numBoxes * o.numCoords
  {
    var r := ReadRaw(o, raw, i);
    Decoded(r.xCenter / o.xScale * a.w + a.xCenter,
            r.yCenter / o.yScale * a.h + a.yCenter,
            if o.applyExponentialOnBoxSize then exp(r.w / o.wScale) * a.w else r.w / o.wScale * a.w,
            if o.applyExponentialOnBoxSize then exp(r.h / o.hScale) * a.h else r.h / o.hScale * a.h)
  }

  /** The four values written at the head of a record: ymin, xmin, ymax, xmax. */
  function Corners(d: Decoded): (r: seq<real>)
    ensures |r| == 4
  {
    [d.yCenter - d.h / 2.0, d.xCenter - d.w / 2.0, d.yCenter + d.h / 2.0, d.xCenter + d.w / 2.0]
  }

  /** Keypoint k of record i, scaled like the box centre, as (x, y). */
  function DecodeKeypoint(o: Options, raw: seq<real>, a: Anchor, i: int, k: int): (real, real)
    requires LayoutOk(o) && 0 <= i < o.numBoxes && 0 <= k < o.numKeypoints
    requires |raw| >= o.numBoxes * o.numCoords
  {
    KpSlotInRecord(o, k, 0);
    KpSlotInRecord(o, k, 1);
    FlatBounds(i, KpSlot(o, k, 1), o.numCoords, o.numBoxes);
    var first := raw[Flat(i, KpSlot(o, k, 0), o.numCoords)];
    var second := raw[Flat(i, KpSlot(o, k, 1), o.numCoords)];
    var (kx, ky) := if o.reverseOutputOrder then (first, second) else (second, first);
    (kx / o.xScale * a.w + a.xCenter, ky / o.yScale * a.h + a.yCenter)
  }

  function DecodeKeypoints(o: Options, raw: seq<real>, a: Anchor, i: int): (r: seq<(real, real)>)
    requires LayoutOk(o) && 0 <= i < o.numBoxes && |raw| >= o.numBoxes * o.numCoords
    ensures |r| == o.numKeypoints
  {
    seq(o.numKeypoints, k requires 0 <= k < o.numKeypoints => DecodeKeypoint(o, raw, a, i, k))
  }

  /** The last write of keypoints below k that lands on record slot c, as (keypoint, value). */
  function KpWriteAt(o: Options, c: int, k: nat): Option<(int, int)>
    decreases k
  {
    if k == 0 then None
    else if c == KpSlot(o, k - 1, 1) then Some((k - 1, 1))
    else if c == KpSlot(o, k - 1, 0) then Some((k - 1, 0))
    else KpWriteAt(o, c, k - 1)
  }

  lemma KpWriteAtBounds(o: Options, c: int, k: nat)
    ensures KpWriteAt(o, c, k).Some? ==> 0 <= KpWriteAt(o, c, k).value.0 < k
    ensures KpWriteAt(o, c, k).Some? ==> KpWriteAt(o, c, k).value.1 in {0, 1}
    decreases k
  {
    if k > 0 { KpWriteAtBounds(o, c, k - 1); }
  }

  /** Slot c of a record once its corners and its keypoints below k are written. */
  function RecordValue(o: Options, corners: seq<real>, kps: seq<(real, real)>, c: int, k: nat, before: real): real
    requires |corners| == 4 && k <= |kps|
  {
    KpWriteAtBounds(o, c, k);
    match KpWriteAt(o, c, k)
    case Some((j, s)) => if s == 0 then kps[j].0 else kps[j].1
    case None => if 0 <= c < 4 then corners[c] else before
  }

  /** What DecodeBoxes leaves at coordinate c of record i, given the value there before. */
  function DecodedAt(o: Options, raw: seq<real>, anchors: seq<Anchor>, exp: real -> real,
                     i: int, c: int, before: real): real
    requires LayoutOk(o) && 0 <= i < o.numBoxes && |anchors| == o.numBoxes
    requires |raw| >= o.numBoxes * o.numCoords
  {
    RecordValue(o, Corners(DecodeBox(o, raw, anchors[i], i, exp)), DecodeKeypoints(o, raw, anchors[i], i),
                c, o.numKeypoints, before)
  }

  /** The whole buffer DecodeBoxes leaves behind, given the one it received. */
  function DecodedBuffer(o: Options, raw: seq<real>, anchors: seq<Anchor>, exp: real -> real, before: seq<real>): (r: seq<real>)
    requires LayoutOk(o) && |anchors| == o.numBoxes
    requires |raw| >= o.numBoxes * o.numCoords && |before| == o.numBoxes * o.numCoords
    ensures |r| == |before|
  {
    seq(|before|, p requires 0 <= p < |before| =>
      FlatInRange(p, o.numCoords, o.numBoxes);
      DecodedAt(o, raw, anchors, exp, p / o.numCoords, p % o.numCoords, before[p]))
  }

  predicate SizesOk(o: Options, boxes: array<real>, anchors: seq<Anchor>)
    reads boxes
  {
    boxes.Length == o.numBoxes * o.numCoords && |anchors| == o.numBoxes
  }

  /** DecodeBoxes: rewrites each record of the box buffer as (ymin, xmin,
      ymax, xmax) followed by the scaled keypoints (x, y), and fails without
      writing when the buffer or the anchor list has the wrong size. */
  method DecodeBoxes(o: Options, raw: seq<real>, anchors: seq<Anchor>, boxes: array<real>, exp: real -> real)
    returns (ret: int)
    requires LayoutOk(o) && |raw| >= o.numBoxes * o.numCoords
    modifies boxes
    ensures ret == (if SizesOk(o, boxes, anchors) then 0 else -1)
    ensures ret == -1 ==> boxes[..] == old(boxes[..])
    ensures ret == 0 ==> boxes[..] == DecodedBuffer(o, raw, anchors, exp, old(boxes[..]))
  {
    var nb, nc := o.numBoxes, o.numCoords;
    if boxes.Length != nb * nc {
      return -1;
    }
    if |anchors| != nb {
      return -1;
    }
    ghost var target := DecodedBuffer(o, raw, anchors, exp, boxes[..]);
    var i := 0;
    while i < nb
      invariant 0 <= i <= nb
      invariant forall p :: 0 <= p < i * nc ==> boxes[p] == target[p]
      invariant forall p :: i * nc <= p < boxes.Length ==> boxes[p] == old(boxes[p])
    {
      FlatBounds(i, nc - 1, nc, nb);
      DecodeRecord(o, raw, anchors, boxes, exp, i, old(boxes[..]), target);
      assert (i + 1) * nc == i * nc + nc;
      i := i + 1;
    }
    assert boxes[..] == target;
    ret := 0;
  }

  /** The body of DecodeBoxes' loop for record i. */
  method DecodeRecord(o: Options, raw: seq<real>, anchors: seq<Anchor>, boxes: array<real>, exp: real -> real,
                      i: int, ghost orig: seq<real>, ghost target: seq<real>)
    requires LayoutOk(o) && |raw| >= o.numBoxes * o.numCoords
    requires SizesOk(o, boxes, anchors) && 0 <= i < o.numBoxes
    requires 0 <= i * o.numCoords && i * o.numCoords + o.numCoords <= boxes.Length
    requires |orig| == boxes.Length && forall p :: i * o.numCoords <= p < boxes.Length ==> boxes[p] == orig[p]
    requires target == DecodedBuffer(o, raw, anchors, exp, orig)
    modifies boxes
    ensures forall p :: i * o.numCoords <= p < i * o.numCoords + o.numCoords ==> boxes[p] == target[p]
    ensures forall p :: 0 <= p < boxes.Length && !(i * o.numCoords <= p < i * o.numCoords + o.numCoords) ==>
      boxes[p] == old(boxes[p])
  {
    var base := i * o.numCoords;
    var d := DecodeBox(o, raw, anchors[i], i, exp);
    ghost var kps := DecodeKeypoints(o, raw, anchors[i], i);
    WriteCorners(o, boxes, base, d, kps, orig);
    WriteKeypoints(o, raw, anchors, boxes, i, orig, Corners(d), kps);
    RecordIsDecoded(o, raw, anchors, exp, i, orig, target, boxes[..]);
  }

  /** The four corner writes of DecodeBoxes at the head of the record at `base`. */
  method WriteCorners(o: Options, boxes: array<real>, base: int, d: Decoded, ghost kps: seq<(real, real)>,
                      ghost orig: seq<real>)
    requires o.numCoords >= 4 && 0 <= base && base + o.numCoords <= boxes.Length && |orig| == boxes.Length
    requires forall p :: base <= p < boxes.Length ==> boxes[p] == orig[p]
    modifies boxes
    ensures forall p :: base <= p < base + o.numCoords ==>
      boxes[p] == RecordValue(o, Corners(d), kps, p - base, 0, orig[p])
    ensures forall p :: 0 <= p < boxes.Length && !(base <= p < base + o.numCoords) ==> boxes[p] == old(boxes[p])
  {
    boxes[base + 0] := d.yCenter - d.h / 2.0;
    boxes[base + 1] := d.xCenter - d.w / 2.0;
    boxes[base + 2] := d.yCenter + d.h / 2.0;
    boxes[base + 3] := d.xCenter + d.w / 2.0;
  }

  /** A record whose every slot holds its value after all keypoints holds what
      DecodeBoxes leaves there. */
  lemma RecordIsDecoded(o: Options, raw: seq<real>, anchors: seq<Anchor>, exp: real -> real, i: int,
                        orig: seq<real>, target: seq<real>, s: seq<real>)
    requires LayoutOk(o) && |raw| >= o.numBoxes * o.numCoords && |anchors| == o.numBoxes
    requires 0 <= i < o.numBoxes && |orig| == o.numBoxes * o.numCoords && |s| == |orig|
    requires 0 <= i * o.numCoords && i * o.numCoords + o.numCoords <= |s|
    requires target == DecodedBuffer(o, raw, anchors, exp, orig)
    requires forall p :: i * o.numCoords <= p < i * o.numCoords + o.numCoords ==>
      s[p] == RecordValue(o, Corners(DecodeBox(o, raw, anchors[i], i, exp)), DecodeKeypoints(o, raw, anchors[i], i),
                          p - i * o.numCoords, o.numKeypoints, orig[p])
    ensures forall p :: i * o.numCoords <= p < i * o.numCoords + o.numCoords ==> s[p] == target[p]
  {
    var nc, base := o.numCoords, i * o.numCoords;
    forall p | base <= p < base + nc ensures s[p] == target[p] {
      FlatDivMod(i, p - base, nc);
      assert p / nc == i && p % nc == p - base;
    }
  }

  /** The keypoint loop of DecodeBoxes for record i. */
  method WriteKeypoints(o: Options, raw: seq<real>, anchors: seq<Anchor>, boxes: array<real>,
                        i: int, ghost orig: seq<real>, ghost corners: seq<real>, ghost kps: seq<(real, real)>)
    requires LayoutOk(o) && |raw| >= o.numBoxes * o.numCoords
    requires SizesOk(o, boxes, anchors) && 0 <= i < o.numBoxes && |orig| == boxes.Length
    requires 0 <= i * o.numCoords && i * o.numCoords + o.numCoords <= boxes.Length
    requires |corners| == 4 && kps == DecodeKeypoints(o, raw, anchors[i], i)
    requires forall p :: i * o.numCoords <= p < i * o.numCoords + o.numCoords ==>
      boxes[p] == RecordValue(o, corners, kps, p - i * o.numCoords, 0, orig[p])
    modifies boxes
    ensures forall p :: i * o.numCoords <= p < i * o.numCoords + o.numCoords ==>
      boxes[p] == RecordValue(o, corners, kps, p - i * o.numCoords, o.numKeypoints, orig[p])
    ensures forall p :: 0 <= p < boxes.Length && !(i * o.numCoords <= p < i * o.numCoords + o.numCoords) ==>
      boxes[p] == old(boxes[p])
  {
    var nc := o.numCoords;
    var base := i * nc;
    var k := 0;
    while k < o.numKeypoints
      invariant 0 <= k <= o.numKeypoints
      invariant forall p :: base <= p < base + nc ==> boxes[p] == RecordValue(o, corners, kps, p - base, k, orig[p])
      invariant forall p :: 0 <= p < boxes.Length && !(base <= p < base + nc) ==> boxes[p] == old(boxes[p])
    {
      KpSlotInRecord(o, k, 0);
      KpSlotInRecord(o, k, 1);
      var kp := DecodeKeypoint(o, raw, anchors[i], i, k);
      boxes[base + KpSlot(o, k, 0)] := kp.0;
      boxes[base + KpSlot(o, k, 1)] := kp.1;
      k := k + 1;
    }
  }

  // ---- What a decoded record holds when the layout is disjoint ----

  lemma {:induction false} KpWriteAtCorner(o: Options, c: int, k: nat)
    requires o.keypointCoordOffset >= 4 && o.numValuesPerKeypoint >= 0 && 0 <= c < 4
    ensures KpWriteAt(o, c, k) == None
    decreases k
  {
    if k > 0 {
      MulNonNeg(k - 1, o.numValuesPerKeypoint);
      KpWriteAtCorner(o, c, k - 1);
    }
  }

  lemma {:induction false} KpWriteAtSlot(o: Options, j: int, s: int, k: nat)
    requires Disjoint(o) && 0 <= j < k && 0 <= s < 2
    ensures KpWriteAt(o, KpSlot(o, j, s), k) == Some((j, s))
    decreases k
  {
    if k - 1 > j {
      MulGe(k - 1 - j, o.numValuesPerKeypoint);
      assert KpSlot(o, k - 1, 0) - KpSlot(o, j, s) == (k - 1 - j) * o.numValuesPerKeypoint - s;
      KpWriteAtSlot(o, j, s, k - 1);
    }
  }

  /** With a disjoint layout, record i of the decoded buffer holds ymin, xmin,
      ymax, xmax of the decoded box in slots 0..3 and keypoint k's x and y at
      keypointCoordOffset + k * numValuesPerKeypoint and the slot after it. */
  lemma DecodedRecordHolds(o: Options, raw: seq<real>, anchors: seq<Anchor>, exp: real -> real,
                           before: seq<real>, i: int, k: int)
    requires LayoutOk(o) && Disjoint(o) && |anchors| == o.numBoxes
    requires |raw| >= o.numBoxes * o.numCoords && |before| == o.numBoxes * o.numCoords
    requires 0 <= i < o.numBoxes && 0 <= k < o.numKeypoints
    ensures var buf := DecodedBuffer(o, raw, anchors, exp, before);
      var d := DecodeBox(o, raw, anchors[i], i, exp);
      var b := Flat(i, 0, o.numCoords);
      && 0 <= b && b + o.numCoords <= |buf|
      && buf[b + 0] == d.yCenter - d.h / 2.0 && buf[b + 1] == d.xCenter - d.w / 2.0
      && buf[b + 2] == d.yCenter + d.h / 2.0 && buf[b + 3] == d.xCenter + d.w / 2.0
      && 0 <= KpSlot(o, k, 0) && KpSlot(o, k, 1) < o.numCoords
      && (buf[b + KpSlot(o, k, 0)], buf[b + KpSlot(o, k, 1)]) == DecodeKeypoint(o, raw, anchors[i], i, k)
  {
    CornersHold(o, raw, anchors, exp, before, i);
    var b := Flat(i, 0, o.numCoords);
    var buf := DecodedBuffer(o, raw, anchors, exp, before);
    assert buf[b..b + 4][0] == buf[b + 0] && buf[b..b + 4][1] == buf[b + 1];
    assert buf[b..b + 4][2] == buf[b + 2] && buf[b..b + 4][3] == buf[b + 3];
    KeypointHolds(o, raw, anchors, exp, before, i, k);
  }

  /** With a disjoint layout, keypoint k's x and y sit in their two slots of record i
      of the decoded buffer. */
  lemma KeypointHolds(o: Options, raw: seq<real>, anchors: seq<Anchor>, exp: real -> real,
                      before: seq<real>, i: int, k: int)
    requires LayoutOk(o) && Disjoint(o) && |anchors| == o.numBoxes
    requires |raw| >= o.numBoxes * o.numCoords && |before| == o.numBoxes * o.numCoords
    requires 0 <= i < o.numBoxes && 0 <= k < o.numKeypoints
    ensures var buf := DecodedBuffer(o, raw, anchors, exp, before);
      var b := Flat(i, 0, o.numCoords);
      && 0 <= KpSlot(o, k, 0) && KpSlot(o, k, 1) < o.numCoords
      && 0 <= b && b + o.numCoords <= |buf|
      && (buf[b + KpSlot(o, k, 0)], buf[b + KpSlot(o, k, 1)]) == DecodeKeypoint(o, raw, anchors[i], i, k)
  {
    var nc := o.numCoords;
    KpSlotInRecord(o, k, 0);
    KpSlotInRecord(o, k, 1);
    FlatBounds(i, KpSlot(o, k, 1), nc, o.numBoxes);
    FlatBounds(i, nc - 1, nc, o.numBoxes);
    FlatDivMod(i, KpSlot(o, k, 0), nc);
    FlatDivMod(i, KpSlot(o, k, 1), nc);
    KpWriteAtSlot(o, k, 0, o.numKeypoints);
    KpWriteAtSlot(o, k, 1, o.numKeypoints);
  }

  lemma CornersHold(o: Options, raw: seq<real>, anchors: seq<Anchor>, exp: real -> real, before: seq<real>, i: int)
    requires LayoutOk(o) && Disjoint(o) && |anchors| == o.numBoxes
    requires |raw| >= o.numBoxes * o.numCoords && |before| == o.numBoxes * o.numCoords
    requires 0 <= i < o.numBoxes
    ensures var buf := DecodedBuffer(o, raw, anchors, exp, before);
      var b := Flat(i, 0, o.numCoords);
      && 0 <= b && b + o.numCoords <= |buf|
      && buf[b..b + 4] == Corners(DecodeBox(o, raw, anchors[i], i, exp))
  {
    var nc := o.numCoords;
    FlatBounds(i, nc - 1, nc, o.numBoxes);
    var buf := DecodedBuffer(o, raw, anchors, exp, before);
    var b := Flat(i, 0, nc);
    forall c | 0 <= c < 4 ensures buf[b + c] == Corners(DecodeBox(o, raw, anchors[i], i, exp))[c] {
      FlatDivMod(i, c, nc);
      assert b + c == Flat(i, c, nc);
      KpWriteAtCorner(o, c, o.numKeypoints);
    }
  }

  /** A decoded box spans its centre: xmax - xmin is its width and ymax - ymin
      its height, so the corners are ordered exactly when the size is not negative. */
  lemma CornersSpanCentre(d: Decoded)
    ensures var r := Corners(d);
      && r[3] - r[1] == d.w && r[2] - r[0] == d.h
      && (r[1] + r[3]) / 2.0 == d.xCenter && (r[0] + r[2]) / 2.0 == d.yCenter
      && (r[0] <= r[2] <==> d.h >= 0.0) && (r[1] <= r[3] <==> d.w >= 0.0)
  {
  }

  // ---- ConvertToDetections ----

  predicate BufferShapes(o: Options, boxes: seq<real>, scores: seq<real>, classes: seq<int>) {
    |boxes| == o.numBoxes * o.numCoords && |scores| == o.numBoxes && |classes| == o.numBoxes
  }

  /** The keypoints ConvertToDetections reads from record i: keypoint k is the
      pair at keypointCoordOffset + k * numValuesPerKeypoint. */
  function RecordKeypoints(o: Options, boxes: seq<real>, i: int): (r: seq<(real, real)>)
    requires LayoutOk(o) && |boxes| == o.numBoxes * o.numCoords && 0 <= i < o.numBoxes
    ensures |r| == o.numKeypoints
  {
    FlatBounds(i, o.numCoords - 1, o.numCoords, o.numBoxes);
    seq(o.numKeypoints, k requires 0 <= k < o.numKeypoints =>
      KpSlotInRecord(o, k, 0); KpSlotInRecord(o, k, 1);
      (boxes[Flat(i, 0, o.numCoords) + KpSlot(o, k, 0)], boxes[Flat(i, 0, o.numCoords) + KpSlot(o, k, 1)]))
  }

  /** The detection ConvertToDetections builds from record i. */
  function DetectionAt(o: Options, boxes: seq<real>, scores: seq<real>, classes: seq<int>, i: int): (d: Detection)
    requires LayoutOk(o) && BufferShapes(o, boxes, scores, classes) && 0 <= i < o.numBoxes
    ensures |d.keypoints| == o.numKeypoints
  {
    var nc := o.numCoords;
    FlatBounds(i, nc - 1, nc, o.numBoxes);
    var b := Flat(i, 0, nc);
    Detection(scores[i], classes[i], boxes[b + 1], boxes[b + 0], boxes[b + 3] - boxes[b + 1], boxes[b + 2] - boxes[b + 0],
      RecordKeypoints(o, boxes, i))
  }

  /** The detections built from the first n records. */
  function Converted(o: Options, boxes: seq<real>, scores: seq<real>, classes: seq<int>, n: int): seq<Detection>
    requires LayoutOk(o) && BufferShapes(o, boxes, scores, classes) && 0 <= n <= o.numBoxes
    decreases n
  {
    if n == 0 then []
    else Converted(o, boxes, scores, classes, n - 1)
         + (if scores[n - 1] < o.minScoreThresh then [] else [DetectionAt(o, boxes, scores, classes, n - 1)])
  }

  /** The records among the first n whose score reaches the threshold, in order. */
  function Passing(scores: seq<real>, thresh: real, n: int): seq<int>
    requires 0 <= n <= |scores|
    decreases n
  {
    if n == 0 then [] else Passing(scores, thresh, n - 1) + (if scores[n - 1] < thresh then [] else [n - 1])
  }

  /** ConvertToDetections emits, in record order, exactly the records whose
      score is at least minScoreThresh. */
  lemma {:induction false} ConvertedArePassing(o: Options, boxes: seq<real>, scores: seq<real>, classes: seq<int>, n: int)
    requires LayoutOk(o) && BufferShapes(o, boxes, scores, classes) && 0 <= n <= o.numBoxes
    ensures var out, idx := Converted(o, boxes, scores, classes, n), Passing(scores, o.minScoreThresh, n);
      && |out| == |idx|
      && (forall m :: 0 <= m < |idx| ==> 0 <= idx[m] < n && out[m] == DetectionAt(o, boxes, scores, classes, idx[m]))
      && (forall m, m' :: 0 <= m < m' < |idx| ==> idx[m] < idx[m'])
      && (forall i :: 0 <= i < n ==> (i in idx <==> scores[i] >= o.minScoreThresh))
    decreases n
  {
    if n > 0 {
      ConvertedArePassing(o, boxes, scores, classes, n - 1);
    }
  }

  lemma MulStrictMono(j: int, n: int, v: int)
    requires 0 <= j < n && v > 0
    ensures j * v < n * v
  {
    MulGe(n - j, v);
  }

  method ReadKeypoints(o: Options, boxes: seq<real>, i: int) returns (kps: seq<(real, real)>)
    requires LayoutOk(o) && |boxes| == o.numBoxes * o.numCoords && 0 <= i < o.numBoxes
    ensures kps == RecordKeypoints(o, boxes, i)
  {
    var nk, nv := o.numKeypoints, o.numValuesPerKeypoint;
    FlatBounds(i, o.numCoords - 1, o.numCoords, o.numBoxes);
    var b := Flat(i, 0, o.numCoords);
    ghost var want := RecordKeypoints(o, boxes, i);
    kps := [];
    var kpId, j := 0, 0;
    while kpId < nk * nv
      invariant 0 <= j <= nk && kpId == j * nv
      invariant kps == want[..j]
      decreases nk * nv - kpId
    {
      KpSlotInRecord(o, j, 0);
      KpSlotInRecord(o, j, 1);
      var kpIndex := b + o.keypointCoordOffset + kpId;
      kps := kps + [(boxes[kpIndex + 0], boxes[kpIndex + 1])];
      kpId := kpId + nv;
      j := j + 1;
    }
    if j < nk {
      MulStrictMono(j, nk, nv);
    }
  }

  method ConvertToDetections(o: Options, boxes: seq<real>, scores: seq<real>, classes: seq<int>)
    returns (out: seq<Detection>)
    requires LayoutOk(o) && BufferShapes(o, boxes, scores, classes)
    ensures out == Converted(o, boxes, scores, classes, o.numBoxes)
  {
    out := [];
    var i := 0;
    while i < o.numBoxes
      invariant 0 <= i <= o.numBoxes
      invariant out == Converted(o, boxes, scores, classes, i)
    {
      if scores[i] < o.minScoreThresh {
        i := i + 1;
        continue;
      }
      var det := ConvertRecord(o, boxes, scores, classes, i);
      out := out + [det];
      i := i + 1;
    }
  }

  /** The detection of record i: its score and class, the box read as (ymin,
      xmin, ymax, xmax) and turned into x, y, w, h, then its keypoints. */
  method ConvertRecord(o: Options, boxes: seq<real>, scores: seq<real>, classes: seq<int>, i: int)
    returns (det: Detection)
    requires LayoutOk(o) && BufferShapes(o, boxes, scores, classes) && 0 <= i < o.numBoxes
    ensures det == DetectionAt(o, boxes, scores, classes, i)
  {
    FlatBounds(i, o.numCoords - 1, o.numCoords, o.numBoxes);
    var b := Flat(i, 0, o.numCoords);
    var kps := ReadKeypoints(o, boxes, i);
    det := Detection(scores[i], classes[i], boxes[b + 1], boxes[b + 0],
                     boxes[b + 3] - boxes[b + 1], boxes[b + 2] - boxes[b + 0], kps);
  }

  // ---- Process ----

  /** Class j's score for box i, passed through the sigmoid when the options ask for it. */
  function ClassScore(o: Options, sigmoid: real -> real, rawScores: seq<real>, i: int, j: int): real
    requires o.numClasses >= 0 && 0 <= i < o.numBoxes && 0 <= j < o.numClasses
    requires |rawScores| >= o.numBoxes * o.numClasses
  {
    FlatBounds(i, j, o.numClasses, o.numBoxes);
    var sc := rawScores[Flat(i, j, o.numClasses)];
    if o.sigmoidScore then sigmoid(sc) else sc
  }

  /** The running (class, score) maximum over the first n classes of box i. */
  function ArgMax(o: Options, sigmoid: real -> real, rawScores: seq<real>, i: int, n: int): (int, real)
    requires o.numClasses >= 0 && 0 <= i < o.numBoxes && 0 <= n <= o.numClasses
    requires |rawScores| >= o.numBoxes * o.numClasses
    decreases n
  {
    if n == 0 then (-1, -FltMax)
    else
      var (c, m) := ArgMax(o, sigmoid, rawScores, i, n - 1);
      var sc := ClassScore(o, sigmoid, rawScores, i, n - 1);
      if m < sc then (n - 1, sc) else (c, m)
  }

  /** The class of a box is the first class of maximal score; it is -1, with
      score -FLT_MAX, exactly when no class scores above -FLT_MAX (in
      particular when there are no classes). */
  lemma {:induction false} ArgMaxIsFirstMax(o: Options, sigmoid: real -> real, rawScores: seq<real>, i: int, n: int)
    requires o.numClasses >= 0 && 0 <= i < o.numBoxes && 0 <= n <= o.numClasses
    requires |rawScores| >= o.numBoxes * o.numClasses
    ensures var (c, m) := ArgMax(o, sigmoid, rawScores, i, n);
      && (c == -1 <==> forall j :: 0 <= j < n ==> ClassScore(o, sigmoid, rawScores, i, j) <= -FltMax)
      && (c == -1 ==> m == -FltMax)
      && (c != -1 ==> 0 <= c < n && m == ClassScore(o, sigmoid, rawScores, i, c) && m > -FltMax)
      && (forall j :: 0 <= j < n ==> ClassScore(o, sigmoid, rawScores, i, j) <= m)
      && (forall j :: 0 <= j < c ==> ClassScore(o, sigmoid, rawScores, i, j) < m)
    decreases n
  {
    if n > 0 {
      ArgMaxIsFirstMax(o, sigmoid, rawScores, i, n - 1);
    }
  }

  function Zeros(n: int): (r: seq<real>)
    requires n >= 0
    ensures |r| == n
  {
    seq(n, _ => 0.0)
  }

  /** The box buffer after the (unchecked) DecodeBoxes call of Process. */
  function BoxesAfterDecode(o: Options, raw: seq<real>, anchors: seq<Anchor>, exp: real -> real): (r: seq<real>)
    requires LayoutOk(o) && |raw| >= o.numBoxes * o.numCoords
    ensures |r| == o.numBoxes * o.numCoords
  {
    MulNonNeg(o.numBoxes, o.numCoords);
    var zeros := Zeros(o.numBoxes * o.numCoords);
    if |anchors| == o.numBoxes then DecodedBuffer(o, raw, anchors, exp, zeros) else zeros
  }

  function BestScores(o: Options, sigmoid: real -> real, rawScores: seq<real>): (r: seq<real>)
    requires LayoutOk(o) && |rawScores| >= o.numBoxes * o.numClasses
    ensures |r| == o.numBoxes
  {
    seq(o.numBoxes, i requires 0 <= i < o.numBoxes => ArgMax(o, sigmoid, rawScores, i, o.numClasses).1)
  }

  function BestClasses(o: Options, sigmoid: real -> real, rawScores: seq<real>): (r: seq<int>)
    requires LayoutOk(o) && |rawScores| >= o.numBoxes * o.numClasses
    ensures |r| == o.numBoxes
  {
    seq(o.numBoxes, i requires 0 <= i < o.numBoxes => ArgMax(o, sigmoid, rawScores, i, o.numClasses).0)
  }

  function ProcessResult(o: Options, raw: seq<real>, rawScores: seq<real>, anchors: seq<Anchor>,
                         exp: real -> real, sigmoid: real -> real): seq<Detection>
    requires LayoutOk(o) && |raw| >= o.numBoxes * o.numCoords && |rawScores| >= o.numBoxes * o.numClasses
  {
    Converted(o, BoxesAfterDecode(o, raw, anchors, exp), BestScores(o, sigmoid, rawScores),
              BestClasses(o, sigmoid, rawScores), o.numBoxes)
  }

  method BestClass(o: Options, sigmoid: real -> real, rawScores: seq<real>, i: int)
    returns (classId: int, maxScore: real)
    requires o.numClasses >= 0 && 0 <= i < o.numBoxes && |rawScores| >= o.numBoxes * o.numClasses
    ensures (classId, maxScore) == ArgMax(o, sigmoid, rawScores, i, o.numClasses)
  {
    classId, maxScore := -1, -FltMax;
    var j := 0;
    while j < o.numClasses
      invariant 0 <= j <= o.numClasses
      invariant (classId, maxScore) == ArgMax(o, sigmoid, rawScores, i, j)
    {
      FlatBounds(i, j, o.numClasses, o.numBoxes);
      var sc := rawScores[Flat(i, j, o.numClasses)];
      if o.sigmoidScore {
        sc := sigmoid(sc);
      }
      if maxScore < sc {
        maxScore := sc;
        classId := j;
      }
      j := j + 1;
    }
  }

  method Process(o: Options, raw: seq<real>, rawScores: seq<real>, anchors: seq<Anchor>,
                 exp: real -> real, sigmoid: real -> real) returns (dets: seq<Detection>)
    requires LayoutOk(o) && |raw| >= o.numBoxes * o.numCoords && |rawScores| >= o.numBoxes * o.numClasses
    ensures dets == ProcessResult(o, raw, rawScores, anchors, exp, sigmoid)
  {
    MulNonNeg(o.numBoxes, o.numCoords);
    var boxes := new real[o.numBoxes * o.numCoords](_ => 0.0);
    assert boxes[..] == Zeros(o.numBoxes * o.numCoords);
    var _ := DecodeBoxes(o, raw, anchors, boxes, exp);
    var decoded := boxes[..];
    assert decoded == BoxesAfterDecode(o, raw, anchors, exp);
    var scores: seq<real> := [];
    var classes: seq<int> := [];
    var i := 0;
    while i < o.numBoxes
      invariant 0 <= i <= o.numBoxes
      invariant scores == BestScores(o, sigmoid, rawScores)[..i]
      invariant classes == BestClasses(o, sigmoid, rawScores)[..i]
    {
      var classId, maxScore := BestClass(o, sigmoid, rawScores, i);
      scores := scores + [maxScore];
      classes := classes + [classId];
      i := i + 1;
    }
    assert scores == BestScores(o, sigmoid, rawScores);
    assert classes == BestClasses(o, sigmoid, rawScores);
    dets := ConvertToDetections(o, decoded, scores, classes);
  }

  /** With matching anchors, the detection built from record i has the
      decoded box's top-left corner, size and keypoints. */
  lemma DetectionOfDecodedBox(o: Options, raw: seq<real>, anchors: seq<Anchor>, exp: real -> real,
                              scores: seq<real>, classes: seq<int>, i: int)
    requires LayoutOk(o) && Disjoint(o) && |raw| >= o.numBoxes * o.numCoords && |anchors| == o.numBoxes
    requires BufferShapes(o, BoxesAfterDecode(o, raw, anchors, exp), scores, classes) && 0 <= i < o.numBoxes
    ensures var det := DetectionAt(o, BoxesAfterDecode(o, raw, anchors, exp), scores, classes, i);
      var d := DecodeBox(o, raw, anchors[i], i, exp);
      && det.x == d.xCenter - d.w / 2.0 && det.y == d.yCenter - d.h / 2.0
      && det.w == d.w && det.h == d.h
      && det.keypoints == DecodeKeypoints(o, raw, anchors[i], i)
  {
    DetectionBoxOfDecoded(o, raw, anchors, exp, scores, classes, i);
    DetectionKeypointsOfDecoded(o, raw, anchors, exp, scores, classes, i);
  }

  lemma DetectionBoxOfDecoded(o: Options, raw: seq<real>, anchors: seq<Anchor>, exp: real -> real,
                              scores: seq<real>, classes: seq<int>, i: int)
    requires LayoutOk(o) && Disjoint(o) && |raw| >= o.numBoxes * o.numCoords && |anchors| == o.numBoxes
    requires BufferShapes(o, BoxesAfterDecode(o, raw, anchors, exp), scores, classes) && 0 <= i < o.numBoxes
    ensures var det := DetectionAt(o, BoxesAfterDecode(o, raw, anchors, exp), scores, classes, i);
      var d := DecodeBox(o, raw, anchors[i], i, exp);
      && det.x == d.xCenter - d.w / 2.0 && det.y == d.yCenter - d.h / 2.0
      && det.w == d.w && det.h == d.h
  {
    var boxes := BoxesAfterDecode(o, raw, anchors, exp);
    MulNonNeg(o.numBoxes, o.numCoords);
    var zeros := Zeros(o.numBoxes * o.numCoords);
    CornersHold(o, raw, anchors, exp, zeros, i);
    var b := Flat(i, 0, o.numCoords);
    assert boxes[b..b + 4][1] == boxes[b + 1] && boxes[b..b + 4][3] == boxes[b + 3];
    assert boxes[b..b + 4][0] == boxes[b + 0] && boxes[b..b + 4][2] == boxes[b + 2];
  }

  lemma DetectionKeypointsOfDecoded(o: Options, raw: seq<real>, anchors: seq<Anchor>, exp: real -> real,
                                    scores: seq<real>, classes: seq<int>, i: int)
    requires LayoutOk(o) && Disjoint(o) && |raw| >= o.numBoxes * o.numCoords && |anchors| == o.numBoxes
    requires BufferShapes(o, BoxesAfterDecode(o, raw, anchors, exp), scores, classes) && 0 <= i < o.numBoxes
    ensures DetectionAt(o, BoxesAfterDecode(o, raw, anchors, exp), scores, classes, i).keypoints ==
      DecodeKeypoints(o, raw, anchors[i], i)
  {
    var boxes := BoxesAfterDecode(o, raw, anchors, exp);
    MulNonNeg(o.numBoxes, o.numCoords);
    var zeros := Zeros(o.numBoxes * o.numCoords);
    var det := DetectionAt(o, boxes, scores, classes, i);
    forall k | 0 <= k < o.numKeypoints ensures det.keypoints[k] == DecodeKeypoints(o, raw, anchors[i], i)[k] {
      DecodedRecordHolds(o, raw, anchors, exp, zeros, i, k);
    }
  }

  /** With mismatched anchors DecodeBoxes' failure goes unnoticed, and every
      detection has an all-zero box and all-zero keypoints. */
  lemma DetectionOfUndecodedBox(o: Options, raw: seq<real>, anchors: seq<Anchor>, exp: real -> real,
                                scores: seq<real>, classes: seq<int>, i: int)
    requires LayoutOk(o) && |raw| >= o.numBoxes * o.numCoords && |anchors| != o.numBoxes
    requires BufferShapes(o, BoxesAfterDecode(o, raw, anchors, exp), scores, classes) && 0 <= i < o.numBoxes
    ensures var det := DetectionAt(o, BoxesAfterDecode(o, raw, anchors, exp), scores, classes, i);
      && det.x == 0.0 && det.y == 0.0 && det.w == 0.0 && det.h == 0.0
      && forall k :: 0 <= k < o.numKeypoints ==> det.keypoints[k] == (0.0, 0.0)
  {
    FlatBounds(i, o.numCoords - 1, o.numCoords, o.numBoxes);
  }

  /** Every detection of Process comes from a box whose best score reaches
      the threshold, and carries that box's first maximal class and score. */
  lemma ProcessDetection(o: Options, raw: seq<real>, rawScores: seq<real>, anchors: seq<Anchor>,
                         exp: real -> real, sigmoid: real -> real, m: int)
    requires LayoutOk(o) && |raw| >= o.numBoxes * o.numCoords
    requires |rawScores| >= o.numBoxes * o.numClasses
    requires 0 <= m < |ProcessResult(o, raw, rawScores, anchors, exp, sigmoid)|
    ensures var det := ProcessResult(o, raw, rawScores, anchors, exp, sigmoid)[m];
      exists i :: 0 <= i < o.numBoxes
        && det == DetectionAt(o, BoxesAfterDecode(o, raw, anchors, exp), BestScores(o, sigmoid, rawScores),
                              BestClasses(o, sigmoid, rawScores), i)
        && (det.classId, det.score) == ArgMax(o, sigmoid, rawScores, i, o.numClasses)
        && det.score >= o.minScoreThresh
  {
    var boxes := BoxesAfterDecode(o, raw, anchors, exp);
    var scores, classes := BestScores(o, sigmoid, rawScores), BestClasses(o, sigmoid, rawScores);
    ConvertedArePassing(o, boxes, scores, classes, o.numBoxes);
    var idx := Passing(scores, o.minScoreThresh, o.numBoxes);
    var i := idx[m];
    assert i in idx;
    var det := DetectionAt(o, boxes, scores, classes, i);
    assert det.classId == classes[i] && det.score == scores[i];
  }
}

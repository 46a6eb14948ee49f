// The record decoding shared by the YOLOv5 (tracking), DroNet and FastestDet
// detection engines: each output record is x, y, w, h, a box confidence and one
// confidence per class, and a record becomes a box when both confidences pass
// their thresholds.

module GridDecoding {
  import opened Common
  import opened Detections

  /** The record layout and the two thresholds of one engine. */
  datatype Format = Format(numClasses: nat, boxThreshold: real, classThreshold: real)

  /** kElementNumOfAnchor: x, y, w, h, box confidence, then the class scores. */
  function Width(f: Format): nat {
    f.numClasses + 5
  }

  /** The class scores of the record at `base`. */
  function ClassScores(data: seq<real>, base: int, f: Format): seq<real>
    requires 0 <= base && base + Width(f) <= |data|
  {
    data[base + 5..base + Width(f)]
  }

  /** A record value times its scale factor. */
  function Scale(v: real, s: real): real {
    v * s
  }

  /** The box one record yields, if it yields one. */
  function DecodeRecord(data: seq<real>, base: int, f: Format, scaleX: real, scaleY: real): Option<BoundingBox>
    requires 0 <= base && base + Width(f) <= |data|
  {
    if data[base + 4] >= f.boxThreshold then
      var best := StrictMaxOf(ClassScores(data, base, f));
      if best.score >= f.classThreshold then
        var cx := Trunc(Scale(data[base], scaleX));
        var cy := Trunc(Scale(data[base + 1], scaleY));
        var w := Trunc(Scale(data[base + 2], scaleX));
        var h := Trunc(Scale(data[base + 3], scaleY));
        Some(BoundingBox(best.index, "", best.score, cx - CDiv(w, 2), cy - CDiv(h, 2), w, h))
      else None
    else None
  }

  /** A record yields a box exactly when its box confidence and its best class score
      pass their thresholds; the box is the first best class, with the record's size
      scaled and truncated, centred (in C integer arithmetic) on the record's centre. */
  lemma DecodeRecordMeaning(data: seq<real>, base: int, f: Format, scaleX: real, scaleY: real)
    requires 0 <= base && base + Width(f) <= |data|
    ensures var r := DecodeRecord(data, base, f, scaleX, scaleY);
      var best := StrictMaxOf(ClassScores(data, base, f));
      (r.Some? <==> data[base + 4] >= f.boxThreshold && best.score >= f.classThreshold) &&
      (r.Some? ==>
        r.value.classId == best.index && r.value.score == best.score && r.value.labelName == "" &&
        r.value.w == Trunc(Scale(data[base + 2], scaleX)) && r.value.h == Trunc(Scale(data[base + 3], scaleY)) &&
        CentreOf(r.value.x, r.value.w) == Trunc(Scale(data[base], scaleX)) &&
        CentreOf(r.value.y, r.value.h) == Trunc(Scale(data[base + 1], scaleY))) &&
      (r.Some? && f.numClasses > 0 ==> 0 <= r.value.classId < f.numClasses && r.value.score >= 0.0)
  {
  }

  function Boxes(r: Option<BoundingBox>): seq<BoundingBox> {
    if r.Some? then [r.value] else []
  }

  /** The box of record number `k`. */
  function RecordAt(data: seq<real>, k: int, f: Format, scaleX: real, scaleY: real): Option<BoundingBox>
    requires 0 <= k && k * Width(f) + Width(f) <= |data|
  {
    MulNonNeg(k, Width(f));
    DecodeRecord(data, k * Width(f), f, scaleX, scaleY)
  }

  /** The boxes of the first `n` records, in record order. */
  function DecodedRecords(data: seq<real>, n: nat, f: Format, scaleX: real, scaleY: real): (boxes: seq<BoundingBox>)
    requires n * Width(f) <= |data|
    ensures |boxes| <= n
  {
    if n == 0 then []
    else
      NextRecordFits(n - 1, n, Width(f));
      DecodedRecords(data, n - 1, f, scaleX, scaleY) +
      Boxes(RecordAt(data, n - 1, f, scaleX, scaleY))
  }

  /** Record number `k` lies inside the data and yields `b`. */
  predicate YieldsAt(data: seq<real>, k: int, f: Format, scaleX: real, scaleY: real, b: BoundingBox) {
    0 <= k && k * Width(f) + Width(f) <= |data| && RecordAt(data, k, f, scaleX, scaleY) == Some(b)
  }

  /** One more record appends that record's box, if any. */
  lemma DecodedRecordsStep(data: seq<real>, n: nat, f: Format, scaleX: real, scaleY: real)
    requires 0 < n && n * Width(f) <= |data|
    ensures (n - 1) * Width(f) + Width(f) <= |data|
    ensures DecodedRecords(data, n, f, scaleX, scaleY) ==
      DecodedRecords(data, n - 1, f, scaleX, scaleY) + Boxes(RecordAt(data, n - 1, f, scaleX, scaleY))
  {
    NextRecordFits(n - 1, n, Width(f));
  }

  /** A box is decoded exactly when some record yields it. */
  lemma {:induction false} DecodedRecordsMembers(data: seq<real>, n: nat, f: Format, scaleX: real, scaleY: real, b: BoundingBox)
    requires n * Width(f) <= |data|
    ensures b in DecodedRecords(data, n, f, scaleX, scaleY) <==> exists k :: 0 <= k < n && YieldsAt(data, k, f, scaleX, scaleY, b)
  {
    if n > 0 {
      DecodedRecordsStep(data, n, f, scaleX, scaleY);
      DecodedRecordsMembers(data, n - 1, f, scaleX, scaleY, b);
      var prev := DecodedRecords(data, n - 1, f, scaleX, scaleY);
      var last := RecordAt(data, n - 1, f, scaleX, scaleY);
      assert (b in prev + Boxes(last)) == (b in prev || last == Some(b));
      assert YieldsAt(data, n - 1, f, scaleX, scaleY, b) == (last == Some(b));
      YieldsBeforeSplit(data, n, f, scaleX, scaleY, b);
    }
  }

  /** Some record below `n` yields `b` exactly when one below `n - 1` does or record
      `n - 1` does. */
  lemma YieldsBeforeSplit(data: seq<real>, n: nat, f: Format, scaleX: real, scaleY: real, b: BoundingBox)
    requires 0 < n
    ensures (exists k :: 0 <= k < n && YieldsAt(data, k, f, scaleX, scaleY, b)) <==>
      (exists k :: 0 <= k < n - 1 && YieldsAt(data, k, f, scaleX, scaleY, b)) || YieldsAt(data, n - 1, f, scaleX, scaleY, b)
  {
    if exists k :: 0 <= k < n && YieldsAt(data, k, f, scaleX, scaleY, b) {
      var k :| 0 <= k < n && YieldsAt(data, k, f, scaleX, scaleY, b);
      if k == n - 1 {
        YieldsAtSame(data, k, n - 1, f, scaleX, scaleY, b);
      }
    }
  }

  lemma YieldsAtSame(data: seq<real>, k: int, j: int, f: Format, scaleX: real, scaleY: real, b: BoundingBox)
    requires k == j && YieldsAt(data, k, f, scaleX, scaleY, b)
    ensures YieldsAt(data, j, f, scaleX, scaleY, b)
  {
  }

  /** Every decoded box names one of the classes and passed the class threshold. */
  lemma {:induction false} DecodedRecordsClasses(data: seq<real>, n: nat, f: Format, scaleX: real, scaleY: real)
    requires n * Width(f) <= |data| && f.numClasses > 0
    ensures forall b :: b in DecodedRecords(data, n, f, scaleX, scaleY) ==>
      0 <= b.classId < f.numClasses && b.score >= f.classThreshold && b.score >= 0.0
  {
    forall b | b in DecodedRecords(data, n, f, scaleX, scaleY)
      ensures 0 <= b.classId < f.numClasses && b.score >= f.classThreshold && b.score >= 0.0
    {
      DecodedRecordsMembers(data, n, f, scaleX, scaleY, b);
      var k :| 0 <= k < n && YieldsAt(data, k, f, scaleX, scaleY, b);
      MulNonNeg(k, Width(f));
      DecodeRecordMeaning(data, k * Width(f), f, scaleX, scaleY);
    }
  }

  /** One record: the box-confidence gate, the class scan loop, the class gate. */
  method DecodeOne(data: seq<real>, base: int, f: Format, scaleX: real, scaleY: real) returns (r: Option<BoundingBox>)
    requires 0 <= base && base + Width(f) <= |data|
    ensures r == DecodeRecord(data, base, f, scaleX, scaleY)
  {
    r := None;
    if data[base + 4] >= f.boxThreshold {
      var best := ScanStrictMax(data, base + 5, f.numClasses);
      if best.score >= f.classThreshold {
        var cx := Trunc(Scale(data[base], scaleX));
        var cy := Trunc(Scale(data[base + 1], scaleY));
        var w := Trunc(Scale(data[base + 2], scaleX));
        var h := Trunc(Scale(data[base + 3], scaleY));
        r := Some(BoundingBox(best.index, "", best.score, cx - CDiv(w, 2), cy - CDiv(h, 2), w, h));
      }
    }
  }

  lemma NextRecordFits(k: int, n: int, width: nat)
    requires 0 <= k < n
    ensures k * width + width <= n * width
  {
    MulMono(k + 1, n, width);
  }

  /** Where a walk over the records stands after the first `m` records: the read
      position is the start of record `m` and the boxes are those of the records
      before it. */
  predicate WalkedTo(data: seq<real>, f: Format, scaleX: real, scaleY: real, m: int, boxes: seq<BoundingBox>, index: int) {
    0 <= m && index == m * Width(f) && index <= |data| && boxes == DecodedRecords(data, m, f, scaleX, scaleY)
  }

  /** One record of a walk over the records: decoded and appended, the read
      position advanced by the record's width. */
  method DecodeNext(data: seq<real>, f: Format, scaleX: real, scaleY: real,
                    ghost k: int, boxes: seq<BoundingBox>, index: int)
    returns (boxesOut: seq<BoundingBox>, indexOut: int)
    requires WalkedTo(data, f, scaleX, scaleY, k, boxes, index) && index + Width(f) <= |data|
    ensures indexOut == index + Width(f)
    ensures WalkedTo(data, f, scaleX, scaleY, k + 1, boxesOut, indexOut)
  {
    MulNonNeg(k, Width(f));
    SumStep(k, Width(f));
    var r := DecodeOne(data, index, f, scaleX, scaleY);
    boxesOut := boxes + Boxes(r);
    indexOut := index + Width(f);
  }

  /** FastestDet's loop: `num` records one after the other, the read position advanced by a
      record's width each time. */
  method DecodeSequence(data: seq<real>, num: int, f: Format, scaleX: real, scaleY: real) returns (boxes: seq<BoundingBox>)
    requires 0 <= num && num * Width(f) <= |data|
    ensures boxes == DecodedRecords(data, num, f, scaleX, scaleY)
  {
    boxes := [];
    var offset := 0;
    var i := 0;
    while i < num
      invariant 0 <= i <= num && WalkedTo(data, f, scaleX, scaleY, i, boxes, offset)
    {
      NextRecordFits(i, num, Width(f));
      boxes, offset := DecodeNext(data, f, scaleX, scaleY, i, boxes, offset);
      i := i + 1;
    }
  }

  /** Distributivity steps for the grid walk, kept out of the loop proofs. */
  lemma SumStep(a: int, b: int)
    ensures a * b + b == (a + 1) * b
  {
  }

  lemma Regroup(h: int, w: int, a: int)
    ensures h * w * a == h * (w * a)
  {
  }

  /** The anchor loop of one grid cell: `count` records from record k on. */
  method DecodeRun(data: seq<real>, f: Format, scaleX: real, scaleY: real,
                   ghost k: int, count: int, boxes: seq<BoundingBox>, index: int)
    returns (boxesOut: seq<BoundingBox>, indexOut: int)
    requires 0 <= count && (k + count) * Width(f) <= |data|
    requires WalkedTo(data, f, scaleX, scaleY, k, boxes, index)
    ensures WalkedTo(data, f, scaleX, scaleY, k + count, boxesOut, indexOut)
  {
    boxesOut, indexOut := boxes, index;
    var j := 0;
    while j < count
      invariant 0 <= j <= count && WalkedTo(data, f, scaleX, scaleY, k + j, boxesOut, indexOut)
    {
      NextRecordFits(k + j, k + count, Width(f));
      boxesOut, indexOut := DecodeNext(data, f, scaleX, scaleY, k + j, boxesOut, indexOut);
      j := j + 1;
    }
  }

  /** The column loop of one grid row: gridW cells of `anchors` records from record k on. */
  method DecodeRow(data: seq<real>, f: Format, scaleX: real, scaleY: real,
                   ghost k: int, gridW: int, anchors: int, boxes: seq<BoundingBox>, index: int)
    returns (boxesOut: seq<BoundingBox>, indexOut: int)
    requires 0 <= gridW && 0 <= anchors && (k + gridW * anchors) * Width(f) <= |data|
    requires WalkedTo(data, f, scaleX, scaleY, k, boxes, index)
    ensures WalkedTo(data, f, scaleX, scaleY, k + gridW * anchors, boxesOut, indexOut)
  {
    boxesOut, indexOut := boxes, index;
    var gridX := 0;
    ghost var m := k;
    while gridX < gridW
      invariant 0 <= gridX <= gridW && m == k + gridX * anchors
      invariant WalkedTo(data, f, scaleX, scaleY, m, boxesOut, indexOut)
    {
      boxesOut, indexOut := DecodeCell(data, f, scaleX, scaleY, k, gridX, gridW, anchors, boxesOut, indexOut);
      gridX := gridX + 1;
      m := k + gridX * anchors;
    }
  }

  /** One cell of a grid row: its `anchors` records, after those of the cells before it. */
  method DecodeCell(data: seq<real>, f: Format, scaleX: real, scaleY: real,
                    ghost k: int, gridX: int, gridW: int, anchors: int, boxes: seq<BoundingBox>, index: int)
    returns (boxesOut: seq<BoundingBox>, indexOut: int)
    requires 0 <= gridX < gridW && 0 <= anchors && (k + gridW * anchors) * Width(f) <= |data|
    requires WalkedTo(data, f, scaleX, scaleY, k + gridX * anchors, boxes, index)
    ensures WalkedTo(data, f, scaleX, scaleY, k + (gridX + 1) * anchors, boxesOut, indexOut)
  {
    var m := k + gridX * anchors;
    CellFits(k, m, gridX, gridW, anchors, Width(f));
    boxesOut, indexOut := DecodeRun(data, f, scaleX, scaleY, m, anchors, boxes, index);
  }

  /** The records of cell gridX + 1 of a row still lie inside the row. */
  lemma CellFits(k: int, m: int, gridX: int, gridW: int, anchors: int, width: nat)
    requires 0 <= gridX < gridW && 0 <= anchors && m == k + gridX * anchors
    ensures m + anchors == k + (gridX + 1) * anchors
    ensures (m + anchors) * width <= (k + gridW * anchors) * width
  {
    SumStep(gridX, anchors);
    MulMono(gridX + 1, gridW, anchors);
    MulMono(m + anchors, k + gridW * anchors, width);
  }

  /** `GetBoundingBox`: the grid rows, columns and anchors in that order, reading the
      records one after the other. */
  method GetBoundingBox(data: seq<real>, f: Format, scaleX: real, scaleY: real, gridW: int, gridH: int, anchors: int)
    returns (boxes: seq<BoundingBox>)
    requires 0 <= gridW && 0 <= gridH && 0 <= anchors
    requires gridH * gridW * anchors * Width(f) <= |data|
    ensures 0 <= gridH * gridW * anchors
    ensures boxes == DecodedRecords(data, gridH * gridW * anchors, f, scaleX, scaleY)
  {
    MulNonNeg(gridW, anchors);
    MulNonNeg(gridH, gridW * anchors);
    Regroup(gridH, gridW, anchors);
    var rowLen := gridW * anchors;
    boxes := [];
    var index := 0;
    var gridY := 0;
    while gridY < gridH
      invariant 0 <= gridY <= gridH && WalkedTo(data, f, scaleX, scaleY, gridY * rowLen, boxes, index)
    {
      CellFits(0, gridY * rowLen, gridY, gridH, rowLen, Width(f));
      boxes, index := DecodeRow(data, f, scaleX, scaleY, gridY * rowLen, gridW, anchors, boxes, index);
      gridY := gridY + 1;
    }
  }
}

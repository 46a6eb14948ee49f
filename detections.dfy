// The `BoundingBox` record the detection engines report, and the two ways their
// post-processing picks the best class of a score vector.

module Detections {
  import opened Common

  /** `BoundingBox`: class id, label, score and an integer rectangle in pixels. */
  datatype BoundingBox = BoundingBox(classId: int, labelName: string, score: real, x: int, y: int, w: int, h: int)

  /** Where a scan ended: the chosen index and its score. */
  datatype Best = Best(index: int, score: real)

  /** The loop `score_max = 0; class_id = 0; for c: if (s[c] > score_max) { ... }`:
      a running maximum that starts at 0.0 with index 0, so that only a positive
      score can move it and a tie keeps the earlier index. */
  function StrictMaxOf(row: seq<real>): (b: Best)
    ensures b.score >= 0.0
    ensures forall k :: 0 <= k < |row| ==> row[k] <= b.score
    ensures b.score > 0.0 <==> exists k :: 0 <= k < |row| && row[k] > 0.0
    ensures b.score > 0.0 ==>
      (0 <= b.index < |row| && row[b.index] == b.score && forall k :: 0 <= k < b.index ==> row[k] < b.score)
    ensures b.score == 0.0 ==> b.index == 0
  {
    if |row| == 0 then Best(0, 0.0)
    else
      var prev := StrictMaxOf(row[..|row| - 1]);
      if row[|row| - 1] > prev.score then Best(|row| - 1, row[|row| - 1]) else prev
  }

  /** The class index a strict scan reports always names one of the classes scanned. */
  lemma StrictMaxIndexInRange(row: seq<real>)
    requires |row| > 0
    ensures 0 <= StrictMaxOf(row).index < |row|
  {
  }

  /** The scan loop over `count` consecutive scores starting at `base`. */
  method ScanStrictMax(data: seq<real>, base: int, count: int) returns (b: Best)
    requires 0 <= base && 0 <= count && base + count <= |data|
    ensures b == StrictMaxOf(data[base..base + count])
  {
    b := Best(0, 0.0);
    var k := 0;
    while k < count
      invariant 0 <= k <= count
      invariant b == StrictMaxOf(data[base..base + k])
    {
      assert data[base..base + k + 1][..k] == data[base..base + k];
      if data[base + k] > b.score {
        b := Best(k, data[base + k]);
      }
      k := k + 1;
    }
  }

  /** `std::max_element`: the first position holding the largest value; an empty
      range yields its beginning, position 0. */
  function MaxElementOf(row: seq<real>): (i: int)
    ensures |row| == 0 ==> i == 0
    ensures |row| > 0 ==>
      (0 <= i < |row| && (forall k :: 0 <= k < |row| ==> row[k] <= row[i]) &&
       (forall k :: 0 <= k < i ==> row[k] < row[i]))
  {
    if |row| <= 1 then 0
    else
      var prev := MaxElementOf(row[..|row| - 1]);
      if row[prev] < row[|row| - 1] then |row| - 1 else prev
  }

  /** On a row holding a positive score both scans choose the same index: the two
      loops differ only where every score is zero or negative. */
  lemma {:induction false} ScansAgreeOnPositive(row: seq<real>)
    requires exists k :: 0 <= k < |row| && row[k] > 0.0
    ensures StrictMaxOf(row).index == MaxElementOf(row)
    ensures StrictMaxOf(row).score == row[MaxElementOf(row)]
  {
    var b := StrictMaxOf(row);
    var i := MaxElementOf(row);
    assert row[b.index] <= row[i];
    assert row[i] <= b.score;
  }

  /** `count` values read `stride` apart from `start`: a channel of an NCHW tensor. */
  function Strided(data: seq<real>, start: int, stride: int, count: nat): (r: seq<real>)
    requires 0 <= start && stride >= 0
    requires count > 0 ==> start + (count - 1) * stride < |data|
    ensures |r| == count
    ensures forall k :: 0 <= k < count ==> r[k] == data[start + k * stride]
  {
    if count == 0 then []
    else
      MulMono(count - 1 - 1, count - 1, stride);
      Strided(data, start, stride, count - 1) + [data[start + (count - 1) * stride]]
  }

  /** NMS keeps a subset of its candidates: every box it returns is one of them. */
  predicate SelectedFrom(kept: seq<BoundingBox>, candidates: seq<BoundingBox>) {
    forall b :: b in kept ==> b in candidates
  }

  /** The boxes are in strictly increasing order of the index kept in `classId`. */
  predicate Increasing(boxes: seq<BoundingBox>) {
    forall j, k :: 0 <= j < k < |boxes| ==> boxes[j].classId < boxes[k].classId
  }

  /** Some box keeps index `i` in its `classId`. */
  predicate HasAnchor(boxes: seq<BoundingBox>, i: int) {
    exists j :: 0 <= j < |boxes| && boxes[j].classId == i
  }

  /** A rectangle as (x, y, w, h), the part of a box `FixInScreen` works on. */
  type Rect = (int, int, int, int)
}

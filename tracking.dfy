// Bookkeeping shared by the five multi-object trackers: integer bounding
// boxes, track values with a bounded history, the greedy running maximum of
// the association loops, the erase loop that drops lost tracks and the loop
// that numbers new tracks consecutively.

module Tracking {
  import opened Common

  /** A detection or a track position in pixels, with its class and score. */
  datatype BoundingBox = BoundingBox(classId: int, score: real, x: int, y: int, w: int, h: int)

  /** One history entry: the filtered box and the box it was computed from. */
  datatype Data = Data(bbox: BoundingBox, bboxRaw: BoundingBox)

  /** A track: its history queue (oldest first), its id and its hit and miss counters. */
  datatype Track<D> = Track(history: seq<D>, id: int, cntDetected: int, cntUndetected: int)

  /** The box a Kalman filter estimates; the filters themselves are inputs of the model. */
  datatype Estimate = Estimate(x: int, y: int, w: int, h: int)

  /** `bbox.x + bbox.w / 2` with C division. */
  function CenterX(b: BoundingBox): int { CentreOf(b.x, b.w) }

  function CenterY(b: BoundingBox): int { CentreOf(b.y, b.h) }

  /** The position of a box replaced by an estimate, everything else kept. */
  function Placed(b: BoundingBox, e: Estimate): (r: BoundingBox)
    ensures r.classId == b.classId && r.score == b.score
    ensures (r.x, r.y, r.w, r.h) == (e.x, e.y, e.w, e.h)
  {
    b.(x := e.x, y := e.y, w := e.w, h := e.h)
  }

  /** The estimate of filters that track the centre: the origin is `cx - w / 2`. */
  function FromCentre(cx: int, cy: int, w: int, h: int): (e: Estimate)
    ensures w >= 0 ==> e.x <= cx <= e.x + w
    ensures h >= 0 ==> e.y <= cy <= e.y + h
  {
    Estimate(cx - CDiv(w, 2), cy - CDiv(h, 2), w, h)
  }

  /** The outputs of four scalar filters on width, height and the two centre coordinates. */
  datatype Filtered = Filtered(w: int, h: int, cx: int, cy: int)

  /** The filtered box: the filters' size, with the origin at `cx - w / 2`. */
  function Filter(b: BoundingBox, f: Filtered): BoundingBox
  {
    Placed(b, FromCentre(f.cx, f.cy, f.w, f.h))
  }

  function Latest<D>(t: Track<D>): D
    requires |t.history| > 0
  {
    t.history[|t.history| - 1]
  }

  /** The constructor of every tracker: one entry, one detection, no miss. */
  function NewTrack<D>(d: D, id: int): (t: Track<D>)
    ensures t.history == [d] && t.id == id && t.cntDetected == 1 && t.cntUndetected == 0
  {
    Track([d], id, 1, 0)
  }

  /** Every tracker's Track constructor: the detection is both the filtered and the raw box. */
  function Start(det: BoundingBox): Data { Data(det, det) }

  function Starts(dets: seq<BoundingBox>): (r: seq<Data>)
    ensures |r| == |dets| && forall k :: 0 <= k < |dets| ==> r[k] == Start(dets[k])
  {
    seq(|dets|, k requires 0 <= k < |dets| => Start(dets[k]))
  }

  ghost predicate HistoriesNonEmpty<D>(ts: seq<Track<D>>)
  {
    forall i :: 0 <= i < |ts| ==> |ts[i].history| > 0
  }

  /** `push_back`, then `pop_front` once the queue is longer than cap. */
  function PushBounded<D>(h: seq<D>, d: D, cap: int): seq<D>
  {
    if |h| + 1 > cap then (h + [d])[1..] else h + [d]
  }

  /** The bounded push keeps the newest entry last, drops at most the oldest
      one and keeps a queue that fits within cap. */
  lemma PushBoundedKeepsNewest<D>(h: seq<D>, d: D, cap: int)
    requires 1 <= cap
    ensures var r := PushBounded(h, d, cap);
      && |r| > 0 && r[|r| - 1] == d
      && (|h| < cap ==> r == h + [d])
      && (|h| >= cap ==> r == h[1..] + [d])
      && (|h| <= cap ==> |r| <= cap)
  {
    var r := PushBounded(h, d, cap);
    if |h| + 1 > cap {
      assert r == h[1..] + [d];
    }
  }

  /** The latest entry replaced, as `data_history_.back() = ...` does. */
  function SetLatest<D>(h: seq<D>, d: D): (r: seq<D>)
    requires |h| > 0
    ensures |r| == |h| && r[|r| - 1] == d && r[..|r| - 1] == h[..|h| - 1]
  {
    h[|h| - 1 := d]
  }

  // ---------------------------------------------------------------------
  // The association loops' running maximum

  /** The running maximum `if (v[k] > max) { max = v[k]; index = k; }` over
      the first n entries, starting from (-1, floor) and skipping entries
      that are not allowed. */
  function Pick(s: seq<real>, allowed: seq<bool>, floor: real, n: int): (int, real)
    requires 0 <= n <= |s| && |allowed| == |s|
  {
    if n == 0 then (-1, floor)
    else
      var p := Pick(s, allowed, floor, n - 1);
      if allowed[n - 1] && s[n - 1] > p.1 then (n - 1, s[n - 1]) else p
  }

  /** The pick is -1 exactly when no allowed entry exceeds the floor, and
      otherwise the first allowed entry of maximal value. */
  lemma {:induction false} PickIsFirstMax(s: seq<real>, allowed: seq<bool>, floor: real, n: int)
    requires 0 <= n <= |s| && |allowed| == |s|
    ensures var (i, m) := Pick(s, allowed, floor, n);
      && -1 <= i < n
      && (i == -1 <==> forall k :: 0 <= k < n && allowed[k] ==> s[k] <= floor)
      && (i == -1 ==> m == floor)
      && (i >= 0 ==> allowed[i] && s[i] == m && m > floor)
      && (forall k :: 0 <= k < n && allowed[k] ==> s[k] <= m)
      && (forall k :: 0 <= k < i && allowed[k] ==> s[k] < m)
  {
    if n > 0 {
      PickIsFirstMax(s, allowed, floor, n - 1);
    }
  }

  /** The association loop over one row of the table. */
  method PickBest(s: seq<real>, allowed: seq<bool>, floor: real) returns (index: int)
    requires |allowed| == |s|
    ensures index == Pick(s, allowed, floor, |s|).0
  {
    var best := floor;
    index := -1;
    var k := 0;
    while k < |s|
      invariant 0 <= k <= |s|
      invariant (index, best) == Pick(s, allowed, floor, k)
    {
      if allowed[k] && s[k] > best {
        best := s[k];
        index := k;
      }
      k := k + 1;
    }
  }

  function AllTrue(n: nat): (r: seq<bool>)
    ensures |r| == n && forall k :: 0 <= k < n ==> r[k]
  {
    seq(n, _ => true)
  }

  // ---------------------------------------------------------------------
  // Deleting lost tracks

  /** The tracks the erase loop keeps: those with fewer misses than the threshold, in order. */
  function Surviving<D>(ts: seq<Track<D>>, threshold: int): seq<Track<D>>
  {
    if ts == [] then []
    else
      var last := ts[|ts| - 1];
      Surviving(ts[..|ts| - 1], threshold) + (if last.cntUndetected >= threshold then [] else [last])
  }

  /** A track survives exactly when it misses fewer than threshold frames,
      and the list never grows. */
  lemma {:induction false} SurvivingIff<D>(ts: seq<Track<D>>, threshold: int)
    ensures |Surviving(ts, threshold)| <= |ts|
    ensures forall t :: t in Surviving(ts, threshold) ==> t in ts && t.cntUndetected < threshold
    ensures forall t :: t in ts && t.cntUndetected < threshold ==> t in Surviving(ts, threshold)
  {
    if ts != [] {
      var init := ts[..|ts| - 1];
      SurvivingIff(init, threshold);
      assert ts == init + [ts[|ts| - 1]];
    }
  }

  /** Pruning keeps ids distinct and below the next id, and each history within cap. */
  lemma {:induction false} SurvivingNumbered<D>(ts: seq<Track<D>>, threshold: int, next: int, cap: int)
    requires WellNumbered(ts, next, cap)
    ensures WellNumbered(Surviving(ts, threshold), next, cap)
  {
    if ts != [] {
      var init, last := ts[..|ts| - 1], ts[|ts| - 1];
      InitNumbered(ts, next, cap);
      SurvivingNumbered(init, threshold, next, cap);
      var r0 := Surviving(init, threshold);
      SurvivorsBeforeLast(ts, r0, threshold, next, cap);
      assert Surviving(ts, threshold) == r0 + (if last.cntUndetected >= threshold then [] else [last]);
      if last.cntUndetected < threshold {
        AppendNumbered(r0, last, next, cap);
      } else {
        assert r0 + [] == r0;
      }
    }
  }

  /** Dropping the last track keeps a list well numbered, and the last track's
      id differs from all before it. */
  lemma InitNumbered<D>(ts: seq<Track<D>>, next: int, cap: int)
    requires ts != [] && WellNumbered(ts, next, cap)
    ensures WellNumbered(ts[..|ts| - 1], next, cap)
    ensures forall i :: 0 <= i < |ts| - 1 ==> ts[i].id != ts[|ts| - 1].id
    ensures 0 <= ts[|ts| - 1].id < next && 1 <= |ts[|ts| - 1].history| <= cap
  {
  }

  /** No survivor among the tracks before the last shares the last track's id. */
  lemma SurvivorsBeforeLast<D>(ts: seq<Track<D>>, r0: seq<Track<D>>, threshold: int, next: int, cap: int)
    requires ts != [] && WellNumbered(ts, next, cap) && r0 == Surviving(ts[..|ts| - 1], threshold)
    ensures forall i :: 0 <= i < |r0| ==> r0[i].id != ts[|ts| - 1].id
  {
    var init := ts[..|ts| - 1];
    InitNumbered(ts, next, cap);
    SurvivingIff(init, threshold);
    forall i | 0 <= i < |r0|
      ensures r0[i].id != ts[|ts| - 1].id
    {
      assert r0[i] in r0;
      var j :| 0 <= j < |init| && init[j] == r0[i];
      assert ts[j] == init[j];
    }
  }

  /** A track with a fresh id below next appended to a well-numbered list. */
  lemma AppendNumbered<D>(r0: seq<Track<D>>, last: Track<D>, next: int, cap: int)
    requires WellNumbered(r0, next, cap) && 0 <= last.id < next && 1 <= |last.history| <= cap
    requires forall i :: 0 <= i < |r0| ==> r0[i].id != last.id
    ensures WellNumbered(r0 + [last], next, cap)
  {
    var r := r0 + [last];
    forall i, j | 0 <= i < j < |r|
      ensures r[i].id != r[j].id
    {
      if j < |r0| {
        assert r[i] == r0[i] && r[j] == r0[j];
      } else {
        assert r[i] == r0[i] && r[j] == last;
      }
    }
  }

  /** The erase loop `if (count >= threshold) it = erase(it); else it++;`. */
  method EraseLost<D>(ts: seq<Track<D>>, threshold: int) returns (kept: seq<Track<D>>)
    ensures kept == Surviving(ts, threshold)
  {
    kept := [];
    var i := 0;
    while i < |ts|
      invariant 0 <= i <= |ts|
      invariant kept == Surviving(ts[..i], threshold)
    {
      assert ts[..i + 1][..i] == ts[..i];
      if ts[i].cntUndetected < threshold {
        kept := kept + [ts[i]];
      }
      i := i + 1;
    }
    assert ts[..i] == ts;
  }

  // ---------------------------------------------------------------------
  // Adding new tracks

  function CountTrue(b: seq<bool>): nat
  {
    if b == [] then 0 else CountTrue(b[..|b| - 1]) + (if b[|b| - 1] then 1 else 0)
  }

  /** The tracks `push_back(Track(next++, det))` appends for the flagged entries, in order. */
  function Spawned<D>(first: seq<D>, free: seq<bool>, next: int): seq<Track<D>>
    requires |free| == |first|
  {
    if first == [] then []
    else
      var n := |first| - 1;
      Spawned(first[..n], free[..n], next)
        + (if free[n] then [NewTrack(first[n], next + CountTrue(free[..n]))] else [])
  }

  /** One new track per flagged entry, in order, with the consecutive ids
      next, next + 1, ...; each starts from its own entry. */
  lemma {:induction false} SpawnedIds<D>(first: seq<D>, free: seq<bool>, next: int)
    requires |free| == |first|
    ensures var r := Spawned(first, free, next);
      && |r| == CountTrue(free)
      && (forall k :: 0 <= k < |r| ==> r[k].id == next + k && r[k].cntDetected == 1 && r[k].cntUndetected == 0)
      && (forall k :: 0 <= k < |r| ==> exists j :: 0 <= j < |first| && free[j] && r[k].history == [first[j]])
  {
    if first != [] {
      var n := |first| - 1;
      SpawnedIds(first[..n], free[..n], next);
      var r0 := Spawned(first[..n], free[..n], next);
      var r := Spawned(first, free, next);
      assert r == r0 + (if free[n] then [NewTrack(first[n], next + CountTrue(free[..n]))] else []);
      forall k | 0 <= k < |r|
        ensures exists j :: 0 <= j < |first| && free[j] && r[k].history == [first[j]]
      {
        if k < |r0| {
          assert r[k] == r0[k];
          var j :| 0 <= j < n && free[..n][j] && r0[k].history == [first[..n][j]];
          assert free[j] && r[k].history == [first[j]];
        } else {
          assert free[n] && r[k] == NewTrack(first[n], next + CountTrue(free[..n]));
        }
      }
    }
  }

  /** A flagged entry d opens the track number CountTrue(free[..d]) among the
      new ones: the one with id next plus the number of flagged entries
      before d, starting from entry d. */
  lemma {:induction false} SpawnedCovers<D>(first: seq<D>, free: seq<bool>, next: int, d: int)
    requires |free| == |first| && 0 <= d < |first| && free[d]
    ensures var k := CountTrue(free[..d]);
      k < |Spawned(first, free, next)| && Spawned(first, free, next)[k] == NewTrack(first[d], next + k)
  {
    var n := |first| - 1;
    var r0 := Spawned(first[..n], free[..n], next);
    var r := Spawned(first, free, next);
    SpawnedIds(first[..n], free[..n], next);
    assert r == r0 + (if free[n] then [NewTrack(first[n], next + CountTrue(free[..n]))] else []);
    if d < n {
      SpawnedCovers(first[..n], free[..n], next, d);
      assert free[..n][..d] == free[..d];
      assert first[..n][d] == first[d];
    }
  }

  /** After the kept tracks come the new ones: the track of an unclaimed
      detection d sits after the kept tracks and after the tracks of the
      unclaimed detections before d, and carries the next id plus their
      number. */
  lemma DetectionsCovered<D>(kept: seq<Track<D>>, first: seq<D>, matches: seq<int>, next: int)
    ensures var free := Unclaimed(matches, |first|);
      var r := kept + Spawned(first, free, next);
      forall d :: 0 <= d < |first| && d !in matches ==>
        |kept| + CountTrue(free[..d]) < |r| &&
        r[|kept| + CountTrue(free[..d])] == NewTrack(first[d], next + CountTrue(free[..d]))
  {
    var free := Unclaimed(matches, |first|);
    forall d | 0 <= d < |first| && d !in matches
      ensures CountTrue(free[..d]) < |Spawned(first, free, next)|
      ensures Spawned(first, free, next)[CountTrue(free[..d])] == NewTrack(first[d], next + CountTrue(free[..d]))
    {
      SpawnedCovers(first, free, next, d);
    }
  }

  /** The spawning loop over the per-detection flags. */
  method AddTracks<D>(ts: seq<Track<D>>, first: seq<D>, free: seq<bool>, next: int)
    returns (r: seq<Track<D>>, nextOut: int)
    requires |free| == |first|
    ensures r == ts + Spawned(first, free, next)
    ensures nextOut == next + CountTrue(free)
  {
    r, nextOut := ts, next;
    var i := 0;
    while i < |first|
      invariant 0 <= i <= |first|
      invariant r == ts + Spawned(first[..i], free[..i], next)
      invariant nextOut == next + CountTrue(free[..i])
    {
      assert first[..i + 1][..i] == first[..i] && free[..i + 1][..i] == free[..i];
      if free[i] {
        r := r + [NewTrack(first[i], nextOut)];
        nextOut := nextOut + 1;
      }
      i := i + 1;
    }
    assert first[..i] == first && free[..i] == free;
  }

  // ---------------------------------------------------------------------
  // Class-gated similarity tables

  /** The table entry of the greedy trackers: the IoU for boxes of the same class, else 0. */
  function Similarity(tb: BoundingBox, db: BoundingBox, iou: (BoundingBox, BoundingBox) -> real): real
  {
    if tb.classId == db.classId then iou(tb, db) else 0.0
  }

  function SimilarityRow(tb: BoundingBox, dets: seq<BoundingBox>, iou: (BoundingBox, BoundingBox) -> real): (r: seq<real>)
    ensures |r| == |dets| && forall k :: 0 <= k < |dets| ==> r[k] == Similarity(tb, dets[k], iou)
  {
    seq(|dets|, k requires 0 <= k < |dets| => Similarity(tb, dets[k], iou))
  }

  /** The nested loops that fill the table: one row per track box, one column per detection. */
  method SimilarityTable(boxes: seq<BoundingBox>, dets: seq<BoundingBox>, iou: (BoundingBox, BoundingBox) -> real)
    returns (table: seq<seq<real>>)
    ensures |table| == |boxes| && forall k :: 0 <= k < |boxes| ==> table[k] == SimilarityRow(boxes[k], dets, iou)
  {
    table := [];
    var i := 0;
    while i < |boxes|
      invariant 0 <= i <= |boxes| && |table| == i
      invariant forall k :: 0 <= k < i ==> table[k] == SimilarityRow(boxes[k], dets, iou)
    {
      var tb := boxes[i];
      var row: seq<real> := [];
      var d := 0;
      while d < |dets|
        invariant 0 <= d <= |dets| && |row| == d
        invariant forall k :: 0 <= k < d ==> row[k] == Similarity(tb, dets[k], iou)
      {
        row := row + [if tb.classId == dets[d].classId then iou(tb, dets[d]) else 0.0];
        d := d + 1;
      }
      table := table + [row];
      i := i + 1;
    }
  }

  // ---------------------------------------------------------------------
  // Bookkeeping around an external assignment solver

  ghost predicate Rectangular(table: seq<seq<real>>, n: nat)
  {
    forall k :: 0 <= k < |table| ==> |table[k]| == n
  }

  /** `det_index_for_track`: filled by the solver when there are tracks and
      detections, otherwise left at -1. The solver's output is an input. */
  function Solution(nTracks: nat, nDets: nat, solverOut: seq<int>): (r: seq<int>)
    ensures |r| == |solverOut|
    ensures nTracks > 0 && nDets > 0 ==> r == solverOut
    ensures nTracks == 0 || nDets == 0 ==> forall i :: 0 <= i < |r| ==> r[i] == -1
  {
    if nTracks > 0 && nDets > 0 then solverOut else seq(|solverOut|, _ => -1)
  }

  /** The detection each track is updated with: its assigned index when
      that lies among the detections and costs less than costMax, else -1. */
  function Accepted(cost: seq<seq<real>>, sol: seq<int>, nTracks: nat, nDets: nat, costMax: real): (r: seq<int>)
    requires nTracks <= |sol| && nTracks <= |cost| && forall i :: 0 <= i < nTracks ==> nDets <= |cost[i]|
    ensures |r| == nTracks
    ensures forall i :: 0 <= i < nTracks ==> -1 <= r[i] < nDets
  {
    seq(nTracks, i requires 0 <= i < nTracks =>
      if 0 <= sol[i] < nDets && cost[i][sol[i]] < costMax then sol[i] else -1)
  }

  /** A track is updated with detection d exactly when the solver gave it
      d, d is a detection, and the pair costs less than costMax. */
  lemma AcceptedIff(cost: seq<seq<real>>, sol: seq<int>, nTracks: nat, nDets: nat, costMax: real, i: int, d: int)
    requires nTracks <= |sol| && nTracks <= |cost| && forall k :: 0 <= k < nTracks ==> nDets <= |cost[k]|
    requires 0 <= i < nTracks && 0 <= d
    ensures Accepted(cost, sol, nTracks, nDets, costMax)[i] == d <==> sol[i] == d && d < nDets && cost[i][d] < costMax
  {
  }

  /** `is_det_assigned_list[d] == false`: no track was updated with d. */
  function Unclaimed(accepted: seq<int>, nDets: nat): (r: seq<bool>)
    ensures |r| == nDets && forall d :: 0 <= d < nDets ==> (r[d] <==> d !in accepted)
  {
    seq(nDets, d => d !in accepted)
  }

  // ---------------------------------------------------------------------
  // The invariant every tracker keeps

  /** Every track has an id below the next id, ids are distinct, and the
      history holds between 1 and cap entries. */
  ghost predicate WellNumbered<D>(ts: seq<Track<D>>, next: int, cap: int)
  {
    && (forall i :: 0 <= i < |ts| ==> 0 <= ts[i].id < next && 1 <= |ts[i].history| <= cap)
    && (forall i, j :: 0 <= i < j < |ts| ==> ts[i].id != ts[j].id)
  }

  /** Pruning and then spawning from the next id keeps the tracks well numbered. */
  lemma PruneThenSpawnNumbered<D>(ts: seq<Track<D>>, threshold: int, first: seq<D>, free: seq<bool>, next: int, cap: int)
    requires |free| == |first| && 1 <= cap && next >= 0
    requires WellNumbered(ts, next, cap)
    ensures WellNumbered(Surviving(ts, threshold) + Spawned(first, free, next), next + CountTrue(free), cap)
  {
    var kept := Surviving(ts, threshold);
    var born := Spawned(first, free, next);
    SurvivingNumbered(ts, threshold, next, cap);
    SpawnedIds(first, free, next);
    var all := kept + born;
    forall i | 0 <= i < |all|
      ensures 0 <= all[i].id < next + CountTrue(free) && 1 <= |all[i].history| <= cap
    {
      if i >= |kept| {
        assert all[i] == born[i - |kept|];
      }
    }
  }

  /** The first kept tracks of r all missed fewer than threshold frames. */
  ghost predicate MissedFewer<D>(r: seq<Track<D>>, kept: int, threshold: int)
  {
    forall i :: 0 <= i < kept && i < |r| ==> r[i].cntUndetected < threshold
  }

  /** After the first kept tracks of r, each detection d that no track took
      has opened a track from first[d]; it comes after the tracks of the
      untaken detections before d, whose number it adds to the next id. */
  ghost predicate OpensUnclaimed<D>(r: seq<Track<D>>, kept: int, first: seq<D>, matches: seq<int>, next: int)
  {
    var free := Unclaimed(matches, |first|);
    forall d :: 0 <= d < |first| && d !in matches ==>
      0 <= kept + CountTrue(free[..d]) < |r| &&
      r[kept + CountTrue(free[..d])] == NewTrack(first[d], next + CountTrue(free[..d]))
  }

  /** The end of every tracker's Update: drop the tracks that missed
      threshold frames, then open one for each detection no track took. The
      result stays well numbered, the survivors missed fewer than threshold
      frames, and every detection that no track took has opened a track. */
  lemma PruneThenSpawn<D>(cs: seq<Track<D>>, threshold: int, first: seq<D>, matches: seq<int>, next: int, cap: int)
    requires 1 <= cap && next >= 0 && WellNumbered(cs, next, cap)
    ensures var free := Unclaimed(matches, |first|);
      var r := Surviving(cs, threshold) + Spawned(first, free, next);
      var kept := |r| - CountTrue(free);
      && WellNumbered(r, next + CountTrue(free), cap)
      && kept == |Surviving(cs, threshold)| && 0 <= kept <= |cs|
      && MissedFewer(r, kept, threshold)
      && OpensUnclaimed(r, kept, first, matches, next)
  {
    var free := Unclaimed(matches, |first|);
    var born := Spawned(first, free, next);
    PruneThenSpawnNumbered(cs, threshold, first, free, next, cap);
    KeptMissedFewer(cs, threshold, born);
    SpawnedCount(first, free, next);
    SurvivingLength(cs, threshold);
    CoveredOpens(Surviving(cs, threshold), first, matches, next);
  }

  /** What every tracker's Update guarantees about its new track list r, given
      the list before (of length before), the detections' first entries, the
      detection each track took (or -1) and the next id: r is well numbered
      from the ids taken by new tracks; its first kept entries are old tracks
      that missed fewer than threshold frames; after them every detection no
      track took has opened a track, in detection order. */
  ghost predicate StepOutcome<D>(r: seq<Track<D>>, before: int, threshold: int, first: seq<D>, matches: seq<int>,
                                 next: int, cap: int)
  {
    var added := CountTrue(Unclaimed(matches, |first|));
    var kept := |r| - added;
    && WellNumbered(r, next + added, cap)
    && 0 <= kept <= before
    && MissedFewer(r, kept, threshold)
    && OpensUnclaimed(r, kept, first, matches, next)
  }

  /** The outcome of a tracker that appends its new tracks after the kept
      ones: r is well numbered from next + added; its first kept entries
      (kept = |r| - added, at most before) missed fewer than threshold
      frames; the added entries after them carry the ids next, next + 1, ...
      and no miss. */
  ghost predicate ConsecutiveOutcome<D>(r: seq<Track<D>>, before: int, added: int, next: int, threshold: int, cap: int)
  {
    var kept := |r| - added;
    && WellNumbered(r, next + added, cap)
    && 0 <= kept <= before && 0 <= added
    && (forall i :: 0 <= i < kept ==> r[i].cntUndetected < threshold)
    && (forall i :: kept <= i < |r| ==> r[i].id == next + (i - kept) && r[i].cntUndetected == 0)
  }

  /** Pruning and then spawning from the next id gives the consecutive outcome. */
  lemma PruneThenSpawnConsecutive<D>(r: seq<Track<D>>, cs: seq<Track<D>>, threshold: int, first: seq<D>, free: seq<bool>,
                                     next: int, cap: int)
    requires |free| == |first| && 1 <= cap && next >= 0 && WellNumbered(cs, next, cap)
    requires r == Surviving(cs, threshold) + Spawned(first, free, next)
    ensures ConsecutiveOutcome(r, |cs|, CountTrue(free), next, threshold, cap)
  {
    var kept := Surviving(cs, threshold);
    var born := Spawned(first, free, next);
    var added := CountTrue(free);
    assert WellNumbered(r, next + added, cap) by {
      PruneThenSpawnNumbered(cs, threshold, first, free, next, cap);
    }
    assert |born| == added && forall k :: 0 <= k < |born| ==> born[k].id == next + k && born[k].cntUndetected == 0 by {
      SpawnedIds(first, free, next);
    }
    assert |kept| <= |cs| by {
      SurvivingLength(cs, threshold);
    }
    assert |r| - added == |kept|;
    assert forall i :: 0 <= i < |kept| ==> kept[i].cntUndetected < threshold by {
      SurvivingIff(cs, threshold);
      forall i | 0 <= i < |kept|
        ensures kept[i].cntUndetected < threshold
      {
        assert kept[i] in kept;
      }
    }
    forall i | 0 <= i < |kept|
      ensures r[i].cntUndetected < threshold
    {
      assert r[i] == kept[i];
    }
    AppendedConsecutive(r, kept, born, next);
  }

  /** Tracks with consecutive ids and no miss appended after `kept`. */
  lemma AppendedConsecutive<D>(r: seq<Track<D>>, kept: seq<Track<D>>, born: seq<Track<D>>, next: int)
    requires r == kept + born
    requires forall k :: 0 <= k < |born| ==> born[k].id == next + k && born[k].cntUndetected == 0
    ensures forall i :: |kept| <= i < |r| ==> r[i].id == next + (i - |kept|) && r[i].cntUndetected == 0
  {
    forall i | |kept| <= i < |r|
      ensures r[i].id == next + (i - |kept|) && r[i].cntUndetected == 0
    {
      assert r[i] == born[i - |kept|];
    }
  }

  /** PruneThenSpawn for a result r already known to be the pruned and
      extended list. */
  lemma PruneThenSpawnOutcome<D>(r: seq<Track<D>>, cs: seq<Track<D>>, threshold: int, first: seq<D>, matches: seq<int>,
                                 next: int, cap: int)
    requires 1 <= cap && next >= 0 && WellNumbered(cs, next, cap)
    requires r == Surviving(cs, threshold) + Spawned(first, Unclaimed(matches, |first|), next)
    ensures StepOutcome(r, |cs|, threshold, first, matches, next, cap)
  {
    PruneThenSpawn(cs, threshold, first, matches, next, cap);
  }

  /** The numbering half of StepOutcome, for n detections. */
  lemma StepOutcomeNumbered<D>(r: seq<Track<D>>, before: int, threshold: int, first: seq<D>, matches: seq<int>,
                               next: int, cap: int, n: int)
    requires StepOutcome(r, before, threshold, first, matches, next, cap) && n == |first|
    ensures WellNumbered(r, next + CountTrue(Unclaimed(matches, n)), cap)
  {
  }

  lemma CoveredOpens<D>(kept: seq<Track<D>>, first: seq<D>, matches: seq<int>, next: int)
    ensures OpensUnclaimed(kept + Spawned(first, Unclaimed(matches, |first|), next), |kept|, first, matches, next)
  {
    DetectionsCovered(kept, first, matches, next);
  }

  /** The survivors at the head of a list missed fewer than threshold frames. */
  lemma KeptMissedFewer<D>(cs: seq<Track<D>>, threshold: int, born: seq<Track<D>>)
    ensures MissedFewer(Surviving(cs, threshold) + born, |Surviving(cs, threshold)|, threshold)
  {
    var kept := Surviving(cs, threshold);
    SurvivingIff(cs, threshold);
    forall i | 0 <= i < |kept|
      ensures (kept + born)[i].cntUndetected < threshold
    {
      assert (kept + born)[i] == kept[i] && kept[i] in kept;
    }
  }

  lemma SpawnedCount<D>(first: seq<D>, free: seq<bool>, next: int)
    requires |free| == |first|
    ensures |Spawned(first, free, next)| == CountTrue(free)
  {
    SpawnedIds(first, free, next);
  }

  lemma SurvivingLength<D>(ts: seq<Track<D>>, threshold: int)
    ensures |Surviving(ts, threshold)| <= |ts|
  {
    SurvivingIff(ts, threshold);
  }
}

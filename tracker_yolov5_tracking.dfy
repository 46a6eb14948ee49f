// The tracker of the YOLOv5 tracking demo. Every frame it extends each
// track by its filtered prediction, lets each track take the best matching
// detection of its class (greedily, several tracks may take the same one),
// drops tracks that missed twice and opens a track for every detection no
// track took. The four scalar Kalman filters of a track are inputs: their
// outputs for the frame are given.

module Yolov5TrackingTracker {
  import opened Common
  import opened Tracking

  /** The history queue is popped once it holds more than 400 entries. */
  const MaxHistory := 400
  /** Tracks that missed this many frames are removed. */
  const CntToDelete := 2
  /** A track only takes a detection whose similarity is strictly above this. */
  const SimilarityFloor: real := 0.5

  /** Track::PreUpdate: a new entry holding the filtered latest box, whose raw box is the latest box. */
  function PreUpdate(t: Track<Data>, f: Filtered): Track<Data>
    requires |t.history| > 0
  {
    var prev := Latest(t).bbox;
    t.(history := PushBounded(t.history, Data(Filter(prev, f), prev), MaxHistory))
  }

  /** Track::Update: the latest entry becomes the detection and its filtered form. */
  function Update(t: Track<Data>, det: BoundingBox, f: Filtered): Track<Data>
    requires |t.history| > 0
  {
    t.(history := SetLatest(t.history, Data(Filter(det, f), det)),
       cntDetected := t.cntDetected + 1, cntUndetected := 0)
  }

  /** Track::UpdateNoDet: the latest entry's scores are zeroed. */
  function UpdateNoDet(t: Track<Data>): Track<Data>
    requires |t.history| > 0
  {
    var d := Latest(t);
    t.(history := SetLatest(t.history, Data(d.bbox.(score := 0.0), d.bboxRaw.(score := 0.0))),
       cntUndetected := t.cntUndetected + 1)
  }

  /** PreUpdate adds one entry (popping the oldest beyond 400) whose raw
      box is the previous latest box and keeps the id and the counters;
      Update and UpdateNoDet only touch the latest entry and the counters. */
  lemma TrackOperations(t: Track<Data>, f: Filtered, det: BoundingBox)
    requires 1 <= |t.history| <= MaxHistory
    ensures var p := PreUpdate(t, f);
      && 1 <= |p.history| <= MaxHistory
      && (|t.history| < MaxHistory ==> |p.history| == |t.history| + 1)
      && Latest(p).bboxRaw == Latest(t).bbox
      && p.id == t.id && p.cntDetected == t.cntDetected && p.cntUndetected == t.cntUndetected
    ensures var u := Update(t, det, f);
      && |u.history| == |t.history| && u.history[..|u.history| - 1] == t.history[..|t.history| - 1]
      && Latest(u).bboxRaw == det && Latest(u).bbox.classId == det.classId
      && u.id == t.id && u.cntDetected == t.cntDetected + 1 && u.cntUndetected == 0
    ensures var n := UpdateNoDet(t);
      && |n.history| == |t.history| && n.history[..|n.history| - 1] == t.history[..|t.history| - 1]
      && Latest(n).bbox.score == 0.0 && Latest(n).bboxRaw.score == 0.0
      && Latest(n).bbox.(score := Latest(t).bbox.score) == Latest(t).bbox
      && n.id == t.id && n.cntDetected == t.cntDetected && n.cntUndetected == t.cntUndetected + 1
  {
    var prev := Latest(t).bbox;
    PushBoundedKeepsNewest(t.history, Data(Filter(prev, f), prev), MaxHistory);
  }

  // ---------------------------------------------------------------------
  // Association

  /** The detection a track takes: the running maximum above 0.5 of its row. */
  function Choice(tb: BoundingBox, dets: seq<BoundingBox>, iou: (BoundingBox, BoundingBox) -> real): int
  {
    Pick(SimilarityRow(tb, dets, iou), AllTrue(|dets|), SimilarityFloor, |dets|).0
  }

  /** A track takes no detection exactly when none of its class has IoU
      above 0.5. Otherwise it takes the first detection of maximal IoU
      among those of its class, and that detection has the track's class. */
  lemma ChoiceIsBestMatch(tb: BoundingBox, dets: seq<BoundingBox>, iou: (BoundingBox, BoundingBox) -> real)
    ensures var c := Choice(tb, dets, iou);
      && -1 <= c < |dets|
      && (c == -1 <==> forall k :: 0 <= k < |dets| && dets[k].classId == tb.classId ==> iou(tb, dets[k]) <= SimilarityFloor)
      && (c >= 0 ==>
            && dets[c].classId == tb.classId && iou(tb, dets[c]) > SimilarityFloor
            && (forall k :: 0 <= k < |dets| && dets[k].classId == tb.classId ==> iou(tb, dets[k]) <= iou(tb, dets[c]))
            && (forall k :: 0 <= k < c && dets[k].classId == tb.classId ==> iou(tb, dets[k]) < iou(tb, dets[c])))
  {
    var row := SimilarityRow(tb, dets, iou);
    PickIsFirstMax(row, AllTrue(|dets|), SimilarityFloor, |dets|);
    var c := Choice(tb, dets, iou);
    if c == -1 {
      forall k | 0 <= k < |dets| && dets[k].classId == tb.classId
        ensures iou(tb, dets[k]) <= SimilarityFloor
      {
        assert row[k] == iou(tb, dets[k]);
      }
    } else {
      assert row[c] > SimilarityFloor;
      assert dets[c].classId == tb.classId;
      forall k | 0 <= k < |dets| && dets[k].classId == tb.classId
        ensures iou(tb, dets[k]) <= iou(tb, dets[c])
      {
        assert row[k] == iou(tb, dets[k]);
      }
    }
  }

  /** The value `track_index_for_det[d]` ends with: the last track that took d, or -1. */
  function LastChooser(choices: seq<int>, d: int): int
  {
    if choices == [] then -1
    else if choices[|choices| - 1] == d then |choices| - 1
    else LastChooser(choices[..|choices| - 1], d)
  }

  /** It is -1 exactly when no track took the detection, and otherwise a track that took it. */
  lemma {:induction false} LastChooserIff(choices: seq<int>, d: int)
    ensures var t := LastChooser(choices, d);
      && -1 <= t < |choices|
      && (t == -1 <==> forall k :: 0 <= k < |choices| ==> choices[k] != d)
      && (t >= 0 ==> choices[t] == d)
  {
    if choices != [] && choices[|choices| - 1] != d {
      var init := choices[..|choices| - 1];
      LastChooserIff(init, d);
      assert forall k :: 0 <= k < |init| ==> init[k] == choices[k];
    }
  }

  /** The detections no track took; each of them opens a track. */
  function Unchosen(choices: seq<int>, n: nat): (free: seq<bool>)
    ensures |free| == n
  {
    seq(n, d => LastChooser(choices, d) < 0)
  }

  // ---------------------------------------------------------------------
  // One call of Tracker::Update, stage by stage

  function Predicted(ts: seq<Track<Data>>, pre: seq<Filtered>): (r: seq<Track<Data>>)
    requires |pre| == |ts| && HistoriesNonEmpty(ts)
    ensures |r| == |ts| && HistoriesNonEmpty(r)
  {
    seq(|ts|, i requires 0 <= i < |ts| => PreUpdate(ts[i], pre[i]))
  }

  function LatestBoxes(ps: seq<Track<Data>>): (r: seq<BoundingBox>)
    requires HistoriesNonEmpty(ps)
    ensures |r| == |ps| && forall k :: 0 <= k < |ps| ==> r[k] == Latest(ps[k]).bbox
  {
    seq(|ps|, k requires 0 <= k < |ps| => Latest(ps[k]).bbox)
  }

  function Choices(ps: seq<Track<Data>>, dets: seq<BoundingBox>, iou: (BoundingBox, BoundingBox) -> real): (r: seq<int>)
    requires HistoriesNonEmpty(ps)
    ensures |r| == |ps|
  {
    seq(|ps|, i requires 0 <= i < |ps| => Choice(Latest(ps[i]).bbox, dets, iou))
  }

  function UpdateOne(t: Track<Data>, choice: int, dets: seq<BoundingBox>, f: Filtered): Track<Data>
    requires |t.history| > 0 && choice < |dets|
  {
    if choice >= 0 then Update(t, dets[choice], f) else UpdateNoDet(t)
  }

  function Applied(ps: seq<Track<Data>>, choices: seq<int>, dets: seq<BoundingBox>, upd: seq<Filtered>): (r: seq<Track<Data>>)
    requires HistoriesNonEmpty(ps) && |choices| == |ps| == |upd|
    requires forall i :: 0 <= i < |choices| ==> choices[i] < |dets|
    ensures |r| == |ps|
  {
    seq(|ps|, i requires 0 <= i < |ps| => UpdateOne(ps[i], choices[i], dets, upd[i]))
  }

  lemma ChoicesInRange(ps: seq<Track<Data>>, dets: seq<BoundingBox>, iou: (BoundingBox, BoundingBox) -> real)
    requires HistoriesNonEmpty(ps)
    ensures forall i :: 0 <= i < |ps| ==> -1 <= Choices(ps, dets, iou)[i] < |dets|
  {
    forall i | 0 <= i < |ps|
      ensures -1 <= Choices(ps, dets, iou)[i] < |dets|
    {
      ChoiceIsBestMatch(Latest(ps[i]).bbox, dets, iou);
    }
  }

  /** The track list after Tracker::Update. */
  function Stepped(ts: seq<Track<Data>>, next: int, dets: seq<BoundingBox>, pre: seq<Filtered>, upd: seq<Filtered>,
                   iou: (BoundingBox, BoundingBox) -> real): seq<Track<Data>>
    requires |pre| == |ts| == |upd| && HistoriesNonEmpty(ts)
  {
    var ps := Predicted(ts, pre);
    var choices := Choices(ps, dets, iou);
    ChoicesInRange(ps, dets, iou);
    Surviving(Applied(ps, choices, dets, upd), CntToDelete) + Spawned(Starts(dets), Unchosen(choices, |dets|), next)
  }

  /** The number of tracks Tracker::Update opens. */
  function Opened(ts: seq<Track<Data>>, dets: seq<BoundingBox>, pre: seq<Filtered>, iou: (BoundingBox, BoundingBox) -> real): nat
    requires |pre| == |ts| && HistoriesNonEmpty(ts)
  {
    CountTrue(Unchosen(Choices(Predicted(ts, pre), dets, iou), |dets|))
  }

  /** Tracker::Update keeps ids distinct and below the next id and histories
      within 400 entries. Every old track that survives missed fewer than 2
      frames, and the new tracks take the ids next, next + 1, ... in the
      order of the detections no track took. */
  lemma SteppedProperties(ts: seq<Track<Data>>, next: int, dets: seq<BoundingBox>, pre: seq<Filtered>, upd: seq<Filtered>,
                          iou: (BoundingBox, BoundingBox) -> real)
    requires |pre| == |ts| == |upd| && next >= 0 && WellNumbered(ts, next, MaxHistory)
    ensures ConsecutiveOutcome(Stepped(ts, next, dets, pre, upd, iou), |ts|, Opened(ts, dets, pre, iou), next, CntToDelete, MaxHistory)
  {
    var ps := Predicted(ts, pre);
    var choices := Choices(ps, dets, iou);
    ChoicesInRange(ps, dets, iou);
    var us := Applied(ps, choices, dets, upd);
    forall i | 0 <= i < |ts|
      ensures us[i].id == ts[i].id && 1 <= |us[i].history| <= MaxHistory
    {
      TrackOperations(ts[i], pre[i], BoundingBox(0, 0.0, 0, 0, 0, 0));
      if choices[i] >= 0 {
        TrackOperations(ps[i], upd[i], dets[choices[i]]);
      } else {
        TrackOperations(ps[i], upd[i], BoundingBox(0, 0.0, 0, 0, 0, 0));
      }
    }
    assert WellNumbered(us, next, MaxHistory);
    var free := Unchosen(choices, |dets|);
    var r := Stepped(ts, next, dets, pre, upd, iou);
    PruneThenSpawnConsecutive(r, us, CntToDelete, Starts(dets), free, next, MaxHistory);
  }

  /** A detection opens a track exactly when no track took it. */
  lemma OpenedIffUnchosen(choices: seq<int>, n: nat, d: int)
    requires 0 <= d < n
    ensures Unchosen(choices, n)[d] <==> forall k :: 0 <= k < |choices| ==> choices[k] != d
  {
    LastChooserIff(choices, d);
  }

  /** Nothing keeps two tracks from taking the same detection: two tracks at
      the same place both take it, and it opens no track. */
  lemma SharedDetection(tb: BoundingBox, iou: (BoundingBox, BoundingBox) -> real)
    requires iou(tb, tb) == 1.0
    ensures var ps := [NewTrack(Start(tb), 0), NewTrack(Start(tb), 1)];
      Choices(ps, [tb], iou) == [0, 0] && Unchosen([0, 0], 1) == [false]
  {
    var ps := [NewTrack(Start(tb), 0), NewTrack(Start(tb), 1)];
    ChoiceIsBestMatch(tb, [tb], iou);
    assert Latest(ps[0]).bbox == tb && Latest(ps[1]).bbox == tb;
    LastChooserIff([0, 0], 0);
  }

  // ---------------------------------------------------------------------
  // The loops of Tracker::Update

  method PreUpdateAll(ts: seq<Track<Data>>, pre: seq<Filtered>) returns (ps: seq<Track<Data>>)
    requires |pre| == |ts| && HistoriesNonEmpty(ts)
    ensures ps == Predicted(ts, pre)
  {
    ps := ts;
    var i := 0;
    while i < |ts|
      invariant 0 <= i <= |ts| && |ps| == |ts|
      invariant forall k :: 0 <= k < i ==> ps[k] == PreUpdate(ts[k], pre[k])
      invariant forall k :: i <= k < |ts| ==> ps[k] == ts[k]
    {
      ps := ps[i := PreUpdate(ts[i], pre[i])];
      i := i + 1;
    }
  }

  /** The assignment loop: each track in turn takes its best detection. */
  method Assign(ps: seq<Track<Data>>, dets: seq<BoundingBox>, iou: (BoundingBox, BoundingBox) -> real)
    returns (detForTrack: seq<int>, trackForDet: seq<int>)
    requires HistoriesNonEmpty(ps)
    ensures detForTrack == Choices(ps, dets, iou)
    ensures |trackForDet| == |dets| && forall d :: 0 <= d < |dets| ==> trackForDet[d] == LastChooser(detForTrack, d)
  {
    var table := SimilarityTable(LatestBoxes(ps), dets, iou);
    var choices := Choices(ps, dets, iou);
    detForTrack := seq(|ps|, _ => -1);
    trackForDet := seq(|dets|, _ => -1);
    var i := 0;
    while i < |ps|
      invariant 0 <= i <= |ps| && |detForTrack| == |ps| && |trackForDet| == |dets|
      invariant detForTrack[..i] == choices[..i]
      invariant forall k :: i <= k < |ps| ==> detForTrack[k] == -1
      invariant forall d :: 0 <= d < |dets| ==> trackForDet[d] == LastChooser(choices[..i], d)
    {
      var best := PickBest(table[i], AllTrue(|dets|), SimilarityFloor);
      assert best == choices[i];
      ChoiceIsBestMatch(Latest(ps[i]).bbox, dets, iou);
      detForTrack, trackForDet := AssignStep(detForTrack, trackForDet, choices[..i], best);
      assert choices[..i] + [best] == choices[..i + 1];
      i := i + 1;
    }
    assert choices[..i] == choices;
    assert detForTrack[..i] == detForTrack;
  }

  /** Track |taken| of the assignment loop takes detection best, or none when
      best is -1: it is recorded for the track and, as its last chooser, for
      the detection. */
  method AssignStep(detForTrack: seq<int>, trackForDet: seq<int>, taken: seq<int>, best: int)
    returns (detOut: seq<int>, trackOut: seq<int>)
    requires |taken| < |detForTrack| && -1 <= best < |trackForDet|
    requires detForTrack[..|taken|] == taken && forall k :: |taken| <= k < |detForTrack| ==> detForTrack[k] == -1
    requires forall d :: 0 <= d < |trackForDet| ==> trackForDet[d] == LastChooser(taken, d)
    ensures |detOut| == |detForTrack| && |trackOut| == |trackForDet|
    ensures detOut[..|taken| + 1] == taken + [best] && forall k :: |taken| + 1 <= k < |detOut| ==> detOut[k] == -1
    ensures forall d :: 0 <= d < |trackOut| ==> trackOut[d] == LastChooser(taken + [best], d)
  {
    var i := |taken|;
    detOut, trackOut := detForTrack, trackForDet;
    if best >= 0 {
      detOut := detOut[i := best];
      trackOut := trackOut[best := i];
    }
    assert (taken + [best])[..i] == taken;
    assert detOut[..i + 1] == detOut[..i] + [detOut[i]];
  }

  method ApplyAll(ps: seq<Track<Data>>, choices: seq<int>, dets: seq<BoundingBox>, upd: seq<Filtered>)
    returns (us: seq<Track<Data>>)
    requires HistoriesNonEmpty(ps) && |choices| == |ps| == |upd|
    requires forall i :: 0 <= i < |choices| ==> choices[i] < |dets|
    ensures us == Applied(ps, choices, dets, upd)
  {
    us := ps;
    var i := 0;
    while i < |ps|
      invariant 0 <= i <= |ps| && |us| == |ps|
      invariant forall k :: 0 <= k < i ==> us[k] == UpdateOne(ps[k], choices[k], dets, upd[k])
      invariant forall k :: i <= k < |ps| ==> us[k] == ps[k]
    {
      if choices[i] >= 0 {
        us := us[i := Update(ps[i], dets[choices[i]], upd[i])];
      } else {
        us := us[i := UpdateNoDet(ps[i])];
      }
      i := i + 1;
    }
  }

  /** The loops of Tracker::Update, one after the other. */
  method Step(ts: seq<Track<Data>>, next: int, dets: seq<BoundingBox>, pre: seq<Filtered>, upd: seq<Filtered>,
              iou: (BoundingBox, BoundingBox) -> real) returns (r: seq<Track<Data>>, nextOut: int)
    requires |pre| == |ts| == |upd| && HistoriesNonEmpty(ts)
    ensures r == Stepped(ts, next, dets, pre, upd, iou)
    ensures nextOut == next + Opened(ts, dets, pre, iou)
  {
    var ps := PreUpdateAll(ts, pre);
    var detForTrack, trackForDet := Assign(ps, dets, iou);
    ChoicesInRange(ps, dets, iou);
    var us := ApplyAll(ps, detForTrack, dets, upd);
    var kept := EraseLost(us, CntToDelete);
    var free := seq(|dets|, d requires 0 <= d < |dets| => trackForDet[d] < 0);
    assert free == Unchosen(detForTrack, |dets|);
    r, nextOut := AddTracks(kept, Starts(dets), free, next);
  }

  class Tracker {
    var trackList: seq<Track<Data>>
    var trackId: int

    ghost predicate Valid()
      reads this
    {
      trackId >= 0 && WellNumbered(trackList, trackId, MaxHistory)
    }

    constructor()
      ensures Valid() && trackList == [] && trackId == 0
    {
      trackList, trackId := [], 0;
    }

    /** The list is emptied and ids restart at 0. */
    method Reset()
      modifies this
      ensures Valid() && trackList == [] && trackId == 0
    {
      trackList, trackId := [], 0;
    }

    /** One frame: pre is what each track's filters return in PreUpdate and
        upd what they return in Update. */
    method Update(detList: seq<BoundingBox>, pre: seq<Filtered>, upd: seq<Filtered>, iou: (BoundingBox, BoundingBox) -> real)
      requires Valid() && |pre| == |trackList| == |upd|
      modifies this
      ensures Valid()
      ensures trackList == Stepped(old(trackList), old(trackId), detList, pre, upd, iou)
      ensures trackId == old(trackId) + Opened(old(trackList), detList, pre, iou)
    {
      var ts, next := trackList, trackId;
      var r, nextOut := Step(ts, next, detList, pre, upd, iou);
      assert WellNumbered(r, nextOut, MaxHistory) by {
        SteppedProperties(ts, next, detList, pre, upd, iou);
      }
      trackList, trackId := r, nextOut;
    }
  }
}

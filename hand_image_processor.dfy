// The hand-tracking front-ends: the integer palm rectangle and its clamp to
// the image, the engine lifecycle (Initialize / Finalize / Command), the
// per-frame choice between running palm detection and reusing the palm the
// landmark model estimated on the previous frame, the smoothing of that
// estimate, and, in the AR probe demos, the selected-area clamp, the new
// object tracker and the pruning of lost trackers.

module HandImageProcessing {
  import opened Common
  import AreaSelection
  import PalmEngines

  /** Rect with int32 fields and a float rotation. */
  datatype Rect = Rect(x: int, y: int, width: int, height: int, rotation: real)

  // ---- Rect::fix ----

  /** Rect::fix as written: the width is limited by W - x with the original,
      possibly negative, x (and likewise the height). */
  function FixAsWritten(r: Rect, imageWidth: int, imageHeight: int): (f: Rect)
    ensures imageWidth >= 0 ==> 0 <= f.x <= imageWidth
    ensures imageHeight >= 0 ==> 0 <= f.y <= imageHeight
    ensures f.width >= 0 && f.height >= 0 && f.rotation == r.rotation
    ensures r.x >= 0 ==> f.x + f.width <= imageWidth || f.width == 0
    ensures r.y >= 0 ==> f.y + f.height <= imageHeight || f.height == 0
  {
    Rect(Max(0, Min(imageWidth, r.x)), Max(0, Min(imageHeight, r.y)),
         Max(0, Min(imageWidth - r.x, r.width)), Max(0, Min(imageHeight - r.y, r.height)), r.rotation)
  }

  /** A palm sticking out to the left keeps its full width: the fixed
      rectangle reaches 5 pixels past the right edge. */
  lemma FixAsWrittenLeavesImage()
    ensures var f := FixAsWritten(Rect(-10, 0, 105, 10, 0.0), 100, 100);
      f.x == 0 && f.x + f.width == 105
  {
  }

  /** The clamp with the size limited by what is left of the image right of
      (below) the clamped origin. */
  function Fix(r: Rect, imageWidth: int, imageHeight: int): (f: Rect)
    ensures imageWidth >= 0 ==> 0 <= f.x <= imageWidth && 0 <= f.width && f.x + f.width <= imageWidth
    ensures imageHeight >= 0 ==> 0 <= f.y <= imageHeight && 0 <= f.height && f.y + f.height <= imageHeight
    ensures f.rotation == r.rotation
    ensures 0 <= r.x && 0 <= r.width && r.x + r.width <= imageWidth ==> f.x == r.x && f.width == r.width
    ensures 0 <= r.y && 0 <= r.height && r.y + r.height <= imageHeight ==> f.y == r.y && f.height == r.height
  {
    var x := Max(0, Min(imageWidth, r.x));
    var y := Max(0, Min(imageHeight, r.y));
    Rect(x, y, Max(0, Min(imageWidth - x, r.width)), Max(0, Min(imageHeight - y, r.height)), r.rotation)
  }

  /** Both clamps agree on a rectangle whose origin is not left of or above
      the image. */
  lemma FixAgreesForNonNegativeOrigin(r: Rect, imageWidth: int, imageHeight: int)
    requires r.x >= 0 && r.y >= 0
    ensures FixAsWritten(r, imageWidth, imageHeight) == Fix(r, imageWidth, imageHeight)
  {
  }

  lemma FixIdempotent(r: Rect, imageWidth: int, imageHeight: int)
    requires imageWidth >= 0 && imageHeight >= 0
    ensures Fix(Fix(r, imageWidth, imageHeight), imageWidth, imageHeight) == Fix(r, imageWidth, imageHeight)
  {
  }

  // ---- CalcAverageRect ----

  /** The landmark model's estimate of the palm rectangle, in floats. */
  datatype LandmarkRect = LandmarkRect(x: real, y: real, width: real, height: real, rotation: real)

  /** The landmark result the front-ends use: the hand flag, the estimated
      palm rectangle, and landmark 8 (the index finger tip). */
  datatype Landmark = Landmark(handflag: real, rect: LandmarkRect, tipX: real, tipY: real)

  function Blend(latest: real, stored: real, ratio: real): real {
    latest * ratio + stored * (1.0 - ratio)
  }

  /** For a ratio in [0, 1] the blend lies between its two ends. */
  lemma BlendBetween(latest: real, stored: real, ratio: real)
    requires 0.0 <= ratio <= 1.0
    ensures RMin(latest, stored) <= Blend(latest, stored, ratio) <= RMax(latest, stored)
  {
    var lo, hi := RMin(latest, stored), RMax(latest, stored);
    MulLe(lo, latest, ratio);
    MulLe(latest, hi, ratio);
    MulLe(lo, stored, 1.0 - ratio);
    MulLe(stored, hi, 1.0 - ratio);
    BlendSame(lo, ratio);
    BlendSame(hi, ratio);
  }

  lemma MulLe(a: real, b: real, c: real)
    requires a <= b && c >= 0.0
    ensures a * c <= b * c
  {
  }

  lemma BlendSame(a: real, ratio: real)
    ensures Blend(a, a, ratio) == a
  {
    assert a * ratio + a * (1.0 - ratio) == a * (ratio + (1.0 - ratio));
  }

  /** The smoothing of the stored palm: the position moves ratioPos and the
      size and rotation ratioSize of the way to the new estimate; on the first
      estimate (stored width 0) the new one is taken as it is. */
  function CalcAverageRect(stored: Rect, latest: LandmarkRect, ratioPos: real, ratioSize: real): Rect {
    var rp := if stored.width == 0 then 1.0 else ratioPos;
    var rs := if stored.width == 0 then 1.0 else ratioSize;
    Rect(Trunc(Blend(latest.x, stored.x as real, rp)), Trunc(Blend(latest.y, stored.y as real, rp)),
         Trunc(Blend(latest.width, stored.width as real, rs)), Trunc(Blend(latest.height, stored.height as real, rs)),
         Blend(latest.rotation, stored.rotation, rs))
  }

  /** The ratios the front-ends pass. */
  const RatioPos: real := 0.6
  const RatioSize: real := 0.4

  lemma AverageFirstTime(stored: Rect, latest: LandmarkRect, ratioPos: real, ratioSize: real)
    requires stored.width == 0
    ensures CalcAverageRect(stored, latest, ratioPos, ratioSize)
      == Rect(Trunc(latest.x), Trunc(latest.y), Trunc(latest.width), Trunc(latest.height), latest.rotation)
  {
  }

  /** A new estimate equal to the stored rectangle leaves it unchanged. */
  lemma AverageFixedPoint(stored: Rect, ratioPos: real, ratioSize: real)
    ensures var same := LandmarkRect(stored.x as real, stored.y as real, stored.width as real,
                                     stored.height as real, stored.rotation);
      CalcAverageRect(stored, same, ratioPos, ratioSize) == stored
  {
    var rp := if stored.width == 0 then 1.0 else ratioPos;
    var rs := if stored.width == 0 then 1.0 else ratioSize;
    BlendSame(stored.x as real, rp);
    BlendSame(stored.y as real, rp);
    BlendSame(stored.width as real, rs);
    BlendSame(stored.height as real, rs);
    BlendSame(stored.rotation, rs);
  }

  /** Once a palm is stored, the smoothed position lies between the stored
      and the new one (before truncation). */
  lemma AverageBetween(stored: Rect, latest: LandmarkRect)
    requires stored.width != 0
    ensures var a := CalcAverageRect(stored, latest, RatioPos, RatioSize);
      && Trunc(RMin(latest.x, stored.x as real)) <= a.x <= Trunc(RMax(latest.x, stored.x as real))
      && Trunc(RMin(latest.width, stored.width as real)) <= a.width <= Trunc(RMax(latest.width, stored.width as real))
  {
    BlendBetween(latest.x, stored.x as real, RatioPos);
    BlendBetween(latest.width, stored.width as real, RatioSize);
    TruncMono(RMin(latest.x, stored.x as real), Blend(latest.x, stored.x as real, RatioPos));
    TruncMono(Blend(latest.x, stored.x as real, RatioPos), RMax(latest.x, stored.x as real));
    TruncMono(RMin(latest.width, stored.width as real), Blend(latest.width, stored.width as real, RatioSize));
    TruncMono(Blend(latest.width, stored.width as real, RatioSize), RMax(latest.width, stored.width as real));
  }

  lemma TruncMono(a: real, b: real)
    requires a <= b
    ensures Trunc(a) <= Trunc(b)
  {
    if a >= 0.0 {
    } else if b >= 0.0 {
    } else {
      assert (-b).Floor <= (-a).Floor;
    }
  }

  // ---- The palm of one frame ----

  /** Every 5th frame the AR probe demos run palm detection even when the
      landmark estimate is valid. */
  const IntervalToEnforcePalmDet: int := 5

  /** The landmark hand flag above which the estimate is kept for the next frame. */
  const ValidHandflag: real := 0.8

  /** The first detected palm, its float fields cast to int. */
  function PalmRect(p: PalmEngines.Palm): Rect {
    Rect(Trunc(p.x), Trunc(p.y), Trunc(p.width), Trunc(p.height), p.rotation)
  }

  /** Whether a frame runs palm detection. */
  predicate RunsPalmDetection(enforceInterval: bool, frameCnt: int, estimateValid: bool) {
    !estimateValid || (enforceInterval && frameCnt % IntervalToEnforcePalmDet == 0)
  }

  /** Which palm the landmark model is run on, if any, and the stored estimate
      after a detected palm resets it: detection uses only the first palm
      and clears the stored width; without detection the estimate is reused. */
  datatype PalmChoice = PalmChoice(palm: Option<Rect>, stored: Rect)

  function ChoosePalm(runDetection: bool, stored: Rect, palms: seq<PalmEngines.Palm>): (c: PalmChoice)
    ensures !runDetection ==> c == PalmChoice(Some(stored), stored)
    ensures runDetection && palms == [] ==> c == PalmChoice(None, stored)
    ensures runDetection && palms != [] ==> c == PalmChoice(Some(PalmRect(palms[0])), stored.(width := 0))
  {
    if !runDetection then PalmChoice(Some(stored), stored)
    else if palms == [] then PalmChoice(None, stored)
    else PalmChoice(Some(PalmRect(palms[0])), stored.(width := 0))
  }

  // ---- The selected area and the object trackers (AR probe) ----

  /** The selected area clamped to the image, with the size at least 1 before
      it is limited by what is left of the image. */
  function ClampArea(a: AreaSelection.Rect, cols: int, rows: int): (c: AreaSelection.Rect)
    ensures cols >= 0 ==> 0 <= c.x <= cols && c.width <= cols - c.x
    ensures rows >= 0 ==> 0 <= c.y <= rows && c.height <= rows - c.y
    ensures c.x < cols ==> c.width >= 1
    ensures c.y < rows ==> c.height >= 1
    ensures 0 <= a.x && 1 <= a.width && a.x + a.width <= cols ==> c.x == a.x && c.width == a.width
    ensures 0 <= a.y && 1 <= a.height && a.y + a.height <= rows ==> c.y == a.y && c.height == a.height
  {
    var x := Min(Max(0, a.x), cols);
    var y := Min(Max(0, a.y), rows);
    AreaSelection.Rect(x, y, Min(Max(1, a.width), cols - x), Min(Max(1, a.height), rows - y))
  }

  /** The OpenCV tracker kind; the current AR probe demo has the tracker
      creation commented out and leaves it unset. */
  datatype TrackerKind = MedianFlow | Kcf | Unset

  datatype TrackedObject = TrackedObject(kind: TrackerKind, area: AreaSelection.Rect, numLost: int, className: string)

  /** The legacy demo picks MEDIAN_FLOW for an area larger than 10% of the
      image, KCF otherwise. */
  function ChooseTracker(chooseByArea: bool, a: AreaSelection.Rect, cols: int, rows: int): (k: TrackerKind)
    ensures !chooseByArea <==> k == Unset
    ensures chooseByArea ==> (k == MedianFlow <==> (a.width * a.height) as real > (cols * rows) as real * 0.1)
  {
    if !chooseByArea then Unset
    else if (a.width * a.height) as real > (cols * rows) as real * 0.1 then MedianFlow
    else Kcf
  }

  const MaxLost: int := 20
  const MaxWidthRatio: real := 0.9

  /** One object after its tracker's update: on success (the tracked width)
      the miss count is cleared and the object is dropped if it grew wider
      than 90% of the image; on failure the count grows and the object is
      dropped once it exceeds 20. */
  function TrackStep(o: TrackedObject, update: Option<real>, cols: int): (r: Option<TrackedObject>)
    ensures update.Some? ==> (r.Some? <==> Trunc(update.value) as real <= cols as real * MaxWidthRatio)
    ensures update.Some? && r.Some? ==> r.value == o.(numLost := 0)
    ensures update.None? ==> (r.Some? <==> o.numLost + 1 <= MaxLost)
    ensures update.None? && r.Some? ==> r.value == o.(numLost := o.numLost + 1)
  {
    match update
    case Some(width) =>
      if Trunc(width) as real > cols as real * MaxWidthRatio then None else Some(o.(numLost := 0))
    case None =>
      if o.numLost + 1 > MaxLost then None else Some(o.(numLost := o.numLost + 1))
  }

  /** The object list after one frame's updates, the survivors in list order;
      update(i) is the outcome for the i-th object of the list. */
  function Pruned(objects: seq<TrackedObject>, update: nat -> Option<real>, cols: int, from: nat): seq<TrackedObject>
    decreases |objects| - from
  {
    if from >= |objects| then []
    else
      var rest := Pruned(objects, update, cols, from + 1);
      match TrackStep(objects[from], update(from), cols)
      case Some(o) => [o] + rest
      case None => rest
  }

  predicate LostBounded(objects: seq<TrackedObject>) {
    forall i :: 0 <= i < |objects| ==> 0 <= objects[i].numLost <= MaxLost
  }

  /** The survivors keep their tracker and class, in their original order,
      no object gains misses beyond the limit, and the list never grows. */
  lemma {:induction false} PrunedProperties(objects: seq<TrackedObject>, update: nat -> Option<real>, cols: int, from: nat)
    requires LostBounded(objects)
    ensures |Pruned(objects, update, cols, from)| <= |objects| - from || from >= |objects|
    ensures LostBounded(Pruned(objects, update, cols, from))
    ensures forall i :: 0 <= i < |Pruned(objects, update, cols, from)| ==>
      exists j :: from <= j < |objects| && TrackStep(objects[j], update(j), cols).Some? && Pruned(objects, update, cols, from)[i] == TrackStep(objects[j], update(j), cols).value
    decreases |objects| - from
  {
    if from < |objects| {
      PrunedProperties(objects, update, cols, from + 1);
      var rest := Pruned(objects, update, cols, from + 1);
      match TrackStep(objects[from], update(from), cols)
      case Some(o) =>
        assert Pruned(objects, update, cols, from) == [o] + rest;
        forall i | 0 <= i < |[o] + rest|
          ensures exists j :: from <= j < |objects| && TrackStep(objects[j], update(j), cols).Some? && ([o] + rest)[i] == TrackStep(objects[j], update(j), cols).value
        {
          if i == 0 {
            assert TrackStep(objects[from], update(from), cols).value == ([o] + rest)[i];
          } else {
            assert ([o] + rest)[i] == rest[i - 1];
          }
        }
      case None =>
        assert Pruned(objects, update, cols, from) == rest;
        forall i | 0 <= i < |rest|
          ensures exists j :: from <= j < |objects| && TrackStep(objects[j], update(j), cols).Some? && rest[i] == TrackStep(objects[j], update(j), cols).value
        {
          var j :| from + 1 <= j < |objects| && TrackStep(objects[j], update(j), cols).Some? && rest[i] == TrackStep(objects[j], update(j), cols).value;
          assert from <= j;
        }
    }
  }

  /** An object whose tracker has failed 20 times in a row is dropped on the
      next failure, and one with fewer failures survives it. */
  lemma LostObjectDropped(o: TrackedObject, cols: int)
    requires 0 <= o.numLost <= MaxLost
    ensures TrackStep(o, None, cols).None? <==> o.numLost == MaxLost
  {
  }

  // ---- The front-ends ----

  /** What distinguishes the four front-ends: the AR probe demos (current and
      legacy) have a classifier engine, force palm detection every 5th frame,
      answer command 0 with a debug toggle and select areas; the legacy AR
      probe demo also chooses the tracker by area. The hand demos do none of
      this. */
  datatype FrontEnd = FrontEnd(arProbe: bool, chooseTrackerByArea: bool, legacySelector: bool)

  const ArProbe := FrontEnd(true, false, false)
  const ArProbeLegacy := FrontEnd(true, true, true)
  const HandMediapipe := FrontEnd(false, false, false)

  class ImageProcessor {
    const front: FrontEnd
    /** The gesture area selector of the AR probe demos; the hand demos never run it. */
    const selector: AreaSelection.AreaSelector
    var palmEngine: bool
    var landmarkEngine: bool
    var classificationEngine: bool
    var isDebug: bool
    var frameCnt: int
    var palmByLm: Rect
    var palmByLmValid: bool
    var objects: seq<TrackedObject>

    /** All engines the front-end needs exist. */
    predicate Initialized()
      reads this
    {
      palmEngine && landmarkEngine && (front.arProbe ==> classificationEngine)
    }

    /** Some engine exists. */
    predicate AnyEngine()
      reads this
    {
      palmEngine || landmarkEngine || (front.arProbe && classificationEngine)
    }

    constructor (f: FrontEnd)
      ensures front == f && !AnyEngine() && !classificationEngine
      ensures isDebug && frameCnt == 0 && !palmByLmValid && palmByLm == Rect(0, 0, 0, 0, 0.0) && objects == []
      ensures selector.chatterLimit == (if f.legacySelector then AreaSelection.LegacyChatterLimit else AreaSelection.CurrentChatterLimit)
      ensures selector.Snapshot() == AreaSelection.InitialState()
      ensures fresh(selector)
    {
      front := f;
      if f.legacySelector {
        selector := new AreaSelection.AreaSelector.Legacy();
      } else {
        selector := new AreaSelection.AreaSelector.Current();
      }
      palmEngine, landmarkEngine, classificationEngine := false, false, false;
      isDebug := true;
      frameCnt := 0;
      palmByLm := Rect(0, 0, 0, 0, 0.0);
      palmByLmValid := false;
      objects := [];
    }

    /** Initialize refuses when any engine exists; otherwise it creates the
        engines one by one, each kept even if its initialisation fails, and
        stops at the first failure. */
    method Initialize(palmOk: bool, landmarkOk: bool, classifierOk: bool) returns (r: int)
      modifies this
      ensures old(AnyEngine()) ==> r == -1 && unchanged(this)
      ensures !old(AnyEngine()) ==>
        && palmEngine
        && landmarkEngine == palmOk
        && classificationEngine == (if front.arProbe then palmOk && landmarkOk else old(classificationEngine))
        && (r == 0 <==> palmOk && landmarkOk && (front.arProbe ==> classifierOk))
        && (r != 0 ==> r == -1)
      ensures r == 0 ==> Initialized()
      ensures isDebug == old(isDebug) && frameCnt == old(frameCnt) && palmByLm == old(palmByLm)
      ensures palmByLmValid == old(palmByLmValid) && objects == old(objects)
    {
      if AnyEngine() {
        return -1;
      }
      palmEngine := true;
      if !palmOk {
        return -1;
      }
      landmarkEngine := true;
      if !landmarkOk {
        return -1;
      }
      if front.arProbe {
        classificationEngine := true;
        if !classifierOk {
          return -1;
        }
      }
      r := 0;
    }

    /** Finalize refuses when not initialized and at the first engine whose
        finalisation fails; otherwise it destroys all engines. */
    method Finalize(palmOk: bool, landmarkOk: bool, classifierOk: bool) returns (r: int)
      modifies this
      ensures r == 0 <==> old(Initialized()) && palmOk && landmarkOk && (front.arProbe ==> classifierOk)
      ensures r != 0 ==> r == -1 && unchanged(this)
      ensures r == 0 ==> !AnyEngine() && !classificationEngine
      ensures isDebug == old(isDebug) && frameCnt == old(frameCnt) && palmByLm == old(palmByLm)
      ensures palmByLmValid == old(palmByLmValid) && objects == old(objects)
    {
      if !Initialized() {
        return -1;
      }
      if !palmOk || !landmarkOk || (front.arProbe && !classifierOk) {
        return -1;
      }
      palmEngine, landmarkEngine, classificationEngine := false, false, false;
      r := 0;
    }

    /** Command 0 toggles the debug flag in the AR probe demos; every other
        command, and every command in the hand demos, is refused. */
    method Command(cmd: int) returns (r: int)
      modifies this
      ensures r == 0 <==> old(Initialized()) && front.arProbe && cmd == 0
      ensures r != 0 ==> r == -1
      ensures isDebug == (if r == 0 then !old(isDebug) else old(isDebug))
      ensures palmEngine == old(palmEngine) && landmarkEngine == old(landmarkEngine)
      ensures classificationEngine == old(classificationEngine) && frameCnt == old(frameCnt)
      ensures palmByLm == old(palmByLm) && palmByLmValid == old(palmByLmValid) && objects == old(objects)
    {
      if !Initialized() {
        return -1;
      }
      if front.arProbe && cmd == 0 {
        isDebug := !isDebug;
        return 0;
      }
      r := -1;
    }

    /** The tracker loop of Process: the erase-while-iterating walk over the
        object list. */
    method UpdateObjects(update: nat -> Option<real>, cols: int)
      modifies this
      ensures objects == Pruned(old(objects), update, cols, 0)
      ensures palmEngine == old(palmEngine) && landmarkEngine == old(landmarkEngine)
      ensures classificationEngine == old(classificationEngine) && isDebug == old(isDebug)
      ensures frameCnt == old(frameCnt) && palmByLm == old(palmByLm) && palmByLmValid == old(palmByLmValid)
    {
      var list := objects;
      var kept: seq<TrackedObject> := [];
      var i := 0;
      while i < |list|
        invariant 0 <= i <= |list|
        invariant kept + Pruned(list, update, cols, i) == Pruned(list, update, cols, 0)
      {
        var r := TrackStep(list[i], update(i), cols);
        if r.Some? {
          kept := kept + [r.value];
        }
        i := i + 1;
      }
      objects := kept;
    }

    /** The area-selection part of an AR probe frame: the selector runs on the
        landmark result; with a trusted hand the area is clamped to the image,
        and a selection adds a tracked object; whether it is added is
        returned. */
    method SelectArea(lm: Landmark, pointing: int, cols: int, rows: int, className: string) returns (added: bool)
      requires front.arProbe
      modifies this, selector
      ensures var s := AreaSelection.RunStep(old(selector.Snapshot()), AreaSelection.HandInput(lm.handflag, lm.tipX, lm.tipY, pointing), selector.chatterLimit);
        && selector.Snapshot() == (if lm.handflag >= ValidHandflag then s.(area := ClampArea(s.area, cols, rows)) else s)
        && (added <==> lm.handflag >= ValidHandflag && s.status == AreaSelection.Selected)
        && objects == old(objects) + (if added then [TrackedObject(ChooseTracker(front.chooseTrackerByArea, selector.selectedArea, cols, rows),
                                                                   selector.selectedArea, 0, className)] else [])
      ensures palmEngine == old(palmEngine) && landmarkEngine == old(landmarkEngine)
      ensures classificationEngine == old(classificationEngine) && isDebug == old(isDebug)
      ensures frameCnt == old(frameCnt) && palmByLm == old(palmByLm) && palmByLmValid == old(palmByLmValid)
    {
      selector.Run(AreaSelection.HandInput(lm.handflag, lm.tipX, lm.tipY, pointing));
      added := false;
      if lm.handflag >= ValidHandflag {
        selector.selectedArea := ClampArea(selector.selectedArea, cols, rows);
        if selector.status == AreaSelection.Selected {
          var kind := ChooseTracker(front.chooseTrackerByArea, selector.selectedArea, cols, rows);
          objects := objects + [TrackedObject(kind, selector.selectedArea, 0, className)];
          added := true;
        }
      }
    }

    /** Process for one frame. The palm list is what palm detection returns
        if it runs, lm what the landmark model returns (or what the result
        holds when it does not run), pointing the finger-pose verdict and
        update(i) the outcome of the i-th object tracker. */
    method Process(cols: int, rows: int, palms: seq<PalmEngines.Palm>, lm: Landmark, pointing: int,
                   className: string, update: nat -> Option<real>)
      returns (r: int, ranDetection: bool, landmarkOn: Option<Rect>)
      modifies this, selector
      ensures !old(Initialized()) ==> r == -1 && unchanged(this) && unchanged(selector)
      ensures old(Initialized()) ==> r == 0 && frameCnt == old(frameCnt) + 1
      ensures old(Initialized()) ==> ranDetection == RunsPalmDetection(front.arProbe, frameCnt, old(palmByLmValid))
      ensures old(Initialized()) ==>
        var c := ChoosePalm(ranDetection, old(palmByLm), palms);
        && landmarkOn == (if c.palm.Some? then Some(FixAsWritten(c.palm.value, cols, rows)) else None)
        && palmByLmValid == (if c.palm.Some? then lm.handflag >= ValidHandflag else old(palmByLmValid))
        && palmByLm == (if c.palm.Some? && lm.handflag >= ValidHandflag
                        then CalcAverageRect(c.stored, lm.rect, RatioPos, RatioSize) else c.stored)
      ensures old(Initialized()) && !front.arProbe ==> objects == old(objects) && unchanged(selector)
      ensures palmEngine == old(palmEngine) && landmarkEngine == old(landmarkEngine)
      ensures classificationEngine == old(classificationEngine) && isDebug == old(isDebug)
    {
      if !Initialized() {
        return -1, false, None;
      }
      frameCnt := frameCnt + 1;
      ranDetection := RunsPalmDetection(front.arProbe, frameCnt, palmByLmValid);
      var c := ChoosePalm(ranDetection, palmByLm, palms);
      palmByLm := c.stored;
      landmarkOn := None;
      if c.palm.Some? {
        var palm := FixAsWritten(c.palm.value, cols, rows);
        landmarkOn := Some(palm);
        if lm.handflag >= ValidHandflag {
          palmByLm := CalcAverageRect(palmByLm, lm.rect, RatioPos, RatioSize);
          palmByLmValid := true;
        } else {
          palmByLmValid := false;
        }
      }
      if front.arProbe {
        var added := SelectArea(lm, pointing, cols, rows, className);
        UpdateObjects(update, cols);
      }
      r := 0;
    }
  }

  /** A frame runs palm detection whenever the stored estimate is invalid; an
      AR probe frame also does on every 5th frame, and a hand demo frame with
      a valid estimate never does. */
  lemma DetectionSchedule(f: FrontEnd, frameCnt: int, valid: bool)
    ensures !valid ==> RunsPalmDetection(f.arProbe, frameCnt, valid)
    ensures f.arProbe && frameCnt % IntervalToEnforcePalmDet == 0 ==> RunsPalmDetection(f.arProbe, frameCnt, valid)
    ensures !f.arProbe && valid ==> !RunsPalmDetection(f.arProbe, frameCnt, valid)
    ensures valid && frameCnt % IntervalToEnforcePalmDet != 0 ==> !RunsPalmDetection(f.arProbe, frameCnt, valid)
  {
  }

  /** The landmark model runs on a rectangle whose origin lies in the image;
      when the chosen palm's origin is not left of or above the image, the
      rectangle lies inside the image and is what the corrected clamp gives.
      A palm sticking out to the left can leave it (`FixAsWrittenLeavesImage`). */
  lemma LandmarkRectInImage(runDetection: bool, stored: Rect, palms: seq<PalmEngines.Palm>, cols: int, rows: int)
    requires cols >= 0 && rows >= 0
    ensures var c := ChoosePalm(runDetection, stored, palms);
      c.palm.Some? ==> var p := FixAsWritten(c.palm.value, cols, rows);
        && 0 <= p.x <= cols && 0 <= p.y <= rows && 0 <= p.width && 0 <= p.height
        && (c.palm.value.x >= 0 && c.palm.value.y >= 0 ==>
              p.x + p.width <= cols && p.y + p.height <= rows && p == Fix(c.palm.value, cols, rows))
  {
    var c := ChoosePalm(runDetection, stored, palms);
    if c.palm.Some? && c.palm.value.x >= 0 && c.palm.value.y >= 0 {
      FixAgreesForNonNegativeOrigin(c.palm.value, cols, rows);
    }
  }
}

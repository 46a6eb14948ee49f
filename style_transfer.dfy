// The style transfer front-end: a command selects one of the style images
// style0.jpg .. style30.jpg, whose style bottleneck (100 floats) the style
// prediction engine computes; every frame is stylised with the average of the
// frame's own bottleneck and the style's, recomputed every tenth frame or when
// the style has been updated.  The two engines and the image reader are
// parameters.

module StyleTransfer {
  import opened Common

  /** StylePredictionEngine::SIZE_STYLE_BOTTLENECK. */
  const SizeStyleBottleneck: nat := 100

  /** The highest style index a command can select. */
  const MaxStyleIndex: int := 30

  /** INTERVAL_TO_CALCULATE_CONTENT_BOTTLENECK of this version. */
  const Interval: int := 10

  /** A style bottleneck: the 100 floats of the prediction engine's result. */
  type Bottleneck = s: seq<real> | |s| == 100 witness seq(100, _ => 0.0)

  /** A `cv::Mat` as far as this front-end sees it. */
  datatype Image = Image(pixels: seq<int>)

  // ---- Names ----

  /** `std::to_string` of a non-negative number: its decimal digits. */
  function DecimalString(n: nat): (s: string)
    ensures |s| > 0 && forall i :: 0 <= i < |s| ==> '0' <= s[i] <= '9'
  {
    if n < 10 then [Digit(n)] else DecimalString(n / 10) + [Digit(n % 10)]
  }

  function Digit(d: nat): (c: char)
    requires d < 10
    ensures '0' <= c <= '9'
  {
    ['0', '1', '2', '3', '4', '5', '6', '7', '8', '9'][d]
  }

  /** The value of a string of decimal digits. */
  function ParseDecimal(s: string): int
    requires forall i :: 0 <= i < |s| ==> '0' <= s[i] <= '9'
  {
    if |s| == 0 then 0 else ParseDecimal(s[..|s| - 1]) * 10 + (s[|s| - 1] as int - '0' as int)
  }

  /** The decimal string reads back as the number it was written from. */
  lemma {:induction false} DecimalRoundTrip(n: nat)
    ensures ParseDecimal(DecimalString(n)) == n
  {
    var s := DecimalString(n);
    if n >= 10 {
      DecimalRoundTrip(n / 10);
      assert s[..|s| - 1] == DecimalString(n / 10);
    }
    assert Digit(n % 10) as int - '0' as int == n % 10;
  }

  /** The file of style `index`: "style" + index + ".jpg". */
  function StyleFileName(index: nat): (name: string)
    ensures |name| > 9 && name[..5] == "style" && name[|name| - 4..] == ".jpg"
    ensures name[5..|name| - 4] == DecimalString(index)
  {
    "style" + DecimalString(index) + ".jpg"
  }

  /** Two style indices give distinct file names. */
  lemma StyleFileNamesDistinct(a: nat, b: nat)
    requires a != b
    ensures StyleFileName(a) != StyleFileName(b)
  {
    DecimalRoundTrip(a);
    DecimalRoundTrip(b);
  }

  // ---- Command index ----

  /** The switch of Command: 0 moves to the next style (at most 30), 1 to the
      previous one (at least 0), 2 back to 0; any other command is refused. */
  function NextIndex(index: int, cmd: int): (r: Option<int>)
    ensures cmd !in {0, 1, 2} <==> r.None?
    ensures r.Some? && 0 <= index <= MaxStyleIndex ==> 0 <= r.value <= MaxStyleIndex
  {
    if cmd == 0 then Some(if index + 1 > 30 then 30 else index + 1)
    else if cmd == 1 then Some(if index - 1 < 0 then 0 else index - 1)
    else if cmd == 2 then Some(0)
    else None
  }

  /** Walking through the styles: next and previous move by one inside the range
      and stop at its ends, and reset always returns to the first style. */
  lemma NextIndexSteps(index: int)
    requires 0 <= index <= MaxStyleIndex
    ensures NextIndex(index, 0) == Some(Min(index + 1, MaxStyleIndex))
    ensures NextIndex(index, 1) == Some(Max(index - 1, 0))
    ensures NextIndex(index, 2) == Some(0)
    ensures index < MaxStyleIndex ==> NextIndex(NextIndex(index, 0).value, 1) == Some(index)
    ensures index > 0 ==> NextIndex(NextIndex(index, 1).value, 0) == Some(index)
  {
  }

  // ---- Bottlenecks ----

  /** The merge loop: ratio 0.5 of the frame's bottleneck plus 1 - 0.5 of the style's. */
  function Merged(content: Bottleneck, style: Bottleneck): (m: Bottleneck)
    ensures forall i :: 0 <= i < 100 ==> m[i] == 0.5 * content[i] + (1.0 - 0.5) * style[i]
  {
    seq(100, i requires 0 <= i < 100 => 0.5 * content[i] + (1.0 - 0.5) * style[i])
  }

  /** Every merged value lies between the two it is merged from, is their average,
      and merging a bottleneck with itself leaves it unchanged. */
  lemma MergedBetween(content: Bottleneck, style: Bottleneck, i: int)
    requires 0 <= i < 100
    ensures RMin(content[i], style[i]) <= Merged(content, style)[i] <= RMax(content[i], style[i])
    ensures Merged(content, style)[i] - style[i] == content[i] - Merged(content, style)[i]
    ensures Merged(content, content) == content
  {
    assert forall k :: 0 <= k < 100 ==> Merged(content, content)[k] == content[k];
  }

  // ---- State ----

  /** The globals and function-statics of the front-end. */
  datatype State = State(
    predictionEngine: bool,        // s_style_prediction_engine is set
    transferEngine: bool,          // s_style_transfer_engine is set
    workDir: string,
    styleBottleneck: Bottleneck,
    updated: bool,                 // s_style_bottleneck_updated
    imageFileIndex: int,           // s_current_image_file_index
    mergedBottleneck: Bottleneck,  // s_merged_style_bottleneck
    cnt: int)                      // s_cnt

  /** The state at start-up: no engines, zero-initialised arrays, the flag set. */
  function InitialState(): State {
    State(false, false, "", seq(100, _ => 0.0), true, 0, seq(100, _ => 0.0), 0)
  }

  predicate Initialized(s: State) {
    s.predictionEngine && s.transferEngine
  }

  /** A state change with its return value. */
  datatype Outcome = Outcome(state: State, ret: int)

  /** CalculateStyleBottleneck: reads the style image work_dir/style/<name>; an
      unreadable file returns -1 and changes nothing; otherwise the bottleneck is
      copied and flagged as updated. */
  function CalculateStep(s: State, name: string, readImage: string -> Option<Image>,
                         predict: Image -> Bottleneck): Outcome
  {
    var image := readImage(s.workDir + "/style/" + name);
    if image.None? then Outcome(s, -1)
    else Outcome(s.(styleBottleneck := predict(image.value), updated := true), 0)
  }

  /** Command: refused (-1, no change) before both engines exist or for an unknown
      command; otherwise the index moves, the bottleneck of the style file is
      calculated, and 0 is returned whatever that calculation gave. */
  function CommandStep(s: State, cmd: int, readImage: string -> Option<Image>,
                       predict: Image -> Bottleneck): Outcome
  {
    if !Initialized(s) then Outcome(s, -1)
    else
      var next := NextIndex(s.imageFileIndex, cmd);
      if next.None? then Outcome(s, -1)
      else
        var moved := s.(imageFileIndex := next.value);
        Outcome(CalculateStep(moved, StyleFileName(Max(next.value, 0)), readImage, predict).state, 0)
  }

  /** Initialize: refused when an engine already exists; a failing engine
      initialisation resets that engine (the prediction engine stays set when only
      the transfer engine fails); on success, Command(0) moves from style 0 to style 1. */
  function InitializeStep(s: State, workDir: string, predictionOk: bool, transferOk: bool,
                          readImage: string -> Option<Image>, predict: Image -> Bottleneck): Outcome
  {
    if s.predictionEngine || s.transferEngine then Outcome(s, -1)
    else
      var s1 := s.(workDir := workDir, predictionEngine := true);
      if !predictionOk then Outcome(s1.(predictionEngine := false), -1)
      else
        var s2 := s1.(transferEngine := true);
        if !transferOk then Outcome(s2.(transferEngine := false), -1)
        else Outcome(CommandStep(s2, 0, readImage, predict).state, 0)
  }

  /** Whether a Process call recomputes the merged bottleneck: `s_cnt++ % 10 == 0`
      (the counter before the increment) or the style was updated. */
  predicate MergesAt(s: State) {
    s.cnt % Interval == 0 || s.updated
  }

  /** Process as written: refused (-1) before both engines exist; otherwise the
      counter advances, the merged bottleneck is recomputed when MergesAt holds,
      and the frame is stylised with the merged bottleneck.  The flag is never
      cleared. */
  function ProcessStep(s: State, frame: Image, predict: Image -> Bottleneck): (o: Outcome)
  {
    if !Initialized(s) then Outcome(s, -1)
    else
      var merged := if MergesAt(s) then Merged(predict(frame), s.styleBottleneck) else s.mergedBottleneck;
      Outcome(s.(cnt := s.cnt + 1, mergedBottleneck := merged), 0)
  }

  /** The frame the transfer engine returns for the merged bottleneck after the intended step. */
  function OutputFrame(s: State, frame: Image, predict: Image -> Bottleneck,
                       transfer: (Image, Bottleneck) -> Image): Option<Image>
  {
    var o := ProcessStepCorrected(s, frame, predict);
    if o.ret == 0 then Some(transfer(frame, o.state.mergedBottleneck)) else None
  }

  // ---- Properties of the steps ----

  /** Start-up: Initialize from the initial state with both engines succeeding
      returns 0 and leaves style 1 selected; its bottleneck is loaded exactly when
      style1.jpg is readable. */
  lemma InitializeSelectsFirstStyle(workDir: string, readImage: string -> Option<Image>, predict: Image -> Bottleneck)
    ensures var o := InitializeStep(InitialState(), workDir, true, true, readImage, predict);
      o.ret == 0 && Initialized(o.state) && o.state.imageFileIndex == 1 && o.state.workDir == workDir && o.state.updated
    ensures var o := InitializeStep(InitialState(), workDir, true, true, readImage, predict);
      var image := readImage(workDir + "/style/" + "style1.jpg");
      (image.Some? ==> o.state.styleBottleneck == predict(image.value)) &&
      (image.None? ==> o.state.styleBottleneck == InitialState().styleBottleneck)
  {
    assert StyleFileName(1) == "style1.jpg";
  }

  /** Initialize twice: the second call is refused and changes nothing, and a
      failing engine leaves the front-end uninitialised. */
  lemma InitializeGuards(s: State, workDir: string, predictionOk: bool, transferOk: bool,
                         readImage: string -> Option<Image>, predict: Image -> Bottleneck)
    ensures s.predictionEngine || s.transferEngine ==>
      InitializeStep(s, workDir, predictionOk, transferOk, readImage, predict) == Outcome(s, -1)
    ensures !s.predictionEngine && !s.transferEngine && (!predictionOk || !transferOk) ==>
      InitializeStep(s, workDir, predictionOk, transferOk, readImage, predict).ret == -1 &&
      !Initialized(InitializeStep(s, workDir, predictionOk, transferOk, readImage, predict).state)
  {
  }

  /** Command keeps the index in 0 .. 30, returns 0 exactly for the known commands
      once initialised, and changes nothing when it returns -1. */
  lemma CommandOutcome(s: State, cmd: int, readImage: string -> Option<Image>, predict: Image -> Bottleneck)
    requires 0 <= s.imageFileIndex <= MaxStyleIndex
    ensures var o := CommandStep(s, cmd, readImage, predict);
      0 <= o.state.imageFileIndex <= MaxStyleIndex &&
      (o.ret == 0 <==> Initialized(s) && cmd in {0, 1, 2}) &&
      (o.ret == -1 ==> o.state == s) &&
      (o.ret == 0 ==> o.state.imageFileIndex == NextIndex(s.imageFileIndex, cmd).value)
  {
  }

  /** The style file a successful command reads, and what it does to the
      bottleneck: a readable file replaces it and sets the flag, an unreadable one
      leaves both as they were. */
  lemma CommandLoadsStyle(s: State, cmd: int, readImage: string -> Option<Image>, predict: Image -> Bottleneck)
    requires 0 <= s.imageFileIndex <= MaxStyleIndex && Initialized(s) && cmd in {0, 1, 2}
    ensures var i := NextIndex(s.imageFileIndex, cmd).value;
      var image := readImage(s.workDir + "/style/" + StyleFileName(i));
      var o := CommandStep(s, cmd, readImage, predict);
      (image.Some? ==> o.state.styleBottleneck == predict(image.value) && o.state.updated) &&
      (image.None? ==> o.state.styleBottleneck == s.styleBottleneck && o.state.updated == s.updated)
  {
  }

  /** The flag is only ever set: no step clears it. */
  lemma UpdatedStaysSet(s: State, cmd: int, frame: Image, workDir: string, predictionOk: bool, transferOk: bool,
                        readImage: string -> Option<Image>, predict: Image -> Bottleneck)
    requires s.updated
    ensures CommandStep(s, cmd, readImage, predict).state.updated
    ensures InitializeStep(s, workDir, predictionOk, transferOk, readImage, predict).state.updated
    ensures ProcessStep(s, frame, predict).state.updated
  {
  }

  /** The consequence: once initialised, every Process call recomputes the merged
      bottleneck from the current frame, whatever the counter says. */
  lemma MergesEveryFrame(s: State, frame: Image, predict: Image -> Bottleneck)
    requires Initialized(s) && s.updated
    ensures ProcessStep(s, frame, predict).state.mergedBottleneck == Merged(predict(frame), s.styleBottleneck)
    ensures MergesAt(ProcessStep(s, frame, predict).state)
  {
  }

  /** Process refuses without engines and otherwise advances the counter by one. */
  lemma ProcessCounter(s: State, frame: Image, predict: Image -> Bottleneck)
    ensures !Initialized(s) ==> ProcessStep(s, frame, predict) == Outcome(s, -1)
    ensures Initialized(s) ==> (ProcessStep(s, frame, predict).ret == 0 &&
      ProcessStep(s, frame, predict).state == s.(cnt := s.cnt + 1, mergedBottleneck := ProcessStep(s, frame, predict).state.mergedBottleneck))
    ensures Initialized(s) && !MergesAt(s) ==> ProcessStep(s, frame, predict).state.mergedBottleneck == s.mergedBottleneck
  {
  }

  // ---- The intended Process ----

  /** Process with the flag cleared once the merge has used the new style. */
  function ProcessStepCorrected(s: State, frame: Image, predict: Image -> Bottleneck): (o: Outcome)
  {
    if !Initialized(s) then Outcome(s, -1)
    else if MergesAt(s) then
      Outcome(s.(cnt := s.cnt + 1, mergedBottleneck := Merged(predict(frame), s.styleBottleneck), updated := false), 0)
    else Outcome(s.(cnt := s.cnt + 1), 0)
  }

  /** With the flag cleared, a new style is merged in on the very next frame, and
      afterwards, until the next style change, the merge runs only on every tenth
      frame. */
  lemma CorrectedMergeSchedule(s: State, frame: Image, frame2: Image, predict: Image -> Bottleneck)
    requires Initialized(s) && s.cnt >= 0
    ensures var t := ProcessStepCorrected(s, frame, predict).state;
      (s.updated ==> t.mergedBottleneck == Merged(predict(frame), s.styleBottleneck)) &&
      !t.updated &&
      (MergesAt(t) <==> t.cnt % Interval == 0) &&
      (ProcessStepCorrected(t, frame2, predict).state.mergedBottleneck == t.mergedBottleneck <== t.cnt % Interval != 0)
  {
  }

  /** The as-written Process and the intended one agree on a frame whose merge is
      due anyway; they differ only in the flag. */
  lemma CorrectedAgreesWhenDue(s: State, frame: Image, predict: Image -> Bottleneck)
    requires Initialized(s) && MergesAt(s)
    ensures ProcessStepCorrected(s, frame, predict).state == ProcessStep(s, frame, predict).state.(updated := false)
  {
  }

  // ---- The front-end object ----

  /** The globals and statics of image_processor.cpp, updated in place. */
  class ImageProcessor {
    var predictionEngine: bool
    var transferEngine: bool
    var workDir: string
    var styleBottleneck: Bottleneck
    var updated: bool
    var imageFileIndex: int
    var mergedBottleneck: Bottleneck
    var cnt: int

    function Snapshot(): State
      reads this
    {
      State(predictionEngine, transferEngine, workDir, styleBottleneck, updated, imageFileIndex, mergedBottleneck, cnt)
    }

    constructor ()
      ensures Snapshot() == InitialState()
    {
      predictionEngine, transferEngine := false, false;
      workDir := "";
      styleBottleneck := seq(100, _ => 0.0);
      updated := true;
      imageFileIndex := 0;
      mergedBottleneck := seq(100, _ => 0.0);
      cnt := 0;
    }

    method CalculateStyleBottleneck(styleFilename: string, readImage: string -> Option<Image>,
                                    predict: Image -> Bottleneck) returns (r: int)
      modifies this
      ensures Outcome(Snapshot(), r) == CalculateStep(old(Snapshot()), styleFilename, readImage, predict)
    {
      var path := workDir + "/style/" + styleFilename;
      var styleImage := readImage(path);
      if styleImage.None? {
        return -1;
      }
      var result := predict(styleImage.value);
      var copy := styleBottleneck;
      for i := 0 to SizeStyleBottleneck
        invariant |copy| == 100
        invariant forall k :: 0 <= k < i ==> copy[k] == result[k]
      {
        copy := copy[i := result[i]];
      }
      styleBottleneck := copy;
      updated := true;
      return 0;
    }

    method Command(cmd: int, readImage: string -> Option<Image>, predict: Image -> Bottleneck) returns (r: int)
      modifies this
      ensures Outcome(Snapshot(), r) == CommandStep(old(Snapshot()), cmd, readImage, predict)
    {
      if !predictionEngine || !transferEngine {
        return -1;
      }
      if cmd == 0 {
        imageFileIndex := imageFileIndex + 1;
        if imageFileIndex > 30 { imageFileIndex := 30; }
      } else if cmd == 1 {
        imageFileIndex := imageFileIndex - 1;
        if imageFileIndex < 0 { imageFileIndex := 0; }
      } else if cmd == 2 {
        imageFileIndex := 0;
      } else {
        return -1;
      }
      var filename := StyleFileName(Max(imageFileIndex, 0));
      var _ := CalculateStyleBottleneck(filename, readImage, predict);
      return 0;
    }

    method Initialize(dir: string, predictionOk: bool, transferOk: bool,
                      readImage: string -> Option<Image>, predict: Image -> Bottleneck) returns (r: int)
      modifies this
      ensures Outcome(Snapshot(), r) == InitializeStep(old(Snapshot()), dir, predictionOk, transferOk, readImage, predict)
    {
      if predictionEngine || transferEngine {
        return -1;
      }
      workDir := dir;
      predictionEngine := true;
      if !predictionOk {
        predictionEngine := false;
        return -1;
      }
      transferEngine := true;
      if !transferOk {
        transferEngine := false;
        return -1;
      }
      var _ := Command(0, readImage, predict);
      return 0;
    }

    /** Finalize: refused without both engines; otherwise the engines' own results
      (parameters).  The engines stay set. */
    method Finalize(predictionFinalizeOk: bool, transferFinalizeOk: bool) returns (r: int)
      ensures r == (if !Initialized(Snapshot()) || !predictionFinalizeOk || !transferFinalizeOk then -1 else 0)
    {
      if !predictionEngine || !transferEngine {
        return -1;
      }
      if !predictionFinalizeOk {
        return -1;
      }
      if !transferFinalizeOk {
        return -1;
      }
      return 0;
    }

    /** Process with the update flag cleared once the merge has used the new style,
        the behaviour the flag is there for; the source never clears it (ProcessStep). */
    method Process(frame: Image, predict: Image -> Bottleneck, transfer: (Image, Bottleneck) -> Image)
      returns (r: int, out: Option<Image>)
      modifies this
      ensures Outcome(Snapshot(), r) == ProcessStepCorrected(old(Snapshot()), frame, predict)
      ensures out == OutputFrame(old(Snapshot()), frame, predict, transfer)
    {
      if !predictionEngine || !transferEngine {
        return -1, None;
      }
      var due := cnt % 10 == 0;
      cnt := cnt + 1;
      if due || updated {
        var result := predict(frame);
        var merged := mergedBottleneck;
        for i := 0 to SizeStyleBottleneck
          invariant |merged| == 100
          invariant forall k :: 0 <= k < i ==> merged[k] == 0.5 * result[k] + (1.0 - 0.5) * styleBottleneck[k]
        {
          merged := merged[i := 0.5 * result[i] + (1.0 - 0.5) * styleBottleneck[i]];
        }
        mergedBottleneck := merged;
        updated := false;
      }
      r, out := 0, Some(transfer(frame, mergedBottleneck));
    }
  }
}

/**
 * The classification loop of object_classification_yolov8.py: read the video frame by frame,
 * classify every `frame_skip_factor`-th frame with the tracker, route each tracked box to
 * the track that has its id (creating the track the first time the id is seen), and at the
 * end report the tracks seen at least `MIN_DETECTIONS` times.
 *
 * The tracker (`MODEL.track` with `persist=True`) is foreign; the model receives what it
 * returns for each classified frame as the function `track` of the frame number and the
 * frame. Everything the loop does with its result is modelled.
 *
 * The two registry lists `classification_object_ids` and `classification_object_list` are
 * described by the stream of observations routed so far: the ids in first-seen order and,
 * for each id, a track whose histories are exactly that id's observations.
 */
module ObjectClassification {
  import opened Wrappers
  import opened Geometry
  import opened Counting
  import opened ColorDetector
  import opened Translation
  import opened Track
  import opened TrackFunctions
  import opened ReturnObject

  // ---------------------------------------------------------------- inputs

  /** The environment settings the loop reads. */
  datatype Settings = Settings(
    classificationFps: real,        // CLASSIFICATION_FPS
    maxNumberOfPredictions: int,    // MAX_NUMBER_OF_PREDICTIONS
    findDominantColors: bool,       // FIND_DOMINANT_COLORS
    minDetections: int,             // MIN_DETECTIONS
    thresholds: Thresholds)         // MIN_STATIC_DISTANCE and MIN_DISTANCE, read by every track

  /** The video: the frames `cap.read()` delivers, in order, and the properties `cap.get` reports. */
  datatype Capture = Capture(
    frames: seq<Image>,
    fps: real,                      // CAP_PROP_FPS
    frameWidth: int,                // int(CAP_PROP_FRAME_WIDTH)
    frameHeight: int,               // int(CAP_PROP_FRAME_HEIGHT)
    frameCount: int)                // CAP_PROP_FRAME_COUNT, the loop's MAX_FRAME_NUMBER

  /** One box of `results[0]`: its tracker id (`None` when nothing is tracked), class name, confidence, corners and mask. */
  datatype TrackedBox = TrackedBox(id: Option<int>, className: string, conf: real, xyxy: Bbox, mask: Option<Polygon>)

  /** The foreign operations: the tracker, the pixel operations of the colour detector, and `math.sqrt` distance. */
  datatype Models = Models(
    track: (int, Image) -> Option<seq<TrackedBox>>,
    vision: Vision,
    dist: (Point, Point) -> real)

  /** The colour detector the loop builds: `FindObjectColors(downsample_factor=0.5, max_clusters=6)`. */
  const ColorFinder: FindObjectColors := FindObjectColors(0.0, 1, 6, 0.5, 0.0)

  /** `int(fps / CLASSIFICATION_FPS)`; `None` where the division raises `ZeroDivisionError`. */
  function FrameSkipFactor(s: Settings, c: Capture): (k: Option<int>)
    ensures k.None? <==> s.classificationFps == 0.0
  {
    if s.classificationFps == 0.0 then None else Some(Trunc(c.fps / s.classificationFps))
  }

  /** The skip factor is the whole number of frames per classification, rounded toward zero. */
  lemma FrameSkipFactorTruncates(s: Settings, c: Capture)
    requires s.classificationFps != 0.0 && c.fps / s.classificationFps >= 0.0
    ensures var k := FrameSkipFactor(s, c).value;
            0 <= k && k as real <= c.fps / s.classificationFps < k as real + 1.0
  {
  }

  /** The loop only runs without error when it classifies every k-th frame for some k >= 1. */
  predicate Runnable(s: Settings, c: Capture) {
    FrameSkipFactor(s, c).Some? && FrameSkipFactor(s, c).value >= 1
  }

  // ---------------------------------------------------------------- one frame

  /** What the loop extracts from one tracked box and hands to create or edit. */
  datatype Observation = Observation(
    id: int,
    objectName: string,
    conf: real,
    box: Bbox,
    frame: int,
    colorsBgr: Option<seq<Bgr>>,
    colorsHls: Option<seq<Hls>>,
    colorsStr: Option<seq<string>>)

  /**
   * The observation of a box that has an id: the id, the translated label, the confidence,
   * the box, the current frame number and, only when `FIND_DOMINANT_COLORS` is set, the
   * three colour lists `crop_and_detect` finds for the box.
   */
  function Observe(s: Settings, m: Models, frameNumber: int, frame: Image, b: TrackedBox): (ob: Observation)
    requires b.id.Some?
    ensures ob.id == b.id.value && ob.frame == frameNumber && ob.objectName == Translate(b.className)
    ensures ob.colorsBgr.Some? == ob.colorsHls.Some? == ob.colorsStr.Some? == s.findDominantColors
  {
    var objectName := Translate(b.className);
    if s.findDominantColors then
      var bgr := RegionColors(ColorFinder, m.vision, frame, b.xyxy, b.mask);
      var hls := HlsValues(m.vision, bgr);
      Observation(b.id.value, objectName, b.conf, b.xyxy, frameNumber, Some(bgr), Some(hls), Some(ColourNames(hls)))
    else
      Observation(b.id.value, objectName, b.conf, b.xyxy, frameNumber, None, None, None)
  }

  /** How many boxes of a frame are routed: those before the first box without an id. */
  function RoutedCount(boxes: seq<TrackedBox>): (k: nat)
    ensures k <= |boxes|
    ensures forall j :: 0 <= j < k ==> boxes[j].id.Some?
    ensures k < |boxes| ==> boxes[k].id.None?
  {
    if boxes == [] || boxes[0].id.None? then 0 else 1 + RoutedCount(boxes[1..])
  }

  /** The observations of a run of boxes that all have ids, in box order. */
  function ObserveAll(s: Settings, m: Models, frameNumber: int, frame: Image, boxes: seq<TrackedBox>): (obs: seq<Observation>)
    requires forall j :: 0 <= j < |boxes| ==> boxes[j].id.Some?
    ensures |obs| == |boxes|
    ensures forall j :: 0 <= j < |obs| ==> obs[j].frame == frameNumber
  {
    if boxes == [] then []
    else ObserveAll(s, m, frameNumber, frame, boxes[..|boxes| - 1]) + [Observe(s, m, frameNumber, frame, boxes[|boxes| - 1])]
  }

  /** The routed count is the position of the first box without an id, or the number of boxes. */
  lemma {:induction false} RoutedCountIs(boxes: seq<TrackedBox>, k: nat)
    requires k <= |boxes| && forall j :: 0 <= j < k ==> boxes[j].id.Some?
    requires k < |boxes| ==> boxes[k].id.None?
    ensures RoutedCount(boxes) == k
  {
    if k > 0 {
      RoutedCountIs(boxes[1..], k - 1);
    }
  }

  /** Observing one more box with an id appends its observation. */
  lemma ObserveAllAppend(s: Settings, m: Models, frameNumber: int, frame: Image, boxes: seq<TrackedBox>, i: nat)
    requires i < |boxes| && forall j :: 0 <= j <= i ==> boxes[j].id.Some?
    ensures ObserveAll(s, m, frameNumber, frame, boxes[..i + 1])
         == ObserveAll(s, m, frameNumber, frame, boxes[..i]) + [Observe(s, m, frameNumber, frame, boxes[i])]
  {
    assert boxes[..i + 1][..i] == boxes[..i];
  }

  /** Appending one observation after a routed run extends the run. */
  lemma AppendOne(obs: seq<Observation>, run: seq<Observation>, ob: Observation)
    ensures (obs + run) + [ob] == obs + (run + [ob])
  {
  }

  /** The observations one classified frame contributes: none when the tracker returns nothing. */
  function FrameObservations(s: Settings, m: Models, frameNumber: int, frame: Image, results: Option<seq<TrackedBox>>): (obs: seq<Observation>)
    ensures forall j :: 0 <= j < |obs| ==> obs[j].frame == frameNumber
  {
    match results
    case None => []
    case Some(boxes) => ObserveAll(s, m, frameNumber, frame, boxes[..RoutedCount(boxes)])
  }

  // ---------------------------------------------------------------- the whole video

  /** `predicted_frames` after `n` frames: how many of the frame numbers below `n` are multiples of `skip`. */
  function ClassifiedFrames(n: nat, skip: int): (k: nat)
    requires skip >= 1
    // never more than the frames read, and frame 0 is always classified
    ensures k <= n && (n >= 1 ==> k >= 1)
  {
    if n == 0 then 0 else ClassifiedFrames(n - 1, skip) + (if (n - 1) % skip == 0 then 1 else 0)
  }

  /** Integer division is determined by quotient and remainder. */
  lemma DivUnique(a: int, d: int, q: int, r: int)
    requires d >= 1 && a == q * d + r && 0 <= r < d
    ensures a / d == q
  {
    DivAtMost(a, d, q);
    DivAtMost(a, d, q - 1);
    assert (q + 1) * d == q * d + d && (q - 1 + 1) * d == q * d;
  }

  /** ceil(n / skip) goes up by one exactly when `n - 1` is a multiple of `skip`. */
  lemma CeilStep(n: nat, skip: int)
    requires skip >= 1 && n >= 1
    ensures (n + skip - 1) / skip == (n - 1 + skip - 1) / skip + (if (n - 1) % skip == 0 then 1 else 0)
  {
    var k := n - 1;
    var q, r := k / skip, k % skip;
    DivUnique(n + skip - 1, skip, q + 1, r);
    if r == 0 {
      DivUnique(k + skip - 1, skip, q, skip - 1);
    } else {
      DivUnique(k + skip - 1, skip, q + 1, r - 1);
    }
  }

  /** `predicted_frames` after `n` frames is the number of multiples of `skip` below `n`, that is ceil(n / skip). */
  lemma {:induction false} ClassifiedFramesCount(n: nat, skip: int)
    requires skip >= 1
    ensures ClassifiedFrames(n, skip) == (n + skip - 1) / skip
  {
    if n > 0 {
      ClassifiedFramesCount(n - 1, skip);
      CeilStep(n, skip);
    }
  }
  /** The loop goes on past frame `n`: predictions left, frames left by the frame count, and a frame to read. */
  predicate Continues(s: Settings, c: Capture, skip: int, n: nat)
    requires skip >= 1
  {
    ClassifiedFrames(n, skip) < s.maxNumberOfPredictions && n < c.frameCount && n < |c.frames|
  }

  /** Reading more frames never lowers `predicted_frames`. */
  lemma {:induction false} ClassifiedFramesMonotone(k: nat, n: nat, skip: int)
    requires skip >= 1 && k <= n
    ensures ClassifiedFrames(k, skip) <= ClassifiedFrames(n, skip)
  {
    if k < n {
      ClassifiedFramesMonotone(k, n - 1, skip);
    }
  }

  /** A loop that goes on past frame `n` went on past every earlier frame. */
  lemma ContinuesEarlier(s: Settings, c: Capture, skip: int, n: nat)
    requires skip >= 1 && Continues(s, c, skip, n)
    ensures forall k :: 0 <= k <= n ==> Continues(s, c, skip, k)
  {
    forall k | 0 <= k <= n
      ensures Continues(s, c, skip, k)
    {
      ClassifiedFramesMonotone(k, n, skip);
    }
  }

  /** The first frame number at which `MAX_NUMBER_OF_PREDICTIONS` frames have been classified. */
  function PredictionLimit(s: Settings, skip: int): int
    requires skip >= 1
  {
    if s.maxNumberOfPredictions <= 0 then 0 else (s.maxNumberOfPredictions - 1) * skip + 1
  }

  /** The frame number the loop stops at: the first that is past the prediction budget, the frame count or the video. */
  function StopFrame(s: Settings, c: Capture, skip: int): (n: nat)
    requires skip >= 1
    ensures n <= |c.frames| && (c.frameCount >= 0 ==> n <= c.frameCount)
    ensures s.maxNumberOfPredictions <= 0 ==> n == 0
  {
    var limit := PredictionLimit(s, skip);
    var limit := if c.frameCount < limit then c.frameCount else limit;
    var limit := if |c.frames| < limit then |c.frames| else limit;
    if limit < 0 then 0 else limit
  }

  /** Euclidean division is at most `q` exactly below the next multiple. */
  lemma DivAtMost(a: int, d: int, q: int)
    requires d >= 1
    ensures a / d <= q <==> a < (q + 1) * d
  {
    var q', r := a / d, a % d;
    assert a == q' * d + r && 0 <= r < d;
    if q' <= q {
      assert (q - q') * d >= 0;
    } else {
      assert (q' - q - 1) * d >= 0;
    }
  }

  /** The loop goes on past frame `n` exactly when `n` is below the stop frame. */
  lemma ContinuesBelow(s: Settings, c: Capture, skip: int, n: nat)
    requires skip >= 1
    ensures Continues(s, c, skip, n) <==> n < StopFrame(s, c, skip)
  {
    ClassifiedFramesCount(n, skip);
    var max := s.maxNumberOfPredictions;
    if max >= 1 {
      DivAtMost(n + skip - 1, skip, max - 1);
      assert (max - 1 + 1) * skip == (max - 1) * skip + skip;
    }
  }

  /**
   * A loop that went on at every frame before `n` and stops at `n` stops at the stop frame,
   * having classified ceil(n / skip) frames.
   */
  lemma LoopStops(s: Settings, c: Capture, skip: int, n: nat)
    requires skip >= 1
    requires forall k :: 0 <= k < n ==> Continues(s, c, skip, k)
    requires !Continues(s, c, skip, n)
    ensures n == StopFrame(s, c, skip)
    ensures ClassifiedFrames(n, skip) == (n + skip - 1) / skip
  {
    ContinuesBelow(s, c, skip, n);
    if n > 0 {
      ContinuesBelow(s, c, skip, n - 1);
    }
    ClassifiedFramesCount(n, skip);
  }

  /** What reading frame `k` routes: that frame's observations when it is classified, else nothing. */
  function StepObservations(s: Settings, c: Capture, m: Models, skip: int, k: nat): (obs: seq<Observation>)
    requires skip >= 1 && k < |c.frames|
    ensures forall j :: 0 <= j < |obs| ==> obs[j].frame == k
    ensures obs != [] ==> k % skip == 0
  {
    if k % skip == 0 then FrameObservations(s, m, k, c.frames[k], m.track(k, c.frames[k])) else []
  }

  /** Every observation routed while reading the first `n` frames, in routing order. */
  function ObservationsUpTo(s: Settings, c: Capture, m: Models, skip: int, n: nat): seq<Observation>
    requires skip >= 1 && n <= |c.frames|
  {
    if n == 0 then [] else ObservationsUpTo(s, c, m, skip, n - 1) + StepObservations(s, c, m, skip, n - 1)
  }

  /** Reading frame `n` appends what that frame routes. */
  lemma ObservationsStep(s: Settings, c: Capture, m: Models, skip: int, n: nat)
    requires skip >= 1 && n < |c.frames|
    ensures ObservationsUpTo(s, c, m, skip, n + 1)
         == ObservationsUpTo(s, c, m, skip, n) + StepObservations(s, c, m, skip, n)
  {
  }

  // ---------------------------------------------------------------- histories

  /** The ids of a stream of observations, in order. */
  function IdsOf(obs: seq<Observation>): seq<int>
  {
    if obs == [] then [] else IdsOf(obs[..|obs| - 1]) + [obs[|obs| - 1].id]
  }

  /** The observations of one id, in order. */
  function History(obs: seq<Observation>, id: int): seq<Observation>
  {
    if obs == [] then []
    else
      var init := History(obs[..|obs| - 1], id);
      if obs[|obs| - 1].id == id then init + [obs[|obs| - 1]] else init
  }

  function FramesOf(h: seq<Observation>): seq<int>
  {
    if h == [] then [] else FramesOf(h[..|h| - 1]) + [h[|h| - 1].frame]
  }

  function ObjectNamesOf(h: seq<Observation>): seq<string> {
    if h == [] then [] else ObjectNamesOf(h[..|h| - 1]) + [h[|h| - 1].objectName]
  }

  function ConfsOf(h: seq<Observation>): seq<real> {
    if h == [] then [] else ConfsOf(h[..|h| - 1]) + [h[|h| - 1].conf]
  }

  function BoxesOf(h: seq<Observation>): seq<Bbox> {
    if h == [] then [] else BoxesOf(h[..|h| - 1]) + [h[|h| - 1].box]
  }

  function ColorsBgrOf(h: seq<Observation>): seq<seq<Bgr>> {
    if h == [] then [] else ColorsBgrOf(h[..|h| - 1]) + AsList(h[|h| - 1].colorsBgr)
  }

  function ColorsHlsOf(h: seq<Observation>): seq<seq<Hls>> {
    if h == [] then [] else ColorsHlsOf(h[..|h| - 1]) + AsList(h[|h| - 1].colorsHls)
  }

  function ColorsStrOf(h: seq<Observation>): seq<seq<string>> {
    if h == [] then [] else ColorsStrOf(h[..|h| - 1]) + AsList(h[|h| - 1].colorsStr)
  }

  /**
   * The colour summary `object_color_str` of a track with observations `h`: empty until an
   * edit brings colour names, then the top three names over every list recorded so far.
   */
  function ColorSummaryOf(h: seq<Observation>): (r: seq<string>)
    ensures |r| <= ColorSummarySize
  {
    if |h| <= 1 then []
    else if h[|h| - 1].colorsStr.Some? then MostCommon(Flatten(ColorsStrOf(h)), ColorSummarySize)
    else ColorSummaryOf(h[..|h| - 1])
  }

  /** A track no edit has brought colour names to keeps the empty colour summary it starts with. */
  lemma {:induction false} ColorSummaryWithoutNames(h: seq<Observation>)
    requires forall j :: 0 <= j < |h| ==> h[j].colorsStr.None?
    ensures ColorSummaryOf(h) == []
  {
    if |h| >= 2 {
      var init := h[..|h| - 1];
      assert forall j :: 0 <= j < |init| ==> init[j] == h[j];
      ColorSummaryWithoutNames(init);
    }
  }

  /** One more observation extends every history column by its own value. */
  lemma ColumnsAppend(h: seq<Observation>, ob: Observation)
    ensures FramesOf(h + [ob]) == FramesOf(h) + [ob.frame]
    ensures ObjectNamesOf(h + [ob]) == ObjectNamesOf(h) + [ob.objectName]
    ensures ConfsOf(h + [ob]) == ConfsOf(h) + [ob.conf]
    ensures BoxesOf(h + [ob]) == BoxesOf(h) + [ob.box]
    ensures ColorsBgrOf(h + [ob]) == ColorsBgrOf(h) + AsList(ob.colorsBgr)
    ensures ColorsHlsOf(h + [ob]) == ColorsHlsOf(h) + AsList(ob.colorsHls)
    ensures ColorsStrOf(h + [ob]) == ColorsStrOf(h) + AsList(ob.colorsStr)
    ensures h != [] ==> ColorSummaryOf(h + [ob]) == if ob.colorsStr.Some? then MostCommon(Flatten(ColorsStrOf(h + [ob])), ColorSummarySize)
                                                     else ColorSummaryOf(h)
  {
    assert (h + [ob])[..|h|] == h;
  }

  /** One more observation extends the id stream and the history of its own id only. */
  lemma HistoryAppend(obs: seq<Observation>, ob: Observation, id: int)
    ensures IdsOf(obs + [ob]) == IdsOf(obs) + [ob.id]
    ensures History(obs + [ob], id) == if ob.id == id then History(obs, id) + [ob] else History(obs, id)
  {
    assert (obs + [ob])[..|obs|] == obs;
  }

  /** An id has observations exactly when it occurs in the id stream, and as many as it occurs. */
  lemma {:induction false} HistoryLength(obs: seq<Observation>, id: int)
    ensures |History(obs, id)| == Count(IdsOf(obs), id)
    ensures History(obs, id) == [] <==> id !in IdsOf(obs)
  {
    if obs != [] {
      var init, ob := obs[..|obs| - 1], obs[|obs| - 1];
      assert obs == init + [ob];
      HistoryLength(init, id);
      HistoryAppend(init, ob, id);
      assert multiset(IdsOf(obs)) == multiset(IdsOf(init)) + multiset{ob.id};
    }
  }

  /** The columns of a single observation. */
  lemma FirstObservation(ob: Observation)
    ensures FramesOf([ob]) == [ob.frame] && ObjectNamesOf([ob]) == [ob.objectName] && ConfsOf([ob]) == [ob.conf]
    ensures BoxesOf([ob]) == [ob.box] && ColorsBgrOf([ob]) == AsList(ob.colorsBgr)
    ensures ColorsHlsOf([ob]) == AsList(ob.colorsHls) && ColorsStrOf([ob]) == AsList(ob.colorsStr)
    ensures ColorSummaryOf([ob]) == []
  {
    assert [ob][..0] == [];
  }

  /** The first observation of an id: the id goes at the end of the keys, its history is that one observation, the others keep theirs. */
  lemma NewIdHistories(obs: seq<Observation>, ob: Observation, ids: seq<int>)
    requires ids == Keys(IdsOf(obs)) && ob.id !in ids
    ensures Keys(IdsOf(obs + [ob])) == ids + [ob.id]
    ensures History(obs + [ob], ob.id) == [ob]
    ensures forall i :: 0 <= i < |ids| ==> History(obs + [ob], ids[i]) == History(obs, ids[i])
  {
    HistoryAppend(obs, ob, ob.id);
    HistoryLength(obs, ob.id);
    KeysAppend(IdsOf(obs), ob.id);
    forall i | 0 <= i < |ids|
      ensures History(obs + [ob], ids[i]) == History(obs, ids[i])
    {
      HistoryAppend(obs, ob, ids[i]);
    }
  }

  /** A column in increasing order, repeats allowed. */
  predicate NonDecreasing(f: seq<int>) {
    forall i, j :: 0 <= i < j < |f| ==> f[i] <= f[j]
  }

  /** The frame column has one entry per observation, its frame. */
  lemma {:induction false} FramesOfEach(h: seq<Observation>)
    ensures |FramesOf(h)| == |h|
    ensures forall i :: 0 <= i < |h| ==> FramesOf(h)[i] == h[i].frame
  {
    if h != [] {
      FramesOfEach(h[..|h| - 1]);
    }
  }

  /** A stream of observations in frame order, repeats allowed. */
  predicate InFrameOrder(obs: seq<Observation>) {
    forall i, j :: 0 <= i < j < |obs| ==> obs[i].frame <= obs[j].frame
  }

  /** The history of an id is drawn from the stream and holds only that id. */
  lemma {:induction false} HistoryInStream(obs: seq<Observation>, id: int)
    ensures forall ob :: ob in History(obs, id) ==> ob in obs && ob.id == id
  {
    if obs != [] {
      var init, ob := obs[..|obs| - 1], obs[|obs| - 1];
      assert obs == init + [ob];
      HistoryInStream(init, id);
      HistoryAppend(init, ob, id);
    }
  }

  /** A stream without colour names gives every id the empty colour summary. */
  lemma HistoryWithoutNames(obs: seq<Observation>, id: int)
    requires forall j :: 0 <= j < |obs| ==> obs[j].colorsStr.None?
    ensures ColorSummaryOf(History(obs, id)) == []
  {
    var h := History(obs, id);
    HistoryInStream(obs, id);
    assert forall j :: 0 <= j < |h| ==> h[j] in obs;
    ColorSummaryWithoutNames(h);
  }

  /** The history of an id keeps the stream's frame order. */
  lemma {:induction false} HistoryInFrameOrder(obs: seq<Observation>, id: int)
    requires InFrameOrder(obs)
    ensures InFrameOrder(History(obs, id))
  {
    if obs != [] {
      var init, ob := obs[..|obs| - 1], obs[|obs| - 1];
      assert obs == init + [ob];
      assert InFrameOrder(init);
      HistoryInFrameOrder(init, id);
      HistoryAppend(init, ob, id);
      if ob.id == id {
        var h := History(init, id);
        HistoryInStream(init, id);
        forall p | 0 <= p < |h|
          ensures h[p].frame <= ob.frame
        {
          assert h[p] in h;
          var k :| 0 <= k < |init| && init[k] == h[p];
          assert obs[k] == init[k];
        }
        assert forall p :: 0 <= p < |h| ==> (h + [ob])[p] == h[p];
      }
    }
  }

  // ---------------------------------------------------------------- the registry

  /**
   * A track holds a history: it is valid, was built with the run's settings, its histories are
   * the history's columns, and its colour summary is the one that history leads to.
   */
  ghost predicate Holds(o: ClassificationObject, h: seq<Observation>, s: Settings, c: Capture, m: Models)
    reads o
  {
    && o.Valid()
    && o.frameWidth == c.frameWidth && o.frameHeight == c.frameHeight
    && o.thresholds == s.thresholds && o.dist == m.dist
    && o.frames == FramesOf(h)
    && o.objectNames == ObjectNamesOf(h)
    && o.objectConfs == ConfsOf(h)
    && o.trajectory == BoxesOf(h)
    && o.objectColorsBgr == ColorsBgrOf(h)
    && o.objectColorsHls == ColorsHlsOf(h)
    && o.objectColorsStr == ColorsStrOf(h)
    && o.objectColorStr == ColorSummaryOf(h)
  }

  /**
   * The two registry lists after routing `obs`: the ids are the distinct ids of `obs` in
   * first-seen order, and the i-th track has the i-th id and holds that id's observations.
   */
  ghost predicate Registry(ids: seq<int>, objs: seq<ClassificationObject>, obs: seq<Observation>,
                           s: Settings, c: Capture, m: Models)
    reads objs
  {
    && ids == Keys(IdsOf(obs))
    && |objs| == |ids|
    && forall i :: 0 <= i < |objs| ==> objs[i].id == ids[i] && Holds(objs[i], History(obs, ids[i]), s, c, m)
  }

  /** The `edit_classification_object` branch: the id is known, so its track records the observation. */
  method RecordKnown(s: Settings, c: Capture, m: Models, ids: seq<int>, objs: seq<ClassificationObject>,
                     ob: Observation, ghost obs: seq<Observation>)
    requires Registry(ids, objs, obs, s, c, m) && ob.id in ids
    modifies set o | o in objs
    ensures Registry(ids, objs, obs + [ob], s, c, m)
  {
    var found := EditClassificationObject(ob.id, ob.objectName, ob.conf, ob.box, ob.frame, objs,
                                          ob.colorsBgr, ob.colorsHls, ob.colorsStr);
    ghost var k := IndexOfId(objs, ob.id).value;
    HistoryAppend(obs, ob, ob.id);
    KeysAppend(IdsOf(obs), ob.id);
    forall i | 0 <= i < |objs|
      ensures Holds(objs[i], History(obs + [ob], ids[i]), s, c, m)
    {
      HistoryAppend(obs, ob, ids[i]);
      if i == k {
        ColumnsAppend(History(obs, ids[i]), ob);
      } else if i < k {
        KeysDistinct(IdsOf(obs), i, k);
      } else {
        KeysDistinct(IdsOf(obs), k, i);
      }
    }
  }

  /** `create_classification_object` on an observation: a fresh track that holds just that observation. */
  method CreateFor(s: Settings, c: Capture, m: Models, ob: Observation) returns (classificationObject: ClassificationObject)
    ensures fresh(classificationObject)
    ensures classificationObject.id == ob.id && Holds(classificationObject, [ob], s, c, m)
  {
    classificationObject := CreateClassificationObject(ob.id, ob.objectName, ob.conf, ob.box, ob.frame,
                                                       c.frameWidth, c.frameHeight,
                                                       ob.colorsBgr, ob.colorsHls, ob.colorsStr,
                                                       s.thresholds, m.dist);
    FirstObservation(ob);
  }

  /** A registry grows by a new id and a track that holds just its first observation. */
  lemma RegistryGrows(ids: seq<int>, objs: seq<ClassificationObject>, obs: seq<Observation>, ob: Observation,
                      o: ClassificationObject, s: Settings, c: Capture, m: Models)
    requires Registry(ids, objs, obs, s, c, m) && ob.id !in ids
    requires o.id == ob.id && Holds(o, [ob], s, c, m)
    ensures Registry(ids + [ob.id], objs + [o], obs + [ob], s, c, m)
  {
    NewIdHistories(obs, ob, ids);
    var ids', objs', obs' := ids + [ob.id], objs + [o], obs + [ob];
    forall i | 0 <= i < |objs'|
      ensures objs'[i].id == ids'[i] && Holds(objs'[i], History(obs', ids'[i]), s, c, m)
    {
      if i < |objs| {
        assert objs'[i] == objs[i] && ids'[i] == ids[i];
      }
    }
  }

  /** The `create_classification_object` branch: a new id gets a new track, appended to both lists. */
  method RegisterNew(s: Settings, c: Capture, m: Models, ids: seq<int>, objs: seq<ClassificationObject>,
                     ob: Observation, ghost obs: seq<Observation>)
    returns (classificationObject: ClassificationObject)
    requires Registry(ids, objs, obs, s, c, m) && ob.id !in ids
    ensures fresh(classificationObject)
    ensures Registry(ids + [ob.id], objs + [classificationObject], obs + [ob], s, c, m)
  {
    classificationObject := CreateFor(s, c, m, ob);
    RegistryGrows(ids, objs, obs, ob, classificationObject, s, c, m);
  }

  /** Lines 189-215: route one observation to the track with its id, creating the track if the id is new. */
  method RouteDetection(s: Settings, c: Capture, m: Models, ids: seq<int>, objs: seq<ClassificationObject>,
                        ob: Observation, ghost obs: seq<Observation>)
    returns (newIds: seq<int>, newObjs: seq<ClassificationObject>)
    requires Registry(ids, objs, obs, s, c, m)
    modifies set o | o in objs
    ensures Registry(newIds, newObjs, obs + [ob], s, c, m)
    ensures forall o :: o in newObjs ==> o in objs || fresh(o)
  {
    if ob.id in ids {
      RecordKnown(s, c, m, ids, objs, ob, obs);
      newIds, newObjs := ids, objs;
    } else {
      var classificationObject := RegisterNew(s, c, m, ids, objs, ob, obs);
      newIds, newObjs := ids + [ob.id], objs + [classificationObject];
    }
  }

  // ---------------------------------------------------------------- the loops

  /**
   * Lines 171-183: what the loop extracts from a box that has an id, and the colours
   * `crop_and_detect` finds for it when `FIND_DOMINANT_COLORS` is set.
   */
  method ObserveBox(s: Settings, m: Models, frameNumber: int, frame: Image, box: TrackedBox) returns (ob: Observation)
    requires box.id.Some?
    ensures ob == Observe(s, m, frameNumber, frame, box)
  {
    var objectId := box.id.value;
    var objectName := Translate(box.className);
    var colorsBgr, colorsHls, colorsStr := None, None, None;
    if s.findDominantColors {
      var mainColorsBgr, mainColorsHls, mainColorsStr := CropAndDetect(ColorFinder, m.vision, frame, box.xyxy, box.mask);
      assert mainColorsHls == HlsValues(m.vision, mainColorsBgr);
      assert mainColorsStr == ColourNames(mainColorsHls);
      colorsBgr, colorsHls, colorsStr := Some(mainColorsBgr), Some(mainColorsHls), Some(mainColorsStr);
    }
    ob := Observation(objectId, objectName, box.conf, box.xyxy, frameNumber, colorsBgr, colorsHls, colorsStr);
  }

  /**
   * Lines 165-215 for box `i` of a frame, which has an id: extract its observation and route
   * it, extending the routed run by that observation.
   */
  method RouteBox(s: Settings, c: Capture, m: Models, frameNumber: int, frame: Image, boxes: seq<TrackedBox>, i: nat,
                  ids: seq<int>, objs: seq<ClassificationObject>, ghost obs: seq<Observation>)
    returns (newIds: seq<int>, newObjs: seq<ClassificationObject>)
    requires i < |boxes| && forall j :: 0 <= j <= i ==> boxes[j].id.Some?
    requires Registry(ids, objs, obs + ObserveAll(s, m, frameNumber, frame, boxes[..i]), s, c, m)
    modifies set o | o in objs
    ensures Registry(newIds, newObjs, obs + ObserveAll(s, m, frameNumber, frame, boxes[..i + 1]), s, c, m)
    ensures forall o :: o in newObjs ==> o in objs || fresh(o)
  {
    var ob := ObserveBox(s, m, frameNumber, frame, boxes[i]);
    ObserveAllAppend(s, m, frameNumber, frame, boxes, i);
    AppendOne(obs, ObserveAll(s, m, frameNumber, frame, boxes[..i]), ob);
    newIds, newObjs := RouteDetection(s, c, m, ids, objs, ob, obs + ObserveAll(s, m, frameNumber, frame, boxes[..i]));
  }

  /**
   * Lines 157-215: route the boxes of one classified frame in order, stopping at the first
   * box without an id; nothing happens when the tracker returns nothing.
   */
  method ClassifyFrame(s: Settings, c: Capture, m: Models, frameNumber: int, frame: Image,
                       results: Option<seq<TrackedBox>>,
                       ids: seq<int>, objs: seq<ClassificationObject>, ghost obs: seq<Observation>)
    returns (newIds: seq<int>, newObjs: seq<ClassificationObject>)
    requires Registry(ids, objs, obs, s, c, m)
    modifies set o | o in objs
    ensures Registry(newIds, newObjs, obs + FrameObservations(s, m, frameNumber, frame, results), s, c, m)
    ensures forall o :: o in newObjs ==> o in objs || fresh(o)
  {
    newIds, newObjs := ids, objs;
    if results.None? {
      assert obs + [] == obs;
      return;
    }
    var boxes := results.value;
    assert boxes[..0] == [] && obs + [] == obs;
    var i := 0;
    while i < |boxes|
      invariant i <= |boxes| && forall j :: 0 <= j < i ==> boxes[j].id.Some?
      invariant Registry(newIds, newObjs, obs + ObserveAll(s, m, frameNumber, frame, boxes[..i]), s, c, m)
      invariant forall o :: o in newObjs ==> o in objs || fresh(o)
    {
      if boxes[i].id.None? {
        break;
      }
      newIds, newObjs := RouteBox(s, c, m, frameNumber, frame, boxes, i, newIds, newObjs, obs);
      i := i + 1;
    }
    RoutedCountIs(boxes, i);
  }

  /**
   * Lines 129-141 and 237-238, one pass of the frame loop: read frame `frameNumber`, route
   * its boxes when the skip factor selects it, and count it as predicted.
   */
  method ReadFrame(s: Settings, c: Capture, m: Models, skip: int, frameNumber: nat, predictedFrames: nat,
                   ids: seq<int>, objs: seq<ClassificationObject>)
    returns (newIds: seq<int>, newObjs: seq<ClassificationObject>, newPredicted: nat)
    requires skip >= 1 && frameNumber < |c.frames|
    requires predictedFrames == ClassifiedFrames(frameNumber, skip)
    requires Registry(ids, objs, ObservationsUpTo(s, c, m, skip, frameNumber), s, c, m)
    modifies set o | o in objs
    ensures newPredicted == ClassifiedFrames(frameNumber + 1, skip)
    ensures Registry(newIds, newObjs, ObservationsUpTo(s, c, m, skip, frameNumber + 1), s, c, m)
    ensures forall o :: o in newObjs ==> o in objs || fresh(o)
  {
    var frame := c.frames[frameNumber];
    ObservationsStep(s, c, m, skip, frameNumber);
    ghost var routed := ObservationsUpTo(s, c, m, skip, frameNumber);
    if frameNumber % skip == 0 {
      var results := m.track(frameNumber, frame);
      assert ObservationsUpTo(s, c, m, skip, frameNumber + 1) == routed + FrameObservations(s, m, frameNumber, frame, results);
      newIds, newObjs := ClassifyFrame(s, c, m, frameNumber, frame, results, ids, objs, routed);
      newPredicted := predictedFrames + 1;
    } else {
      assert ObservationsUpTo(s, c, m, skip, frameNumber + 1) == routed + [] == routed;
      newIds, newObjs, newPredicted := ids, objs, predictedFrames;
    }
  }

  /**
   * Lines 109-110, 116-141 and 237-238: read frames until `MAX_NUMBER_OF_PREDICTIONS` frames
   * were classified, the frame count is reached or no frame can be read; classify every
   * `frame_skip_factor`-th frame. At the end the loop has stopped at the first frame number
   * where it may not go on, `predicted_frames` counts the classified frames, and the two
   * registry lists hold every observation routed on the way.
   */
  method ClassifyVideo(s: Settings, c: Capture, m: Models)
    returns (ids: seq<int>, objs: seq<ClassificationObject>, frameNumber: nat, predictedFrames: nat)
    requires Runnable(s, c)
    ensures var skip := FrameSkipFactor(s, c).value;
            && frameNumber <= |c.frames|
            && (forall n :: 0 <= n < frameNumber ==> Continues(s, c, skip, n))
            && !Continues(s, c, skip, frameNumber)
            && predictedFrames == ClassifiedFrames(frameNumber, skip)
            && Registry(ids, objs, ObservationsUpTo(s, c, m, skip, frameNumber), s, c, m)
    ensures forall o :: o in objs ==> fresh(o)
  {
    ids, objs := [], [];
    frameNumber, predictedFrames := 0, 0;
    var frameSkipFactor := Trunc(c.fps / s.classificationFps);
    var maxFrameNumber := c.frameCount;
    while predictedFrames < s.maxNumberOfPredictions && frameNumber < maxFrameNumber
      invariant frameNumber <= |c.frames|
      invariant frameNumber > 0 ==> Continues(s, c, frameSkipFactor, frameNumber - 1)
      invariant predictedFrames == ClassifiedFrames(frameNumber, frameSkipFactor)
      invariant Registry(ids, objs, ObservationsUpTo(s, c, m, frameSkipFactor, frameNumber), s, c, m)
      invariant forall o :: o in objs ==> fresh(o)
      decreases |c.frames| - frameNumber
    {
      if frameNumber >= |c.frames| {
        break;
      }
      assert Continues(s, c, frameSkipFactor, frameNumber);
      ids, objs, predictedFrames := ReadFrame(s, c, m, frameSkipFactor, frameNumber, predictedFrames, ids, objs);
      frameNumber := frameNumber + 1;
    }
    if frameNumber > 0 {
      ContinuesEarlier(s, c, frameSkipFactor, frameNumber - 1);
    }
  }

  // ---------------------------------------------------------------- the report

  /** The tracks seen at least `minDetections` times, in list order. */
  function Kept(objs: seq<ClassificationObject>, minDetections: int): seq<ClassificationObject>
    reads objs
  {
    if objs == [] then []
    else
      var o := objs[|objs| - 1];
      Kept(objs[..|objs| - 1], minDetections) + if o.occurences >= minDetections then [o] else []
  }

  /** One more track is kept at the end exactly when it was seen often enough. */
  lemma KeptAppend(objs: seq<ClassificationObject>, i: nat, minDetections: int)
    requires i < |objs|
    ensures Kept(objs[..i + 1], minDetections) ==
              Kept(objs[..i], minDetections) + if objs[i].occurences >= minDetections then [objs[i]] else []
  {
    assert objs[..i + 1][..i] == objs[..i];
  }

  /** Lines 263-265 for one track: keep it and add it to the report when it was seen often enough. */
  method KeepIfFrequent(returnJson: ReturnJSON, filtered: seq<ClassificationObject>,
                        classificationObject: ClassificationObject, minDetections: int)
    returns (newFiltered: seq<ClassificationObject>)
    requires returnJson.Valid()
    requires returnJson.properties == NamesOf(filtered) && returnJson.details == DetailsOf(filtered)
    requires returnJson.objectCount == |filtered|
    modifies returnJson
    ensures returnJson.Valid()
    ensures newFiltered == filtered + if classificationObject.occurences >= minDetections then [classificationObject] else []
    ensures returnJson.properties == NamesOf(newFiltered) && returnJson.details == DetailsOf(newFiltered)
    ensures returnJson.objectCount == |newFiltered|
  {
    newFiltered := filtered;
    if classificationObject.occurences >= minDetections {
      newFiltered := filtered + [classificationObject];
      returnJson.AddDetectedObject(classificationObject);
      EntriesAppend(filtered, classificationObject);
    } else {
      assert filtered + [] == filtered;
    }
  }

  /**
   * Lines 257-265: a new report, and every track with at least `MIN_DETECTIONS` occurrences
   * added to it and to the filtered list, in list order.
   */
  method FilterAndReport(objs: seq<ClassificationObject>, minDetections: int)
    returns (filtered: seq<ClassificationObject>, returnJson: ReturnJSON)
    ensures fresh(returnJson) && returnJson.Valid()
    ensures filtered == Kept(objs, minDetections)
    ensures returnJson.objectCount == |filtered|
    ensures returnJson.properties == NamesOf(filtered) && returnJson.details == DetailsOf(filtered)
  {
    returnJson := new ReturnJSON();
    filtered := [];
    for i := 0 to |objs|
      invariant fresh(returnJson) && returnJson.Valid()
      invariant forall o :: o in objs ==> o as object != returnJson
      invariant filtered == Kept(objs[..i], minDetections)
      invariant returnJson.objectCount == |filtered|
      invariant returnJson.properties == NamesOf(filtered) && returnJson.details == DetailsOf(filtered)
    {
      KeptAppend(objs, i, minDetections);
      ghost var keptNext := Kept(objs[..i + 1], minDetections);
      filtered := KeepIfFrequent(returnJson, filtered, objs[i], minDetections);
      assert filtered == keptNext;
    }
    assert objs[..|objs|] == objs;
  }

  // ---------------------------------------------------------------- what a run promises

  // Per-frame blocks of observations, joined in frame order with `Flatten`.

  /** Each block holds only observations of the frame at its own position. */
  predicate BlockFrames(blocks: seq<seq<Observation>>) {
    forall k, j :: 0 <= k < |blocks| && 0 <= j < |blocks[k]| ==> blocks[k][j].frame == k
  }

  /** Every entry of the joined blocks comes from some block, at some position within it. */
  lemma {:induction false} FlattenOrigin(blocks: seq<seq<Observation>>, p: nat) returns (k: nat, j: nat)
    requires p < |Flatten(blocks)|
    ensures k < |blocks| && j < |blocks[k]| && Flatten(blocks)[p] == blocks[k][j]
  {
    var init := blocks[..|blocks| - 1];
    assert init + [blocks[|blocks| - 1]] == blocks;
    if p < |Flatten(init)| {
      k, j := FlattenOrigin(init, p);
      assert blocks[k] == init[k];
    } else {
      k, j := |blocks| - 1, p - |Flatten(init)|;
    }
  }

  /** Joined blocks whose blocks hold only their own frame are in frame order. */
  lemma {:induction false} FlattenOrdered(blocks: seq<seq<Observation>>, p: nat, q: nat)
    requires BlockFrames(blocks) && p < q < |Flatten(blocks)|
    ensures Flatten(blocks)[p].frame <= Flatten(blocks)[q].frame
  {
    var init, last := blocks[..|blocks| - 1], blocks[|blocks| - 1];
    var all, before := Flatten(blocks), Flatten(init);
    assert BlockFrames(init) by {
      forall k, j | 0 <= k < |init| && 0 <= j < |init[k]|
        ensures init[k][j].frame == k
      {
        assert init[k] == blocks[k];
      }
    }
    if q < |before| {
      FlattenOrdered(init, p, q);
    } else {
      assert all[q] == last[q - |before|];
      if p < |before| {
        var k, j := FlattenOrigin(init, p);
        assert init[k] == blocks[k];
      }
    }
  }

  /**
   * In joined blocks that hold only their own frame, and where only selected frames have
   * observations, the frame column of each id's history is in increasing order (repeats
   * allowed) and lists only selected frames below the number of blocks.
   */
  lemma BlockHistoryFrames(blocks: seq<seq<Observation>>, skip: int, id: int)
    requires skip >= 1 && BlockFrames(blocks)
    requires forall k :: 0 <= k < |blocks| && blocks[k] != [] ==> k % skip == 0
    ensures NonDecreasing(FramesOf(History(Flatten(blocks), id)))
    ensures forall x :: x in FramesOf(History(Flatten(blocks), id)) ==> x < |blocks| && x % skip == 0
  {
    var obs := Flatten(blocks);
    var h := History(obs, id);
    forall p, q | 0 <= p < q < |obs|
      ensures obs[p].frame <= obs[q].frame
    {
      FlattenOrdered(blocks, p, q);
    }
    HistoryInFrameOrder(obs, id);
    HistoryInStream(obs, id);
    FramesOfEach(h);
    forall x | x in FramesOf(h)
      ensures x < |blocks| && x % skip == 0
    {
      var p :| 0 <= p < |h| && FramesOf(h)[p] == x;
      assert h[p] in h;
      var r :| 0 <= r < |obs| && obs[r] == h[p];
      var k, j := FlattenOrigin(blocks, r);
    }
  }

  /** What reading each of the first `n` frames routes, one block per frame. */
  function StepsUpTo(s: Settings, c: Capture, m: Models, skip: int, n: nat): (blocks: seq<seq<Observation>>)
    requires skip >= 1 && n <= |c.frames|
    ensures |blocks| == n && BlockFrames(blocks)
    ensures forall k :: 0 <= k < n && blocks[k] != [] ==> k % skip == 0
  {
    seq(n, k requires 0 <= k < n => StepObservations(s, c, m, skip, k))
  }

  /** The routed stream is the per-frame blocks joined in frame order. */
  lemma {:induction false} ObservationsAreSteps(s: Settings, c: Capture, m: Models, skip: int, n: nat)
    requires skip >= 1 && n <= |c.frames|
    ensures ObservationsUpTo(s, c, m, skip, n) == Flatten(StepsUpTo(s, c, m, skip, n))
  {
    if n > 0 {
      ObservationsAreSteps(s, c, m, skip, n - 1);
      assert StepsUpTo(s, c, m, skip, n)[..n - 1] == StepsUpTo(s, c, m, skip, n - 1);
    }
  }

  /**
   * Every track's frame list, once the first `n` frames are read, is in increasing order
   * (repeats allowed), and each of its frame numbers is a classified frame below `n`.
   */
  lemma TrackFrames(s: Settings, c: Capture, m: Models, skip: int, n: nat,
                    ids: seq<int>, objs: seq<ClassificationObject>, i: nat)
    requires skip >= 1 && n <= |c.frames|
    requires Registry(ids, objs, ObservationsUpTo(s, c, m, skip, n), s, c, m) && i < |objs|
    ensures NonDecreasing(objs[i].frames)
    ensures forall x :: x in objs[i].frames ==> x < n && x % skip == 0
  {
    ObservationsAreSteps(s, c, m, skip, n);
    BlockHistoryFrames(StepsUpTo(s, c, m, skip, n), skip, ids[i]);
  }

  /**
   * A track of the registry: it has its id, that id occurs in the stream, the track counts
   * exactly that id's observations, and its `first_frame` is the frame of the first one.
   */
  lemma RegistryTrack(ids: seq<int>, objs: seq<ClassificationObject>, obs: seq<Observation>,
                      s: Settings, c: Capture, m: Models, i: nat)
    requires Registry(ids, objs, obs, s, c, m) && i < |objs|
    ensures objs[i].id == ids[i] && ids[i] in IdsOf(obs)
    ensures objs[i].occurences == Count(IdsOf(obs), ids[i])
    ensures History(obs, ids[i]) != [] && objs[i].firstFrame == History(obs, ids[i])[0].frame
    ensures (forall j :: 0 <= j < |obs| ==> obs[j].colorsStr.None?) ==> objs[i].objectColorStr == []
  {
    var h := History(obs, ids[i]);
    HistoryLength(obs, ids[i]);
    FramesOfEach(h);
    if forall j :: 0 <= j < |obs| ==> obs[j].colorsStr.None? {
      HistoryWithoutNames(obs, ids[i]);
    }
  }

  /**
   * The two lists line up with distinct ids in first-seen order: an earlier track's id was
   * first observed before a later track's id.
   */
  lemma RegistryOrder(ids: seq<int>, objs: seq<ClassificationObject>, obs: seq<Observation>,
                      s: Settings, c: Capture, m: Models, i: nat, j: nat)
    requires Registry(ids, objs, obs, s, c, m) && i < j < |objs|
    ensures ids[i] != ids[j] && objs[i] != objs[j]
    ensures FirstIndex(IdsOf(obs), ids[i]) < FirstIndex(IdsOf(obs), ids[j])
  {
    KeysInFirstSeenOrder(IdsOf(obs), i, j);
  }

  /** The ids of a list of tracks, in list order. */
  function TrackIds(objs: seq<ClassificationObject>): seq<int>
    reads objs
  {
    if objs == [] then [] else TrackIds(objs[..|objs| - 1]) + [objs[|objs| - 1].id]
  }

  /** The ids of `ids` that occur at least `minDetections` times in `stream`, in order. */
  function FrequentIds(ids: seq<int>, stream: seq<int>, minDetections: int): seq<int> {
    if ids == [] then []
    else
      var id := ids[|ids| - 1];
      FrequentIds(ids[..|ids| - 1], stream, minDetections) + if Count(stream, id) >= minDetections then [id] else []
  }

  /** The filter keeps exactly the tracks seen at least `minDetections` times. */
  lemma {:induction false} KeptExactly(objs: seq<ClassificationObject>, minDetections: int)
    ensures forall o :: o in Kept(objs, minDetections) <==> o in objs && o.occurences >= minDetections
  {
    if objs != [] {
      var init := objs[..|objs| - 1];
      KeptExactly(init, minDetections);
      assert objs == init + [objs[|objs| - 1]];
    }
  }

  /** When every track's count is its id's count in `stream`, the filter keeps the frequent ids, in order. */
  lemma {:induction false} KeptIds(objs: seq<ClassificationObject>, ids: seq<int>, stream: seq<int>, minDetections: int)
    requires |objs| == |ids|
    requires forall i :: 0 <= i < |objs| ==> objs[i].id == ids[i] && objs[i].occurences == Count(stream, ids[i])
    ensures TrackIds(Kept(objs, minDetections)) == FrequentIds(ids, stream, minDetections)
  {
    if objs != [] {
      var init, o := objs[..|objs| - 1], objs[|objs| - 1];
      KeptIds(init, ids[..|ids| - 1], stream, minDetections);
      var k := Kept(init, minDetections);
      if o.occurences >= minDetections {
        assert (k + [o])[..|k|] == k;
      } else {
        assert k + [] == k;
      }
    }
  }

  /**
   * The report holds, in first-seen order, exactly the ids observed at least
   * `MIN_DETECTIONS` times.
   */
  lemma ReportedIds(ids: seq<int>, objs: seq<ClassificationObject>, obs: seq<Observation>,
                    s: Settings, c: Capture, m: Models)
    requires Registry(ids, objs, obs, s, c, m)
    ensures TrackIds(Kept(objs, s.minDetections)) == FrequentIds(ids, IdsOf(obs), s.minDetections)
  {
    forall i | 0 <= i < |objs|
      ensures objs[i].id == ids[i] && objs[i].occurences == Count(IdsOf(obs), ids[i])
    {
      RegistryTrack(ids, objs, obs, s, c, m, i);
    }
    KeptIds(objs, ids, IdsOf(obs), s.minDetections);
  }

  /**
   * Lines 109-141, 157-215, 237-238 and 257-265 together: classify the video, then report.
   * The report lists, in first-seen order, the tracks of exactly the ids observed at least
   * `MIN_DETECTIONS` times in the frames the loop read before it stopped.
   */
  method ClassifyAndReport(s: Settings, c: Capture, m: Models)
    returns (filtered: seq<ClassificationObject>, returnJson: ReturnJSON, frameNumber: nat)
    requires Runnable(s, c)
    ensures frameNumber <= |c.frames|
    ensures var skip := FrameSkipFactor(s, c).value;
            && (forall n :: 0 <= n < frameNumber ==> Continues(s, c, skip, n))
            && !Continues(s, c, skip, frameNumber)
            && frameNumber == StopFrame(s, c, skip)
    ensures var stream := IdsOf(ObservationsUpTo(s, c, m, FrameSkipFactor(s, c).value, frameNumber));
            TrackIds(filtered) == FrequentIds(Keys(stream), stream, s.minDetections)
    ensures fresh(returnJson) && returnJson.Valid()
    ensures returnJson.objectCount == |filtered|
    ensures returnJson.properties == NamesOf(filtered) && returnJson.details == DetailsOf(filtered)
  {
    var ids, objs, predictedFrames;
    ids, objs, frameNumber, predictedFrames := ClassifyVideo(s, c, m);
    LoopStops(s, c, FrameSkipFactor(s, c).value, frameNumber);
    ghost var stream := IdsOf(ObservationsUpTo(s, c, m, FrameSkipFactor(s, c).value, frameNumber));
    ReportedIds(ids, objs, ObservationsUpTo(s, c, m, FrameSkipFactor(s, c).value, frameNumber), s, c, m);
    assert ids == Keys(stream);
    ghost var frequent := TrackIds(Kept(objs, s.minDetections));
    assert frequent == FrequentIds(Keys(stream), stream, s.minDetections);
    filtered, returnJson := FilterAndReport(objs, s.minDetections);
    assert TrackIds(filtered) == frequent;
  }
}

/**
 * The track entity of utils/ClassificationObject.py: everything observed about one
 * tracked identity in one video, kept as parallel append-only histories plus fields
 * derived from them (travelled distance, net displacement, static flag, majority label,
 * top colour names), which the mutators update in place.
 */
module Track {
  import opened Wrappers
  import opened Geometry
  import opened Counting
  import opened ColorDetector

  /** How many colour names `edit_object_color_str` keeps: `most_common(3)`. */
  const ColorSummarySize: nat := 3

  /** The two environment thresholds `edit_is_static` reads (`MIN_STATIC_DISTANCE`, `MIN_DISTANCE`). */
  datatype Thresholds = Thresholds(minStaticDistance: int, minDistance: int)

  /** `find_centroid`: the point halfway between the two corners of a box. */
  function Centroid(b: Bbox): (c: Point)
    ensures c.x - b.x1 == b.x2 - c.x && c.y - b.y1 == b.y2 - c.y
  {
    Point((b.x1 + b.x2) / 2.0, (b.y1 + b.y2) / 2.0)
  }

  /**
   * The properties of the Euclidean distance `math.sqrt((q.x - p.x)**2 + (q.y - p.y)**2)` that
   * the lemmas rely on; the distance itself is received as the function `dist`.
   */
  ghost predicate IsDistance(dist: (Point, Point) -> real) {
    && (forall p, q :: dist(p, q) >= 0.0)
    && (forall p :: dist(p, p) == 0.0)
    && (forall p, q, r :: dist(p, r) <= dist(p, q) + dist(q, r))
  }

  /** The running total `distance`: each new centroid adds its step from the previous one. */
  function PathLength(dist: (Point, Point) -> real, c: seq<Point>): (r: real)
    ensures |c| <= 1 ==> r == 0.0
  {
    if |c| <= 1 then 0.0 else PathLength(dist, c[..|c| - 1]) + dist(c[|c| - 2], c[|c| - 1])
  }

  /** The same total recomputed from scratch, first step first. */
  function StepSum(dist: (Point, Point) -> real, c: seq<Point>): real {
    if |c| <= 1 then 0.0 else dist(c[0], c[1]) + StepSum(dist, c[1..])
  }

  /** `static_distance`: from the first centroid to the last, recomputed (0 before any step). */
  function NetDisplacement(dist: (Point, Point) -> real, c: seq<Point>): (r: real)
    ensures |c| <= 1 ==> r == 0.0
  {
    if |c| <= 1 then 0.0 else dist(c[0], c[|c| - 1])
  }

  /** The test of `edit_is_static`: close to where it started AND travelled far enough overall. */
  predicate StaticPolicy(t: Thresholds, staticDistance: real, distance: real): (b: bool)
    // a static track travelled at least the gap between the two thresholds beyond its net displacement
    ensures b ==> distance - staticDistance >= (t.minDistance - t.minStaticDistance) as real
  {
    staticDistance <= t.minStaticDistance as real && distance >= t.minDistance as real
  }

  class ClassificationObject {
    const id: int
    const firstFrame: int
    const frameWidth: int
    const frameHeight: int
    const thresholds: Thresholds
    const dist: (Point, Point) -> real

    var frames: seq<int>
    var objectNames: seq<string>
    var objectName: string
    var objectConfs: seq<real>
    var distance: real
    var staticDistance: real
    var isStatic: bool
    var occurences: int
    var trajectory: seq<Bbox>
    var trajectoryCentroids: seq<Point>
    var objectColorsBgr: seq<seq<Bgr>>
    var objectColorsHls: seq<seq<Hls>>
    var objectColorsStr: seq<seq<string>>
    var objectColorStr: seq<string>

    /** The colour summary is the top three names, or still the empty list the constructor leaves. */
    ghost predicate ColorSummaryCurrent()
      reads this`objectColorStr, this`objectColorsStr
    {
      || objectColorStr == MostCommon(Flatten(objectColorsStr), ColorSummarySize)
      || (objectColorStr == [] && |objectColorsStr| <= 1)
    }

    /** The object invariant: equal-length histories and derived fields that agree with them. */
    ghost predicate Valid()
      reads this`frames, this`objectNames, this`objectName, this`objectConfs, this`trajectory,
            this`trajectoryCentroids, this`occurences, this`distance, this`staticDistance, this`isStatic,
            this`objectColorsStr, this`objectColorStr
    {
      ValidDetections() && ColorSummaryCurrent()
    }

    /** The part of the invariant about the detection histories and the motion fields. */
    ghost predicate ValidDetections()
      reads this`frames, this`objectNames, this`objectName, this`objectConfs, this`trajectory,
            this`trajectoryCentroids, this`occurences, this`distance, this`staticDistance, this`isStatic
    {
      && |frames| >= 1
      && frames[0] == firstFrame
      && |objectNames| == |frames|
      && |objectConfs| == |frames|
      && |trajectory| == |frames|
      && |trajectoryCentroids| == |frames|
      && occurences == |frames|
      && objectName == Majority(objectNames)
      && (forall i :: 0 <= i < |trajectory| ==> trajectoryCentroids[i] == Centroid(trajectory[i]))
      && distance == PathLength(dist, trajectoryCentroids)
      && staticDistance == NetDisplacement(dist, trajectoryCentroids)
      && isStatic == (|trajectoryCentroids| == 1 || StaticPolicy(thresholds, staticDistance, distance))
    }

    /** `ClassificationObject(...)`: a track holding its first observation. */
    constructor (id: int, firstObjectName: string, firstObjectConf: real, firstTrajectory: Bbox,
                 firstFrame: int, frameWidth: int, frameHeight: int,
                 firstObjectColorsBgr: Option<seq<Bgr>>, firstObjectColorsHls: Option<seq<Hls>>,
                 firstObjectColorsStr: Option<seq<string>>,
                 thresholds: Thresholds, dist: (Point, Point) -> real)
      ensures Valid()
      ensures this.id == id && this.firstFrame == firstFrame
      ensures this.frameWidth == frameWidth && this.frameHeight == frameHeight
      ensures this.thresholds == thresholds && this.dist == dist
      ensures frames == [firstFrame] && occurences == 1
      ensures objectNames == [firstObjectName] && objectName == firstObjectName
      ensures objectConfs == [firstObjectConf]
      ensures trajectory == [firstTrajectory] && trajectoryCentroids == [Centroid(firstTrajectory)]
      ensures distance == 0.0 && staticDistance == 0.0 && isStatic
      ensures objectColorsBgr == (if firstObjectColorsBgr.Some? then [firstObjectColorsBgr.value] else [])
      ensures objectColorsHls == (if firstObjectColorsHls.Some? then [firstObjectColorsHls.value] else [])
      ensures objectColorsStr == (if firstObjectColorsStr.Some? then [firstObjectColorsStr.value] else [])
      ensures objectColorStr == []
    {
      this.id := id;
      this.firstFrame := firstFrame;
      this.frameWidth := frameWidth;
      this.frameHeight := frameHeight;
      this.thresholds := thresholds;
      this.dist := dist;
      frames := [firstFrame];
      objectNames := [firstObjectName];
      objectName := firstObjectName;
      objectConfs := [firstObjectConf];
      distance := 0.0;
      staticDistance := 0.0;
      isStatic := true;
      occurences := 1;
      trajectory := [firstTrajectory];
      trajectoryCentroids := [Centroid(firstTrajectory)];
      objectColorsBgr := if firstObjectColorsBgr.Some? then [firstObjectColorsBgr.value] else [];
      objectColorsHls := if firstObjectColorsHls.Some? then [firstObjectColorsHls.value] else [];
      objectColorsStr := if firstObjectColorsStr.Some? then [firstObjectColorsStr.value] else [];
      objectColorStr := [];
      new;
      assert Majority([firstObjectName]) in [firstObjectName];
    }

    /** `add_frame_number`: record the frame and count one more occurrence. */
    method AddFrameNumber(newFrameNumber: int)
      modifies this`frames, this`occurences
      ensures frames == old(frames) + [newFrameNumber]
      ensures occurences == old(occurences) + 1
    {
      frames := frames + [newFrameNumber];
      AddOccurence();
    }

    /** `add_object_name`: record the label and re-elect the majority label. */
    method AddObjectName(newObjectName: string)
      modifies this`objectNames, this`objectName
      ensures objectNames == old(objectNames) + [newObjectName]
      ensures objectName == Majority(objectNames)
    {
      objectNames := objectNames + [newObjectName];
      EditObjectName();
    }

    /** `edit_object_name`: the first entry of `Counter(object_names).most_common(1)`. */
    method EditObjectName()
      requires objectNames != []
      modifies this`objectName
      ensures objectName == Majority(objectNames)
    {
      var mostCommon := MostCommon(objectNames, 1);
      objectName := mostCommon[0];
    }

    /** `add_object_conf`: record the confidence of the label just recorded. */
    method AddObjectConf(newObjectConf: real)
      modifies this`objectConfs
      ensures objectConfs == old(objectConfs) + [newObjectConf]
    {
      objectConfs := objectConfs + [newObjectConf];
    }

    /** `add_trajectory`: record the box and, through its centroid, update the motion fields. */
    method AddTrajectory(newBboxCoordinates: Bbox)
      requires trajectoryCentroids != []
      modifies this`trajectory, this`trajectoryCentroids, this`distance, this`staticDistance, this`isStatic
      ensures trajectory == old(trajectory) + [newBboxCoordinates]
      ensures trajectoryCentroids == old(trajectoryCentroids) + [Centroid(newBboxCoordinates)]
      ensures distance == old(distance) + dist(old(trajectoryCentroids)[|old(trajectoryCentroids)| - 1],
                                                Centroid(newBboxCoordinates))
      ensures staticDistance == dist(trajectoryCentroids[0], Centroid(newBboxCoordinates))
      ensures isStatic == StaticPolicy(thresholds, staticDistance, distance)
    {
      trajectory := trajectory + [newBboxCoordinates];
      var centroidCoordinates := Centroid(newBboxCoordinates);
      AddTrajectoryCentroid(centroidCoordinates);
    }

    /** `add_trajectory_centroid`: record the centroid, then add the step and recompute the displacement. */
    method AddTrajectoryCentroid(newTrajectoryCentroid: Point)
      requires trajectoryCentroids != []
      modifies this`trajectoryCentroids, this`distance, this`staticDistance, this`isStatic
      ensures trajectoryCentroids == old(trajectoryCentroids) + [newTrajectoryCentroid]
      ensures distance == old(distance) + dist(old(trajectoryCentroids)[|old(trajectoryCentroids)| - 1],
                                                newTrajectoryCentroid)
      ensures staticDistance == dist(trajectoryCentroids[0], newTrajectoryCentroid)
      ensures isStatic == StaticPolicy(thresholds, staticDistance, distance)
    {
      trajectoryCentroids := trajectoryCentroids + [newTrajectoryCentroid];
      AddDistance();
      EditStaticDistance();
    }

    /** `add_occurence`. */
    method AddOccurence()
      modifies this`occurences
      ensures occurences == old(occurences) + 1
    {
      occurences := occurences + 1;
    }

    /** `add_distance`: add the step between the last two centroids to the running total. */
    method AddDistance()
      requires |trajectoryCentroids| >= 2
      modifies this`distance
      ensures distance == old(distance) + dist(trajectoryCentroids[|trajectoryCentroids| - 2],
                                                trajectoryCentroids[|trajectoryCentroids| - 1])
    {
      var previousCentroid := trajectoryCentroids[|trajectoryCentroids| - 2];
      var newCentroid := trajectoryCentroids[|trajectoryCentroids| - 1];
      var newDistance := dist(previousCentroid, newCentroid);
      distance := distance + newDistance;
    }

    /** `edit_static_distance`: replace the displacement by first-to-last, then re-decide `is_static`. */
    method EditStaticDistance()
      requires trajectoryCentroids != []
      modifies this`staticDistance, this`isStatic
      ensures staticDistance == dist(trajectoryCentroids[0], trajectoryCentroids[|trajectoryCentroids| - 1])
      ensures isStatic == StaticPolicy(thresholds, staticDistance, distance)
    {
      var firstCentroid := trajectoryCentroids[0];
      var lastCentroid := trajectoryCentroids[|trajectoryCentroids| - 1];
      staticDistance := dist(firstCentroid, lastCentroid);
      EditIsStatic();
    }

    /** `edit_is_static`. */
    method EditIsStatic()
      modifies this`isStatic
      ensures isStatic == StaticPolicy(thresholds, staticDistance, distance)
    {
      if staticDistance <= thresholds.minStaticDistance as real && distance >= thresholds.minDistance as real {
        isStatic := true;
      } else {
        isStatic := false;
      }
    }

    /** `add_object_colors_bgr`. */
    method AddObjectColorsBgr(newObjectColorsBgr: seq<Bgr>)
      modifies this`objectColorsBgr
      ensures objectColorsBgr == old(objectColorsBgr) + [newObjectColorsBgr]
    {
      objectColorsBgr := objectColorsBgr + [newObjectColorsBgr];
    }

    /** `add_object_colors_hls`. */
    method AddObjectColorsHls(newObjectColorsHls: seq<Hls>)
      modifies this`objectColorsHls
      ensures objectColorsHls == old(objectColorsHls) + [newObjectColorsHls]
    {
      objectColorsHls := objectColorsHls + [newObjectColorsHls];
    }

    /** `add_object_colors_str`: record the names and recompute the top three. */
    method AddObjectColorsStr(newObjectColorsStr: seq<string>)
      modifies this`objectColorsStr, this`objectColorStr
      ensures objectColorsStr == old(objectColorsStr) + [newObjectColorsStr]
      ensures objectColorStr == MostCommon(Flatten(objectColorsStr), ColorSummarySize)
    {
      objectColorsStr := objectColorsStr + [newObjectColorsStr];
      EditObjectColorStr();
    }

    /** `edit_object_color_str`: the three most common names over all recorded colour lists. */
    method EditObjectColorStr()
      modifies this`objectColorStr
      ensures objectColorStr == MostCommon(Flatten(objectColorsStr), ColorSummarySize)
    {
      var flattenedList := Flatten(objectColorsStr);
      var mostCommon := MostCommon(flattenedList, ColorSummarySize);
      objectColorStr := mostCommon;
    }
  }

  // ---------------------------------------------------------------- properties

  /** Appending one centroid adds exactly the step from the previous last centroid. */
  lemma PathLengthAppend(dist: (Point, Point) -> real, c: seq<Point>, p: Point)
    requires c != []
    ensures PathLength(dist, c + [p]) == PathLength(dist, c) + dist(c[|c| - 1], p)
  {
    assert (c + [p])[..|c|] == c;
  }

  lemma {:induction false} PathLengthFromFront(dist: (Point, Point) -> real, c: seq<Point>)
    requires |c| >= 2
    ensures PathLength(dist, c) == dist(c[0], c[1]) + PathLength(dist, c[1..])
  {
    if |c| > 2 {
      var init := c[..|c| - 1];
      PathLengthFromFront(dist, init);
      assert init[1..] == c[1..][..|c[1..]| - 1];
    } else {
      assert c[1..][..0] == [];
    }
  }

  /** The incremental total equals the sum of all consecutive steps recomputed from the full history. */
  lemma {:induction false} IncrementalEqualsBatch(dist: (Point, Point) -> real, c: seq<Point>)
    ensures PathLength(dist, c) == StepSum(dist, c)
  {
    if |c| >= 2 {
      PathLengthFromFront(dist, c);
      IncrementalEqualsBatch(dist, c[1..]);
    }
  }

  /** With a non-negative distance the running total never decreases as the history grows. */
  lemma {:induction false} PathLengthMonotone(dist: (Point, Point) -> real, c: seq<Point>, k: nat)
    requires IsDistance(dist)
    requires k <= |c|
    ensures PathLength(dist, c[..k]) <= PathLength(dist, c)
  {
    if k < |c| {
      var init := c[..|c| - 1];
      assert c[..k] == init[..k];
      PathLengthMonotone(dist, init, k);
      if |c| >= 2 {
        assert dist(c[|c| - 2], c[|c| - 1]) >= 0.0;
      }
    } else {
      assert c[..k] == c;
    }
  }

  /** A track whose centroids never move has travelled nothing. */
  lemma {:induction false} NoMovementNoDistance(dist: (Point, Point) -> real, c: seq<Point>)
    requires IsDistance(dist)
    requires forall i :: 0 <= i < |c| ==> c[i] == c[0]
    ensures PathLength(dist, c) == 0.0 && NetDisplacement(dist, c) == 0.0
  {
    if |c| >= 2 {
      var init := c[..|c| - 1];
      assert forall i :: 0 <= i < |init| ==> init[i] == init[0];
      NoMovementNoDistance(dist, init);
      assert c[|c| - 2] == c[|c| - 1];
    }
  }

  /** A track back at the centroid it started from has no net displacement, however far it went. */
  lemma ReturnedHasNoDisplacement(dist: (Point, Point) -> real, c: seq<Point>)
    requires IsDistance(dist) && c != [] && c[0] == c[|c| - 1]
    ensures NetDisplacement(dist, c) == 0.0
  {
  }

  /** The net displacement never exceeds the distance travelled (triangle inequality along the path). */
  lemma {:induction false} NetDisplacementAtMostPathLength(dist: (Point, Point) -> real, c: seq<Point>)
    requires IsDistance(dist)
    ensures NetDisplacement(dist, c) <= PathLength(dist, c)
  {
    if |c| >= 3 {
      var init := c[..|c| - 1];
      NetDisplacementAtMostPathLength(dist, init);
      assert dist(c[0], c[|c| - 1]) <= dist(c[0], c[|c| - 2]) + dist(c[|c| - 2], c[|c| - 1]);
    } else if |c| == 2 {
      assert c[..1] == [c[0]];
    }
  }

  /**
   * What `is_static` means for a valid track: a track is static either because it has been
   * seen once, or because it travelled at least `MIN_DISTANCE` while ending within
   * `MIN_STATIC_DISTANCE` of where it started; its displacement never exceeds its distance.
   */
  lemma StaticMeaning(o: ClassificationObject)
    requires o.Valid() && IsDistance(o.dist)
    ensures o.staticDistance <= o.distance
    ensures o.isStatic <==> (|o.frames| == 1 ||
                             (o.staticDistance <= o.thresholds.minStaticDistance as real &&
                              o.distance >= o.thresholds.minDistance as real))
  {
    NetDisplacementAtMostPathLength(o.dist, o.trajectoryCentroids);
  }

  /**
   * The literal static policy: a track observed at least twice that never moved is NOT
   * static when `MIN_DISTANCE` is positive, because it has not travelled `MIN_DISTANCE`.
   */
  lemma NeverMovedIsNotStatic(o: ClassificationObject)
    requires o.Valid() && IsDistance(o.dist)
    requires |o.trajectoryCentroids| >= 2
    requires forall i :: 0 <= i < |o.trajectoryCentroids| ==> o.trajectoryCentroids[i] == o.trajectoryCentroids[0]
    requires o.thresholds.minDistance > 0
    ensures o.distance == 0.0 && o.staticDistance == 0.0 && !o.isStatic
  {
    NoMovementNoDistance(o.dist, o.trajectoryCentroids);
  }

  lemma CountsOfPairs(s: seq<string>, a: string, b: string)
    requires a != b && s == [b, a, a, b]
    ensures Count(s, a) == 2 && Count(s, b) == 2
  {
    assert multiset(s) == multiset{b, a, a, b};
  }

  /**
   * The majority label breaks ties by first occurrence, not by which label reached the
   * maximal count first: in `[b, a, a, b]` label `a` reaches two first, yet `b`, seen first, wins.
   */
  lemma MajorityTieGoesToFirstSeen(s: seq<string>, a: string, b: string)
    requires a != b && s == [b, a, a, b]
    ensures Majority(s) == b
  {
    CountsOfPairs(s, a, b);
    MajorityIsFirstMode(s);
    var winner := Majority(s);
    assert winner == a || winner == b;
    assert Count(s, s[0]) == Count(s, winner);
    assert FirstIndex(s, winner) == 0;
  }
}

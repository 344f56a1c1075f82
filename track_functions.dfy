/**
 * utils/ClassificationObjectFunctions.py: creating a track, finding a track by id in the
 * list of tracks, and recording one more observation on the track that has that id.
 */
module TrackFunctions {
  import opened Wrappers
  import opened Geometry
  import opened Counting
  import opened ColorDetector
  import opened Track

  /** The position of the first track in `list` whose id is `targetId`, if any. */
  function IndexOfId(list: seq<ClassificationObject>, targetId: int): (r: Option<nat>)
    ensures r.Some? ==> r.value < |list| && list[r.value].id == targetId
    ensures r.Some? ==> forall j :: 0 <= j < r.value ==> list[j].id != targetId
    ensures r.None? <==> forall j :: 0 <= j < |list| ==> list[j].id != targetId
  {
    if list == [] then None
    else if list[0].id == targetId then Some(0)
    else
      match IndexOfId(list[1..], targetId)
      case None => None
      case Some(k) => Some(k + 1)
  }

  /** `[x] if x is not None else []`. */
  function AsList<T>(x: Option<T>): seq<T> {
    if x.Some? then [x.value] else []
  }

  /** `create_classification_object`: a fresh track holding its first observation. */
  method CreateClassificationObject(id: int, firstObjectName: string, firstObjectConf: real, firstTrajectory: Bbox,
                                    firstFrame: int, frameWidth: int, frameHeight: int,
                                    firstColorsBgr: Option<seq<Bgr>>, firstColorsHls: Option<seq<Hls>>,
                                    firstColorsStr: Option<seq<string>>,
                                    thresholds: Thresholds, dist: (Point, Point) -> real)
    returns (detectedObject: ClassificationObject)
    ensures fresh(detectedObject) && detectedObject.Valid()
    ensures detectedObject.id == id && detectedObject.firstFrame == firstFrame
    ensures detectedObject.frameWidth == frameWidth && detectedObject.frameHeight == frameHeight
    ensures detectedObject.thresholds == thresholds && detectedObject.dist == dist
    ensures detectedObject.frames == [firstFrame]
    ensures detectedObject.objectNames == [firstObjectName]
    ensures detectedObject.objectConfs == [firstObjectConf]
    ensures detectedObject.trajectory == [firstTrajectory]
    ensures detectedObject.objectColorsBgr == AsList(firstColorsBgr)
    ensures detectedObject.objectColorsHls == AsList(firstColorsHls)
    ensures detectedObject.objectColorsStr == AsList(firstColorsStr)
    ensures detectedObject.objectColorStr == []
  {
    detectedObject := new ClassificationObject(id, firstObjectName, firstObjectConf, firstTrajectory, firstFrame,
                                               frameWidth, frameHeight, firstColorsBgr, firstColorsHls, firstColorsStr,
                                               thresholds, dist);
  }

  /**
   * `find_classification_object`: the first track with the target id. When there is none the
   * source builds a `ValueError` without raising it and so returns `None`.
   */
  method FindClassificationObject(classificationObjectList: seq<ClassificationObject>, targetId: int)
    returns (r: Option<ClassificationObject>)
    ensures IndexOfId(classificationObjectList, targetId).None? ==> r.None?
    ensures IndexOfId(classificationObjectList, targetId).Some? ==>
              r == Some(classificationObjectList[IndexOfId(classificationObjectList, targetId).value])
  {
    for i := 0 to |classificationObjectList|
      invariant forall j :: 0 <= j < i ==> classificationObjectList[j].id != targetId
    {
      var obj := classificationObjectList[i];
      if obj.id == targetId {
        return Some(obj);
      }
    }
    return None;
  }

  /** Finding a track is total: `None` exactly when no track has the id, else a track with that id. */
  lemma FindMeaning(list: seq<ClassificationObject>, targetId: int)
    ensures IndexOfId(list, targetId).None? <==> forall o :: o in list ==> o.id != targetId
    ensures IndexOfId(list, targetId).Some? ==> list[IndexOfId(list, targetId).value] in list
  {
    if IndexOfId(list, targetId).None? {
      forall o | o in list ensures o.id != targetId {
        var j :| 0 <= j < |list| && list[j] == o;
      }
    }
  }

  /** The appends of `edit_classification_object` for the detection itself; they keep the track valid. */
  method RecordDetection(o: ClassificationObject, objectName: string, objectConf: real, trajectory: Bbox, frameNumber: int)
    requires o.ValidDetections()
    modifies o`objectNames, o`objectName, o`objectConfs, o`trajectory, o`trajectoryCentroids, o`distance,
             o`staticDistance, o`isStatic, o`frames, o`occurences
    ensures o.ValidDetections()
    ensures o.frames == old(o.frames) + [frameNumber]
    ensures o.objectNames == old(o.objectNames) + [objectName]
    ensures o.objectConfs == old(o.objectConfs) + [objectConf]
    ensures o.trajectory == old(o.trajectory) + [trajectory]
  {
    ghost var centroids := o.trajectoryCentroids;
    o.AddObjectName(objectName);
    o.AddObjectConf(objectConf);
    o.AddTrajectory(trajectory);
    o.AddFrameNumber(frameNumber);
    PathLengthAppend(o.dist, centroids, Centroid(trajectory));
  }

  /** The appends of `edit_classification_object` for the colour centres and HLS values that are given. */
  method RecordColorValues(o: ClassificationObject, colorsBgr: Option<seq<Bgr>>, colorsHls: Option<seq<Hls>>)
    modifies o`objectColorsBgr, o`objectColorsHls
    ensures o.objectColorsBgr == old(o.objectColorsBgr) + AsList(colorsBgr)
    ensures o.objectColorsHls == old(o.objectColorsHls) + AsList(colorsHls)
  {
    if colorsBgr.Some? {
      o.AddObjectColorsBgr(colorsBgr.value);
    }
    if colorsHls.Some? {
      o.AddObjectColorsHls(colorsHls.value);
    }
  }

  /** The append of `edit_classification_object` for the colour names, if given; the track stays valid. */
  method RecordColorNames(o: ClassificationObject, colorsStr: Option<seq<string>>)
    requires o.ColorSummaryCurrent()
    modifies o`objectColorsStr, o`objectColorStr
    ensures o.ColorSummaryCurrent()
    ensures o.objectColorsStr == old(o.objectColorsStr) + AsList(colorsStr)
    ensures colorsStr.None? ==> o.objectColorStr == old(o.objectColorStr)
    ensures colorsStr.Some? ==> o.objectColorStr == MostCommon(Flatten(o.objectColorsStr), ColorSummarySize)
  {
    if colorsStr.Some? {
      o.AddObjectColorsStr(colorsStr.value);
    }
  }

  /** The appends of `edit_classification_object` for the colour lists that are given; the track stays valid. */
  method RecordColors(o: ClassificationObject, colorsBgr: Option<seq<Bgr>>, colorsHls: Option<seq<Hls>>,
                      colorsStr: Option<seq<string>>)
    requires o.ColorSummaryCurrent()
    modifies o`objectColorsBgr, o`objectColorsHls, o`objectColorsStr, o`objectColorStr
    ensures o.ColorSummaryCurrent()
    ensures o.objectColorsBgr == old(o.objectColorsBgr) + AsList(colorsBgr)
    ensures o.objectColorsHls == old(o.objectColorsHls) + AsList(colorsHls)
    ensures o.objectColorsStr == old(o.objectColorsStr) + AsList(colorsStr)
    ensures colorsStr.None? ==> o.objectColorStr == old(o.objectColorStr)
    ensures colorsStr.Some? ==> o.objectColorStr == MostCommon(Flatten(o.objectColorsStr), ColorSummarySize)
  {
    RecordColorValues(o, colorsBgr, colorsHls);
    RecordColorNames(o, colorsStr);
  }

  /** Everything `edit_classification_object` appends to the track it found; the track stays valid. */
  method RecordObservation(o: ClassificationObject, objectName: string, objectConf: real, trajectory: Bbox,
                           frameNumber: int, colorsBgr: Option<seq<Bgr>>, colorsHls: Option<seq<Hls>>,
                           colorsStr: Option<seq<string>>)
    requires o.Valid()
    modifies o
    ensures o.Valid()
    ensures o.frames == old(o.frames) + [frameNumber]
    ensures o.objectNames == old(o.objectNames) + [objectName]
    ensures o.objectConfs == old(o.objectConfs) + [objectConf]
    ensures o.trajectory == old(o.trajectory) + [trajectory]
    ensures o.objectColorsBgr == old(o.objectColorsBgr) + AsList(colorsBgr)
    ensures o.objectColorsHls == old(o.objectColorsHls) + AsList(colorsHls)
    ensures o.objectColorsStr == old(o.objectColorsStr) + AsList(colorsStr)
    ensures colorsStr.None? ==> o.objectColorStr == old(o.objectColorStr)
    ensures colorsStr.Some? ==> o.objectColorStr == MostCommon(Flatten(o.objectColorsStr), ColorSummarySize)
  {
    RecordDetection(o, objectName, objectConf, trajectory, frameNumber);
    RecordColors(o, colorsBgr, colorsHls, colorsStr);
  }

  /**
   * `edit_classification_object`: append the label, confidence, box and frame number to the
   * first track with the id and, for each colour list that is given, append it too.
   * The source dereferences the `None` that a missing id yields and fails; the model
   * reports that case as `found == false` and changes nothing.
   */
  method EditClassificationObject(id: int, objectName: string, objectConf: real, trajectory: Bbox, frameNumber: int,
                                  classificationObjectList: seq<ClassificationObject>,
                                  colorsBgr: Option<seq<Bgr>>, colorsHls: Option<seq<Hls>>, colorsStr: Option<seq<string>>)
    returns (found: bool)
    requires forall o :: o in classificationObjectList && o.id == id ==> o.Valid()
    modifies set o | o in classificationObjectList && o.id == id
    ensures found <==> IndexOfId(classificationObjectList, id).Some?
    ensures found ==>
              var o := classificationObjectList[IndexOfId(classificationObjectList, id).value];
              && o.Valid()
              && o.frames == old(o.frames) + [frameNumber]
              && o.objectNames == old(o.objectNames) + [objectName]
              && o.objectConfs == old(o.objectConfs) + [objectConf]
              && o.trajectory == old(o.trajectory) + [trajectory]
              && o.objectColorsBgr == old(o.objectColorsBgr) + AsList(colorsBgr)
              && o.objectColorsHls == old(o.objectColorsHls) + AsList(colorsHls)
              && o.objectColorsStr == old(o.objectColorsStr) + AsList(colorsStr)
              && (colorsStr.None? ==> o.objectColorStr == old(o.objectColorStr))
              && (colorsStr.Some? ==> o.objectColorStr == MostCommon(Flatten(o.objectColorsStr), ColorSummarySize))
    ensures found ==>
              forall o :: o in classificationObjectList && o != classificationObjectList[IndexOfId(classificationObjectList, id).value]
                ==> unchanged(o)
    ensures !found ==> unchanged(set o | o in classificationObjectList)
  {
    var classificationObject := FindClassificationObject(classificationObjectList, id);
    if classificationObject.None? {
      return false;
    }
    RecordObservation(classificationObject.value, objectName, objectConf, trajectory, frameNumber,
                      colorsBgr, colorsHls, colorsStr);
    found := true;
  }
}

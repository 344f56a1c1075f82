/**
 * utils/ReturnObject.py: the report that lists the kept tracks. The report is the dict
 * `{'operation': 'classify', 'data': {'objectCount': ..., 'properties': [...], 'details': [...]}}`;
 * its `properties` and `details` are the very lists the object holds, so the model keeps
 * one field for each and a field for the dict's `objectCount` entry.
 */
module ReturnObject {
  import opened Wrappers
  import opened Geometry
  import opened ColorDetector
  import opened Track

  // ---------------------------------------------------------------- str(int)

  /** The decimal digit for `d`. */
  function DigitChar(d: nat): (c: char)
    requires d < 10
    ensures '0' <= c <= '9'
  {
    (48 + d) as char
  }

  /** The decimal numeral of `n`, without leading zeros. */
  function NatToString(n: nat): string
    decreases n
  {
    if n < 10 then [DigitChar(n)] else NatToString(n / 10) + [DigitChar(n % 10)]
  }

  /** A numeral is a non-empty string of decimal digits. */
  lemma {:induction false} NatToStringDigits(n: nat)
    ensures |NatToString(n)| >= 1
    ensures forall i :: 0 <= i < |NatToString(n)| ==> '0' <= NatToString(n)[i] <= '9'
    decreases n
  {
    if n >= 10 {
      NatToStringDigits(n / 10);
    }
  }

  /** Python's `str(n)` on an int: a minus sign for negative values, then the decimal numeral. */
  function IntToString(n: int): (r: string)
    ensures |r| >= 1 && (r[0] == '-' <==> n < 0)
    ensures forall i :: (if n < 0 then 1 else 0) <= i < |r| ==> '0' <= r[i] <= '9'
  {
    NatToStringDigits(if n < 0 then -n else n);
    if n < 0 then "-" + NatToString(-n) else NatToString(n)
  }

  /** The value of a non-empty string of decimal digits; `None` if it is empty or holds anything else. */
  function DigitsValue(s: string): Option<nat> {
    if s == [] then None
    else
      var last := s[|s| - 1];
      if !('0' <= last <= '9') then None
      else if |s| == 1 then Some(last as int - 48)
      else
        match DigitsValue(s[..|s| - 1])
        case None => None
        case Some(v) => Some(10 * v + (last as int - 48))
  }

  /** Python's `int(s)` on a decimal numeral with an optional minus sign; `None` where it would raise. */
  function ParseInt(s: string): Option<int> {
    if |s| > 0 && s[0] == '-' then
      match DigitsValue(s[1..])
      case None => None
      case Some(v) => Some(-(v as int))
    else
      match DigitsValue(s)
      case None => None
      case Some(v) => Some(v)
  }

  /** Reading a numeral back gives the number it was written from. */
  lemma {:induction false} NatToStringRoundTrip(n: nat)
    ensures DigitsValue(NatToString(n)) == Some(n)
    decreases n
  {
    if n >= 10 {
      var s := NatToString(n);
      NatToStringDigits(n / 10);
      assert s[..|s| - 1] == NatToString(n / 10);
      NatToStringRoundTrip(n / 10);
    }
  }

  /** `int(str(n)) == n`. */
  lemma IntToStringRoundTrip(n: int)
    ensures ParseInt(IntToString(n)) == Some(n)
  {
    var s := IntToString(n);
    if n < 0 {
      NatToStringRoundTrip(-n);
      assert s[0] == '-' && s[1..] == NatToString(-n);
      assert DigitsValue(s[1..]) == Some(-n);
    } else {
      NatToStringDigits(n);
      NatToStringRoundTrip(n);
      assert s[0] != '-' && DigitsValue(s) == Some(n);
    }
  }

  /** Distinct track ids give distinct `'id'` strings in the report. */
  lemma IntToStringInjective(a: int, b: int)
    ensures IntToString(a) == IntToString(b) <==> a == b
  {
    IntToStringRoundTrip(a);
    IntToStringRoundTrip(b);
  }

  // ---------------------------------------------------------------- report entries

  /** One `details_dict`: the entry the report holds for one track. */
  datatype Detail = Detail(
    id: string,
    classified: string,
    distance: real,
    staticDistance: real,
    isStatic: bool,
    frameWidth: int,
    frameHeight: int,
    frame: int,
    frames: seq<int>,
    occurence: int,
    traject: seq<Bbox>,
    trajectCentroids: seq<Point>,
    colorsBgr: seq<seq<Bgr>>,
    colorsHls: seq<seq<Hls>>,
    colorsStr: seq<seq<string>>,
    colorStr: seq<string>,
    valid: bool,
    w: int,
    x: int,
    y: int)

  /**
   * The entry for `detObj` as it is when it is added. The legacy fields `valid`, `w`, `x`
   * and `y` are the constants the track's constructor sets and nothing changes.
   */
  function DetailOf(detObj: ClassificationObject): (d: Detail)
    reads detObj
    ensures d.valid && d.w == 0 && d.x == 0 && d.y == 0
  {
    Detail(IntToString(detObj.id), detObj.objectName, detObj.distance, detObj.staticDistance, detObj.isStatic,
           detObj.frameWidth, detObj.frameHeight, detObj.firstFrame, detObj.frames, detObj.occurences,
           detObj.trajectory, detObj.trajectoryCentroids, detObj.objectColorsBgr, detObj.objectColorsHls,
           detObj.objectColorsStr, detObj.objectColorStr, true, 0, 0, 0)
  }

  /** The `'id'` string of an entry reads back as its track's id. */
  lemma DetailIdRoundTrip(detObj: ClassificationObject)
    ensures ParseInt(DetailOf(detObj).id) == Some(detObj.id)
  {
    IntToStringRoundTrip(detObj.id);
  }

  /** The entries for a list of tracks, in list order. */
  function DetailsOf(detObjList: seq<ClassificationObject>): seq<Detail>
    reads detObjList
  {
    if detObjList == [] then []
    else DetailsOf(detObjList[..|detObjList| - 1]) + [DetailOf(detObjList[|detObjList| - 1])]
  }

  /** The labels of a list of tracks, in list order. */
  function NamesOf(detObjList: seq<ClassificationObject>): seq<string>
    reads detObjList
  {
    if detObjList == [] then []
    else NamesOf(detObjList[..|detObjList| - 1]) + [detObjList[|detObjList| - 1].objectName]
  }

  /** The entries of a list of tracks correspond one to one, in order, to the tracks. */
  lemma {:induction false} DetailsOfTracks(detObjList: seq<ClassificationObject>)
    ensures |DetailsOf(detObjList)| == |NamesOf(detObjList)| == |detObjList|
    ensures forall i :: 0 <= i < |detObjList| ==>
              DetailsOf(detObjList)[i] == DetailOf(detObjList[i]) && NamesOf(detObjList)[i] == detObjList[i].objectName
  {
    if detObjList != [] {
      var init := detObjList[..|detObjList| - 1];
      DetailsOfTracks(init);
      assert forall i :: 0 <= i < |init| ==> detObjList[i] == init[i];
    }
  }

  /** One more track adds its own label and its own entry at the end. */
  lemma EntriesAppend(detObjList: seq<ClassificationObject>, detObj: ClassificationObject)
    ensures NamesOf(detObjList + [detObj]) == NamesOf(detObjList) + [detObj.objectName]
    ensures DetailsOf(detObjList + [detObj]) == DetailsOf(detObjList) + [DetailOf(detObj)]
  {
    assert (detObjList + [detObj])[..|detObjList|] == detObjList;
  }

  /** `ReturnJSON`: the report under construction. */
  class ReturnJSON {
    const operation: string
    var objectCount: int
    var properties: seq<string>
    var details: seq<Detail>

    /** The count and the two lists stay in lock-step, and each label is its entry's `'classified'`. */
    ghost predicate Valid()
      reads this
    {
      && operation == "classify"
      && objectCount == |details|
      && |properties| == |details|
      && forall i :: 0 <= i < |details| ==> properties[i] == details[i].classified
    }

    /** `ReturnJSON()`: an empty `classify` report. */
    constructor ()
      ensures Valid()
      ensures operation == "classify" && objectCount == 0 && properties == [] && details == []
    {
      operation := "classify";
      objectCount := 0;
      properties := [];
      details := [];
    }

    /** `add_detected_object`: count the track and append its label and its entry. */
    method AddDetectedObject(detObj: ClassificationObject)
      requires Valid()
      modifies this
      ensures Valid()
      ensures objectCount == old(objectCount) + 1
      ensures properties == old(properties) + [detObj.objectName]
      ensures details == old(details) + [DetailOf(detObj)]
    {
      objectCount := objectCount + 1;
      properties := properties + [detObj.objectName];
      var detailsDict := DetailOf(detObj);
      details := details + [detailsDict];
    }

    /** `batch_add_detected_object`: `add_detected_object` on each track in list order. */
    method BatchAddDetectedObject(detObjList: seq<ClassificationObject>)
      requires Valid()
      modifies this
      ensures Valid()
      ensures objectCount == old(objectCount) + |detObjList|
      ensures properties == old(properties) + old(NamesOf(detObjList))
      ensures details == old(details) + old(DetailsOf(detObjList))
    {
      for i := 0 to |detObjList|
        invariant Valid()
        invariant objectCount == old(objectCount) + i
        invariant properties == old(properties) + old(NamesOf(detObjList[..i]))
        invariant details == old(details) + old(DetailsOf(detObjList[..i]))
      {
        assert detObjList[..i + 1][..i] == detObjList[..i];
        AddDetectedObject(detObjList[i]);
      }
      assert detObjList[..|detObjList|] == detObjList;
    }
  }
}

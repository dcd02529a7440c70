/** `YoloDetectionObject` of AI/YoloDetectionObject.py: one detection read from
    a list `label, x_center, y_center, width, height, confidence`. */
module YoloDetection {
  import opened Wrappers
  import opened Python

  datatype YoloDetectionObject = YoloDetectionObject(
    objectName: string,
    xCenter: string,
    yCenter: string,
    width: string,
    height: string,
    confidence: string)

  /** The six fields in list order. */
  function ToList(o: YoloDetectionObject): (r: seq<string>)
    ensures |r| == 6
  {
    [o.objectName, o.xCenter, o.yCenter, o.width, o.height, o.confidence]
  }

  /** The constructor: elements 0 to 5 become the fields in order; a list of
      fewer than six elements raises IndexError; extra elements are ignored. */
  function FromList(asList: seq<string>): (r: Result<YoloDetectionObject, Exception>)
    ensures r.Ok? <==> |asList| >= 6
    ensures r.Err? ==> r.error == IndexError
    ensures r.Ok? ==> ToList(r.value) == asList[..6]
  {
    if |asList| < 6 then Err(IndexError)
    else Ok(YoloDetectionObject(asList[0], asList[1], asList[2], asList[3], asList[4], asList[5]))
  }

  /** Building from a detection's own list gives the detection back. */
  lemma FromListToList(o: YoloDetectionObject)
    ensures FromList(ToList(o)) == Ok(o)
  {
  }

  /** Detections built from lists that agree on their first six elements are equal. */
  lemma FromListPrefix(a: seq<string>, b: seq<string>)
    requires |a| >= 6 && |b| >= 6 && a[..6] == b[..6]
    ensures FromList(a) == FromList(b)
  {
    assert a[0] == a[..6][0] && b[0] == b[..6][0];
    assert a[5] == a[..6][5] && b[5] == b[..6][5];
  }

  /** `__str__`: the label and nothing else. */
  function Str(o: YoloDetectionObject): (r: string)
    ensures r == ToList(o)[0]
  {
    o.objectName
  }

  /** `__repr__`, which delegates to `__str__`. */
  function Repr(o: YoloDetectionObject): (r: string)
    ensures r == Str(o)
  {
    Str(o)
  }

  /** The text of a detection built from a list is that list's label. */
  lemma StrOfList(asList: seq<string>)
    requires |asList| >= 6
    ensures FromList(asList).Ok? && Str(FromList(asList).value) == asList[0]
    ensures Repr(FromList(asList).value) == asList[0]
  {
  }
}

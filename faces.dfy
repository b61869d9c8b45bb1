/**
 * The `Faces` intent: show the recent alarm frames of one camera in which
 * the face recogniser (or, for the dog, the object detector) labelled the
 * named individual.
 */
module Faces {
  import opened Wrappers
  import opened AlarmFetch
  import opened NameMaps

  /** How many alarm frames `Faces` asks for. */
  const NUM_FACE_ALARMS := 10

  /** The two JavaScript values an intent slot can hold here. */
  datatype JsValue = Undefined | Str(s: string)

  /** `typeof`, which yields a string: "undefined" for an absent slot. */
  function TypeOf(v: Option<string>): JsValue {
    if v.None? then Str("undefined") else Str("string")
  }

  /** What the slot checks let through. */
  datatype SlotVerdict = Proceed(cameraName: string, faceName: string) | Rejected | ThrowsTypeError

  /**
   * The slot checks as written: the camera test compares the string `typeof`
   * yields with the value `undefined`, which never holds, so an absent
   * camera slot passes it and the later `cameraName.toLowerCase()` throws.
   */
  function SlotCheckAsWritten(cameraName: Option<string>, faceName: Option<string>): (r: SlotVerdict)
    ensures r == Rejected <==> faceName.None?
    ensures r == ThrowsTypeError <==> cameraName.None? && faceName.Some?
  {
    if TypeOf(cameraName) == Undefined then Rejected
    else if TypeOf(faceName) == Str("undefined") then Rejected
    else if cameraName.None? then ThrowsTypeError
    else Proceed(cameraName.value, faceName.value)
  }

  /** A request with a face name and no camera name makes the handler throw. */
  lemma AbsentCameraSlotThrows()
    ensures SlotCheckAsWritten(None, Some("bob")) == ThrowsTypeError
  {
  }

  /** The slot checks as intended: either absent slot gets the apology. */
  function SlotCheck(cameraName: Option<string>, faceName: Option<string>): (r: SlotVerdict)
    ensures r != ThrowsTypeError
    ensures r == Rejected <==> cameraName.None? || faceName.None?
    ensures r.Proceed? ==> r == Proceed(cameraName.value, faceName.value)
  {
    if TypeOf(cameraName) == Str("undefined") then Rejected
    else if TypeOf(faceName) == Str("undefined") then Rejected
    else Proceed(cameraName.value, faceName.value)
  }

  /** The labels to filter on for a database name, and the name the reply speaks. */
  datatype FaceSearch = FaceSearch(findFaceName: Option<string>, findObjectName: Option<string>, spokenName: string)

  /**
   * The choice between the face and the object filter: "dog" is searched as
   * an object label, every other database name (an unrecognised name maps to
   * "Unknown") as a face label, and an unknown face is spoken of as
   * "stranger".
   */
  function ChooseSearch(databaseName: string, faceName: string): (r: FaceSearch)
    ensures r.findFaceName.Some? != r.findObjectName.Some?
    ensures r.findObjectName.Some? <==> databaseName == "dog"
    ensures r.spokenName == if databaseName == "Unknown" then "stranger" else faceName
  {
    if databaseName == "Unknown" then FaceSearch(Some(databaseName), None, "stranger")
    else if databaseName == "dog" then FaceSearch(None, Some(databaseName), faceName)
    else FaceSearch(Some(databaseName), None, faceName)
  }

  /**
   * Whichever filter is chosen, the query keeps exactly the alerted frames
   * whose labels include the database name.
   */
  lemma SearchKeepsFramesLabelledWith(zoneminderCameraName: string, databaseName: string, faceName: string)
    ensures var search := ChooseSearch(databaseName, faceName);
      var q := BuildQuery(zoneminderCameraName, search.findFaceName, search.findObjectName);
      forall alert: string, labels: seq<string> ::
        Holds(q.filter, q.expressionAttributeValues, alert, labels) <==> alert == "true" && databaseName in labels
  {
  }

  datatype FacesOutcome =
    | NeedDisplay        // "Sorry, I need a display to do that."
    | CannotComplete     // an absent slot, or the query failed
    | BadCameraName
    | NoAlarmsFound
    | FaceAlarms(cameraName: string, spokenName: string, items: seq<AlarmRecord>)

  /**
   * `Faces`, with the intended slot checks: the display check, the slot
   * checks, the camera lookup, then at most ten frames of that camera from
   * the query whose filter keeps alerted frames labelled with the database
   * name of the spoken face.
   */
  method HandleFaces(hasDisplay: bool, location: Option<string>, name: Option<string>,
                     cameras: seq<CameraConfig>, faces: seq<FaceConfig>, table: QueryParams -> Store)
    returns (o: FacesOutcome)
    ensures !hasDisplay ==> o == NeedDisplay
    ensures hasDisplay && (location.None? || name.None?) ==> o == CannotComplete
    ensures hasDisplay && location.Some? && name.Some? ==>
      var zoneminderCameraName := CameraFor(ToLowerCase(location.value), cameras);
      var search := ChooseSearch(FaceFor(ToLowerCase(name.value), faces), name.value);
      var fetched := Fetched(table(BuildQuery(zoneminderCameraName, search.findFaceName, search.findObjectName)),
                             NUM_FACE_ALARMS);
      o == if zoneminderCameraName == "" then BadCameraName
           else if fetched.Err? then CannotComplete
           else if fetched.value == [] then NoAlarmsFound
           else FaceAlarms(location.value, search.spokenName, fetched.value)
  {
    if !hasDisplay {
      return NeedDisplay;
    }
    var slots := SlotCheck(location, name);
    if slots.Rejected? {
      return CannotComplete;
    }
    var cameraName, faceName := slots.cameraName, slots.faceName;
    var zoneminderCameraName := AlexaCameraToZoneminderCamera(ToLowerCase(cameraName), cameras);
    if zoneminderCameraName == "" {
      return BadCameraName;
    }
    var databaseName := AlexaFaceNameToDatabaseName(ToLowerCase(faceName), faces);
    var search := ChooseSearch(databaseName, faceName);
    var data, _ := FindLatestAlarms(zoneminderCameraName, search.findFaceName, search.findObjectName,
                                    NUM_FACE_ALARMS, table);
    if data.Err? {
      return CannotComplete;
    }
    if |data.value| == 0 {
      return NoAlarmsFound;
    }
    o := FaceAlarms(cameraName, search.spokenName, data.value);
  }
}

/**
 * The `AlarmClip` intent: choose the event and the frame range of the video
 * clip the CGI helper `gen-vid.py` renders, either around the alarm the
 * previous answer showed (kept in the session) or around the latest alarm
 * of the named camera.
 */
module AlarmClip {
  import opened Wrappers
  import opened AlarmFetch
  import opened NameMaps

  /** Frames shown before and after the session's alarm frame. */
  const IN_SESSION_PRE_FRAMES := 100
  const IN_SESSION_POST_FRAMES := 100
  /** How many of the camera's latest alarm frames are searched for the event's first frame. */
  const NUM_RECORDS_TO_QUERY := 100
  /** Frames of padding at each end of a clip found by query, and the longest clip. */
  const CLIP_PADDING := 20
  const MAX_CLIP_FRAMES := 500

  /** What a previous `LastAlarm` answer left in the session. */
  datatype SessionAlarm = SessionAlarm(zmEventId: int, zmEventDateTime: int, zmFrameId: int)

  /** The request to `gen-vid.py`: `event`, `start_frame` and `end_frame`. */
  datatype ClipRequest = ClipRequest(event: int, startFrame: int, endFrame: int)

  datatype ClipOutcome =
    | BadCameraName      // "Sorry, I cannot find that camera name."
    | CannotComplete     // the query failed
    | NoAlarmsFound      // "No alarms were found."
    | CannotPlayVideo    // no display on this device
    | PlayClip(request: ClipRequest)

  /**
   * The clip around the session's alarm: from 100 frames before it (but not
   * before frame 0) to 100 frames after it, so at most 200 frames long and,
   * for a real frame number, containing it.
   */
  function SessionClip(alarm: SessionAlarm): (r: ClipRequest)
    ensures r.endFrame - r.startFrame <= IN_SESSION_PRE_FRAMES + IN_SESSION_POST_FRAMES
    ensures alarm.zmFrameId >= 0 ==> 0 <= r.startFrame <= alarm.zmFrameId < r.endFrame
  {
    ClipRequest(alarm.zmEventId, Max(0, alarm.zmFrameId - IN_SESSION_PRE_FRAMES),
                alarm.zmFrameId + IN_SESSION_POST_FRAMES)
  }

  /** The in-session branch of `AlarmClip`, which starts at frame 0 and moves the start up. */
  method InSessionRange(alarm: SessionAlarm) returns (request: ClipRequest)
    ensures request == SessionClip(alarm)
  {
    var lastEvent := alarm.zmEventId;
    var lastFrame := alarm.zmFrameId;
    var startFrame := 0;
    if lastFrame > IN_SESSION_PRE_FRAMES {
      startFrame := lastFrame - IN_SESSION_PRE_FRAMES;
    }
    var endFrame := lastFrame + IN_SESSION_POST_FRAMES;
    request := ClipRequest(lastEvent, startFrame, endFrame);
  }

  /**
   * The `forEach` that finds the first frame of the latest event: the frame
   * of the last record (in the newest-first order of the query) that belongs
   * to `lastEvent`, or 0 when none does.
   */
  method FirstFrameOfEvent(data: seq<AlarmRecord>, lastEvent: int) returns (startFrame: int)
    ensures (forall i | 0 <= i < |data| :: data[i].eventId != lastEvent) ==> startFrame == 0
    ensures forall i | 0 <= i < |data| && data[i].eventId == lastEvent ::
      exists k | i <= k < |data| ::
        && data[k].eventId == lastEvent
        && startFrame == data[k].frameId
        && forall j | k < j < |data| :: data[j].eventId != lastEvent
  {
    startFrame := 0;
    ghost var last := -1;
    for n := 0 to |data|
      invariant -1 <= last < n
      invariant last == -1 ==> startFrame == 0 && forall i | 0 <= i < n :: data[i].eventId != lastEvent
      invariant last >= 0 ==>
        && data[last].eventId == lastEvent
        && startFrame == data[last].frameId
        && forall j | last < j < n :: data[j].eventId != lastEvent
    {
      if data[n].eventId == lastEvent {
        startFrame := data[n].frameId;
        last := n;
      }
    }
  }

  /** A range of frames of one event. */
  datatype FrameRange = FrameRange(start: int, end: int)

  /**
   * The padding and the limit applied to a range found by query: the start
   * moves 20 frames earlier but never below 0; the end moves 20 frames
   * later, or doubles when it is under 20; and the clip is cut to at most
   * 500 frames after the new start.  A range that was well formed stays so.
   */
  function PaddedRange(startFrame: int, endFrame: int): (r: FrameRange)
    ensures r.end - r.start <= MAX_CLIP_FRAMES
    ensures 0 <= endFrame && startFrame <= endFrame ==> 0 <= r.start <= r.end
  {
    var start := Max(0, startFrame - CLIP_PADDING);
    var padded := if endFrame < CLIP_PADDING then 2 * endFrame else endFrame + CLIP_PADDING;
    FrameRange(start, Min(padded, start + MAX_CLIP_FRAMES))
  }

  /**
   * The reassignments of `startFrame` and `endFrame` in `AlarmClip`:
   * `startFrame -= startFrame` is how the code sets a start under 20 to 0.
   */
  method PadAndLimit(startFrame: int, endFrame: int) returns (start: int, end: int)
    ensures FrameRange(start, end) == PaddedRange(startFrame, endFrame)
  {
    start, end := startFrame, endFrame;
    if start < CLIP_PADDING {
      start := start - start;
    } else {
      start := start - CLIP_PADDING;
    }
    if end < CLIP_PADDING {
      end := end + end;
    } else {
      end := end + CLIP_PADDING;
    }
    if end - start > MAX_CLIP_FRAMES {
      end := start + MAX_CLIP_FRAMES;
    }
  }

  /** The request made from the query's newest-first records, which are not empty. */
  method ClipFromAlarms(data: seq<AlarmRecord>) returns (request: ClipRequest)
    requires |data| > 0
    ensures request.event == data[0].eventId
    ensures exists k | 0 <= k < |data| ::
      && data[k].eventId == data[0].eventId
      && FrameRange(request.startFrame, request.endFrame) == PaddedRange(data[k].frameId, data[0].frameId)
      && forall j | k < j < |data| :: data[j].eventId != data[0].eventId
  {
    var lastEvent := data[0].eventId;
    var endFrame := data[0].frameId;
    var startFrame := FirstFrameOfEvent(data, lastEvent);
    startFrame, endFrame := PadAndLimit(startFrame, endFrame);
    request := ClipRequest(lastEvent, startFrame, endFrame);
  }

  /**
   * `AlarmClip`: with an alarm in the session, the clip around it; otherwise
   * finds the named camera (or apologises), fetches at most 100 of its
   * latest alarm frames, and reports the query error, no alarms, a device
   * without a display, or the clip from the first frame of the latest event to that
   * event's latest frame, padded and limited.
   */
  method HandleAlarmClip(session: Option<SessionAlarm>, location: string, hasDisplay: bool,
                         cameras: seq<CameraConfig>, table: QueryParams -> Store)
    returns (o: ClipOutcome)
    ensures session.Some? ==> o == PlayClip(SessionClip(session.value))
    ensures session.None? ==>
      var name := CameraFor(ToLowerCase(location), cameras);
      var fetched := Fetched(table(BuildQuery(name, None, None)), NUM_RECORDS_TO_QUERY);
      && (name == "" ==> o == BadCameraName)
      && (name != "" && fetched.Err? ==> o == CannotComplete)
      && (name != "" && fetched == Ok([]) ==> o == NoAlarmsFound)
      && (name != "" && fetched.Ok? && fetched.value != [] && !hasDisplay ==> o == CannotPlayVideo)
      && (name != "" && fetched.Ok? && fetched.value != [] && hasDisplay ==>
            && o.PlayClip?
            && o.request.event == fetched.value[0].eventId
            && o.request.endFrame - o.request.startFrame <= MAX_CLIP_FRAMES
            && exists k | 0 <= k < |fetched.value| ::
                 && fetched.value[k].eventId == fetched.value[0].eventId
                 && (forall j | k < j < |fetched.value| :: fetched.value[j].eventId != fetched.value[0].eventId)
                 && FrameRange(o.request.startFrame, o.request.endFrame)
                      == PaddedRange(fetched.value[k].frameId, fetched.value[0].frameId))
  {
    if session.Some? {
      var request := InSessionRange(session.value);
      return PlayClip(request);
    }
    var zoneminderCameraName := AlexaCameraToZoneminderCamera(ToLowerCase(location), cameras);
    if zoneminderCameraName == "" {
      return BadCameraName;
    }
    var data, _ := FindLatestAlarms(zoneminderCameraName, None, None, NUM_RECORDS_TO_QUERY, table);
    if data.Err? {
      return CannotComplete;
    }
    if |data.value| == 0 {
      return NoAlarmsFound;
    }
    if !hasDisplay {
      return CannotPlayVideo;
    }
    var request := ClipFromAlarms(data.value);
    o := PlayClip(request);
  }
}

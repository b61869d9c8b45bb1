/**
 * The `LastAlarm` and `Alarms` intents: query every selected camera, wait
 * until every query has answered, merge the per-camera records (each tagged
 * with its camera), sort them by alarm time and either show the latest one
 * or list them all.
 */
module AlarmMerge {
  import opened Wrappers
  import opened AlarmFetch
  import opened NameMaps

  /** An alarm record with the `zoneminderName` of the camera it came from. */
  datatype TaggedAlarm = TaggedAlarm(alarm: AlarmRecord, zoneminderName: string)

  /** How the fan-out ends: a camera query failed, no query ever completed the barrier, or all settled. */
  datatype Gathered = QueryFailed(error: string) | NeverSettled | Settled(alarms: seq<TaggedAlarm>)

  function DateTimeOf(x: TaggedAlarm): int { x.alarm.eventDateTime }

  // ---------------------------------------------------------------------------
  // Sorting by ZmEventDateTime
  // ---------------------------------------------------------------------------

  /** Non-decreasing by alarm time: what the comparator returning -1 for A < B produces. */
  predicate SortedByDateTime(s: seq<TaggedAlarm>) {
    forall i, j | 0 <= i < j < |s| :: DateTimeOf(s[i]) <= DateTimeOf(s[j])
  }

  /** The alarms of `s` at instant `t`, in their order in `s`. */
  function AtDateTime(s: seq<TaggedAlarm>, t: int): seq<TaggedAlarm> {
    if s == [] then []
    else if DateTimeOf(s[0]) == t then [s[0]] + AtDateTime(s[1..], t)
    else AtDateTime(s[1..], t)
  }

  /** Put `x` in front of the first alarm of `s` that is not earlier than it. */
  function InsertByDateTime(x: TaggedAlarm, s: seq<TaggedAlarm>): (r: seq<TaggedAlarm>)
    requires SortedByDateTime(s)
    ensures SortedByDateTime(r)
    ensures multiset(r) == multiset{x} + multiset(s)
    ensures r != [] && (r[0] == x || (s != [] && r[0] == s[0]))
  {
    if s == [] || DateTimeOf(x) <= DateTimeOf(s[0]) then [x] + s
    else
      SortedTail(s);
      var tail := InsertByDateTime(x, s[1..]);
      assert s[1..] != [] ==> s[1..][0] == s[1];
      MultisetOfCons(s);
      SortedCons(s[0], tail);
      [s[0]] + tail
  }

  lemma SortedTail(s: seq<TaggedAlarm>)
    requires s != [] && SortedByDateTime(s)
    ensures SortedByDateTime(s[1..])
  {
    forall i, j | 0 <= i < j < |s| - 1 ensures DateTimeOf(s[1..][i]) <= DateTimeOf(s[1..][j]) {
      assert s[1..][i] == s[i + 1] && s[1..][j] == s[j + 1];
    }
  }

  /** An alarm no later than the first of a sorted list can go in front of it. */
  lemma SortedCons(head: TaggedAlarm, s: seq<TaggedAlarm>)
    requires SortedByDateTime(s) && (s != [] ==> DateTimeOf(head) <= DateTimeOf(s[0]))
    ensures SortedByDateTime([head] + s)
  {
    var r := [head] + s;
    forall i, j | 0 <= i < j < |r| ensures DateTimeOf(r[i]) <= DateTimeOf(r[j]) {
      if i == 0 {
        assert r[j] == s[j - 1];
      } else {
        assert r[i] == s[i - 1] && r[j] == s[j - 1];
      }
    }
  }

  lemma MultisetOfCons(s: seq<TaggedAlarm>)
    requires s != []
    ensures multiset(s) == multiset{s[0]} + multiset(s[1..])
  {
    assert s == [s[0]] + s[1..];
  }

  /**
   * The sort `Array.prototype.sort` performs with the handlers' comparator:
   * ascending by alarm time and a permutation of its input (stability is
   * `SortKeepsOrderAtEachInstant`).
   */
  function SortByDateTime(s: seq<TaggedAlarm>): (r: seq<TaggedAlarm>)
    ensures SortedByDateTime(r)
    ensures multiset(r) == multiset(s)
  {
    if s == [] then []
    else
      var r := InsertByDateTime(s[0], SortByDateTime(s[1..]));
      MultisetOfCons(s);
      r
  }

  /** Pushing one alarm in front: it joins its instant's alarms first. */
  lemma AtDateTimeCons(x: TaggedAlarm, s: seq<TaggedAlarm>, t: int)
    ensures AtDateTime([x] + s, t) == AtDateTime([x], t) + AtDateTime(s, t)
  {
    assert ([x] + s)[1..] == s;
    assert [x][1..] == [];
  }

  lemma {:induction false} InsertKeepsOrderAtEachInstant(x: TaggedAlarm, s: seq<TaggedAlarm>, t: int)
    requires SortedByDateTime(s)
    ensures AtDateTime(InsertByDateTime(x, s), t) == AtDateTime([x], t) + AtDateTime(s, t)
  {
    if s == [] || DateTimeOf(x) <= DateTimeOf(s[0]) {
      AtDateTimeCons(x, s, t);
    } else {
      InsertKeepsOrderAtEachInstant(x, s[1..], t);
      InsertPastHead(x, s[0], s[1..], InsertByDateTime(x, s[1..]), t);
      assert [s[0]] + s[1..] == s;
    }
  }

  /** `x` later than `head` passes it: at any one instant at most one of the two is present. */
  lemma InsertPastHead(x: TaggedAlarm, head: TaggedAlarm, rest: seq<TaggedAlarm>, inserted: seq<TaggedAlarm>, t: int)
    requires DateTimeOf(head) < DateTimeOf(x)
    requires AtDateTime(inserted, t) == AtDateTime([x], t) + AtDateTime(rest, t)
    ensures AtDateTime([head] + inserted, t) == AtDateTime([x], t) + AtDateTime([head] + rest, t)
  {
    AtDateTimeCons(head, inserted, t);
    AtDateTimeCons(head, rest, t);
    var ax, a0 := AtDateTime([x], t), AtDateTime([head], t);
    assert a0 == [] || ax == [] by {
      assert [x][1..] == [] && [head][1..] == [];
    }
    assert a0 + (ax + AtDateTime(rest, t)) == ax + (a0 + AtDateTime(rest, t));
  }

  /** Stability: the alarms at any one instant keep the order they had in the merge. */
  lemma {:induction false} SortKeepsOrderAtEachInstant(s: seq<TaggedAlarm>, t: int)
    ensures AtDateTime(SortByDateTime(s), t) == AtDateTime(s, t)
  {
    if s != [] {
      SortKeepsOrderAtEachInstant(s[1..], t);
      InsertKeepsOrderAtEachInstant(s[0], SortByDateTime(s[1..]), t);
      AtDateTimeCons(s[0], s[1..], t);
      assert [s[0]] + s[1..] == s;
    }
  }

  // ---------------------------------------------------------------------------
  // Fan-out and merge
  // ---------------------------------------------------------------------------

  /** Tag every record with the camera it came from. */
  function Tag(data: seq<AlarmRecord>, zoneminderName: string): seq<TaggedAlarm> {
    if data == [] then [] else [TaggedAlarm(data[0], zoneminderName)] + Tag(data[1..], zoneminderName)
  }

  /** The records one camera contributes: only the first (`LastAlarm`), or all (`Alarms`). */
  function Picked(data: seq<AlarmRecord>, firstOnly: bool): seq<AlarmRecord> {
    if !firstOnly then data else if data == [] then [] else [data[0]]
  }

  /** What one camera's query returns: an unfiltered fetch of `n` records. */
  function CameraResult(table: QueryParams -> Store, zoneminderName: string, n: int): Result<seq<AlarmRecord>, string> {
    Fetched(table(BuildQuery(zoneminderName, None, None)), n)
  }

  /**
   * The merged array after the cameras `names` answered in order: the first
   * error among them, else the tagged records of each camera one after the
   * other.
   */
  function Collected(names: seq<string>, n: int, firstOnly: bool, table: QueryParams -> Store)
    : Result<seq<TaggedAlarm>, string>
  {
    if names == [] then Ok([])
    else
      match Collected(names[..|names| - 1], n, firstOnly, table)
      case Err(e) => Err(e)
      case Ok(merged) =>
        match CameraResult(table, names[|names| - 1], n)
        case Err(e) => Err(e)
        case Ok(data) => Ok(merged + Tag(Picked(data, firstOnly), names[|names| - 1]))
  }

  /** The fan-out's outcome: with no camera the barrier is never reached. */
  function GatherOutcome(names: seq<string>, n: int, firstOnly: bool, table: QueryParams -> Store): Gathered {
    if names == [] then NeverSettled
    else match Collected(names, n, firstOnly, table)
      case Err(e) => QueryFailed(e)
      case Ok(merged) => Settled(merged)
  }

  /**
   * The `forEach` over the cameras: query each one, stop at a failed query
   * (its callback returns before counting it, so the merge never runs), push
   * the tagged records, and let the merge happen only when `queryCount`
   * reaches the number of cameras.
   */
  method FanOut(names: seq<string>, numberOfAlarms: int, firstOnly: bool, table: QueryParams -> Store)
    returns (g: Gathered)
    ensures g == GatherOutcome(names, numberOfAlarms, firstOnly, table)
  {
    var queryResultArray: seq<TaggedAlarm> := [];
    var queryCount := 0;
    g := NeverSettled;
    for i := 0 to |names|
      invariant queryCount == i
      invariant Collected(names[..i], numberOfAlarms, firstOnly, table) == Ok(queryResultArray)
      invariant g == if 0 < i == |names| then Settled(queryResultArray) else NeverSettled
    {
      var data, _ := FindLatestAlarms(names[i], None, None, numberOfAlarms, table);
      CollectedStep(names, i, numberOfAlarms, firstOnly, table, queryResultArray);
      if data.Err? {
        return QueryFailed(data.error);
      }
      queryResultArray := queryResultArray + Tag(Picked(data.value, firstOnly), names[i]);
      queryCount := queryCount + 1;
      if queryCount < |names| {
        continue;
      }
      g := Settled(queryResultArray);
    }
    assert names[..|names|] == names;
  }

  /** One more camera answering: its failure decides the whole merge, its records extend it. */
  lemma CollectedStep(names: seq<string>, i: nat, n: int, firstOnly: bool, table: QueryParams -> Store,
                      merged: seq<TaggedAlarm>)
    requires i < |names| && Collected(names[..i], n, firstOnly, table) == Ok(merged)
    ensures CameraResult(table, names[i], n).Err? ==>
      GatherOutcome(names, n, firstOnly, table) == QueryFailed(CameraResult(table, names[i], n).error)
    ensures CameraResult(table, names[i], n).Ok? ==>
      Collected(names[..i + 1], n, firstOnly, table)
        == Ok(merged + Tag(Picked(CameraResult(table, names[i], n).value, firstOnly), names[i]))
  {
    assert names[..i + 1][..i] == names[..i];
    if CameraResult(table, names[i], n).Err? {
      CollectedKeepsError(names, i + 1, n, firstOnly, table);
    }
  }

  lemma {:induction false} CollectedKeepsError(names: seq<string>, k: nat, n: int, firstOnly: bool,
                                               table: QueryParams -> Store)
    requires k <= |names| && Collected(names[..k], n, firstOnly, table).Err?
    ensures Collected(names, n, firstOnly, table) == Collected(names[..k], n, firstOnly, table)
  {
    if k < |names| {
      var prefix := names[..|names| - 1];
      assert prefix[..k] == names[..k];
      CollectedKeepsError(prefix, k, n, firstOnly, table);
    } else {
      assert names[..k] == names;
    }
  }

  /** The barrier: the merge fails exactly when some camera's query fails. */
  lemma {:induction false} CollectedFailsIff(names: seq<string>, n: int, firstOnly: bool, table: QueryParams -> Store)
    ensures Collected(names, n, firstOnly, table).Err? <==>
      exists i | 0 <= i < |names| :: CameraResult(table, names[i], n).Err?
  {
    if names != [] {
      var prefix := names[..|names| - 1];
      CollectedFailsIff(prefix, n, firstOnly, table);
      assert forall i | 0 <= i < |prefix| :: prefix[i] == names[i];
    }
  }

  lemma {:induction false} TagMembers(data: seq<AlarmRecord>, zoneminderName: string)
    ensures forall x :: x in Tag(data, zoneminderName) <==> x.alarm in data && x.zoneminderName == zoneminderName
  {
    if data != [] {
      TagMembers(data[1..], zoneminderName);
      assert data == [data[0]] + data[1..];
    }
  }

  /**
   * The merged array holds every record each camera contributed, tagged with
   * that camera, and nothing else.
   */
  lemma CollectedHoldsEveryRecord(names: seq<string>, n: int, firstOnly: bool,
                                  table: QueryParams -> Store, merged: seq<TaggedAlarm>)
    requires Collected(names, n, firstOnly, table) == Ok(merged)
    ensures forall i, r | 0 <= i < |names| && CameraResult(table, names[i], n).Ok? &&
                          r in Picked(CameraResult(table, names[i], n).value, firstOnly) ::
      TaggedAlarm(r, names[i]) in merged
    ensures forall x | x in merged :: exists i | 0 <= i < |names| ::
      && x.zoneminderName == names[i]
      && CameraResult(table, names[i], n).Ok?
      && x.alarm in Picked(CameraResult(table, names[i], n).value, firstOnly)
  {
    CollectedContainsEveryRecord(names, n, firstOnly, table, merged);
    CollectedHoldsOnlyRecords(names, n, firstOnly, table, merged);
  }

  lemma {:induction false} CollectedContainsEveryRecord(names: seq<string>, n: int, firstOnly: bool,
                                                        table: QueryParams -> Store, merged: seq<TaggedAlarm>)
    requires Collected(names, n, firstOnly, table) == Ok(merged)
    ensures forall i, r | 0 <= i < |names| && CameraResult(table, names[i], n).Ok? &&
                          r in Picked(CameraResult(table, names[i], n).value, firstOnly) ::
      TaggedAlarm(r, names[i]) in merged
  {
    if names != [] {
      var prefix := names[..|names| - 1];
      var last := names[|names| - 1];
      var before := Collected(prefix, n, firstOnly, table).value;
      var data := CameraResult(table, last, n).value;
      CollectedContainsEveryRecord(prefix, n, firstOnly, table, before);
      TagMembers(Picked(data, firstOnly), last);
      assert merged == before + Tag(Picked(data, firstOnly), last);
      forall i, r | 0 <= i < |names| && CameraResult(table, names[i], n).Ok? &&
                    r in Picked(CameraResult(table, names[i], n).value, firstOnly)
        ensures TaggedAlarm(r, names[i]) in merged
      {
        if i < |prefix| {
          assert prefix[i] == names[i];
          assert TaggedAlarm(r, names[i]) in before;
        } else {
          assert names[i] == last && CameraResult(table, last, n).value == data;
          assert TaggedAlarm(r, last) in Tag(Picked(data, firstOnly), last);
        }
      }
    }
  }

  lemma {:induction false} CollectedHoldsOnlyRecords(names: seq<string>, n: int, firstOnly: bool,
                                                     table: QueryParams -> Store, merged: seq<TaggedAlarm>)
    requires Collected(names, n, firstOnly, table) == Ok(merged)
    ensures forall x | x in merged :: exists i | 0 <= i < |names| ::
      && x.zoneminderName == names[i]
      && CameraResult(table, names[i], n).Ok?
      && x.alarm in Picked(CameraResult(table, names[i], n).value, firstOnly)
  {
    if names != [] {
      var prefix := names[..|names| - 1];
      var last := names[|names| - 1];
      var before := Collected(prefix, n, firstOnly, table).value;
      var data := CameraResult(table, last, n).value;
      CollectedHoldsOnlyRecords(prefix, n, firstOnly, table, before);
      TagMembers(Picked(data, firstOnly), last);
      assert merged == before + Tag(Picked(data, firstOnly), last);
      forall x | x in merged ensures exists i | 0 <= i < |names| ::
        && x.zoneminderName == names[i]
        && CameraResult(table, names[i], n).Ok?
        && x.alarm in Picked(CameraResult(table, names[i], n).value, firstOnly)
      {
        if x in before {
          var i :| 0 <= i < |prefix| && x.zoneminderName == prefix[i] && CameraResult(table, prefix[i], n).Ok?
                   && x.alarm in Picked(CameraResult(table, prefix[i], n).value, firstOnly);
          assert prefix[i] == names[i];
        } else {
          assert names[|names| - 1] == last;
        }
      }
    }
  }

  // ---------------------------------------------------------------------------
  // After the barrier
  // ---------------------------------------------------------------------------

  datatype LastAlarmOutcome =
    | BadCameraName        // "Sorry, I cannot find that camera name."
    | CannotComplete(error: string)  // a query failed
    | NoResponse           // no camera configured: no callback ever responds
    | NoAlarmsFound        // "No alarms were found."
    | SpokenAlarm(alarm: TaggedAlarm)  // no display: the camera and time are spoken
    | BadImageFile         // the latest alarm has no S3 key: "Sorry, I cannot complete the request."
    | ShownAlarm(alarm: TaggedAlarm)   // the alarm's image is shown

  datatype AlarmsOutcome =
    | NeedDisplay          // "Sorry, I need a display to do that."
    | NoSuchCamera
    | QueryError(error: string)
    | Silent
    | NoAlarms
    | AlarmList(items: seq<TaggedAlarm>)  // list entries in display order, tokens 1, 2, ...

  lemma LastOfSortedIsLatest(s: seq<TaggedAlarm>, sorted: seq<TaggedAlarm>)
    requires s != [] && SortedByDateTime(sorted) && multiset(sorted) == multiset(s)
    ensures |sorted| == |s|
    ensures sorted[|sorted| - 1] in s
    ensures forall x | x in s :: DateTimeOf(x) <= DateTimeOf(sorted[|sorted| - 1])
  {
    assert |sorted| == |multiset(sorted)| == |multiset(s)| == |s|;
    assert sorted[|sorted| - 1] in multiset(sorted);
    forall x | x in s ensures DateTimeOf(x) <= DateTimeOf(sorted[|sorted| - 1]) {
      assert x in multiset(sorted);
      var k :| 0 <= k < |sorted| && sorted[k] == x;
    }
  }

  /**
   * How `LastAlarm` presents the latest alarm: spoken without a display;
   * with one, the apology when the record has no S3 key, else its image.
   */
  function Presented(latest: TaggedAlarm, hasDisplay: bool): (o: LastAlarmOutcome)
    ensures !hasDisplay <==> o == SpokenAlarm(latest)
    ensures o == BadImageFile <==> hasDisplay && latest.alarm.s3Key.None?
    ensures o == ShownAlarm(latest) <==> hasDisplay && latest.alarm.s3Key.Some?
    ensures o.ShownAlarm? ==> o.alarm == latest
  {
    if !hasDisplay then SpokenAlarm(latest)
    else if latest.alarm.s3Key.None? then BadImageFile
    else ShownAlarm(latest)
  }

  /**
   * `LastAlarm` after its queries: the failed query's apology, nothing when no
   * camera was queried, "No alarms were found." for an empty merge, else the
   * element at the last index of the sorted array, which is a merged alarm
   * whose time no other merged alarm exceeds, as `Presented` shows it.
   */
  function LatestOf(g: Gathered, hasDisplay: bool): (o: LastAlarmOutcome)
    ensures g.QueryFailed? ==> o == CannotComplete(g.error)
    ensures g.NeverSettled? ==> o == NoResponse
    ensures g.Settled? && g.alarms == [] ==> o == NoAlarmsFound
    ensures g.Settled? && g.alarms != [] ==>
      exists latest | latest in g.alarms ::
        && (forall x | x in g.alarms :: DateTimeOf(x) <= DateTimeOf(latest))
        && o == Presented(latest, hasDisplay)
  {
    match g
    case QueryFailed(e) => CannotComplete(e)
    case NeverSettled => NoResponse
    case Settled(queryResultArray) =>
      if |queryResultArray| == 0 then NoAlarmsFound
      else
        var sorted := SortByDateTime(queryResultArray);
        var maxArrElem := |sorted| - 1;
        LastOfSortedIsLatest(queryResultArray, sorted);
        Presented(sorted[maxArrElem], hasDisplay)
  }

  /**
   * `Alarms` after its queries: the merged alarms sorted oldest first (a
   * permutation of the merge, non-decreasing in time) as the list to show.
   */
  function ListOf(g: Gathered): (o: AlarmsOutcome)
    ensures g.QueryFailed? ==> o == QueryError(g.error)
    ensures g.NeverSettled? ==> o == Silent
    ensures g.Settled? && g.alarms == [] ==> o == NoAlarms
    ensures g.Settled? && g.alarms != [] ==>
      && o.AlarmList?
      && SortedByDateTime(o.items)
      && multiset(o.items) == multiset(g.alarms)
      && forall t :: AtDateTime(o.items, t) == AtDateTime(g.alarms, t)
  {
    match g
    case QueryFailed(e) => QueryError(e)
    case NeverSettled => Silent
    case Settled(queryResultArray) =>
      if |queryResultArray| == 0 then NoAlarms
      else
        assert forall t :: AtDateTime(SortByDateTime(queryResultArray), t) == AtDateTime(queryResultArray, t) by {
          forall t ensures AtDateTime(SortByDateTime(queryResultArray), t) == AtDateTime(queryResultArray, t) {
            SortKeepsOrderAtEachInstant(queryResultArray, t);
          }
        }
        AlarmList(SortByDateTime(queryResultArray))
  }

  // ---------------------------------------------------------------------------
  // The two intents
  // ---------------------------------------------------------------------------

  function ZoneminderNames(cameras: seq<CameraConfig>): (names: seq<string>)
    ensures |names| == |cameras| && forall i | 0 <= i < |cameras| :: names[i] == cameras[i].zoneminderName
  {
    if cameras == [] then [] else [cameras[0].zoneminderName] + ZoneminderNames(cameras[1..])
  }

  /**
   * `LastAlarm`: with no camera named, the latest alarm over every configured
   * camera; with a name, the latest alarm of the camera it maps to, or the
   * bad-name apology when it maps to none.  At most one record is fetched per
   * camera, and the latest is spoken or shown as `Presented` says.
   */
  method LastAlarm(location: Option<string>, hasDisplay: bool, cameras: seq<CameraConfig>,
                   table: QueryParams -> Store)
    returns (o: LastAlarmOutcome)
    ensures location.None? ==> o == LatestOf(GatherOutcome(ZoneminderNames(cameras), 1, true, table), hasDisplay)
    ensures location.Some? ==>
      var name := CameraFor(ToLowerCase(location.value), cameras);
      o == if name == "" then BadCameraName else LatestOf(GatherOutcome([name], 1, true, table), hasDisplay)
  {
    var cameraConfigArray: seq<string>;
    if location.None? {
      cameraConfigArray := ZoneminderNames(cameras);
    } else {
      var zoneminderCameraName := AlexaCameraToZoneminderCamera(ToLowerCase(location.value), cameras);
      if zoneminderCameraName == "" {
        return BadCameraName;
      }
      cameraConfigArray := [zoneminderCameraName];
    }
    var g := FanOut(cameraConfigArray, 1, true, table);
    o := LatestOf(g, hasDisplay);
  }

  /**
   * `Alarms`, which needs a display: with no camera named, the latest alarm
   * (if any) of each configured camera; with a name, at most ten latest
   * alarms of the camera it maps to.  Either way the merged list is shown
   * oldest first.
   */
  method Alarms(hasDisplay: bool, location: Option<string>, cameras: seq<CameraConfig>,
                table: QueryParams -> Store)
    returns (o: AlarmsOutcome)
    ensures !hasDisplay ==> o == NeedDisplay
    ensures hasDisplay && location.None? ==> o == ListOf(GatherOutcome(ZoneminderNames(cameras), 1, false, table))
    ensures hasDisplay && location.Some? ==>
      var name := CameraFor(ToLowerCase(location.value), cameras);
      o == if name == "" then NoSuchCamera else ListOf(GatherOutcome([name], 10, false, table))
  {
    if !hasDisplay {
      return NeedDisplay;
    }
    var cameraConfigArray: seq<string>;
    var numberOfAlarmsToFind: int;
    if location.None? {
      cameraConfigArray := ZoneminderNames(cameras);
      numberOfAlarmsToFind := 1;
    } else {
      var zoneminderCameraName := AlexaCameraToZoneminderCamera(ToLowerCase(location.value), cameras);
      if zoneminderCameraName == "" {
        return NoSuchCamera;
      }
      cameraConfigArray := [zoneminderCameraName];
      numberOfAlarmsToFind := 10;
    }
    var g := FanOut(cameraConfigArray, numberOfAlarmsToFind, false, table);
    o := ListOf(g);
  }
}

/**
 * The paginated alarm query of the voice skill (`findLatestAlarms`): it builds
 * one DynamoDB query over the `ZmAlarmFrames` table for a camera, with the
 * alert filter and an optional face or object label filter, and then reads the
 * result page by page until it holds the requested number of alarm frames or
 * the store has no more pages.
 */
module AlarmFetch {
  import opened Wrappers

  /** An opaque continuation token (`LastEvaluatedKey`). */
  type Key = string

  /** One alarm frame as projected by the query. */
  datatype AlarmRecord = AlarmRecord(
    eventDateTime: int,          // ZmEventDateTime, as the instant it parses to
    s3Key: Option<string>,       // absent when the stored item has no S3Key
    eventId: int,
    frameId: int,
    localEventPath: string,
    labels: Option<seq<string>>) // present only when a label filter was used

  /** A DynamoDB condition over attribute names and value placeholders. */
  datatype Condition =
    | Equals(attribute: string, placeholder: string)
    | Contains(attribute: string, placeholder: string)
    | And(left: Condition, right: Condition)

  /** The request object handed to the document client (without ExclusiveStartKey). */
  datatype QueryParams = QueryParams(
    tableName: string,
    scanIndexForward: bool,
    projection: seq<string>,
    keyCondition: Condition,
    filter: Condition,
    expressionAttributeValues: map<string, string>)

  /**
   * The answers the store gives to one query: the first page, and after each
   * page that carries a `LastEvaluatedKey`, the page returned when the query is
   * repeated with that key as `ExclusiveStartKey`.  Any answer may be an error.
   */
  datatype Store =
    | Fails(message: string)
    | LastPage(items: seq<AlarmRecord>)
    | MorePages(items: seq<AlarmRecord>, lastEvaluatedKey: Key, rest: Store)

  const BASE_PROJECTION := ["ZmEventDateTime", "S3Key", "ZmEventId", "ZmFrameId", "ZmLocalEventPath"]

  /**
   * Whether a stored frame with attribute `Alert` equal to `alert` and label
   * list `labels` passes `c`, with placeholders read from `values`.
   */
  predicate Holds(c: Condition, values: map<string, string>, alert: string, labels: seq<string>) {
    match c
    case Equals(attribute, placeholder) =>
      attribute == "Alert" && placeholder in values && alert == values[placeholder]
    case Contains(attribute, placeholder) =>
      attribute == "Labels" && placeholder in values && values[placeholder] in labels
    case And(left, right) => Holds(left, values, alert, labels) && Holds(right, values, alert, labels)
  }

  /**
   * The filter expression: `Alert = :state`, and with a face name also
   * `contains(Labels, :face)`, or else with an object name
   * `contains(Labels, :object)`.
   */
  function FilterExpression(faceName: Option<string>, objectName: Option<string>): Condition {
    var filter := Equals("Alert", ":state");
    if faceName.Some? then And(filter, Contains("Labels", ":face"))
    else if objectName.Some? then And(filter, Contains("Labels", ":object"))
    else filter
  }

  /** The projection: the five alarm-frame attributes, plus `Labels` exactly when a label filter is used. */
  function ProjectionExpression(faceName: Option<string>, objectName: Option<string>): (p: seq<string>)
    ensures |p| >= 5 && p[..5] == BASE_PROJECTION
    ensures "Labels" in p <==> faceName.Some? || objectName.Some?
    ensures |p| == if faceName.Some? || objectName.Some? then 6 else 5
  {
    if faceName.Some? || objectName.Some? then BASE_PROJECTION + ["Labels"] else BASE_PROJECTION
  }

  /**
   * The placeholder values: the camera and the alert state always, then the
   * face name, or else the object name, under its own placeholder.
   */
  function AttributeValues(cameraName: string, faceName: Option<string>, objectName: Option<string>)
    : (v: map<string, string>)
    ensures ":name" in v && v[":name"] == cameraName
    ensures ":state" in v && v[":state"] == "true"
    ensures faceName.Some? ==> v.Keys == {":name", ":state", ":face"} && v[":face"] == faceName.value
    ensures faceName.None? && objectName.Some? ==>
      v.Keys == {":name", ":state", ":object"} && v[":object"] == objectName.value
    ensures faceName.None? && objectName.None? ==> v.Keys == {":name", ":state"}
  {
    var values := map[":name" := cameraName, ":state" := "true"];
    if faceName.Some? then values[":face" := faceName.value]
    else if objectName.Some? then values[":object" := objectName.value]
    else values
  }

  /**
   * The query for `cameraName` over `ZmAlarmFrames`, newest first.  Its
   * filter lets through exactly the alert frames, and of those only the ones
   * labelled with the face name if one is given, else only the ones labelled
   * with the object name if one is given.
   */
  function BuildQuery(cameraName: string, faceName: Option<string>, objectName: Option<string>): (q: QueryParams)
    ensures q.tableName == "ZmAlarmFrames" && !q.scanIndexForward
    ensures q.keyCondition == Equals("ZmCameraName", ":name")
    ensures q.projection == ProjectionExpression(faceName, objectName)
    ensures ":name" in q.expressionAttributeValues && q.expressionAttributeValues[":name"] == cameraName
    ensures forall alert: string, labels: seq<string> ::
      Holds(q.filter, q.expressionAttributeValues, alert, labels) <==>
        && alert == "true"
        && (faceName.Some? ==> faceName.value in labels)
        && (faceName.None? && objectName.Some? ==> objectName.value in labels)
  {
    QueryParams("ZmAlarmFrames", false, ProjectionExpression(faceName, objectName),
                Equals("ZmCameraName", ":name"), FilterExpression(faceName, objectName),
                AttributeValues(cameraName, faceName, objectName))
  }

  // ---------------------------------------------------------------------------
  // What the store holds
  // ---------------------------------------------------------------------------

  /** Every record the store serves, page after page, up to its last page or its error. */
  function Items(s: Store): seq<AlarmRecord> {
    match s
    case Fails(_) => []
    case LastPage(items) => items
    case MorePages(items, _, rest) => items + Items(rest)
  }

  /** Whether reading every page ends in an error rather than a last page. */
  predicate EndsInError(s: Store) {
    match s
    case Fails(_) => true
    case LastPage(_) => false
    case MorePages(_, _, rest) => EndsInError(rest)
  }

  /** The message of the failing page the chain of pages ends in. */
  function ErrorOf(s: Store): string
    requires EndsInError(s)
  {
    match s
    case Fails(m) => m
    case MorePages(_, _, rest) => ErrorOf(rest)
  }

  function PageCount(s: Store): nat {
    match s
    case Fails(_) => 1
    case LastPage(_) => 1
    case MorePages(_, _, rest) => 1 + PageCount(rest)
  }

  /** The records of the first `k` pages. */
  function ItemsOfPages(s: Store, k: nat): seq<AlarmRecord> {
    if k == 0 then []
    else match s
      case Fails(_) => []
      case LastPage(items) => items
      case MorePages(items, _, rest) => items + ItemsOfPages(rest, k - 1)
  }

  /** The target is met once `numberOfAlarms` records were collected (the `===` test). */
  predicate Reached(numberOfAlarms: int, count: int) {
    1 <= numberOfAlarms <= count
  }

  /**
   * What one fetch returns, stated on the whole record stream: the first
   * `numberOfAlarms` records once the store holds that many; otherwise the
   * store's error if the pages end in one, else every record.
   */
  function Fetched(s: Store, numberOfAlarms: int): (r: Result<seq<AlarmRecord>, string>)
    ensures r.Ok? ==> r.value <= Items(s)
    ensures r.Ok? && numberOfAlarms >= 1 ==> |r.value| <= numberOfAlarms
    ensures r.Ok? ==> |r.value| == if Reached(numberOfAlarms, |Items(s)|) then numberOfAlarms else |Items(s)|
    ensures r.Err? <==> EndsInError(s) && !Reached(numberOfAlarms, |Items(s)|)
    ensures r.Err? ==> r.error == ErrorOf(s)
  {
    if Reached(numberOfAlarms, |Items(s)|) then Ok(Items(s)[..numberOfAlarms])
    else if EndsInError(s) then Err(ErrorOf(s))
    else Ok(Items(s))
  }

  /**
   * The `ExclusiveStartKey` of each query sent, starting with `start`, while
   * `need` more records are wanted: a page that meets the need is the last one
   * requested.
   */
  function Requests(s: Store, start: Option<Key>, need: int): seq<Option<Key>> {
    [start] +
      match s
      case MorePages(items, key, rest) =>
        if Reached(need, |items|) then [] else Requests(rest, Some(key), need - |items|)
      case _ => []
  }

  // ---------------------------------------------------------------------------
  // The fetch
  // ---------------------------------------------------------------------------

  /**
   * The `for (const item of data.Items)` loop: push the page's records one by
   * one and stop right after the one that brings the count to `numberOfAlarms`.
   */
  method CollectPage(items: seq<AlarmRecord>, foundAlarms: seq<AlarmRecord>, foundAlarmCount: int,
                     numberOfAlarms: int)
    returns (found: seq<AlarmRecord>, count: int, reached: bool)
    requires foundAlarmCount == |foundAlarms| && !Reached(numberOfAlarms, foundAlarmCount)
    ensures count == |found|
    ensures reached == Reached(numberOfAlarms - foundAlarmCount, |items|)
    ensures reached ==> found == foundAlarms + items[..numberOfAlarms - foundAlarmCount]
    ensures reached ==> count == numberOfAlarms
    ensures !reached ==> found == foundAlarms + items && !Reached(numberOfAlarms, count)
  {
    found, count := foundAlarms, foundAlarmCount;
    var i := 0;
    while i < |items|
      invariant 0 <= i <= |items|
      invariant found == foundAlarms + items[..i]
      invariant count == |found|
      invariant !Reached(numberOfAlarms, count)
    {
      found := found + [items[i]];
      count := count + 1;
      if count == numberOfAlarms {
        return found, count, true;
      }
      i := i + 1;
    }
    assert items[..i] == items;
    return found, count, false;
  }

  /**
   * `findLatestAlarms`: build the query for the camera and the label filter,
   * then read its pages (`queryExecute`).
   */
  method FindLatestAlarms(cameraName: string, faceName: Option<string>, objectName: Option<string>,
                          numberOfAlarms: int, table: QueryParams -> Store)
    returns (result: Result<seq<AlarmRecord>, string>, requests: seq<Option<Key>>)
    ensures result == Fetched(table(BuildQuery(cameraName, faceName, objectName)), numberOfAlarms)
    ensures requests == Requests(table(BuildQuery(cameraName, faceName, objectName)), None, numberOfAlarms)
  {
    var params := BuildQuery(cameraName, faceName, objectName);
    result, requests := QueryExecute(table(params), numberOfAlarms);
  }

  /**
   * What holds before each query of the page loop: the records gathered so
   * far followed by those still to be served are all of the store's records,
   * the target is not yet met, the rest of the store fails exactly when the
   * whole store does, and the keys already sent followed by those still to
   * be sent are all the keys the fetch sends.
   */
  ghost predicate Progress(store: Store, response: Store, foundAlarms: seq<AlarmRecord>,
                           startKey: Option<Key>, requests: seq<Option<Key>>, numberOfAlarms: int)
  {
    && Items(store) == foundAlarms + Items(response)
    && !Reached(numberOfAlarms, |foundAlarms|)
    && EndsInError(store) == EndsInError(response)
    && (EndsInError(store) ==> ErrorOf(store) == ErrorOf(response))
    && requests + Requests(response, startKey, numberOfAlarms - |foundAlarms|) == Requests(store, None, numberOfAlarms)
  }

  /**
   * `queryExecute`, rerun with each `LastEvaluatedKey`: read the store page by
   * page, accumulating records in store order and stopping as soon as
   * `numberOfAlarms` were collected.  Also returns the start key of every
   * query sent.
   */
  method QueryExecute(store: Store, numberOfAlarms: int)
    returns (result: Result<seq<AlarmRecord>, string>, requests: seq<Option<Key>>)
    ensures result == Fetched(store, numberOfAlarms)
    ensures requests == Requests(store, None, numberOfAlarms)
  {
    var foundAlarms: seq<AlarmRecord> := [];
    var foundAlarmCount := 0;
    var exclusiveStartKey: Option<Key> := None;
    var response := store;
    requests := [];
    while true
      invariant Progress(store, response, foundAlarms, exclusiveStartKey, requests, numberOfAlarms)
      invariant foundAlarmCount == |foundAlarms|
      decreases response
    {
      var done: Option<Result<seq<AlarmRecord>, string>>;
      done, foundAlarms, foundAlarmCount :=
        OnResponse(store, response, foundAlarms, foundAlarmCount, exclusiveStartKey, requests, numberOfAlarms);
      requests := requests + [exclusiveStartKey];
      if done.Some? {
        return done.value, requests;
      }
      exclusiveStartKey := Some(response.lastEvaluatedKey);
      response := response.rest;
    }
  }

  /**
   * The query callback for one response: an error ends the fetch; otherwise
   * the page's records are added, and the fetch ends when the target is met
   * or the page carries no `LastEvaluatedKey`.  If it does not end, the page
   * had a key and the loop continues with the rest of the store.
   */
  method OnResponse(ghost store: Store, response: Store, foundAlarms: seq<AlarmRecord>, foundAlarmCount: int,
                    ghost startKey: Option<Key>, ghost requests: seq<Option<Key>>, numberOfAlarms: int)
    returns (done: Option<Result<seq<AlarmRecord>, string>>, found: seq<AlarmRecord>, count: int)
    requires Progress(store, response, foundAlarms, startKey, requests, numberOfAlarms)
    requires foundAlarmCount == |foundAlarms|
    ensures done.Some? ==> done.value == Fetched(store, numberOfAlarms)
    ensures done.Some? ==> requests + [startKey] == Requests(store, None, numberOfAlarms)
    ensures done.None? ==> response.MorePages? && count == |found|
    ensures done.None? ==>
      Progress(store, response.rest, found, Some(response.lastEvaluatedKey), requests + [startKey], numberOfAlarms)
  {
    if response.Fails? {
      ProgressOnError(store, response, foundAlarms, startKey, requests, numberOfAlarms);
      return Some(Err(response.message)), foundAlarms, foundAlarmCount;
    }
    var reached: bool;
    found, count, reached := CollectPage(response.items, foundAlarms, foundAlarmCount, numberOfAlarms);
    if reached {
      ProgressOnTarget(store, response, foundAlarms, startKey, requests, numberOfAlarms);
      return Some(Ok(found)), found, count;
    }
    if response.LastPage? {
      ProgressOnLastPage(store, response, foundAlarms, startKey, requests, numberOfAlarms);
      return Some(Ok(found)), found, count;
    }
    ProgressOnNextPage(store, response, foundAlarms, startKey, requests, numberOfAlarms);
    done := None;
  }

  lemma ProgressOnError(store: Store, response: Store, found: seq<AlarmRecord>, startKey: Option<Key>,
                        requests: seq<Option<Key>>, n: int)
    requires Progress(store, response, found, startKey, requests, n) && response.Fails?
    ensures Fetched(store, n) == Err(response.message)
    ensures requests + [startKey] == Requests(store, None, n)
  {
  }

  lemma ProgressOnTarget(store: Store, response: Store, found: seq<AlarmRecord>, startKey: Option<Key>,
                         requests: seq<Option<Key>>, n: int)
    requires Progress(store, response, found, startKey, requests, n) && !response.Fails?
    requires Reached(n - |found|, |response.items|)
    ensures Fetched(store, n) == Ok(found + response.items[..n - |found|])
    ensures requests + [startKey] == Requests(store, None, n)
  {
    var later := if response.MorePages? then Items(response.rest) else [];
    assert Items(response) == response.items + later;
    assert Items(store)[..n] == found + response.items[..n - |found|];
  }

  lemma ProgressOnLastPage(store: Store, response: Store, found: seq<AlarmRecord>, startKey: Option<Key>,
                           requests: seq<Option<Key>>, n: int)
    requires Progress(store, response, found, startKey, requests, n) && response.LastPage?
    requires !Reached(n - |found|, |response.items|)
    ensures Fetched(store, n) == Ok(found + response.items)
    ensures requests + [startKey] == Requests(store, None, n)
  {
  }

  lemma ProgressOnNextPage(store: Store, response: Store, found: seq<AlarmRecord>, startKey: Option<Key>,
                           requests: seq<Option<Key>>, n: int)
    requires Progress(store, response, found, startKey, requests, n) && response.MorePages?
    requires !Reached(n - |found|, |response.items|)
    ensures Progress(store, response.rest, found + response.items, Some(response.lastEvaluatedKey),
                     requests + [startKey], n)
  {
    NextPageItems(found, response);
    NextPageRequests(requests, startKey, response, n - |found|);
  }

  lemma NextPageItems(found: seq<AlarmRecord>, response: Store)
    requires response.MorePages?
    ensures found + Items(response) == (found + response.items) + Items(response.rest)
  {
  }

  lemma NextPageRequests(requests: seq<Option<Key>>, startKey: Option<Key>, response: Store, need: int)
    requires response.MorePages? && !Reached(need, |response.items|)
    ensures (requests + [startKey]) + Requests(response.rest, Some(response.lastEvaluatedKey), need - |response.items|)
      == requests + Requests(response, startKey, need)
  {
  }

  // ---------------------------------------------------------------------------
  // Early exit
  // ---------------------------------------------------------------------------

  /**
   * With a target of at least one record, the fetch requests exactly the pages
   * it needs: the pages before the last one requested hold fewer records than
   * wanted, and if it stopped before the store's last page, the pages it read
   * hold enough.
   */
  lemma {:induction false} RequestsAreMinimal(s: Store, start: Option<Key>, need: int)
    requires need >= 1
    ensures 1 <= |Requests(s, start, need)| <= PageCount(s)
    ensures |ItemsOfPages(s, |Requests(s, start, need)| - 1)| < need
    ensures |Requests(s, start, need)| < PageCount(s) ==>
      need <= |ItemsOfPages(s, |Requests(s, start, need)|)|
  {
    match s
    case Fails(_) =>
    case LastPage(_) =>
    case MorePages(items, key, rest) =>
      if !Reached(need, |items|) {
        RequestsAreMinimal(rest, Some(key), need - |items|);
      }
  }

  lemma {:induction false} RequestsAtMostPages(s: Store, start: Option<Key>, need: int)
    ensures 1 <= |Requests(s, start, need)| <= PageCount(s)
  {
    match s
    case Fails(_) =>
    case LastPage(_) =>
    case MorePages(items, key, rest) =>
      if !Reached(need, |items|) {
        RequestsAtMostPages(rest, Some(key), need - |items|);
      }
  }

  /** The continuation key of page `k`, when that page has one. */
  function KeyOfPage(s: Store, k: nat): Key
    requires k < PageCount(s) - 1
  {
    match s
    case MorePages(_, key, rest) => if k == 0 then key else KeyOfPage(rest, k - 1)
  }

  /**
   * The first query carries the start key it was given (none, for a fresh
   * fetch) and each later query carries the `LastEvaluatedKey` of the page
   * before it.
   */
  lemma {:induction false} RequestsFollowKeys(s: Store, start: Option<Key>, need: int, k: nat)
    requires 0 < k < |Requests(s, start, need)|
    ensures s.MorePages? && Requests(s, start, need)[0] == start
    ensures |Requests(s, start, need)| <= PageCount(s)
    ensures Requests(s, start, need)[k] == Some(KeyOfPage(s, k - 1))
  {
    RequestsAtMostPages(s, start, need);
    match s
    case MorePages(items, key, rest) =>
      if k > 1 {
        RequestsFollowKeys(rest, Some(key), need - |items|, k - 1);
      }
  }

  /**
   * How the store splits its records into pages does not change what a fetch
   * returns: two stores with the same records and the same ending agree.
   */
  lemma PaginationIsTransparent(s1: Store, s2: Store, numberOfAlarms: int)
    requires Items(s1) == Items(s2) && EndsInError(s1) == EndsInError(s2)
    requires EndsInError(s1) ==> ErrorOf(s1) == ErrorOf(s2)
    ensures Fetched(s1, numberOfAlarms) == Fetched(s2, numberOfAlarms)
  {
  }
}

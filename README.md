# smart-zoneminder: alarm queries and object-detection bookkeeping

This project models two parts of smart-zoneminder in Dafny.

The first is the logic of the Alexa skill (`aws-lambda/alexa-smart-zoneminder/index.js`) that works out which alarm frames to show:

- `findLatestAlarms` builds a DynamoDB query over `ZmAlarmFrames` and reads it page by page until it has the requested number of frames.
- `LastAlarm` and `Alarms` fan a query out to each camera, merge the tagged results into `queryResultArray`, and sort them by event time. `LastAlarm` then presents the latest record, while `Alarms` lists them.
- The camera-name and face-name lookups map spoken names to ZoneMinder monitor names and database face names.
- `Faces` chooses between the face-label and the object-label filter.
- `AlarmClip` picks the event and the frame range of the video clip.

The second is the bookkeeping of the TPU object-detection server (`tpu-servers/detect_servers_tpu.py`):

- `ReadLabelFile` turns a label-map file into a dictionary.
- `skip_inference` parses a ZoneMinder image path into a frame number and a monitor. It then decides whether the image is a frame shortly after the previous one and can reuse that frame's labels.
- The `detect_objects` loop produces one reply entry per image path. The inference itself is a function parameter.

Modules, one per file:

- `Wrappers` (`wrappers.dfy`): `Option`, `Result`, `Min`, `Max`.
- `AlarmFetch` (`alarm_fetch.dfy`): the query and the paginated fetch.
  - The store is a chain of pages. Each page either ends the chain, carries a `LastEvaluatedKey` leading to the next page, or is an error.
  - `Fetched` is the reference definition of a fetch's result.
  - `QueryExecute` (the recursion of `queryExecute` turned into a loop) is proved equal to it.
- `NameMaps` (`name_maps.dfy`): the two `forEach` lookups, proved against "last match, else default" functions.
- `AlarmMerge` (`alarm_merge.dfy`): the fan-out loop with its `queryCount` barrier, the stable sort by time, the latest pick of `LastAlarm` and the list of `Alarms`.
- `AlarmClip` (`alarm_clip.dfy`): the clip range in session and after a query.
- `Faces` (`faces.dfy`): the slot checks and the filter choice of `Faces`.
- `PyText` (`py_text.dfy`): the Python string operations this code relies on. These are `str.strip()`, `str.split(sep)`, `str.split(maxsplit=1)` and `int(str)`, each with round-trip lemmas.
- `LabelFile` (`label_file.dfy`): `ReadLabelFile`.
- `ObjectDetect` (`object_detect.dfy`): `skip_inference` and `detect_objects`.

Inputs the code reads from its environment become parameters:

- the DynamoDB table, as a function from `QueryParams` to `Store`;
- `configObj.cameras` and `configObj.faces`, as sequences;
- the session alarm and the Alexa slots, as `Option`s;
- whether the device has a display, as a `bool`;
- the label file's lines;
- `CON_IMG_SKIP`;
- reading and running inference on one image, as a function from a path to `Option` of labels.

## Model

| member | source | states |
|---|---|---|
| AlarmFetch.ProjectionExpression | aws-lambda/alexa-smart-zoneminder/index.js:848-864 | The projection starts with the five alarm-frame attributes. It adds `Labels`, and nothing else, exactly when a face or object name is given. |
| AlarmFetch.AttributeValues | aws-lambda/alexa-smart-zoneminder/index.js:849-864 | `:name` is the camera and `:state` is `"true"`. `:face` is added when a face is given; otherwise `:object` is added when an object is given. There are no other placeholders. |
| AlarmFetch.BuildQuery | aws-lambda/alexa-smart-zoneminder/index.js:845-873 | The query targets `ZmAlarmFrames`, newest first, keyed on the camera. Its projection is `ProjectionExpression`. Its filter passes a frame exactly when it is alerted and carries the face label (if a face is given), or else the object label (if an object is given). A given face makes the object name irrelevant. |
| AlarmFetch.Fetched | aws-lambda/alexa-smart-zoneminder/index.js:875-900 | A successful fetch is a prefix of the store's records, in store order. It holds `min(numberOfAlarms, total)` records when `numberOfAlarms >= 1`, and every record otherwise. It fails exactly when the pages end in an error before the target is reached, and then with that error page's own message. |
| AlarmFetch.CollectPage | aws-lambda/alexa-smart-zoneminder/index.js:885-891 | The page's records are appended in order. The loop stops right after the record that brings the count to `numberOfAlarms`, discarding the rest of the page. |
| AlarmFetch.QueryExecute | aws-lambda/alexa-smart-zoneminder/index.js:878-904 | The page loop returns exactly `Fetched` of the store. The start keys it sends are exactly `Requests`: no key at first, then each page's `LastEvaluatedKey`, and no page after the target is met. |
| AlarmFetch.OnResponse | aws-lambda/alexa-smart-zoneminder/index.js:879-900 | One query callback either ends the fetch with `Fetched` (on an error, the target, or a page without a key) or keeps the loop's progress invariant for the next page. |
| AlarmFetch.FindLatestAlarms | aws-lambda/alexa-smart-zoneminder/index.js:840-905 | The result is `Fetched` of the pages the table serves for `BuildQuery`, and the requests are exactly `Requests`. |
| AlarmFetch.RequestsAreMinimal | aws-lambda/alexa-smart-zoneminder/index.js:888-899 | With a target of at least one, every page before the last one requested holds fewer records than wanted. When the fetch stops before the store's last page, the pages it read hold enough. |
| AlarmFetch.RequestsFollowKeys | aws-lambda/alexa-smart-zoneminder/index.js:895-897 | The first query has no start key. Query `k` carries the `LastEvaluatedKey` of page `k-1`. |
| AlarmFetch.RequestsAtMostPages | aws-lambda/alexa-smart-zoneminder/index.js:895-899 | At least one query is sent, and never more than the store has pages. |
| NameMaps.AlexaCameraToZoneminderCamera | aws-lambda/alexa-smart-zoneminder/index.js:787-801 | The result is `''` when no camera lists the name. Otherwise it is the `zoneminderName` of the last camera that does. |
| NameMaps.AlexaFaceNameToDatabaseName | aws-lambda/alexa-smart-zoneminder/index.js:806-821 | The result is `'Unknown'` when no face lists the name. Otherwise it is the `databaseName` of the last face that does. |
| NameMaps.ToLowerCase | aws-lambda/alexa-smart-zoneminder/index.js:97 | Same length; ASCII capitals are mapped to small letters and every other character is kept. |
| AlarmMerge.InsertByDateTime | aws-lambda/alexa-smart-zoneminder/index.js:141-151 | Inserting into a list sorted ascending by time keeps it sorted and adds exactly that record. |
| AlarmMerge.SortByDateTime | aws-lambda/alexa-smart-zoneminder/index.js:141-151 | The sort with the `-1/1/0` comparator orders ascending by `ZmEventDateTime` and returns a permutation of its input. |
| AlarmMerge.SortKeepsOrderAtEachInstant | aws-lambda/alexa-smart-zoneminder/index.js:287-297 | The sort is stable: records with the same time keep their merged order. |
| AlarmMerge.FanOut | aws-lambda/alexa-smart-zoneminder/index.js:108-131 | The camera loop with `queryCount` gives exactly `GatherOutcome`. This is the first failed query, or else the tagged merge once every camera has answered, or nothing at all when there is no camera. |
| AlarmMerge.CollectedFailsIff | aws-lambda/alexa-smart-zoneminder/index.js:115-131 | Barrier: the merge fails exactly when some camera's query fails, so no merge or selection follows an error. |
| AlarmMerge.CollectedKeepsError | aws-lambda/alexa-smart-zoneminder/index.js:261-277 | Once a camera's query has failed, later cameras do not change the outcome. |
| AlarmMerge.TagMembers | aws-lambda/alexa-smart-zoneminder/index.js:269-273 | Tagging a camera's records gives exactly those records, each with that camera's `zoneminderName`. |
| AlarmMerge.CollectedHoldsEveryRecord | aws-lambda/alexa-smart-zoneminder/index.js:122-127 | The merged array holds every record each camera contributed (only the first in `LastAlarm`, all in `Alarms`), tagged with that camera, and nothing else. |
| AlarmMerge.LastOfSortedIsLatest | aws-lambda/alexa-smart-zoneminder/index.js:153-160 | The last element of an ascending sorted permutation of a non-empty list is in the list, and no element of the list is later. |
| AlarmMerge.LatestOf | aws-lambda/alexa-smart-zoneminder/index.js:133-208 | An empty merge gives "No alarms were found.". Otherwise the result is `Presented` for the element at the last index after the sort: a merged alarm whose time no merged alarm exceeds. |
| AlarmMerge.Presented | aws-lambda/alexa-smart-zoneminder/index.js:172-208 | Without a display the latest alarm is spoken. With one, a record without an S3 key gets "Sorry, I cannot complete the request.", and otherwise (a display and an S3 key) exactly that record's image is shown. |
| AlarmMerge.ListOf | aws-lambda/alexa-smart-zoneminder/index.js:279-301 | An empty merge gives "No alarms were found.". Otherwise the list is the merge sorted ascending, a permutation of it, stable at each time. |
| AlarmMerge.ZoneminderNames | aws-lambda/alexa-smart-zoneminder/index.js:93-94 | The monitors of every configured camera, in configuration order. |
| AlarmMerge.LastAlarm | aws-lambda/alexa-smart-zoneminder/index.js:86-208 | With no camera named, the result is the latest of at most one record per configured camera (none from a camera without alarms). With a name, it is the latest record of the camera the name maps to, or the bad-name apology. The latest is presented as `Presented` says. |
| AlarmMerge.Alarms | aws-lambda/alexa-smart-zoneminder/index.js:226-297 | Without a display the answer is "Sorry, I need a display to do that.". With no camera named, the list holds at most one record per configured camera (none from a camera without alarms). With a name, it holds at most ten records of that camera, or the bad-name apology. Either way it is sorted ascending. |
| AlarmClip.SessionClip | aws-lambda/alexa-smart-zoneminder/index.js:454-461 | The in-session clip is at most 200 frames long. For a non-negative frame it starts at or after 0 and contains the alarm frame. |
| AlarmClip.InSessionRange | aws-lambda/alexa-smart-zoneminder/index.js:449-461 | The reassignments give the event, `max(0, last-100)` and `last+100`. |
| AlarmClip.FirstFrameOfEvent | aws-lambda/alexa-smart-zoneminder/index.js:532-538 | The result is the frame of the last record of the event, or 0 when no record belongs to it. |
| AlarmClip.PaddedRange | aws-lambda/alexa-smart-zoneminder/index.js:540-557 | After padding and limiting, a clip is at most 500 frames long. A well-formed non-negative range stays well formed and non-negative. |
| AlarmClip.PadAndLimit | aws-lambda/alexa-smart-zoneminder/index.js:540-557 | The reassignments, including `startFrame -= startFrame`, give `start = max(0, s-20)`. The end becomes `2e` below 20 and `e+20` otherwise, cut to `start+500`. |
| AlarmClip.ClipFromAlarms | aws-lambda/alexa-smart-zoneminder/index.js:528-557 | The clip's event is that of the newest record. Its range is the padded range from the last record of that event to the newest record. |
| AlarmClip.HandleAlarmClip | aws-lambda/alexa-smart-zoneminder/index.js:448-557 | A session alarm gives the in-session clip. Otherwise the outcomes come in order: bad camera name, query error, no alarms, no display, then the padded clip of the latest event. |
| Faces.SlotCheckAsWritten | aws-lambda/alexa-smart-zoneminder/index.js:597-612 | As written, the apology is given exactly when the face slot is absent. An absent camera slot with a face present throws. |
| Faces.AbsentCameraSlotThrows | aws-lambda/alexa-smart-zoneminder/index.js:599 | A request with a face and no camera reaches `cameraName.toLowerCase()` and throws. |
| Faces.SlotCheck | aws-lambda/alexa-smart-zoneminder/index.js:597-612 | As intended, either absent slot gets the apology, nothing throws, and present slots pass through unchanged. |
| Faces.ChooseSearch | aws-lambda/alexa-smart-zoneminder/index.js:628-640 | Exactly one of the two filters is chosen. The object filter is chosen exactly for `'dog'`. `'Unknown'` is spoken as `'stranger'`. |
| Faces.HandleFaces | aws-lambda/alexa-smart-zoneminder/index.js:583-654 | The outcomes come in order: display check, slot checks, camera lookup, then the query error, no alarms, or at most ten frames from the query whose filter keeps alerted frames labelled with the database name of the spoken face (an object label for the dog, a face label otherwise). |
| PyText.Strip | tpu-servers/detect_servers_tpu.py:81-82 | Stripping is empty exactly for blank text, and otherwise neither starts nor ends with whitespace. `strip()` uses the `str.isspace` set; `int()` uses that set without U+001C to U+001F. |
| PyText.StripOfPadded | tpu-servers/detect_servers_tpu.py:81 | Stripping text padded with whitespace gives the text back. |
| PyText.StripIdempotent | tpu-servers/detect_servers_tpu.py:82 | Stripping twice is stripping once. |
| PyText.Split | tpu-servers/detect_servers_tpu.py:128-129 | `split(sep)` gives at least one piece, and no piece contains the separator. |
| PyText.JoinSplit | tpu-servers/detect_servers_tpu.py:128-129 | Joining the pieces of `split(sep)` with `sep` gives the string back. |
| PyText.SplitJoin | tpu-servers/detect_servers_tpu.py:128-129 | Splitting a join of separator-free pieces gives the pieces back. |
| PyText.SplitOnce | tpu-servers/detect_servers_tpu.py:81 | `split(maxsplit=1)` is empty exactly for blank text. It gives at most two non-empty pieces, the first without whitespace and the second not starting with whitespace. |
| PyText.SplitOnceOfPair | tpu-servers/detect_servers_tpu.py:81 | Any leading whitespace, a word, any non-empty run of whitespace and a remainder that starts with no whitespace split into exactly that word and that remainder. |
| PyText.SplitOnceOfWord | tpu-servers/detect_servers_tpu.py:81 | A single word with any whitespace around it splits into that word alone. |
| PyText.ParseIntLiteral | tpu-servers/detect_servers_tpu.py:82 | `int()` of stripped text accepts an optional sign and ASCII digits with single underscores between them, exactly. |
| PyText.PyInt | tpu-servers/detect_servers_tpu.py:82 | `int()` ignores the surrounding whitespace it skips (not U+001C to U+001F) and otherwise accepts exactly the literal form. |
| PyText.IntKeepsFileSeparator | tpu-servers/detect_servers_tpu.py:128 | U+001C before the digits is removed by `strip()` but makes `int()` raise ValueError. |
| PyText.PyIntOfDecimalString | tpu-servers/detect_servers_tpu.py:82 | `int(str(n)) == n` for every integer. |
| PyText.PyIntOfDigits | tpu-servers/detect_servers_tpu.py:128 | `int()` of a non-empty digit string is its decimal value. |
| LabelFile.ParseLabelLine | tpu-servers/detect_servers_tpu.py:81-82 | A line with fewer than two words raises IndexError, checked before the id. A non-numeric id raises ValueError. Otherwise the entry is `int(pair[0])` with `pair[1].strip()`, which is non-empty and trimmed. |
| LabelFile.ReadLabelFile | tpu-servers/detect_servers_tpu.py:76-84 | The dictionary loop gives `LabelMap` of the parsed lines. |
| LabelFile.LabelMapFailsAtFirstBadLine | tpu-servers/detect_servers_tpu.py:80-83 | Reading fails exactly when some line is bad, with the exception of the first bad line. |
| LabelFile.LabelMapKeys | tpu-servers/detect_servers_tpu.py:80-83 | The keys are exactly the ids of the lines. |
| LabelFile.LabelMapLastLineWins | tpu-servers/detect_servers_tpu.py:83 | Each id maps to the name on its last line: a later line overwrites an earlier one. |
| LabelFile.ParseSeparatedLine | tpu-servers/detect_servers_tpu.py:81-82 | A line made of a whitespace-free word that `int()` reads as `id`, any non-empty run of whitespace (spaces, tabs, ...) and a trimmed name, with any whitespace around it, gives the entry `id -> name`. |
| LabelFile.ParseOneWordLine | tpu-servers/detect_servers_tpu.py:81-82 | A line holding a single word, with any whitespace around it, raises IndexError whatever that word is. |
| LabelFile.ParseFormattedLine | tpu-servers/detect_servers_tpu.py:81-82 | Reading back the line `str(id) + " " + name + "\n"` gives the entry, for any name without surrounding whitespace. |
| ObjectDetect.ParsesAlarmImagePath | tpu-servers/detect_servers_tpu.py:119-129 | For a path of the documented form, the frame number is the integer before the first `-` of the file name, and the monitor is component 4. |
| ObjectDetect.Skip | tpu-servers/detect_servers_tpu.py:123-151 | A parse failure appends one entry without labels and skips. On a successful parse, the image is skipped with one entry carrying the previous labels exactly when it comes from the same monitor and `0 < frame - old <= CON_IMG_SKIP`; otherwise nothing is appended. Either way the new frame and monitor are returned. |
| ObjectDetect.SkipInference | tpu-servers/detect_servers_tpu.py:117-151 | The function returns `Skip`'s decision on the parsed path and appends exactly `Skip`'s entries to the caller's list. |
| ObjectDetect.ObjectsInImage.Append | tpu-servers/detect_servers_tpu.py:132 | Appending adds one entry at the end. |
| ObjectDetect.DetectOne | tpu-servers/detect_servers_tpu.py:165-203 | One loop iteration performs `Step` on the carried variables and appends exactly `Step`'s entry. |
| ObjectDetect.DetectObjects | tpu-servers/detect_servers_tpu.py:155-204 | The reply is what `Run` describes for the paths in order. |
| ObjectDetect.RunOneEntryPerPath | tpu-servers/detect_servers_tpu.py:161-203 | There is exactly one reply entry per path, in path order. |
| ObjectDetect.RunLabelsComeFromInference | tpu-servers/detect_servers_tpu.py:174-203 | Every label list, carried or reported, is empty or is what inference returned for that path or an earlier one. |
| ObjectDetect.StepChangesLabelsOnlyByInference | tpu-servers/detect_servers_tpu.py:165-203 | The carried labels change only when inference runs: a skipped or unreadable image leaves them as they were, and changed labels are inference's result for that image. |
| ObjectDetect.InferenceResultIsReported | tpu-servers/detect_servers_tpu.py:174-203 | An image that is not skipped gets inference's labels, which are carried on. An unreadable image gets no labels and keeps the previous ones. |

Where the comments and the code disagree, the model follows the code:

- The comments at `index.js:140` and `index.js:286` say the sort is descending. The comparator sorts ascending, and the latest alarm is the one at the last index.
- `startFrame -= startFrame` (`index.js:542`) is not a no-op: it sets a start under 20 to 0.
- `ret[int(pair[0])] = pair[1].strip()` evaluates its right-hand side first. A one-word line therefore raises IndexError even when that word is not a number.

## Left out

- The DynamoDB document client, HTTPS, S3, the display templates, the speech text and `delegateToAlexa` are I/O or foreign SDK calls. The table is a parameter, and the outcomes are datatypes naming the answer given.
- Filter and projection strings are modelled as their structure (a `Condition` tree and a list of attribute names), not as text. DynamoDB's evaluation of `contains` is `Holds`.
- `ZmEventDateTime` is modelled as the instant `new Date(...)` yields. Date parsing, `timeConverter` and time zones are left out.
- The fan-out is sequential: `forEach` with callbacks and `Promise.all` is concurrent-looking I/O. In a real run, another camera's callback may still push records after an error response has been sent; the model stops at the first failed query in camera order. The model also appends each camera's records to `queryResultArray` in camera order, where the source appends them in callback arrival order; since the sort is stable, records with equal `ZmEventDateTime` are listed by `Alarms`, and picked by `LastAlarm`, in camera order rather than arrival order.
- AlarmMerge.SortByDateTime: `Array.prototype.sort` sorts `queryResultArray` in place. It is modelled as a stable insertion sort function on the sequence, so aliasing and in-place update are not modelled. Stability matches the behaviour the ECMAScript 2019 specification requires.
- NameMaps.ToLowerCase: only ASCII letters are folded, not the full Unicode case mapping of `String.prototype.toLowerCase`.
- PyText.PyInt: Unicode decimal digits other than ASCII, and bases other than 10, are not modelled. Whitespace outside ASCII is skipped as `int()` does after turning it into spaces. The limit on the number of digits of Python 3.11 and later (`sys.get_int_max_str_digits()`, 4300 by default, beyond which `int()` raises ValueError) is not modelled: `PyInt` accepts a literal of any length.
- Faces.HandleFaces uses the corrected slot check (see Findings). The crash of the as-written check is modelled by Faces.SlotCheckAsWritten only.
- `readlines()` and file opening are left out. `ReadLabelFile` takes the lines.
- Object inference, image reading and resizing, the score threshold, box scaling and the `labels_map` lookup inside inference are float arithmetic or foreign calls. All of them are the `readAndDetect` parameter, so a `KeyError` raised there is not modelled.
- `json.dumps` of the reply is left out. `DetectObjects` returns the list.
- The URL path sent to `gen-vid.py` is left out; the clip request carries the event and the two frames.
- The face-detection server, svm classification and `variance_of_laplacian` are not part of this model.

## Findings

| source | as written | input that shows it | evidently intended | confidence | as-written member | corrected member |
|---|---|---|---|---|---|---|
| aws-lambda/alexa-smart-zoneminder/index.js:599 | `typeof cameraName === undefined` compares a string with the value `undefined`, so it never holds | A `Faces` request with a `Name` slot and no `Location` slot: the check passes and `cameraName.toLowerCase()` throws a TypeError | `typeof cameraName === 'undefined'`, as on line 607, so that the request gets "Sorry, I cannot complete the request." | not executed | Faces.SlotCheckAsWritten (Faces.AbsentCameraSlotThrows) | Faces.SlotCheck |

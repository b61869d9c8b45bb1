/**
 * The object-detection service of the TPU server: for each alarm image path
 * either repeat the previous labels (a frame shortly after the previous one
 * of the same monitor), report no labels (a path it cannot parse or an image
 * it cannot read), or run inference.
 */
module ObjectDetect {
  import opened Wrappers
  import opened PyText

  /** One detected object: its label id and name (score and box are not modelled). */
  datatype ObjectLabel = ObjectLabel(id: int, name: string)

  /** One entry of the reply: `{'image': path, 'labels': labels}`. */
  datatype ImageObjects = ImageObjects(image: string, labels: seq<ObjectLabel>)

  // ---------------------------------------------------------------------------
  // Alarm image paths
  // ---------------------------------------------------------------------------

  /** `int((image_path.split('/')[-1]).split('-')[0])`, or ValueError (`None`). */
  function ParseFrameNum(imagePath: string): Option<int> {
    var parts := Split(imagePath, '/');
    PyInt(Split(parts[|parts| - 1], '-')[0])
  }

  /** `image_path.split('/')[4]`, or IndexError (`None`). */
  function ParseMonitor(imagePath: string): Option<string> {
    var parts := Split(imagePath, '/');
    if |parts| > 4 then Some(parts[4]) else None
  }

  /**
   * A path of the documented form — directories whose fifth component (the
   * first is the empty one before the leading '/') is the monitor, then a
   * file named by its frame digits, '-' and the rest — yields that frame
   * number and that monitor.
   */
  lemma ParsesAlarmImagePath(dirs: seq<string>, frameDigits: string, fileRest: string)
    requires |dirs| >= 5 && forall i | 0 <= i < |dirs| :: '/' !in dirs[i]
    requires frameDigits != [] && forall k | 0 <= k < |frameDigits| :: IsDigit(frameDigits[k])
    requires '/' !in fileRest
    ensures var path := Join(dirs + [frameDigits + "-" + fileRest], '/');
      && ParseFrameNum(path) == Some(DigitsValue(frameDigits))
      && ParseMonitor(path) == Some(dirs[4])
  {
    var file := frameDigits + "-" + fileRest;
    PathComponents(dirs, frameDigits, fileRest);
    FrameFieldOfFile(frameDigits, fileRest);
    PyIntOfDigits(frameDigits);
  }

  /** The '/'-split of such a path gives back its components. */
  lemma PathComponents(dirs: seq<string>, frameDigits: string, fileRest: string)
    requires forall i | 0 <= i < |dirs| :: '/' !in dirs[i]
    requires forall k | 0 <= k < |frameDigits| :: IsDigit(frameDigits[k])
    requires '/' !in fileRest
    ensures Split(Join(dirs + [frameDigits + "-" + fileRest], '/'), '/') == dirs + [frameDigits + "-" + fileRest]
  {
    var file := frameDigits + "-" + fileRest;
    var parts := dirs + [file];
    assert '/' !in file by {
      forall k | 0 <= k < |file| ensures file[k] != '/' {
        if k < |frameDigits| { assert file[k] == frameDigits[k]; }
        else if k > |frameDigits| { assert file[k] == fileRest[k - |frameDigits| - 1]; }
      }
    }
    forall i | 0 <= i < |parts| ensures '/' !in parts[i] {
      if i < |dirs| { assert parts[i] == dirs[i]; }
    }
    SplitJoin(parts, '/');
  }

  /** The field before the first '-' of a file name made of digits, '-' and the rest is the digits. */
  lemma FrameFieldOfFile(frameDigits: string, fileRest: string)
    requires forall k | 0 <= k < |frameDigits| :: IsDigit(frameDigits[k])
    ensures Split(frameDigits + "-" + fileRest, '-')[0] == frameDigits
  {
    assert '-' !in frameDigits by {
      forall k | 0 <= k < |frameDigits| ensures frameDigits[k] != '-' { assert IsDigit(frameDigits[k]); }
    }
    assert frameDigits + "-" + fileRest == frameDigits + ("-" + fileRest);
    SplitOfPiece(frameDigits, "-" + fileRest, '-');
    assert ("-" + fileRest)[1..] == fileRest;
    assert Split("-" + fileRest, '-')[0] == "";
    assert frameDigits + "" == frameDigits;
  }

  // ---------------------------------------------------------------------------
  // skip_inference
  // ---------------------------------------------------------------------------

  /** What the `try` block of `skip_inference` derives from a path: the frame number, then the monitor. */
  datatype PathInfo = PathInfo(frameNum: Option<int>, monitor: Option<string>)

  function ParsePath(imagePath: string): PathInfo {
    PathInfo(ParseFrameNum(imagePath), ParseMonitor(imagePath))
  }

  /** What `skip_inference` decides and appends. */
  datatype SkipDecision = SkipDecision(skip: bool, frameNum: int, monitor: string, appended: seq<ImageObjects>)

  /**
   * The skip rule, given what the path yields.  A path it cannot parse gets
   * one entry without labels and is skipped; the frame number is kept when
   * it failed to parse, and is already the new one when only the monitor
   * failed.  Otherwise the new frame number and monitor are returned, and
   * the image is skipped with one entry carrying the previous labels exactly
   * when it is from the same monitor and 1 to `conImgSkip` frames after the
   * previous one.
   */
  function Skip(frameNum: int, monitor: string, labels: seq<ObjectLabel>, imagePath: string, info: PathInfo,
                conImgSkip: int): (d: SkipDecision)
    ensures d.skip <==> |d.appended| == 1
    ensures |d.appended| <= 1 && forall e | e in d.appended :: e.image == imagePath
    ensures info.frameNum.None? ==>
      d == SkipDecision(true, frameNum, monitor, [ImageObjects(imagePath, [])])
    ensures info.frameNum.Some? && info.monitor.None? ==>
      d == SkipDecision(true, info.frameNum.value, monitor, [ImageObjects(imagePath, [])])
    ensures info.frameNum.Some? && info.monitor.Some? ==>
      && d.frameNum == info.frameNum.value
      && d.monitor == info.monitor.value
      && (d.skip <==> d.monitor == monitor && 0 < d.frameNum - frameNum <= conImgSkip)
      && (d.skip ==> d.appended == [ImageObjects(imagePath, labels)])
  {
    match info
    case PathInfo(None, _) => SkipDecision(true, frameNum, monitor, [ImageObjects(imagePath, [])])
    case PathInfo(Some(newFrame), None) => SkipDecision(true, newFrame, monitor, [ImageObjects(imagePath, [])])
    case PathInfo(Some(newFrame), Some(newMonitor)) =>
      var frameDiff := newFrame - frameNum;
      if newMonitor == monitor && frameDiff > 0 && frameDiff <= conImgSkip then
        SkipDecision(true, newFrame, newMonitor, [ImageObjects(imagePath, labels)])
      else
        SkipDecision(false, newFrame, newMonitor, [])
  }

  /** The `objects_in_image` list the server fills and finally serialises. */
  class ObjectsInImage {
    var entries: seq<ImageObjects>

    constructor ()
      ensures entries == []
    {
      entries := [];
    }

    method Append(entry: ImageObjects)
      modifies this
      ensures entries == old(entries) + [entry]
    {
      entries := entries + [entry];
    }
  }

  /** `skip_inference`, appending to the caller's list. */
  method SkipInference(frameNum: int, monitor: string, labels: seq<ObjectLabel>, imagePath: string,
                       conImgSkip: int, objectsInImage: ObjectsInImage)
    returns (skip: bool, newFrameNum: int, newMonitor: string)
    modifies objectsInImage
    ensures var d := Skip(frameNum, monitor, labels, imagePath, ParsePath(imagePath), conImgSkip);
      && (skip, newFrameNum, newMonitor) == (d.skip, d.frameNum, d.monitor)
      && objectsInImage.entries == old(objectsInImage.entries) + d.appended
  {
    var oldFrameNum := frameNum;
    var oldMonitor := monitor;
    skip := false;
    newFrameNum, newMonitor := frameNum, monitor;
    var parsedFrame := ParseFrameNum(imagePath);
    if parsedFrame.None? {
      objectsInImage.Append(ImageObjects(imagePath, []));
      return true, newFrameNum, newMonitor;
    }
    newFrameNum := parsedFrame.value;
    var parsedMonitor := ParseMonitor(imagePath);
    if parsedMonitor.None? {
      objectsInImage.Append(ImageObjects(imagePath, []));
      return true, newFrameNum, newMonitor;
    }
    newMonitor := parsedMonitor.value;
    if newMonitor == oldMonitor {
      var frameDiff := newFrameNum - oldFrameNum;
      if frameDiff > 0 {
        if frameDiff <= conImgSkip {
          objectsInImage.Append(ImageObjects(imagePath, labels));
          skip := true;
        }
      }
    }
  }

  // ---------------------------------------------------------------------------
  // detect_objects
  // ---------------------------------------------------------------------------

  /** The loop's carried variables `frame_num`, `monitor` and `labels`. */
  datatype DetectState = DetectState(frameNum: int, monitor: string, labels: seq<ObjectLabel>)

  const INITIAL_STATE := DetectState(0, "", [])

  /**
   * One path: the skip rule first; then `readAndDetect` stands for reading
   * the image (`None` when OpenCV returns no image) and running inference
   * with the score threshold.  Only inference replaces the carried labels.
   */
  datatype Stepped = Stepped(state: DetectState, entry: ImageObjects)

  function Step(st: DetectState, imagePath: string, parse: string -> PathInfo, conImgSkip: int,
                readAndDetect: string -> Option<seq<ObjectLabel>>): Stepped
  {
    var d := Skip(st.frameNum, st.monitor, st.labels, imagePath, parse(imagePath), conImgSkip);
    if d.skip then Stepped(DetectState(d.frameNum, d.monitor, st.labels), d.appended[0])
    else match readAndDetect(imagePath)
      case None => Stepped(DetectState(d.frameNum, d.monitor, st.labels), ImageObjects(imagePath, []))
      case Some(detected) => Stepped(DetectState(d.frameNum, d.monitor, detected), ImageObjects(imagePath, detected))
  }

  datatype Ran = Ran(state: DetectState, reply: seq<ImageObjects>)

  /** The carried variables and the reply after the paths, in order. */
  function Run(paths: seq<string>, parse: string -> PathInfo, conImgSkip: int,
               readAndDetect: string -> Option<seq<ObjectLabel>>)
    : Ran
  {
    if paths == [] then Ran(INITIAL_STATE, [])
    else
      var before := Run(paths[..|paths| - 1], parse, conImgSkip, readAndDetect);
      var step := Step(before.state, paths[|paths| - 1], parse, conImgSkip, readAndDetect);
      Ran(step.state, before.reply + [step.entry])
  }

  lemma RunExtends(paths: seq<string>, n: nat, parse: string -> PathInfo, conImgSkip: int,
                   readAndDetect: string -> Option<seq<ObjectLabel>>)
    requires n < |paths|
    ensures var before := Run(paths[..n], parse, conImgSkip, readAndDetect);
      var step := Step(before.state, paths[n], parse, conImgSkip, readAndDetect);
      Run(paths[..n + 1], parse, conImgSkip, readAndDetect) == Ran(step.state, before.reply + [step.entry])
  {
    assert paths[..n + 1][..n] == paths[..n];
  }

  /** One iteration of the loop of `detect_objects`: `Step` on the carried variables. */
  method DetectOne(imagePath: string, frameNum: int, monitor: string, labels: seq<ObjectLabel>, conImgSkip: int,
                   readAndDetect: string -> Option<seq<ObjectLabel>>, objectsInImage: ObjectsInImage)
    returns (frameNum': int, monitor': string, labels': seq<ObjectLabel>)
    modifies objectsInImage
    ensures var step := Step(DetectState(frameNum, monitor, labels), imagePath, ParsePath, conImgSkip, readAndDetect);
      && DetectState(frameNum', monitor', labels') == step.state
      && objectsInImage.entries == old(objectsInImage.entries) + [step.entry]
  {
    ghost var d := Skip(frameNum, monitor, labels, imagePath, ParsePath(imagePath), conImgSkip);
    var skip;
    skip, frameNum', monitor' := SkipInference(frameNum, monitor, labels, imagePath, conImgSkip, objectsInImage);
    labels' := labels;
    if skip {
      assert d.appended == [d.appended[0]];
      return;
    }
    var img := readAndDetect(imagePath);
    if img.None? {
      objectsInImage.Append(ImageObjects(imagePath, []));
      return;
    }
    labels' := img.value;
    objectsInImage.Append(ImageObjects(imagePath, labels'));
  }

  /**
   * `ObjDetectRPC.detect_objects`, returning the list it serialises: the
   * reply `Run` describes.
   */
  method DetectObjects(testImagePaths: seq<string>, conImgSkip: int,
                       readAndDetect: string -> Option<seq<ObjectLabel>>)
    returns (reply: seq<ImageObjects>)
    ensures reply == Run(testImagePaths, ParsePath, conImgSkip, readAndDetect).reply
  {
    var objectsInImage := new ObjectsInImage();
    var labels: seq<ObjectLabel> := [];
    var frameNum := 0;
    var monitor := "";
    for n := 0 to |testImagePaths|
      invariant Run(testImagePaths[..n], ParsePath, conImgSkip, readAndDetect)
        == Ran(DetectState(frameNum, monitor, labels), objectsInImage.entries)
    {
      RunExtends(testImagePaths, n, ParsePath, conImgSkip, readAndDetect);
      frameNum, monitor, labels :=
        DetectOne(testImagePaths[n], frameNum, monitor, labels, conImgSkip, readAndDetect, objectsInImage);
    }
    assert testImagePaths[..|testImagePaths|] == testImagePaths;
    reply := objectsInImage.entries;
  }

  /** One entry per path, in the order of the paths. */
  lemma {:induction false} RunOneEntryPerPath(paths: seq<string>, parse: string -> PathInfo, conImgSkip: int,
                                              readAndDetect: string -> Option<seq<ObjectLabel>>)
    ensures var out := Run(paths, parse, conImgSkip, readAndDetect).reply;
      |out| == |paths| && forall i | 0 <= i < |paths| :: out[i].image == paths[i]
  {
    if paths != [] {
      RunOneEntryPerPath(paths[..|paths| - 1], parse, conImgSkip, readAndDetect);
    }
  }

  /**
   * Labels only ever come from inference: the carried labels and the labels
   * of every entry are empty or what inference returned for that path or an
   * earlier one.
   */
  lemma {:induction false} RunLabelsComeFromInference(paths: seq<string>, parse: string -> PathInfo, conImgSkip: int,
                                                      readAndDetect: string -> Option<seq<ObjectLabel>>)
    ensures var run := Run(paths, parse, conImgSkip, readAndDetect);
      var st, out := run.state, run.reply;
      && (st.labels == [] || exists j | 0 <= j < |paths| :: readAndDetect(paths[j]) == Some(st.labels))
      && |out| == |paths|
      && forall i | 0 <= i < |out| ::
           out[i].labels == [] || exists j | 0 <= j <= i :: readAndDetect(paths[j]) == Some(out[i].labels)
  {
    if paths != [] {
      var prefix := paths[..|paths| - 1];
      RunLabelsComeFromInference(prefix, parse, conImgSkip, readAndDetect);
      assert forall j | 0 <= j < |prefix| :: prefix[j] == paths[j];
    }
  }

  /**
   * The carried labels change only when inference runs: a skipped image or
   * one that cannot be read leaves them as they were, and new labels are
   * what inference returned for this image.
   */
  lemma StepChangesLabelsOnlyByInference(st: DetectState, imagePath: string, parse: string -> PathInfo,
                                         conImgSkip: int, readAndDetect: string -> Option<seq<ObjectLabel>>)
    ensures var skip := Skip(st.frameNum, st.monitor, st.labels, imagePath, parse(imagePath), conImgSkip).skip;
      var step := Step(st, imagePath, parse, conImgSkip, readAndDetect);
      && (skip || readAndDetect(imagePath).None? ==> step.state.labels == st.labels)
      && (step.state.labels != st.labels ==> !skip && readAndDetect(imagePath) == Some(step.state.labels))
  {
  }

  /** An image that is read and not skipped gets what inference found, and those labels are carried on. */
  lemma InferenceResultIsReported(st: DetectState, imagePath: string, parse: string -> PathInfo, conImgSkip: int,
                                  readAndDetect: string -> Option<seq<ObjectLabel>>)
    requires !Skip(st.frameNum, st.monitor, st.labels, imagePath, parse(imagePath), conImgSkip).skip
    ensures var step := Step(st, imagePath, parse, conImgSkip, readAndDetect);
      && step.entry.image == imagePath
      && (readAndDetect(imagePath).Some? ==>
            step.entry.labels == step.state.labels == readAndDetect(imagePath).value)
      && (readAndDetect(imagePath).None? ==> step.entry.labels == [] && step.state.labels == st.labels)
  {
  }
}

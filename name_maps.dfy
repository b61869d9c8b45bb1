/**
 * The configuration lookups of the voice skill: spoken camera names to
 * ZoneMinder monitor names, and spoken face names to the names the face
 * recogniser stores.  Both scan the whole table and keep the last match.
 */
module NameMaps {

  datatype CameraConfig = CameraConfig(zoneminderName: string, friendlyNames: seq<string>)

  datatype FaceConfig = FaceConfig(databaseName: string, friendlyNames: seq<string>)

  /** The monitor of the last camera that lists `alexaCameraName`, or "" when none does. */
  function CameraFor(alexaCameraName: string, cameras: seq<CameraConfig>): string {
    if cameras == [] then ""
    else if alexaCameraName in cameras[|cameras| - 1].friendlyNames then cameras[|cameras| - 1].zoneminderName
    else CameraFor(alexaCameraName, cameras[..|cameras| - 1])
  }

  /** The database name of the last face entry that lists `alexaFaceName`, or "Unknown" when none does. */
  function FaceFor(alexaFaceName: string, faces: seq<FaceConfig>): string {
    if faces == [] then "Unknown"
    else if alexaFaceName in faces[|faces| - 1].friendlyNames then faces[|faces| - 1].databaseName
    else FaceFor(alexaFaceName, faces[..|faces| - 1])
  }

  /**
   * `alexaCameraToZoneminderCamera`: "" when no camera lists the name among
   * its friendly names; otherwise the monitor name of the last camera that
   * does.
   */
  method AlexaCameraToZoneminderCamera(alexaCameraName: string, cameras: seq<CameraConfig>)
    returns (zoneminderCameraName: string)
    ensures zoneminderCameraName == CameraFor(alexaCameraName, cameras)
    ensures (forall i | 0 <= i < |cameras| :: alexaCameraName !in cameras[i].friendlyNames) ==>
      zoneminderCameraName == ""
    ensures forall i | 0 <= i < |cameras| && alexaCameraName in cameras[i].friendlyNames ::
      exists k | i <= k < |cameras| ::
        && alexaCameraName in cameras[k].friendlyNames
        && zoneminderCameraName == cameras[k].zoneminderName
        && forall j | k < j < |cameras| :: alexaCameraName !in cameras[j].friendlyNames
  {
    zoneminderCameraName := "";
    ghost var last := -1;
    for n := 0 to |cameras|
      invariant zoneminderCameraName == CameraFor(alexaCameraName, cameras[..n])
      invariant -1 <= last < n
      invariant last == -1 ==>
        zoneminderCameraName == "" &&
        forall i | 0 <= i < n :: alexaCameraName !in cameras[i].friendlyNames
      invariant last >= 0 ==>
        && alexaCameraName in cameras[last].friendlyNames
        && zoneminderCameraName == cameras[last].zoneminderName
        && forall j | last < j < n :: alexaCameraName !in cameras[j].friendlyNames
    {
      assert cameras[..n + 1][..n] == cameras[..n];
      var isValidCamera := alexaCameraName in cameras[n].friendlyNames;
      if isValidCamera {
        zoneminderCameraName := cameras[n].zoneminderName;
        last := n;
      }
    }
    assert cameras[..|cameras|] == cameras;
  }

  /**
   * `alexaFaceNameToDatabaseName`: "Unknown" when no face entry lists the
   * name; otherwise the database name of the last entry that does.
   */
  method AlexaFaceNameToDatabaseName(alexaFaceName: string, faces: seq<FaceConfig>)
    returns (databaseFaceName: string)
    ensures databaseFaceName == FaceFor(alexaFaceName, faces)
    ensures (forall i | 0 <= i < |faces| :: alexaFaceName !in faces[i].friendlyNames) ==>
      databaseFaceName == "Unknown"
    ensures forall i | 0 <= i < |faces| && alexaFaceName in faces[i].friendlyNames ::
      exists k | i <= k < |faces| ::
        && alexaFaceName in faces[k].friendlyNames
        && databaseFaceName == faces[k].databaseName
        && forall j | k < j < |faces| :: alexaFaceName !in faces[j].friendlyNames
  {
    databaseFaceName := "Unknown";
    ghost var last := -1;
    for n := 0 to |faces|
      invariant databaseFaceName == FaceFor(alexaFaceName, faces[..n])
      invariant -1 <= last < n
      invariant last == -1 ==>
        databaseFaceName == "Unknown" &&
        forall i | 0 <= i < n :: alexaFaceName !in faces[i].friendlyNames
      invariant last >= 0 ==>
        && alexaFaceName in faces[last].friendlyNames
        && databaseFaceName == faces[last].databaseName
        && forall j | last < j < n :: alexaFaceName !in faces[j].friendlyNames
    {
      assert faces[..n + 1][..n] == faces[..n];
      var isValidFace := alexaFaceName in faces[n].friendlyNames;
      if isValidFace {
        databaseFaceName := faces[n].databaseName;
        last := n;
      }
    }
    assert faces[..|faces|] == faces;
  }

  /** JavaScript's `toLowerCase` on the ASCII letters. */
  function ToLowerCase(s: string): (r: string)
    ensures |r| == |s|
    ensures forall i | 0 <= i < |s| :: r[i] == if 'A' <= s[i] <= 'Z' then (s[i] as int + 32) as char else s[i]
  {
    if s == [] then []
    else [if 'A' <= s[0] <= 'Z' then (s[0] as int + 32) as char else s[0]] + ToLowerCase(s[1..])
  }
}

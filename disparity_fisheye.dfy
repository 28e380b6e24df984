/** Correcting a saved stereo chessboard pair (`cli/disparity_fisheye.py`):
    the pair is looked up by number in the chessboard folder, the stereo
    camera's maps are built from the left frame, and both frames are
    corrected and stacked for display. */
module DisparityFisheye {
  import opened Py
  import opened Mats
  import opened Records
  import Text
  import Fisheye
  import FisheyeStereo

  /** `Path(chessboards_folder).expanduser()`, as text. */
  function SourceFolder(chessboardsFolder: string, home: string): string {
    Text.ExpandUser(chessboardsFolder, home)
  }

  /** `{side}_{image_number}.jpg` inside the folder. */
  function FramePath(source: string, side: string, imageNumber: string): string {
    Text.JoinPath(source, Text.PathText(side + "_" + imageNumber + ".jpg"))
  }

  /** The two sides, in the order they are looked up. */
  const Sides: seq<string> := ["left", "right"]

  /** The left and right files of one pair are different files. */
  lemma SidePathsDiffer(source: string, imageNumber: string)
    ensures FramePath(source, "left", imageNumber) != FramePath(source, "right", imageNumber)
  {
    var l, r := "left" + "_" + imageNumber + ".jpg", "right" + "_" + imageNumber + ".jpg";
    Text.PathTextFirst(l);
    Text.PathTextFirst(r);
    var nl, nr := Text.PathText(l), Text.PathText(r);
    assert nl[0] == 'l' && nr[0] == 'r';
    var f := source;
    if f != "." {
      var p := if f == "/" || f == "//" then f else f + "/";
      assert FramePath(source, "left", imageNumber) == p + nl;
      assert FramePath(source, "right", imageNumber) == p + nr;
      assert (p + nl)[|p|] == 'l' && (p + nr)[|p|] == 'r';
    }
  }

  /** The paths `get_frames` builds for the two sides, in order. */
  function SidePaths(source: string, imageNumber: string): (r: seq<string>)
    ensures |r| == |Sides|
    ensures forall k :: 0 <= k < |Sides| ==> r[k] == FramePath(source, Sides[k], imageNumber)
  {
    [FramePath(source, Sides[0], imageNumber), FramePath(source, Sides[1], imageNumber)]
  }

  /** The loop of `get_frames` over the side paths of an existing folder:
      the two frames as `imread` reads them, or `SystemExit` at the first
      missing file; and the files it announces loading, in order. */
  function SideFrames(disk: Disk, paths: seq<string>)
    : (r: (Result<seq<Option<Image>>>, seq<string>))
    requires |paths| == |Sides|
    ensures r.0.Ok? ==> |r.0.value| == 2 && |r.1| == 2
    ensures r.0.Ok? ==> forall k :: 0 <= k < 2 ==> Exists(disk, r.1[k]) && r.0.value[k] == Imread(disk, r.1[k])
    ensures r.0.Raise? ==> r.0.exc == SystemExit && 0 < |r.1| && !Exists(disk, r.1[|r.1| - 1])
    ensures 0 < |r.1| <= |Sides|
    ensures r.1 == paths[..|r.1|]
  {
    if !Exists(disk, paths[0]) then (Raise(SystemExit), [paths[0]])
    else if !Exists(disk, paths[1]) then (Raise(SystemExit), [paths[0], paths[1]])
    else (Ok([Imread(disk, paths[0]), Imread(disk, paths[1])]), [paths[0], paths[1]])
  }

  /** What `get_frames` returns: `[left, right]` as `imread` reads them, or
      `SystemExit` when the folder or either file does not exist; and the
      files it announces loading, in order. A missing folder stops before
      any file is looked at, and a missing left file before the right one. */
  function PairFrames(disk: Disk, chessboardsFolder: string, imageNumber: string)
    : (r: (Result<seq<Option<Image>>>, seq<string>))
    ensures r.0.Ok? ==> |r.0.value| == 2 && |r.1| == 2
    ensures r.0.Ok? ==> forall k :: 0 <= k < 2 ==> Exists(disk, r.1[k]) && r.0.value[k] == Imread(disk, r.1[k])
    ensures r.0.Raise? ==> r.0.exc == SystemExit && (|r.1| == 0 || !Exists(disk, r.1[|r.1| - 1]))
    ensures |r.1| <= |Sides|
    ensures r.1 == SidePaths(SourceFolder(chessboardsFolder, disk.home), imageNumber)[..|r.1|]
  {
    var source := SourceFolder(chessboardsFolder, disk.home);
    if !Exists(disk, source) then (Raise(SystemExit), [])
    else SideFrames(disk, SidePaths(source, imageNumber))
  }

  /** The pair is returned exactly when the folder and both files exist. */
  lemma PairFramesOk(disk: Disk, chessboardsFolder: string, imageNumber: string)
    ensures var source := SourceFolder(chessboardsFolder, disk.home);
            PairFrames(disk, chessboardsFolder, imageNumber).0.Ok? <==>
              && Exists(disk, source)
              && Exists(disk, FramePath(source, "left", imageNumber))
              && Exists(disk, FramePath(source, "right", imageNumber))
  {
  }

  /** The loop of `get_frames`: each side's file checked and then read
      before the next is looked at. The side paths are those of
      `SidePaths`, computed by the caller. */
  method LoadSides(disk: Disk, paths: seq<string>)
    returns (r: Result<seq<Option<Image>>>, loaded: seq<string>)
    requires |paths| == |Sides|
    ensures (r, loaded) == SideFrames(disk, paths)
  {
    var frames: seq<Option<Image>> := [];
    loaded := [];
    var k := 0;
    while k < |Sides|
      invariant 0 <= k <= |Sides|
      invariant |frames| == k
      invariant loaded == paths[..k]
      invariant forall j :: 0 <= j < k ==> Exists(disk, loaded[j]) && frames[j] == Imread(disk, loaded[j])
    {
      var filePath := paths[k];
      loaded := loaded + [filePath];
      if !Exists(disk, filePath) {
        assert k == 0 ==> loaded == [paths[0]];
        assert k == 1 ==> loaded == [paths[0], paths[1]];
        return Raise(SystemExit), loaded;
      }
      frames := frames + [Imread(disk, filePath)];
      k := k + 1;
    }
    assert loaded == [paths[0], paths[1]] && frames == [frames[0], frames[1]];
    return Ok(frames), loaded;
  }

  /** `get_frames(chessboards_folder, image_number)`: the folder checked,
      then the loop over the two sides. */
  method GetFrames(disk: Disk, chessboardsFolder: string, imageNumber: string)
    returns (r: Result<seq<Option<Image>>>, loaded: seq<string>)
    ensures (r, loaded) == PairFrames(disk, chessboardsFolder, imageNumber)
  {
    var source := SourceFolder(chessboardsFolder, disk.home);
    if !Exists(disk, source) {
      return Raise(SystemExit), [];
    }
    r, loaded := LoadSides(disk, SidePaths(source, imageNumber));
  }

  /** The camera's maps as `set_maps(left_frame)` leaves them: both eyes'
      maps built from the left frame, with each eye's own K, D and rotation. */
  ghost predicate MapsFromLeft(cam: FisheyeStereo.CalibratedStereoFisheyeCamera, left: Image,
                               getMaps: FisheyeStereo.StereoMapper)
    reads cam
  {
    && cam.calibration.Some? && cam.rectification.Some?
    && var c := cam.calibration.value;
       && {"image_size", "K_left", "D_left", "K_right", "D_right"} <= c.Keys
       && cam.leftMaps == Some(getMaps(left, c["image_size"], c["K_left"], c["D_left"], cam.rectification.value.rLeft, cam.balance))
       && cam.rightMaps == Some(getMaps(left, c["image_size"], c["K_right"], c["D_right"], cam.rectification.value.rRight, cam.balance))
  }

  /** The display: the originals side by side above the corrected ones. */
  function Quad(original: Result<Image>, corrected: Result<Image>): Result<Image> {
    var o :- original;
    var c :- corrected;
    VStack(o, c)
  }

  /** The maps are set from the left frame and both frames corrected with
      them; a missing left picture fails inside `get_maps` (`img.shape`, an
      `AttributeError`) and a missing right one inside `remap`. */
  method CorrectPair(camera: FisheyeStereo.CalibratedStereoFisheyeCamera, left: Option<Image>, right: Option<Image>,
                     getMaps: FisheyeStereo.StereoMapper, ops: Fisheye.FisheyeOps)
    returns (r: Result<Image>)
    requires Truthy(camera.calibration) && camera.rectification.Some?
    requires FisheyeStereo.LoadedKeys <= camera.calibration.value.Keys
    modifies camera
    ensures left.None? ==> r == Raise(AttributeError)
    ensures left.Some? && right.None? ==> r == Raise(CvError)
    ensures left.Some? ==> MapsFromLeft(camera, left.value, getMaps)
    ensures left.Some? && right.Some? ==>
              r == Quad(HStack(left.value, right.value),
                        HStack(Fisheye.Undistort(ops, left.value, camera.leftMaps.value),
                               Fisheye.Undistort(ops, right.value, camera.rightMaps.value)))
    ensures camera.calibration == old(camera.calibration) && camera.rectification == old(camera.rectification)
    ensures camera.balance == old(camera.balance)
  {
    if left.None? {
      return Raise(AttributeError);
    }
    var _ := camera.SetMaps(left.value, getMaps);
    if right.None? {
      return Raise(CvError);
    }
    var rectified := camera.Correct(left.value, right.value, ops);
    r := Quad(HStack(left.value, right.value), HStack(rectified.value.0, rectified.value.1));
  }

  /** `cli`. `click.Path(exists=True)` refuses a calibration file that does
      not exist before anything runs. The pair is read, the camera opened on
      the calibration, its maps built from the left frame for both eyes, and
      both frames corrected. The result is the camera and what is displayed;
      the key loop is not modelled. */
  method Cli(disk: Disk, rectify: FisheyeStereo.Rectifier, getMaps: FisheyeStereo.StereoMapper,
             ops: Fisheye.FisheyeOps, imageNumber: string,
             chessboardsFolder: string := "~/rakali/stereo/chessboards/",
             calibrationFile: string := "fisheye_stereo_calibration.json",
             balance: real := 0.0, scale: real := 0.5)
    returns (r: Result<(FisheyeStereo.CalibratedStereoFisheyeCamera, Image)>)
    ensures !Exists(disk, calibrationFile) ==> r == Raise(SystemExit)
    ensures Exists(disk, calibrationFile) && PairFrames(disk, chessboardsFolder, imageNumber).0.Raise? ==>
              r == Raise(SystemExit)
    ensures r.Ok? ==>
              var frames := PairFrames(disk, chessboardsFolder, imageNumber).0.value;
              var cam := r.value.0;
              && Exists(disk, calibrationFile) && frames[0].Some? && frames[1].Some?
              && cam.balance == balance && MapsFromLeft(cam, frames[0].value, getMaps)
              && Ok(r.value.1) == Quad(HStack(frames[0].value, frames[1].value),
                                       HStack(Fisheye.Undistort(ops, frames[0].value, cam.leftMaps.value),
                                              Fisheye.Undistort(ops, frames[1].value, cam.rightMaps.value)))
  {
    if !Exists(disk, calibrationFile) {
      return Raise(SystemExit);
    }
    var frames, _ := GetFrames(disk, chessboardsFolder, imageNumber);
    var pair :- frames;
    var camera :- FisheyeStereo.CalibratedStereoFisheyeCamera.Open(disk, calibrationFile, balance, rectify, None, None);
    assert "K_left" in camera.calibration.value;
    var quad :- CorrectPair(camera, pair[0], pair[1], getMaps, ops);
    return Ok((camera, quad));
  }
}

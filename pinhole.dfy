/** A pinhole camera (`camera/pinhole.py`): its zero object, the collection
    of chessboard points, the reprojection error, the calibration record and
    a camera that corrects frames with it. */
module Pinhole {
  import opened Py
  import opened Grid
  import opened Mats
  import opened Records
  import opened Collection

  /** `get_zero_object`: the `p0 * p1` board corners (i, j) scaled by the
      square size, i varying fastest, stored as an (N, 3) array. */
  function GetZeroObject(patternSize: (nat, nat) := (9, 6), squareSize: real := 0.023): (r: ObjectSample)
    ensures r.layout == Flat
    ensures |r.points| == patternSize.0 * patternSize.1
    ensures forall k :: 0 <= k < |r.points| ==>
              r.points[k] == Point3((k % patternSize.0) as real * squareSize, (k / patternSize.0) as real * squareSize, 0.0)
  {
    ObjectSample(Flat, Board(patternSize.0, patternSize.1, squareSize))
  }

  /** `get_points_from_chessboard_images`, whose zero object is the board's
      own, scaled by the square size. */
  method GetPointsFromChessboardImages(boards: seq<Image>, chessboardSize: (nat, nat), squareSize: real,
                                       finder: Finder) returns (r: Result<Points>)
    ensures r == Collected(boards, GetZeroObject(chessboardSize, squareSize), finder(chessboardSize))
    ensures r.Ok? ==> forall k :: 0 <= k < |r.value.objects| ==> r.value.objects[k] == GetZeroObject(chessboardSize, squareSize)
  {
    r := Collect(boards, GetZeroObject(chessboardSize, squareSize), finder(chessboardSize));
  }

  /** The OpenCV calls of `reprojection_error`: `projectPoints` of one sample
      and the L2 `norm` of the difference between two point lists. */
  datatype Projection = Projection(
    project: (ObjectSample, Matrix, Matrix, Matrix, Matrix) -> seq<Point2>,
    norm: (ImageSample, seq<Point2>) -> real)

  /** The error of sample i: the norm of its reprojection residual divided by
      the number of projected points. A missing rotation or translation, or a
      missing image sample, is an `IndexError`. */
  function SampleError(objects: seq<ObjectSample>, images: seq<ImageSample>, rotation: seq<Matrix>,
                       translation: seq<Matrix>, cameraMatrix: Matrix, distortion: Matrix,
                       cv: Projection, i: nat): (r: Result<real>)
    requires i < |objects|
    ensures r.Ok? <==> i < |rotation| && i < |translation| && i < |images|
                        && |cv.project(objects[i], rotation[i], translation[i], cameraMatrix, distortion)| > 0
    ensures (i >= |rotation| || i >= |translation| || i >= |images|) ==> r == Raise(IndexError)
  {
    if i >= |rotation| || i >= |translation| then Raise(IndexError)
    else
      var projected := cv.project(objects[i], rotation[i], translation[i], cameraMatrix, distortion);
      if i >= |images| then Raise(IndexError)
      else Divide(cv.norm(images[i], projected), |projected|)
  }

  /** The sum of the first k sample errors, or the first failure among them. */
  function TotalError(objects: seq<ObjectSample>, images: seq<ImageSample>, rotation: seq<Matrix>,
                      translation: seq<Matrix>, cameraMatrix: Matrix, distortion: Matrix,
                      cv: Projection, k: nat): (r: Result<real>)
    requires k <= |objects|
    ensures r.Ok? <==> forall i :: 0 <= i < k ==>
              SampleError(objects, images, rotation, translation, cameraMatrix, distortion, cv, i).Ok?
  {
    if k == 0 then Ok(0.0)
    else
      var t :- TotalError(objects, images, rotation, translation, cameraMatrix, distortion, cv, k - 1);
      var e :- SampleError(objects, images, rotation, translation, cameraMatrix, distortion, cv, k - 1);
      Ok(t + e)
  }

  /** The mean of the sample errors over the object samples; an empty set
      divides by zero. */
  function MeanError(objects: seq<ObjectSample>, images: seq<ImageSample>, rotation: seq<Matrix>,
                     translation: seq<Matrix>, cameraMatrix: Matrix, distortion: Matrix,
                     cv: Projection): (r: Result<real>)
    ensures |objects| == 0 ==> r == Raise(ZeroDivisionError)
    ensures r.Ok? ==> |rotation| >= |objects| && |translation| >= |objects| && |images| >= |objects|
    ensures r.Ok? ==> var t := TotalError(objects, images, rotation, translation, cameraMatrix, distortion, cv, |objects|);
                      t.Ok? && r.value * |objects| as real == t.value
  {
    var total :- TotalError(objects, images, rotation, translation, cameraMatrix, distortion, cv, |objects|);
    assert |objects| > 0 ==>
      SampleError(objects, images, rotation, translation, cameraMatrix, distortion, cv, |objects| - 1).Ok?;
    Divide(total, |objects|)
  }

  /** `reprojection_error`, accumulating `total_error` sample by sample. */
  method ReprojectionError(objects: seq<ObjectSample>, images: seq<ImageSample>, rotation: seq<Matrix>,
                           translation: seq<Matrix>, cameraMatrix: Matrix, distortion: Matrix,
                           cv: Projection) returns (r: Result<real>)
    ensures r == MeanError(objects, images, rotation, translation, cameraMatrix, distortion, cv)
  {
    var totalError := 0.0;
    var length := |objects|;
    for i := 0 to length
      invariant TotalError(objects, images, rotation, translation, cameraMatrix, distortion, cv, i) == Ok(totalError)
    {
      var e := SampleError(objects, images, rotation, translation, cameraMatrix, distortion, cv, i);
      if e.Raise? {
        TotalErrorSticks(objects, images, rotation, translation, cameraMatrix, distortion, cv, i + 1, length);
        return Raise(e.exc);
      }
      totalError := totalError + e.value;
    }
    r := Divide(totalError, length);
  }

  /** Once a sample fails, the sum keeps that failure. */
  lemma {:induction false} TotalErrorSticks(objects: seq<ObjectSample>, images: seq<ImageSample>, rotation: seq<Matrix>,
                                            translation: seq<Matrix>, cameraMatrix: Matrix, distortion: Matrix,
                                            cv: Projection, k: nat, m: nat)
    requires k <= m <= |objects|
    requires TotalError(objects, images, rotation, translation, cameraMatrix, distortion, cv, k).Raise?
    ensures TotalError(objects, images, rotation, translation, cameraMatrix, distortion, cv, m)
            == TotalError(objects, images, rotation, translation, cameraMatrix, distortion, cv, k)
    decreases m - k
  {
    if k < m {
      TotalErrorSticks(objects, images, rotation, translation, cameraMatrix, distortion, cv, k, m - 1);
    }
  }

  /** The mean lies between the smallest and the largest sample error. */
  lemma {:induction false} TotalErrorBounds(objects: seq<ObjectSample>, images: seq<ImageSample>, rotation: seq<Matrix>,
                                            translation: seq<Matrix>, cameraMatrix: Matrix, distortion: Matrix,
                                            cv: Projection, k: nat, lo: real, hi: real)
    requires k <= |objects|
    requires forall i :: 0 <= i < k ==>
               var e := SampleError(objects, images, rotation, translation, cameraMatrix, distortion, cv, i);
               e.Ok? && lo <= e.value <= hi
    ensures var t := TotalError(objects, images, rotation, translation, cameraMatrix, distortion, cv, k);
            t.Ok? && lo * k as real <= t.value <= hi * k as real
  {
    if k > 0 {
      TotalErrorBounds(objects, images, rotation, translation, cameraMatrix, distortion, cv, k - 1, lo, hi);
    }
  }

  lemma MeanBetween(t: real, n: real, lo: real, hi: real)
    requires n > 0.0 && lo * n <= t <= hi * n
    ensures lo <= t / n <= hi
  {
    var m := t / n;
    assert t == m * n;
    assert (m - lo) * n >= 0.0;
    assert (hi - m) * n >= 0.0;
  }

  lemma ReprojectionErrorBounds(objects: seq<ObjectSample>, images: seq<ImageSample>, rotation: seq<Matrix>,
                                translation: seq<Matrix>, cameraMatrix: Matrix, distortion: Matrix,
                                cv: Projection, lo: real, hi: real)
    requires |objects| > 0
    requires forall i :: 0 <= i < |objects| ==>
               var e := SampleError(objects, images, rotation, translation, cameraMatrix, distortion, cv, i);
               e.Ok? && lo <= e.value <= hi
    ensures var m := MeanError(objects, images, rotation, translation, cameraMatrix, distortion, cv);
            m.Ok? && lo <= m.value <= hi
  {
    var n := |objects|;
    TotalErrorBounds(objects, images, rotation, translation, cameraMatrix, distortion, cv, n, lo, hi);
    var t := TotalError(objects, images, rotation, translation, cameraMatrix, distortion, cv, n).value;
    MeanBetween(t, n as real, lo, hi);
  }

  /** The nine keyword arguments `save_calibration` passes to `np.savez_compressed`. */
  function CalibrationArrays(cameraMatrix: Value, newCameraMatrix: Value, roi: Value, distortion: Value,
                             rotation: Value, translation: Value, salt: Value, pickSize: Value, error: Value): Doc {
    map["camera_matrix" := cameraMatrix, "new_camera_matrix" := newCameraMatrix, "roi" := roi,
        "distortion_coefficients" := distortion, "rotation" := rotation, "translation" := translation,
        "salt" := salt, "pick_size" := pickSize, "error" := error]
  }

  const CalibrationKeys: set<string> :=
    {"camera_matrix", "new_camera_matrix", "roi", "distortion_coefficients", "rotation", "translation",
     "salt", "pick_size", "error"}

  /** `save_calibration`. */
  function SaveCalibration(disk: Disk, file: string, cameraMatrix: Value, newCameraMatrix: Value, roi: Value,
                           distortion: Value, rotation: Value, translation: Value,
                           salt: Value, pickSize: Value, error: Value): (d: Disk)
    ensures NpzPath(file) in d.files && d.files[NpzPath(file)].Npz?
    ensures d.files[NpzPath(file)].arrays.Keys == CalibrationKeys
    ensures forall p :: p in disk.files && p != NpzPath(file) ==> p in d.files && d.files[p] == disk.files[p]
    ensures d.files.Keys == disk.files.Keys + {NpzPath(file)}
    ensures d.folders == disk.folders && d.home == disk.home
  {
    SaveNpz(disk, file, CalibrationArrays(cameraMatrix, newCameraMatrix, roi, distortion, rotation, translation,
                                          salt, pickSize, error))
  }

  /** `load_calibration`: no file is an `IOError`, a missing key a `KeyError`;
      salt and pick_size pass through `int()` and error through `float()`. */
  function LoadCalibration(disk: Disk, file: string): (r: Result<Doc>)
    ensures file !in disk.files ==> r == Raise(IOError)
    ensures r.Ok? ==> r.value.Keys == CalibrationKeys
    ensures r.Ok? ==> r.value["salt"].IntV? && r.value["pick_size"].IntV? && r.value["error"].FloatV?
    ensures LoadNpz(disk, file).Ok? && "salt" !in LoadNpz(disk, file).value ==> r == Raise(KeyError)
  {
    var cal :- LoadNpz(disk, file);
    var cameraMatrix :- Get(cal, "camera_matrix");
    var newCameraMatrix :- Get(cal, "new_camera_matrix");
    var roi :- Get(cal, "roi");
    var distortion :- Get(cal, "distortion_coefficients");
    var rotation :- Get(cal, "rotation");
    var translation :- Get(cal, "translation");
    var s :- Get(cal, "salt");
    var salt :- ToInt(s);
    var p :- Get(cal, "pick_size");
    var pickSize :- ToInt(p);
    var e :- Get(cal, "error");
    var error :- ToFloat(e);
    Ok(CalibrationArrays(cameraMatrix, newCameraMatrix, roi, distortion, rotation, translation,
                         IntV(salt), IntV(pickSize), FloatV(error)))
  }

  /** All nine fields survive a save and a load. */
  lemma CalibrationRoundTrip(disk: Disk, file: string, cameraMatrix: Value, newCameraMatrix: Value, roi: Value,
                             distortion: Value, rotation: Value, translation: Value,
                             salt: int, pickSize: int, error: real)
    requires IsArray(cameraMatrix) && IsArray(newCameraMatrix) && IsArray(roi)
    requires IsArray(distortion) && IsArray(rotation) && IsArray(translation)
    ensures LoadCalibration(SaveCalibration(disk, file, cameraMatrix, newCameraMatrix, roi, distortion, rotation,
                                            translation, IntV(salt), IntV(pickSize), FloatV(error)), NpzPath(file))
            == Ok(CalibrationArrays(cameraMatrix, newCameraMatrix, roi, distortion, rotation, translation,
                                    IntV(salt), IntV(pickSize), FloatV(error)))
  {
    var arrays := CalibrationArrays(cameraMatrix, newCameraMatrix, roi, distortion, rotation, translation,
                                    IntV(salt), IntV(pickSize), FloatV(error));
    var d := SaveCalibration(disk, file, cameraMatrix, newCameraMatrix, roi, distortion, rotation,
                             translation, IntV(salt), IntV(pickSize), FloatV(error));
    var cal := LoadNpz(d, NpzPath(file)).value;
    assert cal == map k | k in arrays :: AsArray(arrays[k]);
    assert cal["camera_matrix"] == cameraMatrix && cal["new_camera_matrix"] == newCameraMatrix && cal["roi"] == roi;
    assert cal["distortion_coefficients"] == distortion && cal["rotation"] == rotation;
    assert cal["translation"] == translation;
    NumbersSurviveArchive(salt, error);
    NumbersSurviveArchive(pickSize, error);
  }

  /** `cv.undistort(src, cameraMatrix, distCoeffs, None, newCameraMatrix)`. */
  type Undistorter = (Image, Value, Value, Value) -> Image

  /** `undistort(img, calibration)`: the three matrices are looked up first. */
  function Undistort(img: Image, calibration: Doc, cv: Undistorter): (r: Result<Image>)
    ensures r.Ok? <==> "camera_matrix" in calibration && "distortion_coefficients" in calibration
                        && "new_camera_matrix" in calibration
    ensures !r.Ok? ==> r.exc == KeyError
    ensures r.Ok? ==> r.value == cv(img, calibration["camera_matrix"], calibration["distortion_coefficients"],
                                    calibration["new_camera_matrix"])
  {
    var m :- Get(calibration, "camera_matrix");
    var d :- Get(calibration, "distortion_coefficients");
    var n :- Get(calibration, "new_camera_matrix");
    Ok(cv(img, m, d, n))
  }

  class CalibratedPinholeCamera {
    var name: string
    /** `None` while the attribute was never assigned. */
    var calibration: Option<Doc>

    constructor (name: string, calibration: Option<Doc>)
      ensures this.name == name && this.calibration == calibration
    {
      this.name := name;
      this.calibration := calibration;
    }

    /** `CalibratedPinholeCamera(calibration_file, name)`: the calibration is
        loaded when the file exists (a load error escapes) and left unset
        otherwise. */
    static method Open(disk: Disk, calibrationFile: string, name: string := "pinhole")
      returns (r: Result<CalibratedPinholeCamera>)
      ensures !Exists(disk, calibrationFile) ==> r.Ok? && r.value.calibration == None
      ensures Exists(disk, calibrationFile) ==>
                (r.Ok? <==> LoadCalibration(disk, calibrationFile).Ok?)
      ensures Exists(disk, calibrationFile) && r.Ok? ==>
                r.value.calibration == Some(LoadCalibration(disk, calibrationFile).value)
      ensures r.Ok? ==> fresh(r.value) && r.value.name == name
    {
      if Exists(disk, calibrationFile) {
        var cal := LoadCalibration(disk, calibrationFile);
        if cal.Raise? {
          return Raise(cal.exc);
        }
        var c := new CalibratedPinholeCamera(name, Some(cal.value));
        return Ok(c);
      }
      var c := new CalibratedPinholeCamera(name, None);
      return Ok(c);
    }

    /** `correct(frame)`: an `AttributeError` while no calibration was loaded. */
    method Correct(frame: Image, cv: Undistorter) returns (r: Result<Image>)
      ensures calibration.None? ==> r == Raise(AttributeError)
      ensures calibration.Some? ==> r == Undistort(frame, calibration.value, cv)
    {
      if calibration.None? {
        return Raise(AttributeError);
      }
      r := Undistort(frame, calibration.value, cv);
    }
  }

  /** A camera opened on a missing file cannot correct frames. */
  method MissingCalibrationFails(disk: Disk, calibrationFile: string, frame: Image, cv: Undistorter)
    returns (r: Result<Image>)
    requires !Exists(disk, calibrationFile)
    ensures r == Raise(AttributeError)
  {
    var cam := CalibratedPinholeCamera.Open(disk, calibrationFile);
    r := cam.value.Correct(frame, cv);
  }
}

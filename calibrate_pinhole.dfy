/** The pinhole calibration command (`cli/calibrate_pinhole.py`): the zero
    object, the collection that always uses the default 9x6 zero object, the
    subsample, the record written, and the command's folder check. */
module CalibratePinhole {
  import opened Py
  import opened Grid
  import opened Mats
  import opened Records
  import opened Collection
  import Pinhole
  import Text

  /** `get_zero_object(size)`: `size[0] * size[1]` corners, shape (N, 3),
      point k being (k mod size[0], k div size[0], 0). */
  function GetZeroObject(size: (nat, nat) := (9, 6)): (r: ObjectSample)
    ensures r.layout == Flat
    ensures |r.points| == size.0 * size.1
    ensures forall k :: 0 <= k < |r.points| ==>
              r.points[k] == Point3((k % size.0) as real, (k / size.0) as real, 0.0)
  {
    ObjectSample(Flat, Board(size.0, size.1, 1.0))
  }

  /** `get_points_from_chessboard_images(boards_path, chessboard_size)`: the
      detector is built for the chessboard size, but the zero object appended is
      always the default 9x6 one. */
  method GetPointsFromChessboardImages(boards: seq<Image>, chessboardSize: (nat, nat), finder: Finder)
    returns (r: Result<Points>)
    ensures r == Collected(boards, GetZeroObject(), finder(chessboardSize))
    ensures r.Ok? ==> forall k :: 0 <= k < |r.value.objects| ==> |r.value.objects[k].points| == 54
  {
    r := Collect(boards, GetZeroObject(), finder(chessboardSize));
  }

  /** `cv.calibrateCamera`: camera matrix, distortion, per-sample rotations
      and translations. */
  type Calibrator = (seq<ObjectSample>, seq<ImageSample>, (int, int)) -> (Matrix, Matrix, seq<Matrix>, seq<Matrix>)

  /** `cv.getOptimalNewCameraMatrix(matrix, dist, image_size, alpha=1, newImgSize=image_size)`. */
  type Optimizer = (Matrix, Matrix, (int, int)) -> (Matrix, seq<int>)

  datatype Tools = Tools(finder: Finder, rng: Rng, calibrate: Calibrator, optimize: Optimizer,
                         projection: Pinhole.Projection)

  const RecordKeys: set<string> :=
    {"camera_matrix", "new_camera_matrix", "roi", "distortion_coefficients", "rotation", "translation",
     "seed", "k", "error"}

  /** `do_calibrate`: cached or collected points, `w, h = image_size` and
      `assert w > h`, the subsample, the solver (a `cv2.error` unless it gets
      as many object samples as image samples, and at least one), the new camera matrix, the
      reprojection error, and the record, which keeps the provenance under
      'seed' and 'k'. The result is the reprojection error. Freshly collected
      points are saved before anything else can fail, so a run that raises
      after the collection still leaves the image-points file behind. */
  function DoCalibrate(disk: Disk, boards: seq<Image>, chessboardSize: (nat, nat), calibrationFile: string, imagePointsFile: string,
                       tools: Tools, seed: int := 888, k: int := 50): (r: Effect<real>)
    requires UnitInterval(tools.rng)
    ensures var pts := CachedPoints(disk, boards, GetZeroObject(), tools.finder(chessboardSize), imagePointsFile);
            && (pts.Raise? ==> r == Effect(disk, Raise(pts.exc)))
            && (pts.Ok? && r.result.Raise? ==> r.disk == pts.value.0)
            && (pts.Ok? && |pts.value.1.size| != 2 ==> r.result == Raise(ValueError))
            && (pts.Ok? && |pts.value.1.size| == 2 && pts.value.1.size[0] <= pts.value.1.size[1] ==> r.result == Raise(AssertionError))
    ensures var pts := CachedPoints(disk, boards, GetZeroObject(), tools.finder(chessboardSize), imagePointsFile);
            pts.Ok? && |pts.value.1.size| == 2 && pts.value.1.size[0] > pts.value.1.size[1] ==>
              var sub := Subsample(tools.rng, seed, k, pts.value.1);
              && (sub.Raise? ==> r.result == Raise(IndexError))
              && (sub.Ok? && !SolverAccepts(sub.value.0, sub.value.1) ==> r.result == Raise(CvError))
              && (sub.Ok? && SolverAccepts(sub.value.0, sub.value.1) ==>
                    var (objects, images) := sub.value;
                    var (matrix, distCoeff, rotation, translation) := tools.calibrate(objects, images, (pts.value.1.size[0], pts.value.1.size[1]));
                    var e := Pinhole.MeanError(objects, images, rotation, translation, matrix, distCoeff, tools.projection);
                    r.result == e)
    ensures r.result.Ok? ==>
              var (d, points) := CachedPoints(disk, boards, GetZeroObject(), tools.finder(chessboardSize), imagePointsFile).value;
              var (objects, images) := Subsample(tools.rng, seed, k, points).value;
              var (matrix, distCoeff, rotation, translation) := tools.calibrate(objects, images, (points.size[0], points.size[1]));
              var (newCameraMatrix, roi) := tools.optimize(matrix, distCoeff, (points.size[0], points.size[1]));
              var f := NpzPath(calibrationFile);
              && SolverAccepts(objects, images)
              && f in r.disk.files && r.disk.files[f].Npz?
              && r.disk.files[f].arrays.Keys == RecordKeys
              && r.disk.files[f].arrays["camera_matrix"] == MatV(matrix)
              && r.disk.files[f].arrays["new_camera_matrix"] == MatV(newCameraMatrix)
              && r.disk.files[f].arrays["roi"] == IntsV(roi)
              && r.disk.files[f].arrays["distortion_coefficients"] == MatV(distCoeff)
              && r.disk.files[f].arrays["rotation"] == MatsV(rotation)
              && r.disk.files[f].arrays["translation"] == MatsV(translation)
              && r.disk.files[f].arrays["seed"] == Scalar(seed as real)
              && r.disk.files[f].arrays["k"] == Scalar(k as real)
              && r.disk.files[f].arrays["error"] == Scalar(r.result.value)
              && (forall p :: p in d.files && p != f ==> p in r.disk.files && r.disk.files[p] == d.files[p])
              && r.disk.files.Keys == d.files.Keys + {f}
              && r.disk.folders == d.folders && r.disk.home == d.home
  {
    var pts := CachedPoints(disk, boards, GetZeroObject(), tools.finder(chessboardSize), imagePointsFile);
    if pts.Raise? then Effect(disk, Raise(pts.exc))
    else
      var (d, points) := pts.value;
      if |points.size| != 2 then Effect(d, Raise(ValueError))
      else
        var w, h := points.size[0], points.size[1];
        if !(w > h) then Effect(d, Raise(AssertionError))
        else
          var sub := Subsample(tools.rng, seed, k, points);
          if sub.Raise? then Effect(d, Raise(sub.exc))
          else
            var (objects, images) := sub.value;
            if !SolverAccepts(objects, images) then Effect(d, Raise(CvError))
            else
              var (matrix, distCoeff, rotation, translation) := tools.calibrate(objects, images, (w, h));
              var (newCameraMatrix, roi) := tools.optimize(matrix, distCoeff, (w, h));
              var e := Pinhole.MeanError(objects, images, rotation, translation, matrix, distCoeff, tools.projection);
              if e.Raise? then Effect(d, Raise(e.exc))
              else
                Effect(SaveRecord(d, calibrationFile, matrix, newCameraMatrix, roi, distCoeff, rotation, translation, seed, k, e.value),
                       Ok(e.value))
  }

  /** A run that had to collect and then raised (a portrait board size, no
      detections to draw from, or no samples to average) leaves the points in
      the cache: the next run reads them and never looks at its boards, and a
      portrait size fails it in the same way. */
  lemma FailedRunKeepsCache(disk: Disk, boards: seq<Image>, others: seq<Image>, chessboardSize: (nat, nat),
                            calibrationFile: string, imagePointsFile: string, tools: Tools, seed: int, k: int)
    requires UnitInterval(tools.rng)
    requires NpzPath(imagePointsFile) == imagePointsFile
    requires LoadImagePointsFile(disk, imagePointsFile) == Ok(None)
    requires CachedPoints(disk, boards, GetZeroObject(), tools.finder(chessboardSize), imagePointsFile).Ok?
    ensures var detect := tools.finder(chessboardSize);
            var r := DoCalibrate(disk, boards, chessboardSize, calibrationFile, imagePointsFile, tools, seed, k);
            r.result.Raise? ==>
              CachedPoints(r.disk, others, GetZeroObject(), detect, imagePointsFile)
              == Ok((r.disk, CachedPoints(disk, boards, GetZeroObject(), detect, imagePointsFile).value.1))
    ensures var r := DoCalibrate(disk, boards, chessboardSize, calibrationFile, imagePointsFile, tools, seed, k);
            r.result == Raise(AssertionError) ==>
              DoCalibrate(r.disk, others, chessboardSize, calibrationFile, imagePointsFile, tools, seed, k) == r
  {
    SecondRunUsesCache(disk, boards, others, GetZeroObject(), tools.finder(chessboardSize), imagePointsFile);
  }

  /** With fewer boards found than `k` (fewer than 50 at the default), but at
      least one, a landscape run always fails in the solver, and leaves the
      points it collected in the cache. */
  lemma FewBoardsFail(disk: Disk, boards: seq<Image>, chessboardSize: (nat, nat),
                      calibrationFile: string, imagePointsFile: string, tools: Tools, seed: int, k: int)
    requires UnitInterval(tools.rng)
    requires var pts := CachedPoints(disk, boards, GetZeroObject(), tools.finder(chessboardSize), imagePointsFile);
             && pts.Ok? && |pts.value.1.size| == 2 && pts.value.1.size[0] > pts.value.1.size[1]
             && 0 < |pts.value.1.images| && |pts.value.1.objects| < k
    ensures DoCalibrate(disk, boards, chessboardSize, calibrationFile, imagePointsFile, tools, seed, k)
            == Effect(CachedPoints(disk, boards, GetZeroObject(), tools.finder(chessboardSize), imagePointsFile).value.0,
                      Raise(CvError))
  {
    var pts := CachedPoints(disk, boards, GetZeroObject(), tools.finder(chessboardSize), imagePointsFile);
    FewDetectionsRejected(tools.rng, seed, k, pts.value.1);
  }

  /** The `np.savez_compressed` call of `do_calibrate`: each key holds its value
      as an archive stores it, and no other file changes. */
  function SaveRecord(d: Disk, calibrationFile: string, matrix: Matrix, newCameraMatrix: Matrix, roi: seq<int>,
                      distCoeff: Matrix, rotation: seq<Matrix>, translation: seq<Matrix>, seed: int, k: int,
                      error: real): (saved: Disk)
    ensures var f := NpzPath(calibrationFile);
            && f in saved.files && saved.files[f].Npz?
            && saved.files[f].arrays.Keys == RecordKeys
            && saved.files[f].arrays["camera_matrix"] == MatV(matrix)
            && saved.files[f].arrays["new_camera_matrix"] == MatV(newCameraMatrix)
            && saved.files[f].arrays["roi"] == IntsV(roi)
            && saved.files[f].arrays["distortion_coefficients"] == MatV(distCoeff)
            && saved.files[f].arrays["rotation"] == MatsV(rotation)
            && saved.files[f].arrays["translation"] == MatsV(translation)
            && saved.files[f].arrays["seed"] == Scalar(seed as real)
            && saved.files[f].arrays["k"] == Scalar(k as real)
            && saved.files[f].arrays["error"] == Scalar(error)
            && (forall p :: p in d.files && p != f ==> p in saved.files && saved.files[p] == d.files[p])
            && saved.files.Keys == d.files.Keys + {f}
            && saved.folders == d.folders && saved.home == d.home
  {
    var doc := RecordDoc(matrix, newCameraMatrix, roi, distCoeff, rotation, translation, seed, k, error);
    RecordDocKeys(matrix, newCameraMatrix, roi, distCoeff, rotation, translation, seed, k, error);
    RecordDocEntries(matrix, newCameraMatrix, roi, distCoeff, rotation, translation, seed, k, error);
    SaveNpz(d, calibrationFile, doc)
  }

  /** The keyword arguments of that call. */
  function RecordDoc(matrix: Matrix, newCameraMatrix: Matrix, roi: seq<int>, distCoeff: Matrix,
                     rotation: seq<Matrix>, translation: seq<Matrix>, seed: int, k: int, error: real): Doc {
    map["camera_matrix" := MatV(matrix), "new_camera_matrix" := MatV(newCameraMatrix),
        "roi" := IntsV(roi), "distortion_coefficients" := MatV(distCoeff),
        "rotation" := MatsV(rotation), "translation" := MatsV(translation),
        "seed" := IntV(seed), "k" := IntV(k), "error" := FloatV(error)]
  }

  lemma RecordDocKeys(matrix: Matrix, newCameraMatrix: Matrix, roi: seq<int>, distCoeff: Matrix,
                      rotation: seq<Matrix>, translation: seq<Matrix>, seed: int, k: int, error: real)
    ensures RecordDoc(matrix, newCameraMatrix, roi, distCoeff, rotation, translation, seed, k, error).Keys == RecordKeys
  {
  }

  lemma RecordDocEntries(matrix: Matrix, newCameraMatrix: Matrix, roi: seq<int>, distCoeff: Matrix,
                         rotation: seq<Matrix>, translation: seq<Matrix>, seed: int, k: int, error: real)
    ensures var doc := RecordDoc(matrix, newCameraMatrix, roi, distCoeff, rotation, translation, seed, k, error);
            && AsArray(doc["camera_matrix"]) == MatV(matrix)
            && AsArray(doc["new_camera_matrix"]) == MatV(newCameraMatrix)
            && AsArray(doc["roi"]) == IntsV(roi)
            && AsArray(doc["distortion_coefficients"]) == MatV(distCoeff)
            && AsArray(doc["rotation"]) == MatsV(rotation)
            && AsArray(doc["translation"]) == MatsV(translation)
            && AsArray(doc["seed"]) == Scalar(seed as real)
            && AsArray(doc["k"]) == Scalar(k as real)
            && AsArray(doc["error"]) == Scalar(error)
  {
  }

  /** The returned error is the reprojection error of the subsample. */
  lemma ErrorIsReprojectionError(disk: Disk, boards: seq<Image>, chessboardSize: (nat, nat), calibrationFile: string, imagePointsFile: string,
                                 tools: Tools, seed: int, k: int)
    requires UnitInterval(tools.rng)
    requires DoCalibrate(disk, boards, chessboardSize, calibrationFile, imagePointsFile, tools, seed, k).result.Ok?
    ensures var (_, points) := CachedPoints(disk, boards, GetZeroObject(), tools.finder(chessboardSize), imagePointsFile).value;
            var (objects, images) := Subsample(tools.rng, seed, k, points).value;
            var (matrix, distCoeff, rotation, translation) := tools.calibrate(objects, images, (points.size[0], points.size[1]));
            DoCalibrate(disk, boards, chessboardSize, calibrationFile, imagePointsFile, tools, seed, k).result.value
            == Pinhole.MeanError(objects, images, rotation, translation, matrix, distCoeff, tools.projection).value
  {
  }

  /** The record is not one `Pinhole.LoadCalibration` can read: it has no 'salt'. */
  lemma RecordLacksSalt(disk: Disk, boards: seq<Image>, chessboardSize: (nat, nat), calibrationFile: string, imagePointsFile: string,
                        tools: Tools, seed: int, k: int)
    requires UnitInterval(tools.rng)
    requires DoCalibrate(disk, boards, chessboardSize, calibrationFile, imagePointsFile, tools, seed, k).result.Ok?
    ensures var d := DoCalibrate(disk, boards, chessboardSize, calibrationFile, imagePointsFile, tools, seed, k).disk;
            Pinhole.LoadCalibration(d, NpzPath(calibrationFile)) == Raise(KeyError)
  {
    var d := DoCalibrate(disk, boards, chessboardSize, calibrationFile, imagePointsFile, tools, seed, k).disk;
    NoSaltNoLoad(d, NpzPath(calibrationFile));
  }

  lemma NoSaltNoLoad(d: Disk, f: string)
    requires f in d.files && d.files[f].Npz? && d.files[f].arrays.Keys == RecordKeys
    ensures Pinhole.LoadCalibration(d, f) == Raise(KeyError)
  {
    assert "salt" !in RecordKeys;
  }

  /** The command: the input path (user-expanded) must exist, as a folder or
      a file; there is no check on the sample size, the seed and k are always
      888 and 50, and the chessboard size is (columns, rows). */
  function Cli(disk: Disk, boards: seq<Image>, tools: Tools,
               inputFolder: string := "~/rakali/chessboards/",
               imagePointsFile: string := "image_points.npz",
               calibrationFile: string := "calibration.npz",
               chessboardRows: nat := 9, chessboardColumns: nat := 6): (r: Effect<real>)
    requires UnitInterval(tools.rng)
    ensures !Exists(disk, Text.ExpandUser(inputFolder, disk.home)) ==> r == Effect(disk, Raise(SystemExit))
    ensures Exists(disk, Text.ExpandUser(inputFolder, disk.home)) ==>
              r == DoCalibrate(disk, boards, (chessboardColumns, chessboardRows), calibrationFile, imagePointsFile, tools, 888, 50)
  {
    var folder := Text.ExpandUser(inputFolder, disk.home);
    if !Exists(disk, folder) then Effect(disk, Raise(SystemExit))
    else DoCalibrate(disk, boards, (chessboardColumns, chessboardRows), calibrationFile, imagePointsFile, tools)
  }
}

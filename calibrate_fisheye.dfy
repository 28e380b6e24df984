/** The fisheye calibration command (`cli/calibrate_fisheye.py`): the zero
    object, the cache-first collection of board corners, the subsample handed
    to the solver, the record written, and the command's own checks. */
module CalibrateFisheye {
  import opened Py
  import opened Grid
  import opened Mats
  import opened Records
  import opened Collection
  import Text

  /** `get_zero_object((columns, rows), square_size)`: one sample of
      `rows * columns` corners, shape (1, N, 3), point k being
      (k mod rows, k div rows, 0). The square size is not used. */
  function GetZeroObject(patternSize: (nat, nat) := (9, 6), squareSize: real := 0.023): (r: ObjectSample)
    ensures r.layout == OneRow
    ensures |r.points| == patternSize.1 * patternSize.0
    ensures forall k :: 0 <= k < |r.points| ==>
              r.points[k] == Point3((k % patternSize.1) as real, (k / patternSize.1) as real, 0.0)
  {
    var (columns, rows) := patternSize;
    ObjectSample(OneRow, Board(rows, columns, 1.0))
  }

  /** The zero object does not depend on the square size. */
  lemma ZeroObjectIgnoresSquareSize(patternSize: (nat, nat), s: real, t: real)
    ensures GetZeroObject(patternSize, s) == GetZeroObject(patternSize, t)
  {
  }

  /** `get_points_from_chessboard_images`, with this command's zero object. */
  method GetPointsFromChessboardImages(boards: seq<Image>, chessboardSize: (nat, nat), squareSize: real,
                                       finder: Finder) returns (r: Result<Points>)
    ensures r == Collected(boards, GetZeroObject(chessboardSize, squareSize), finder(chessboardSize))
    ensures r.Ok? ==> forall k :: 0 <= k < |r.value.objects| ==> r.value.objects[k].layout == OneRow
  {
    r := Collect(boards, GetZeroObject(chessboardSize, squareSize), finder(chessboardSize));
  }

  /** `cv.fisheye.calibrate(objectPoints, imagePoints, image_size, ...)`:
      the rms error, K and D. */
  type Calibrator = (seq<ObjectSample>, seq<ImageSample>, (int, int)) -> (real, Matrix, Matrix)

  /** The collaborators of `do_calibrate`. */
  datatype Tools = Tools(finder: Finder, rng: Rng, calibrate: Calibrator)

  const RecordKeys: set<string> := {"K", "D", "image_size", "seed", "k"}

  /** `do_calibrate`: the cached or freshly collected points; `w, h = image_size`
      (a `ValueError` unless there are exactly two numbers) and `assert w > h`;
      the subsample; the solver, which raises `cv2.error` unless it is given as
      many object samples as image samples, and at least one; the record with K, D, image_size, seed = salt
      and k = pick_size; and the rms error as the result. Freshly collected
      points are saved before anything else can fail, so a run that raises
      after the collection still leaves the image-points file behind. */
  function DoCalibrate(disk: Disk, boards: seq<Image>, chessboardSize: (nat, nat), squareSize: real,
                       calibrationFile: string, imagePointsFile: string, tools: Tools,
                       salt: int := 888, pickSize: int := 50): (r: Effect<real>)
    requires UnitInterval(tools.rng)
    ensures var pts := CachedPoints(disk, boards, GetZeroObject(chessboardSize, squareSize), tools.finder(chessboardSize), imagePointsFile);
            && (pts.Raise? ==> r == Effect(disk, Raise(pts.exc)))
            && (pts.Ok? && r.result.Raise? ==> r.disk == pts.value.0)
            && (pts.Ok? && |pts.value.1.size| != 2 ==> r.result == Raise(ValueError))
            && (pts.Ok? && |pts.value.1.size| == 2 && pts.value.1.size[0] <= pts.value.1.size[1] ==> r.result == Raise(AssertionError))
            && (r.result.Ok? ==> pts.Ok? && |pts.value.1.size| == 2 && pts.value.1.size[0] > pts.value.1.size[1])
    ensures var pts := CachedPoints(disk, boards, GetZeroObject(chessboardSize, squareSize), tools.finder(chessboardSize), imagePointsFile);
            pts.Ok? && |pts.value.1.size| == 2 && pts.value.1.size[0] > pts.value.1.size[1] ==>
              var sub := Subsample(tools.rng, salt, pickSize, pts.value.1);
              && (sub.Raise? ==> r.result == Raise(IndexError))
              && (sub.Ok? && !SolverAccepts(sub.value.0, sub.value.1) ==> r.result == Raise(CvError))
              && (r.result.Ok? <==> sub.Ok? && SolverAccepts(sub.value.0, sub.value.1))
    ensures r.result.Ok? ==>
              var (d, points) := CachedPoints(disk, boards, GetZeroObject(chessboardSize, squareSize), tools.finder(chessboardSize), imagePointsFile).value;
              var (objects, images) := Subsample(tools.rng, salt, pickSize, points).value;
              var (rms, K, D) := tools.calibrate(objects, images, (points.size[0], points.size[1]));
              var f := NpzPath(calibrationFile);
              && SolverAccepts(objects, images)
              && f in r.disk.files && r.disk.files[f].Npz?
              && r.disk.files[f].arrays.Keys == RecordKeys
              && r.disk.files[f].arrays["K"] == MatV(K)
              && r.disk.files[f].arrays["D"] == MatV(D)
              && r.disk.files[f].arrays["image_size"] == IntsV(points.size)
              && r.disk.files[f].arrays["seed"] == Scalar(salt as real)
              && r.disk.files[f].arrays["k"] == Scalar(pickSize as real)
              && (forall p :: p in d.files && p != f ==> p in r.disk.files && r.disk.files[p] == d.files[p])
              && r.disk.files.Keys == d.files.Keys + {f}
              && r.disk.folders == d.folders && r.disk.home == d.home
              && r.result.value == rms
  {
    var pts := CachedPoints(disk, boards, GetZeroObject(chessboardSize, squareSize), tools.finder(chessboardSize), imagePointsFile);
    if pts.Raise? then Effect(disk, Raise(pts.exc))
    else
      var (d, points) := pts.value;
      if |points.size| != 2 then Effect(d, Raise(ValueError))
      else
        var w, h := points.size[0], points.size[1];
        if !(w > h) then Effect(d, Raise(AssertionError))
        else
          var sub := Subsample(tools.rng, salt, pickSize, points);
          if sub.Raise? then Effect(d, Raise(sub.exc))
          else
            var (objects, images) := sub.value;
            if !SolverAccepts(objects, images) then Effect(d, Raise(CvError))
            else
              var (rms, K, D) := tools.calibrate(objects, images, (w, h));
              Effect(SaveRecord(d, calibrationFile, K, D, points.size, salt, pickSize), Ok(rms))
  }

  /** The `np.savez` call of `do_calibrate`: each key holds its value as an
      archive stores it, and no other file changes. */
  function SaveRecord(d: Disk, calibrationFile: string, K: Matrix, D: Matrix, size: seq<int>, salt: int, pickSize: int)
    : (saved: Disk)
    ensures var f := NpzPath(calibrationFile);
            && f in saved.files && saved.files[f].Npz?
            && saved.files[f].arrays.Keys == RecordKeys
            && saved.files[f].arrays["K"] == MatV(K)
            && saved.files[f].arrays["D"] == MatV(D)
            && saved.files[f].arrays["image_size"] == IntsV(size)
            && saved.files[f].arrays["seed"] == Scalar(salt as real)
            && saved.files[f].arrays["k"] == Scalar(pickSize as real)
            && (forall p :: p in d.files && p != f ==> p in saved.files && saved.files[p] == d.files[p])
            && saved.files.Keys == d.files.Keys + {f}
            && saved.folders == d.folders && saved.home == d.home
  {
    var doc := map["K" := MatV(K), "D" := MatV(D), "image_size" := IntsV(size), "seed" := IntV(salt), "k" := IntV(pickSize)];
    assert doc.Keys == RecordKeys;
    assert AsArray(doc["K"]) == MatV(K) && AsArray(doc["D"]) == MatV(D) && AsArray(doc["image_size"]) == IntsV(size);
    assert AsArray(doc["seed"]) == Scalar(salt as real) && AsArray(doc["k"]) == Scalar(pickSize as real);
    SaveNpz(d, calibrationFile, doc)
  }

  /** A run that had to collect and then raised (a portrait board size, or no
      detections to draw from) leaves the points in the cache: the next run
      reads them and never looks at its boards, and a portrait size fails it
      in the same way. */
  lemma FailedRunKeepsCache(disk: Disk, boards: seq<Image>, others: seq<Image>, chessboardSize: (nat, nat), squareSize: real,
                            calibrationFile: string, imagePointsFile: string, tools: Tools, salt: int, pickSize: int)
    requires UnitInterval(tools.rng)
    requires NpzPath(imagePointsFile) == imagePointsFile
    requires LoadImagePointsFile(disk, imagePointsFile) == Ok(None)
    requires CachedPoints(disk, boards, GetZeroObject(chessboardSize, squareSize), tools.finder(chessboardSize), imagePointsFile).Ok?
    ensures var zero, detect := GetZeroObject(chessboardSize, squareSize), tools.finder(chessboardSize);
            var r := DoCalibrate(disk, boards, chessboardSize, squareSize, calibrationFile, imagePointsFile, tools, salt, pickSize);
            r.result.Raise? ==>
              CachedPoints(r.disk, others, zero, detect, imagePointsFile)
              == Ok((r.disk, CachedPoints(disk, boards, zero, detect, imagePointsFile).value.1))
    ensures var r := DoCalibrate(disk, boards, chessboardSize, squareSize, calibrationFile, imagePointsFile, tools, salt, pickSize);
            r.result == Raise(AssertionError) ==>
              DoCalibrate(r.disk, others, chessboardSize, squareSize, calibrationFile, imagePointsFile, tools, salt, pickSize) == r
  {
    var zero, detect := GetZeroObject(chessboardSize, squareSize), tools.finder(chessboardSize);
    SecondRunUsesCache(disk, boards, others, zero, detect, imagePointsFile);
  }

  /** With fewer boards found than `pick_size` (fewer than 50 at the default),
      but at least one, a landscape run always fails in the solver, and leaves
      the points it collected in the cache. */
  lemma FewBoardsFail(disk: Disk, boards: seq<Image>, chessboardSize: (nat, nat), squareSize: real,
                      calibrationFile: string, imagePointsFile: string, tools: Tools, salt: int, pickSize: int)
    requires UnitInterval(tools.rng)
    requires var pts := CachedPoints(disk, boards, GetZeroObject(chessboardSize, squareSize), tools.finder(chessboardSize), imagePointsFile);
             && pts.Ok? && |pts.value.1.size| == 2 && pts.value.1.size[0] > pts.value.1.size[1]
             && 0 < |pts.value.1.images| && |pts.value.1.objects| < pickSize
    ensures DoCalibrate(disk, boards, chessboardSize, squareSize, calibrationFile, imagePointsFile, tools, salt, pickSize)
            == Effect(CachedPoints(disk, boards, GetZeroObject(chessboardSize, squareSize), tools.finder(chessboardSize), imagePointsFile).value.0,
                      Raise(CvError))
  {
    var pts := CachedPoints(disk, boards, GetZeroObject(chessboardSize, squareSize), tools.finder(chessboardSize), imagePointsFile);
    FewDetectionsRejected(tools.rng, salt, pickSize, pts.value.1);
  }

  /** With the points cached, the boards are never looked at. */
  lemma CacheFirst(disk: Disk, boards: seq<Image>, others: seq<Image>, chessboardSize: (nat, nat), squareSize: real,
                   calibrationFile: string, imagePointsFile: string, tools: Tools, salt: int, pickSize: int)
    requires UnitInterval(tools.rng)
    requires LoadImagePointsFile(disk, imagePointsFile).Ok? && LoadImagePointsFile(disk, imagePointsFile).value.Some?
    ensures DoCalibrate(disk, boards, chessboardSize, squareSize, calibrationFile, imagePointsFile, tools, salt, pickSize)
            == DoCalibrate(disk, others, chessboardSize, squareSize, calibrationFile, imagePointsFile, tools, salt, pickSize)
  {
  }

  /** The rms error returned is the solver's on the subsample, and a run only
      succeeds when there were at least `pick_size` object samples: the solver
      then sees `pick_size` image samples drawn from the collected ones and the
      first `pick_size` object samples. */
  lemma SolverSeesSubsample(disk: Disk, boards: seq<Image>, chessboardSize: (nat, nat), squareSize: real,
                            calibrationFile: string, imagePointsFile: string, tools: Tools, salt: int, pickSize: nat)
    requires UnitInterval(tools.rng)
    requires DoCalibrate(disk, boards, chessboardSize, squareSize, calibrationFile, imagePointsFile, tools, salt, pickSize).result.Ok?
    ensures var (_, points) := CachedPoints(disk, boards, GetZeroObject(chessboardSize, squareSize), tools.finder(chessboardSize), imagePointsFile).value;
            var (objects, images) := Subsample(tools.rng, salt, pickSize, points).value;
            && 0 < pickSize <= |points.objects|
            && |images| == pickSize && |objects| == pickSize
            && objects == points.objects[..pickSize]
            && DoCalibrate(disk, boards, chessboardSize, squareSize, calibrationFile, imagePointsFile, tools, salt, pickSize).result.value
               == tools.calibrate(objects, images, (points.size[0], points.size[1])).0
  {
  }

  /** The command: a pick size under 5 is refused before anything is looked
      at, then the input folder (user-expanded) must exist; the chessboard
      size is (columns, rows). */
  function Cli(disk: Disk, boards: seq<Image>, tools: Tools,
               inputFolder: string := "~/rakali/chessboards/",
               imagePointsFile: string := "fisheye_image_points.npz",
               calibrationFile: string := "fisheye_calibration.npz",
               chessboardRows: nat := 9, chessboardColumns: nat := 6,
               squareSize: real := 0.023, salt: int := 888, pickSize: int := 50): (r: Effect<real>)
    requires UnitInterval(tools.rng)
    ensures pickSize < 5 ==> r == Effect(disk, Raise(SystemExit))
    ensures pickSize >= 5 && !Exists(disk, Text.ExpandUser(inputFolder, disk.home)) ==> r == Effect(disk, Raise(SystemExit))
    ensures pickSize >= 5 && Exists(disk, Text.ExpandUser(inputFolder, disk.home)) ==>
              r == DoCalibrate(disk, boards, (chessboardColumns, chessboardRows), squareSize, calibrationFile,
                               imagePointsFile, tools, salt, pickSize)
  {
    if pickSize < 5 then Effect(disk, Raise(SystemExit))
    else
      var folder := Text.ExpandUser(inputFolder, disk.home);
      if !Exists(disk, folder) then Effect(disk, Raise(SystemExit))
      else DoCalibrate(disk, boards, (chessboardColumns, chessboardRows), squareSize, calibrationFile,
                       imagePointsFile, tools, salt, pickSize)
  }
}

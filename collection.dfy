/** The chessboard collection loop (`get_points_from_chessboard_images`) and
    the image-points cache (`save_image_points_file` / `load_image_points_file`).
    The same loop and the same cache functions appear in `camera/pinhole.py`,
    `cli/calibrate_fisheye.py` and `cli/calibrate_pinhole.py`; they differ only
    in the zero object appended for each board found. */
module Collection {
  import opened Py
  import opened Grid
  import opened Mats
  import opened Records

  /** Corner detection on one frame (`ChessboardFinder.corners(img, fast=False)`):
      whether the board was found, and its corners. */
  type Detector = Image -> (bool, ImageSample)

  /** `ChessboardFinder(chessboard_size)`: the detector built for a board size. */
  type Finder = ((nat, nat)) -> Detector

  /** What the loop returns: object points, image points, and the (width, height) size. */
  datatype Points = Points(objects: seq<ObjectSample>, images: seq<ImageSample>, size: (nat, nat))

  /** The corners of the frames in which the board was found, in frame order. */
  function Detections(frames: seq<Image>, detect: Detector): (r: seq<ImageSample>)
    ensures |r| <= |frames|
    decreases |frames|
  {
    if |frames| == 0 then []
    else
      var last := detect(frames[|frames| - 1]);
      Detections(frames[..|frames| - 1], detect) + (if last.0 then [last.1] else [])
  }

  /** Every frame has the shape of the first. */
  predicate SameShape(frames: seq<Image>) {
    forall i :: 0 <= i < |frames| ==> Shape2(frames[i]) == Shape2(frames[0])
  }

  /** The outcome of the loop over `frames`: `sys.exit()` when some frame's
      shape differs from the first's; a `TypeError` (`h, w = None`) when there
      is no frame at all; otherwise one zero object per detection, in lockstep,
      and the first frame's (height, width) returned as (width, height). */
  function Collected(frames: seq<Image>, zero: ObjectSample, detect: Detector): (r: Result<Points>)
    ensures r.Ok? <==> |frames| > 0 && SameShape(frames)
    ensures (exists i :: 0 <= i < |frames| && Shape2(frames[i]) != Shape2(frames[0])) ==> r == Raise(SystemExit)
    ensures |frames| == 0 ==> r == Raise(TypeError)
    ensures r.Ok? ==> |r.value.objects| == |r.value.images| <= |frames|
    ensures r.Ok? ==> forall k :: 0 <= k < |r.value.objects| ==> r.value.objects[k] == zero
    ensures r.Ok? ==> r.value.images == Detections(frames, detect)
    ensures r.Ok? ==> r.value.size == (Width(frames[0]), Height(frames[0]))
  {
    if |frames| == 0 then Raise(TypeError)
    else if !SameShape(frames) then Raise(SystemExit)
    else
      var found := Detections(frames, detect);
      Ok(Points(seq(|found|, _ => zero), found, (Width(frames[0]), Height(frames[0]))))
  }

  /** Boards are used exactly when found: the detections are the found corners,
      one per frame in which the board was found. */
  lemma {:induction false} DetectionsFound(frames: seq<Image>, detect: Detector)
    ensures |Detections(frames, detect)| == |set i | 0 <= i < |frames| && detect(frames[i]).0|
    ensures (forall i :: 0 <= i < |frames| ==> !detect(frames[i]).0) ==> Detections(frames, detect) == []
    decreases |frames|
  {
    if |frames| > 0 {
      var n := |frames| - 1;
      DetectionsFound(frames[..n], detect);
      DetectionsStep(frames, detect);
    }
  }

  /** One more frame adds one to the count of frames showing the board exactly
      when it shows the board. */
  lemma DetectionsStep(frames: seq<Image>, detect: Detector)
    requires |frames| > 0
    ensures var n := |frames| - 1;
            |set i | 0 <= i < |frames| && detect(frames[i]).0|
            == |set i | 0 <= i < n && detect(frames[..n][i]).0| + (if detect(frames[n]).0 then 1 else 0)
  {
    var n := |frames| - 1;
    var init := frames[..n];
    var s := set i | 0 <= i < |frames| && detect(frames[i]).0;
    var t := set i | 0 <= i < n && detect(init[i]).0;
    forall i ensures i in s <==> i in t || (detect(frames[n]).0 && i == n) {
      if 0 <= i < n { assert init[i] == frames[i]; }
    }
    CountOneMore(s, t, n, detect(frames[n]).0);
  }

  /** `get_points_from_chessboard_images`: the frames are the boards in glob
      order, as `cv.imread` returns them. */
  method Collect(frames: seq<Image>, zero: ObjectSample, detect: Detector) returns (r: Result<Points>)
    ensures r == Collected(frames, zero, detect)
  {
    var imageSize: Option<(nat, nat)> := None;
    var imagePoints: seq<ImageSample> := [];
    var objectPoints: seq<ObjectSample> := [];
    var i := 0;
    while i < |frames|
      invariant 0 <= i <= |frames|
      invariant imageSize.None? <==> i == 0
      invariant i > 0 ==> imageSize == Some(Shape2(frames[0])) && SameShape(frames[..i])
      invariant imagePoints == Detections(frames[..i], detect)
      invariant objectPoints == seq(|imagePoints|, _ => zero)
    {
      var img := frames[i];
      if imageSize.None? {
        imageSize := Some(Shape2(img));
      } else if Shape2(img) != imageSize.value {
        assert !SameShape(frames);
        return Raise(SystemExit);
      }
      var (ok, corners) := detect(img);
      assert frames[..i + 1][..i] == frames[..i];
      if ok {
        imagePoints := imagePoints + [corners];
        objectPoints := objectPoints + [zero];
      }
      ghost var seen := frames[..i + 1];
      assert SameShape(seen) by {
        forall k | 0 <= k < i + 1 ensures Shape2(seen[k]) == Shape2(seen[0]) {
          if k < i { assert seen[k] == frames[..i][k]; }
        }
      }
      i := i + 1;
    }
    if imageSize.None? {
      return Raise(TypeError);
    }
    assert frames[..i] == frames;
    var (h, w) := imageSize.value;
    return Ok(Points(objectPoints, imagePoints, (w, h)));
  }

  /** The cache record as the modelled code reads it back: `list(...)` of both
      point lists and `tuple(...)` of the size. */
  datatype Cache = Cache(objects: seq<ObjectSample>, images: seq<ImageSample>, size: seq<int>)

  /** `save_image_points_file`. */
  function SaveImagePointsFile(disk: Disk, file: string, objects: seq<ObjectSample>,
                               images: seq<ImageSample>, size: seq<int>): (d: Disk)
    ensures NpzPath(file) in d.files && d.files[NpzPath(file)].Npz?
    ensures d.files[NpzPath(file)].arrays.Keys == {"object_points", "image_points", "image_size"}
    ensures forall p :: p in disk.files && p != NpzPath(file) ==> p in d.files && d.files[p] == disk.files[p]
    ensures d.files.Keys == disk.files.Keys + {NpzPath(file)}
    ensures d.folders == disk.folders && d.home == disk.home
  {
    SaveNpz(disk, file, map["object_points" := ObjectsV(objects), "image_points" := ImagesV(images),
                            "image_size" := IntsV(size)])
  }

  /** `load_image_points_file`: `None` when the file cannot be opened (the
      `IOError` is caught); an archive that is not one, or lacks a key, lets
      its error escape. */
  function LoadImagePointsFile(disk: Disk, file: string): (r: Result<Option<Cache>>)
    ensures file !in disk.files <==> r == Ok(None)
    ensures file in disk.files && !disk.files[file].Npz? ==> r == Raise(ValueError)
  {
    match LoadNpz(disk, file)
    case Raise(IOError) => Ok(None)
    case Raise(e) => Raise(e)
    case Ok(cache) =>
      var o :- Get(cache, "object_points");
      var objects :- Iterate(o);
      var i :- Get(cache, "image_points");
      var images :- Iterate(i);
      var s :- Get(cache, "image_size");
      var size :- Iterate(s);
      if objects.ObjectsV? && images.ImagesV? && size.IntsV? then
        Ok(Some(Cache(objects.objects, images.images, size.ints)))
      else
        Raise(TypeError)
  }

  /** Saving then loading the image points gives them back unchanged. */
  lemma ImagePointsRoundTrip(disk: Disk, file: string, objects: seq<ObjectSample>,
                             images: seq<ImageSample>, size: seq<int>)
    ensures LoadImagePointsFile(SaveImagePointsFile(disk, file, objects, images, size), NpzPath(file))
            == Ok(Some(Cache(objects, images, size)))
  {
  }

  /** The points pipeline of `do_calibrate`: the cached points when the cache
      file loads; otherwise the boards are collected and the result is saved
      as the new cache. The disk returned is the one after the save. */
  function CachedPoints(disk: Disk, boards: seq<Image>, zero: ObjectSample, detect: Detector,
                        imagePointsFile: string): (r: Result<(Disk, Cache)>)
    ensures LoadImagePointsFile(disk, imagePointsFile).Ok? && LoadImagePointsFile(disk, imagePointsFile).value.Some? ==>
              r == Ok((disk, LoadImagePointsFile(disk, imagePointsFile).value.value))
    ensures LoadImagePointsFile(disk, imagePointsFile).Raise? ==> r == Raise(LoadImagePointsFile(disk, imagePointsFile).exc)
    ensures LoadImagePointsFile(disk, imagePointsFile) == Ok(None) ==>
              && (r.Ok? <==> Collected(boards, zero, detect).Ok?)
              && (r.Raise? ==> r.exc == Collected(boards, zero, detect).exc)
              && (r.Ok? ==> var p := Collected(boards, zero, detect).value;
                            r.value.1 == Cache(p.objects, p.images, [p.size.0, p.size.1])
                            && r.value.0 == SaveImagePointsFile(disk, imagePointsFile, p.objects, p.images, [p.size.0, p.size.1]))
  {
    var cached :- LoadImagePointsFile(disk, imagePointsFile);
    if cached.Some? then Ok((disk, cached.value))
    else
      var p :- Collected(boards, zero, detect);
      var size := [p.size.0 as int, p.size.1 as int];
      Ok((SaveImagePointsFile(disk, imagePointsFile, p.objects, p.images, size), Cache(p.objects, p.images, size)))
  }

  /** After a run that had to collect, the next run finds the same points in
      the cache (for a file name that already ends in ".npz") and collects nothing. */
  lemma SecondRunUsesCache(disk: Disk, boards: seq<Image>, others: seq<Image>, zero: ObjectSample,
                           detect: Detector, imagePointsFile: string)
    requires NpzPath(imagePointsFile) == imagePointsFile
    requires LoadImagePointsFile(disk, imagePointsFile) == Ok(None)
    requires CachedPoints(disk, boards, zero, detect, imagePointsFile).Ok?
    ensures var (d, c) := CachedPoints(disk, boards, zero, detect, imagePointsFile).value;
            CachedPoints(d, others, zero, detect, imagePointsFile) == Ok((d, c))
  {
    var p := Collected(boards, zero, detect).value;
    ImagePointsRoundTrip(disk, imagePointsFile, p.objects, p.images, [p.size.0, p.size.1]);
  }

  /** `random.seed(salt); image_points = random.choices(image_points, k=pick_size);
      object_points = object_points[:pick_size]`. */
  function Subsample(rng: Rng, salt: int, pickSize: int, points: Cache): (r: Result<(seq<ObjectSample>, seq<ImageSample>)>)
    requires UnitInterval(rng)
    ensures r.Ok? <==> pickSize <= 0 || |points.images| > 0
    ensures !r.Ok? ==> r.exc == IndexError
    ensures r.Ok? && pickSize >= 0 ==> |r.value.1| == pickSize
    ensures r.Ok? ==> forall j :: 0 <= j < |r.value.1| ==> r.value.1[j] in points.images
    ensures r.Ok? && pickSize >= 0 ==>
              r.value.0 == points.objects[..if pickSize < |points.objects| then pickSize else |points.objects|]
  {
    ChoicesFromPopulation(rng, salt, points.images, pickSize);
    var images :- Choices(rng, salt, points.images, pickSize);
    Ok((Head(points.objects, pickSize), images))
  }

  /** What `cv.calibrateCamera` and `cv.fisheye.calibrate` demand of the sample
      lists before they solve anything: at least one view, and as many image
      samples as object samples; otherwise they raise `cv2.error`. */
  predicate SolverAccepts(objects: seq<ObjectSample>, images: seq<ImageSample>) {
    |objects| > 0 && |objects| == |images|
  }

  /** The subsample as written draws `pick_size` image samples but keeps only
      `min(pick_size, n)` object samples, so the solver accepts it exactly when
      `0 < pick_size <= n` for the n object samples at hand. */
  lemma SubsampleAccepted(rng: Rng, salt: int, pickSize: int, points: Cache)
    requires UnitInterval(rng)
    requires Subsample(rng, salt, pickSize, points).Ok?
    ensures var (objects, images) := Subsample(rng, salt, pickSize, points).value;
            SolverAccepts(objects, images) <==> 0 < pickSize <= |points.objects|
  {
    var (objects, images) := Subsample(rng, salt, pickSize, points).value;
    assert |images| == (if pickSize > 0 then pickSize else 0);
    assert |objects| == |Head(points.objects, pickSize)|;
  }

  /** The failure that follows: with some detections but fewer than
      `pick_size` of them (fewer than 50 boards at the default), the solver is
      handed more image samples than object samples. */
  lemma FewDetectionsRejected(rng: Rng, salt: int, pickSize: int, points: Cache)
    requires UnitInterval(rng)
    requires 0 < |points.images| && |points.objects| < pickSize
    ensures Subsample(rng, salt, pickSize, points).Ok?
    ensures var (objects, images) := Subsample(rng, salt, pickSize, points).value;
            |objects| == |points.objects| && |images| == pickSize && !SolverAccepts(objects, images)
  {
    SubsampleAccepted(rng, salt, pickSize, points);
  }

  /** The subsample as evidently intended: at most `pick_size` views, drawn with
      the same count for images and objects, so that a cache with one object
      sample per image sample is always accepted by the solver. */
  function SubsampleMatched(rng: Rng, salt: int, pickSize: int, points: Cache): (r: Result<(seq<ObjectSample>, seq<ImageSample>)>)
    requires UnitInterval(rng)
    ensures r.Ok? <==> pickSize <= 0 || |points.images| > 0
    ensures !r.Ok? ==> r.exc == IndexError
    ensures r.Ok? && pickSize > 0 ==> |r.value.1| == (if pickSize < |points.images| then pickSize else |points.images|)
    ensures r.Ok? ==> forall j :: 0 <= j < |r.value.1| ==> r.value.1[j] in points.images
    ensures r.Ok? ==> |r.value.0| <= |points.objects| && r.value.0 == points.objects[..|r.value.0|]
    ensures r.Ok? && |points.objects| == |points.images| ==> |r.value.0| == |r.value.1|
    ensures r.Ok? && |points.objects| == |points.images| && pickSize > 0 ==> SolverAccepts(r.value.0, r.value.1)
  {
    if pickSize > 0 && |points.images| == 0 then Raise(IndexError)
    else
      var n := if pickSize <= 0 then 0 else if pickSize < |points.images| then pickSize else |points.images|;
      ChoicesFromPopulation(rng, salt, points.images, n);
      var images := Choices(rng, salt, points.images, n).value;
      Ok((Head(points.objects, n), images))
  }
}

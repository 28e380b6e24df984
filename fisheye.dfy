/** A single fisheye camera (`camera/fisheye.py`): the calibration record
    kept in an `.npz` archive, the rules `get_maps` applies to the sizes and
    the camera matrix before handing them to OpenCV, and `undistort`. */
module Fisheye {
  import opened Py
  import opened Mats
  import opened Records

  /** A (width, height) pair, the order OpenCV takes sizes in. */
  type Size = (int, int)

  /** The six keyword arguments `save_calibration` passes to `np.savez_compressed`. */
  function CalibrationArrays(K: Value, D: Value, imageSize: Value, salt: Value, pickSize: Value, error: Value): Doc {
    map["K" := K, "D" := D, "image_size" := imageSize, "salt" := salt, "pick_size" := pickSize, "error" := error]
  }

  /** `save_calibration`: the archive at `NpzPath(file)` holds exactly the six
      entries, each as `np.savez` stores it, and nothing else on disk changes. */
  function SaveCalibration(disk: Disk, file: string, K: Value, D: Value, imageSize: Value,
                           salt: Value, pickSize: Value, error: Value): (d: Disk)
    ensures NpzPath(file) in d.files && d.files[NpzPath(file)].Npz?
    ensures d.files[NpzPath(file)].arrays.Keys == {"K", "D", "image_size", "salt", "pick_size", "error"}
    ensures d.files[NpzPath(file)].arrays["salt"] == AsArray(salt)
    ensures d.files[NpzPath(file)].arrays["K"] == AsArray(K)
    ensures forall p :: p in disk.files && p != NpzPath(file) ==> p in d.files && d.files[p] == disk.files[p]
    ensures d.files.Keys == disk.files.Keys + {NpzPath(file)}
    ensures d.folders == disk.folders && d.home == disk.home
  {
    SaveNpz(disk, file, CalibrationArrays(K, D, imageSize, salt, pickSize, error))
  }

  /** `load_calibration`: `np.load` fails on a missing file; every key must be
      present; salt and pick_size pass through `int()` and error through `float()`. */
  function LoadCalibration(disk: Disk, file: string): (r: Result<Doc>)
    ensures file !in disk.files ==> r == Raise(IOError)
    ensures r.Ok? ==> r.value.Keys == {"K", "D", "image_size", "salt", "pick_size", "error"}
    ensures r.Ok? ==> r.value["salt"].IntV? && r.value["pick_size"].IntV? && r.value["error"].FloatV?
  {
    var cal :- LoadNpz(disk, file);
    var K :- Get(cal, "K");
    var D :- Get(cal, "D");
    var imageSize :- Get(cal, "image_size");
    var s :- Get(cal, "salt");
    var salt :- ToInt(s);
    var p :- Get(cal, "pick_size");
    var pickSize :- ToInt(p);
    var e :- Get(cal, "error");
    var error :- ToFloat(e);
    Ok(map["K" := K, "D" := D, "image_size" := imageSize,
           "salt" := IntV(salt), "pick_size" := IntV(pickSize), "error" := FloatV(error)])
  }

  /** Saving then loading gives the six fields back unchanged, under exactly
      their six keys. */
  lemma CalibrationRoundTrip(disk: Disk, file: string, K: Value, D: Value, imageSize: Value,
                             salt: int, pickSize: int, error: real)
    requires IsArray(K) && IsArray(D) && IsArray(imageSize)
    ensures LoadCalibration(SaveCalibration(disk, file, K, D, imageSize, IntV(salt), IntV(pickSize), FloatV(error)), NpzPath(file))
            == Ok(CalibrationArrays(K, D, imageSize, IntV(salt), IntV(pickSize), FloatV(error)))
  {
    NumbersSurviveArchive(salt, error);
    NumbersSurviveArchive(pickSize, error);
  }

  /** Whatever numbers were saved, loading coerces salt and pick_size with
      `int()` (truncating a float toward zero) and error with `float()`. */
  lemma CalibrationCoercion(disk: Disk, file: string, K: Value, D: Value, imageSize: Value,
                            salt: real, pickSize: real, error: int)
    ensures var r := LoadCalibration(SaveCalibration(disk, file, K, D, imageSize, FloatV(salt), FloatV(pickSize), IntV(error)), NpzPath(file));
            r.Ok? && r.value["salt"] == IntV(Trunc(salt)) && r.value["pick_size"] == IntV(Trunc(pickSize))
            && r.value["error"] == FloatV(error as real)
  {
  }

  /** `K * w / wc` entry by entry. */
  function Scaled(K: Matrix, w: int, wc: int): (r: Matrix)
    requires wc != 0
    ensures |r| == |K|
    ensures forall i :: 0 <= i < |r| ==> |r[i]| == |K[i]|
    ensures forall i, j :: 0 <= i < |r| && 0 <= j < |r[i]| ==> r[i][j] == K[i][j] * w as real / wc as real
  {
    seq(|K|, i requires 0 <= i < |K| =>
      seq(|K[i]|, j requires 0 <= j < |K[i]| => K[i][j] * w as real / wc as real))
  }

  /** `scaled_K = K * w / wc; scaled_K[2][2] = 1.0`: the write needs a third
      row with a third entry. */
  function ScaleK(K: Matrix, w: int, wc: int): (r: Result<Matrix>)
    requires wc != 0
    ensures r.Ok? <==> |K| >= 3 && |K[2]| >= 3
    ensures !r.Ok? ==> r.exc == IndexError
    ensures r.Ok? ==> |r.value| == |K| && forall i :: 0 <= i < |K| ==> |r.value[i]| == |K[i]|
    ensures r.Ok? ==> r.value[2][2] == 1.0
    ensures r.Ok? ==> forall i, j :: 0 <= i < |K| && 0 <= j < |K[i]| && (i, j) != (2, 2) ==>
              r.value[i][j] == K[i][j] * w as real / wc as real
  {
    if |K| < 3 || |K[2]| < 3 then Raise(IndexError)
    else
      var s := Scaled(K, w, wc);
      Ok(s[2 := s[2][2 := 1.0]])
  }

  /** A frame as wide as the calibration images keeps K, except that entry
      [2][2] becomes exactly 1. */
  lemma ScaleKSameWidth(K: Matrix, w: int)
    requires w != 0 && |K| >= 3 && |K[2]| >= 3
    ensures ScaleK(K, w, w) == Ok(K[2 := K[2][2 := 1.0]])
  {
    var r := ScaleK(K, w, w).value;
    var e := K[2 := K[2][2 := 1.0]];
    forall i | 0 <= i < |K| ensures r[i] == e[i] {
      assert |r[i]| == |e[i]|;
      forall j | 0 <= j < |K[i]| ensures r[i][j] == e[i][j] {
        if (i, j) != (2, 2) {
          var x, y := K[i][j], w as real;
          assert x * y / y == x;
        }
      }
    }
    assert |r| == |e|;
    assert r == e;
  }

  /** What `get_maps` hands to OpenCV: the rescaled K and the two target sizes. */
  datatype MapParams = MapParams(scaledK: Matrix, dim2: Size, dim3: Size)

  /** The frame size as `get_maps` reads it: `img.shape[:2][::-1]`, that is (width, height). */
  function FrameSize(img: Image): (s: Size)
    ensures s == (Shape2(img).1, Shape2(img).0)
  {
    (Width(img), Height(img))
  }

  /** The size rules of `get_maps`. The aspect check `w / h == wc / hc`
      divides by both heights (a `ZeroDivisionError` for a zero height) and
      is the cross-multiplication `w * hc == wc * h`. A target size that is not
      given defaults to the frame's own. A zero calibration width passes the
      check only for a zero-width frame; numpy's 0/0 then makes K NaN, which
      OpenCV rejects. */
  function MapParameters(img: Image, calibrationDim: Size, K: Matrix, dim2: Option<Size>, dim3: Option<Size>): (r: Result<MapParams>)
    ensures var (w, h) := FrameSize(img);
            var (wc, hc) := calibrationDim;
            && (r.Ok? <==> h != 0 && hc != 0 && w * hc == wc * h && wc != 0 && |K| >= 3 && |K[2]| >= 3)
            && ((h == 0 || hc == 0) ==> r == Raise(ZeroDivisionError))
            && (h != 0 && hc != 0 && w * hc != wc * h ==> r == Raise(AssertionError))
            && (h != 0 && hc != 0 && w * hc == wc * h && wc == 0 ==> r == Raise(CvError))
            && (r.Ok? ==> r.value.dim2 == (if dim2.Some? then dim2.value else (w, h)))
            && (r.Ok? ==> r.value.dim3 == (if dim3.Some? then dim3.value else (w, h)))
            && (r.Ok? ==> r.value.scaledK == ScaleK(K, w, wc).value)
  {
    var (w, h) := FrameSize(img);
    var (wc, hc) := calibrationDim;
    if h == 0 || hc == 0 then Raise(ZeroDivisionError)
    else if w * hc != wc * h then Raise(AssertionError)
    else if wc == 0 then Raise(CvError)
    else
      var sK :- ScaleK(K, w, wc);
      Ok(MapParams(sK, dim2.GetOr((w, h)), dim3.GetOr((w, h))))
  }

  /** `w / h == wc / hc` over the rationals is the cross-multiplication the model uses. */
  lemma AspectIsCrossMultiplication(w: int, h: int, wc: int, hc: int)
    requires h != 0 && hc != 0
    ensures (w as real / h as real == wc as real / hc as real) <==> w * hc == wc * h
  {
    var a, b := w as real / h as real, wc as real / hc as real;
    assert a * h as real == w as real;
    assert b * hc as real == wc as real;
    assert (w * hc) as real == a * (h * hc) as real;
    assert (wc * h) as real == b * (h * hc) as real;
  }

  /** The remap tables OpenCV builds, with the size they were built for. */
  datatype Maps = Maps(size: Size, map1: Value, map2: Value)

  /** The OpenCV calls `get_maps` and `undistort` make. */
  datatype FisheyeOps = FisheyeOps(
    estimateNewK: (Matrix, Value, Size, real) -> Matrix,  // fisheye.estimateNewCameraMatrixForUndistortRectify(K, D, dim2, eye(3), balance)
    initMap: (Matrix, Value, Matrix, Size) -> Maps,       // fisheye.initUndistortRectifyMap(K, D, eye(3), new_K, dim3, CV_16SC2)
    remap: (Image, Maps) -> Image)                        // remap(img, map1, map2, INTER_LINEAR, BORDER_CONSTANT)

  /** The sizes OpenCV honours: maps are built for the size asked for, and
      remapping yields a frame of the maps' size. */
  ghost predicate SizesHonoured(ops: FisheyeOps) {
    && (forall K, D, newK, s :: ops.initMap(K, D, newK, s).size == s)
    && (forall img, m: Maps :: m.size.0 >= 0 && m.size.1 >= 0 ==>
          Width(ops.remap(img, m)) == m.size.0 && Height(ops.remap(img, m)) == m.size.1)
  }

  /** `get_maps`: the new camera matrix is estimated from the scaled K for
      dim2, and the maps are built from it for dim3. */
  function GetMaps(ops: FisheyeOps, img: Image, calibrationDim: Size, K: Matrix, D: Value,
                   balance: real, dim2: Option<Size>, dim3: Option<Size>): (r: Result<Maps>)
    ensures r.Ok? <==> MapParameters(img, calibrationDim, K, dim2, dim3).Ok?
    ensures !r.Ok? ==> r.exc == MapParameters(img, calibrationDim, K, dim2, dim3).exc
    ensures SizesHonoured(ops) && r.Ok? ==> r.value.size == MapParameters(img, calibrationDim, K, dim2, dim3).value.dim3
  {
    var p :- MapParameters(img, calibrationDim, K, dim2, dim3);
    var newK := ops.estimateNewK(p.scaledK, D, p.dim2, balance);
    Ok(ops.initMap(p.scaledK, D, newK, p.dim3))
  }

  /** `undistort(img, map1, map2)`: the frame remapped through the maps it is given. */
  function Undistort(ops: FisheyeOps, img: Image, maps: Maps): (r: Image)
    ensures SizesHonoured(ops) && maps.size.0 >= 0 && maps.size.1 >= 0 ==> FrameSize(r) == maps.size
  {
    ops.remap(img, maps)
  }

  /** Undistorting with the maps of `get_maps` and no target size gives a
      frame of the input's own size. */
  lemma UndistortKeepsSize(ops: FisheyeOps, img: Image, calibrationDim: Size, K: Matrix, D: Value, balance: real)
    requires SizesHonoured(ops)
    requires GetMaps(ops, img, calibrationDim, K, D, balance, None, None).Ok?
    ensures FrameSize(Undistort(ops, img, GetMaps(ops, img, calibrationDim, K, D, balance, None, None).value)) == FrameSize(img)
  {
  }
}

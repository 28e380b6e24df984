/** A stereo pair of fisheye cameras (`camera/fisheye_stereo.py`): the data
    handed to the stereo solver, the JSON calibration record, the text labels
    drawn on frames, and the calibrated camera that rectifies frame pairs. */
module FisheyeStereo {
  import opened Py
  import opened Grid
  import opened Mats
  import opened Records
  import Text
  import Fisheye

  /** `np.zeros((rows, cols))`. */
  function ZeroMatrix(rows: nat, cols: nat): (m: Matrix)
    ensures |m| == rows
    ensures forall i :: 0 <= i < rows ==> |m[i]| == cols
    ensures forall i, j :: 0 <= i < rows && 0 <= j < cols ==> m[i][j] == 0.0
  {
    seq(rows, _ => seq(cols, _ => 0.0))
  }

  /** `v[key]` on a value that must be a dict: anything else is a `TypeError`. */
  function Entries(v: Value): (r: Result<Doc>)
    ensures r.Ok? <==> v.DictV?
    ensures r.Ok? ==> r.value == v.entries
    ensures !r.Ok? ==> r.exc == TypeError
  {
    if v.DictV? then Ok(v.entries) else Raise(TypeError)
  }

  /** Every sample has exactly `m` points. */
  predicate Uniform(samples: seq<ImageSample>, m: nat) {
    forall i :: 0 <= i < |samples| ==> |samples[i]| == m
  }

  /** All points of all samples, in order: what numpy holds in memory. */
  function Flatten(samples: seq<ImageSample>): seq<Point2>
    decreases |samples|
  {
    if |samples| == 0 then [] else Flatten(samples[..|samples| - 1]) + samples[|samples| - 1]
  }

  /** Uniform samples of `m` points flatten to `|samples| * m` points. */
  lemma {:induction false} FlattenLength(samples: seq<ImageSample>, m: nat)
    requires Uniform(samples, m)
    ensures |Flatten(samples)| == |samples| * m
    decreases |samples|
  {
    if |samples| > 0 {
      var n := |samples| - 1;
      var init := samples[..n];
      assert Uniform(init, m) by {
        forall k | 0 <= k < n ensures |init[k]| == m { assert init[k] == samples[k]; }
      }
      FlattenLength(init, m);
      assert Flatten(samples) == Flatten(init) + samples[n];
      assert |samples| * m == n * m + m;
    }
  }

  /** Point `j` of sample `i` sits at `i * m + j` of the flattened points. */
  lemma {:induction false} FlattenAt(samples: seq<ImageSample>, m: nat, i: nat, j: nat)
    requires Uniform(samples, m) && i < |samples| && j < m
    ensures i * m + j < |Flatten(samples)| && Flatten(samples)[i * m + j] == samples[i][j]
    decreases |samples|
  {
    var n := |samples| - 1;
    var init := samples[..n];
    assert Uniform(init, m) by {
      forall k | 0 <= k < n ensures |init[k]| == m { assert init[k] == samples[k]; }
    }
    FlattenLength(init, m);
    assert Flatten(samples) == Flatten(init) + samples[n];
    ConcatIndex(Flatten(init), samples[n], n, m, i, j);
    if i < n {
      FlattenAt(init, m, i, j);
      assert init[i] == samples[i];
    }
  }

  /** Point `j` of group `i` in `a + b`, where `a` holds `n` groups of `m`. */
  lemma ConcatIndex(a: seq<Point2>, b: seq<Point2>, n: nat, m: nat, i: nat, j: nat)
    requires |a| == n * m && |b| == m && i <= n && j < m
    ensures i < n ==> i * m + j < |a| && (a + b)[i * m + j] == a[i * m + j]
    ensures i == n ==> (a + b)[i * m + j] == b[j]
  {
    if i < n {
      Grid.MulLe(m, i + 1, n);
      assert m * (i + 1) == i * m + m;
    }
  }

  /** Group `i + 1` ends inside the `n * area` points. */
  lemma GroupInside(n: nat, area: nat, i: nat)
    requires i < n
    ensures i * area + area <= n * area
  {
    Grid.MulLe(area, i + 1, n);
    assert area * (i + 1) == i * area + area;
  }

  /** The `i`-th group of `area` consecutive points. */
  function Group(flat: seq<Point2>, n: nat, area: nat, i: nat): (g: ImageSample)
    requires |flat| == n * area && i < n
    ensures |g| == area
    ensures forall j :: 0 <= j < area ==> i * area + j < |flat| && g[j] == flat[i * area + j]
  {
    GroupInside(n, area, i);
    flat[i * area..i * area + area]
  }

  /** `n` consecutive groups of `area` points. */
  function Regroup(flat: seq<Point2>, n: nat, area: nat): (r: seq<ImageSample>)
    requires |flat| == n * area
    ensures |r| == n && Uniform(r, area)
    ensures forall i :: 0 <= i < n ==> r[i] == Group(flat, n, area, i)
  {
    seq(n, i requires 0 <= i < n => Group(flat, n, area, i))
  }

  /** `np.reshape(np.asarray(samples), (n, 1, area, 2))`: ragged samples
      cannot be made an array, and the total number of points must be `n * area`. */
  function Reshape(samples: seq<ImageSample>, n: nat, area: nat): (r: Result<seq<ImageSample>>)
    ensures r.Ok? <==> (|samples| == 0 || Uniform(samples, |samples[0]|)) && |Flatten(samples)| == n * area
    ensures !r.Ok? ==> r.exc == ValueError
    ensures r.Ok? ==> |r.value| == n && Uniform(r.value, area)
  {
    if |samples| > 0 && !Uniform(samples, |samples[0]|) then Raise(ValueError)
    else
      var flat := Flatten(samples);
      if |flat| != n * area then Raise(ValueError) else Ok(Regroup(flat, n, area))
  }

  /** Samples that already have `area` points each are kept as they are. */
  lemma ReshapeKeeps(samples: seq<ImageSample>, area: nat)
    requires Uniform(samples, area)
    ensures Reshape(samples, |samples|, area) == Ok(samples)
  {
    FlattenLength(samples, area);
    var flat := Flatten(samples);
    var r := Regroup(flat, |samples|, area);
    forall i | 0 <= i < |samples| ensures r[i] == samples[i] {
      var g := Group(flat, |samples|, area, i);
      assert r[i] == g;
      forall j | 0 <= j < area ensures g[j] == samples[i][j] {
        FlattenAt(samples, area, i, j);
        assert g[j] == flat[i * area + j];
      }
    }
    assert r == samples;
  }

  /** With boards of at least one point, a set of another size than the left
      count does not reshape. */
  lemma ReshapeRejectsCount(samples: seq<ImageSample>, n: nat, area: nat)
    requires Uniform(samples, area) && area > 0 && |samples| != n
    ensures Reshape(samples, n, area) == Raise(ValueError)
  {
    FlattenLength(samples, area);
    if |samples| * area == n * area {
      if |samples| < n {
        Grid.MulLe(area, |samples| + 1, n);
      } else {
        Grid.MulLe(area, n + 1, |samples|);
      }
    }
  }

  /** `objp`: the `cs0 * cs1` corners of the board, shape (N, 1, 3), point k
      being (k mod cs0, k div cs0, 0). */
  function ObjectGrid(cs0: nat, cs1: nat): (r: ObjectSample)
    ensures r.layout == OneColumn && |r.points| == cs0 * cs1
    ensures forall k :: 0 <= k < |r.points| ==> r.points[k] == Point3((k % cs0) as real, (k / cs0) as real, 0.0)
  {
    ObjectSample(OneColumn, Board(cs0, cs1, 1.0))
  }

  /** What `stereo_calibrate` hands to `cv.fisheye.stereoCalibrate`. */
  datatype StereoInputs = StereoInputs(
    objects: seq<ObjectSample>, left: seq<ImageSample>, right: seq<ImageSample>,
    kLeft: Value, dLeft: Value, kRight: Value, dRight: Value, imageSize: Value)

  const ZeroK := MatV(ZeroMatrix(3, 3))
  const ZeroD := MatV(ZeroMatrix(4, 1))

  /** The initial camera matrices and distortions: the per-eye calibrations,
      or zeros. */
  function InitialIntrinsics(data: Doc, left: Doc, usePreCalibrated: bool): (r: Result<(Value, Value, Value, Value)>)
    ensures !usePreCalibrated ==> r == Ok((ZeroK, ZeroD, ZeroK, ZeroD))
    ensures usePreCalibrated && r.Ok? ==>
              && "K" in left && "D" in left && r.value.0 == left["K"] && r.value.1 == left["D"]
              && "right" in data && data["right"].DictV?
              && "K" in data["right"].entries && "D" in data["right"].entries
              && r.value.2 == data["right"].entries["K"] && r.value.3 == data["right"].entries["D"]
  {
    if usePreCalibrated then
      var kLeft :- Get(left, "K");
      var dLeft :- Get(left, "D");
      var rv :- Get(data, "right");
      var right :- Entries(rv);
      var kRight :- Get(right, "K");
      var dRight :- Get(right, "D");
      Ok((kLeft, dLeft, kRight, dRight))
    else
      Ok((ZeroK, ZeroD, ZeroK, ZeroD))
  }

  /** `n` copies of the board, one per sample. */
  function Replicate(n: nat, o: ObjectSample): (r: seq<ObjectSample>)
    ensures |r| == n && forall k :: 0 <= k < n ==> r[k] == o
  {
    seq(n, _ => o)
  }

  /** The data preparation of `stereo_calibrate`: the board grid replicated
      once per left sample (N_OK of them), and both image-point sets reshaped
      to N_OK samples of `board_area` points. */
  function PrepareStereo(data: Doc, usePreCalibrated: bool): (r: Result<StereoInputs>)
    ensures r.Ok? ==>
              && "left" in data && data["left"].DictV? && "image_points" in data["left"].entries
              && data["left"].entries["image_points"].ImagesV?
              && var nOK := |data["left"].entries["image_points"].images|;
                 |r.value.objects| == nOK && |r.value.left| == nOK && |r.value.right| == nOK
    ensures r.Ok? ==>
              && "chessboard_size" in data && data["chessboard_size"].IntsV? && |data["chessboard_size"].ints| >= 2
              && var cs := data["chessboard_size"].ints;
                 && cs[0] * cs[1] >= 0
                 && (forall k :: 0 <= k < |r.value.objects| ==> |r.value.objects[k].points| == cs[0] * cs[1])
                 && Uniform(r.value.left, cs[0] * cs[1]) && Uniform(r.value.right, cs[0] * cs[1])
                 && (cs[0] >= 0 && cs[1] >= 0 ==> forall k :: 0 <= k < |r.value.objects| ==>
                      r.value.objects[k] == ObjectSample(OneRow, ObjectGrid(cs[0], cs[1]).points))
    ensures r.Ok? && !usePreCalibrated ==>
              r.value.kLeft == ZeroK && r.value.dLeft == ZeroD && r.value.kRight == ZeroK && r.value.dRight == ZeroD
    ensures r.Ok? && usePreCalibrated ==>
              && "K" in data["left"].entries && "D" in data["left"].entries
              && r.value.kLeft == data["left"].entries["K"] && r.value.dLeft == data["left"].entries["D"]
              && "right" in data && data["right"].DictV?
              && "K" in data["right"].entries && "D" in data["right"].entries
              && r.value.kRight == data["right"].entries["K"] && r.value.dRight == data["right"].entries["D"]
    ensures r.Ok? ==> "image_size" in data["left"].entries && r.value.imageSize == data["left"].entries["image_size"]
  {
    var csv :- Get(data, "chessboard_size");
    if !csv.IntsV? then Raise(TypeError)
    else if |csv.ints| < 2 then Raise(IndexError)
    else
      var cs0, cs1 := csv.ints[0], csv.ints[1];
      var lv :- Get(data, "left");
      var left :- Entries(lv);
      var imgSize :- Get(left, "image_size");
      var ks :- InitialIntrinsics(data, left, usePreCalibrated);
      var ipl :- Get(left, "image_points");
      var rv :- Get(data, "right");
      var right :- Entries(rv);
      var ipr :- Get(right, "image_points");
      Assemble(cs0, cs1, ipl, ipr, ks, imgSize)
  }

  /** The second half of that preparation, once every entry has been looked
      up: the grid built and replicated, and both point sets reshaped. */
  function Assemble(cs0: int, cs1: int, ipl: Value, ipr: Value, ks: (Value, Value, Value, Value), imgSize: Value)
    : (r: Result<StereoInputs>)
    ensures r.Ok? ==>
              && ipl.ImagesV? && var nOK := |ipl.images|;
                 |r.value.objects| == nOK && |r.value.left| == nOK && |r.value.right| == nOK
    ensures r.Ok? ==>
              && cs0 * cs1 >= 0
              && (forall k :: 0 <= k < |r.value.objects| ==> |r.value.objects[k].points| == cs0 * cs1)
              && Uniform(r.value.left, cs0 * cs1) && Uniform(r.value.right, cs0 * cs1)
              && (cs0 >= 0 && cs1 >= 0 ==> forall k :: 0 <= k < |r.value.objects| ==>
                   r.value.objects[k] == ObjectSample(OneRow, ObjectGrid(cs0, cs1).points))
    ensures r.Ok? ==>
              && r.value.kLeft == ks.0 && r.value.dLeft == ks.1 && r.value.kRight == ks.2 && r.value.dRight == ks.3
              && r.value.imageSize == imgSize
    ensures !ipl.ImagesV? ==> r == Raise(TypeError)
    ensures ipl.ImagesV? && !ipr.ImagesV? ==> r == Raise(ValueError)
  {
    if !ipl.ImagesV? then Raise(TypeError)
    else
      var nOK := |ipl.images|;
      var boardArea := cs0 * cs1;
      // `np.zeros` refuses a negative area, and the grid assigned into `objp`
      // has `max(cs0, 0) * max(cs1, 0)` rows, which must match it.
      var c0: nat, c1: nat := if cs0 < 0 then 0 else cs0, if cs1 < 0 then 0 else cs1;
      if boardArea < 0 || c0 * c1 != boardArea then Raise(ValueError)
      else if !ipr.ImagesV? then Raise(ValueError)
      else
        var objp := ObjectGrid(c0, c1);
        var imagesLeft :- Reshape(ipl.images, nOK, boardArea);
        var imagesRight :- Reshape(ipr.images, nOK, boardArea);
        Ok(StereoInputs(Replicate(nOK, ObjectSample(OneRow, objp.points)), imagesLeft, imagesRight,
                        ks.0, ks.1, ks.2, ks.3, imgSize))
  }

  /** Well-formed input is passed on unchanged: both eyes with N samples of
      `board_area` points each. */
  lemma PrepareKeepsPoints(data: Doc, usePreCalibrated: bool, left: seq<ImageSample>, right: seq<ImageSample>)
    requires "chessboard_size" in data && data["chessboard_size"].IntsV? && |data["chessboard_size"].ints| >= 2
    requires data["chessboard_size"].ints[0] >= 0 && data["chessboard_size"].ints[1] >= 0
    requires "left" in data && data["left"].DictV? && "right" in data && data["right"].DictV?
    requires data["left"].entries.Keys >= {"image_size", "image_points", "K", "D"}
    requires data["right"].entries.Keys >= {"image_points", "K", "D"}
    requires data["left"].entries["image_points"] == ImagesV(left)
    requires data["right"].entries["image_points"] == ImagesV(right)
    requires var cs := data["chessboard_size"].ints;
             |left| == |right| && Uniform(left, cs[0] * cs[1]) && Uniform(right, cs[0] * cs[1])
    ensures PrepareStereo(data, usePreCalibrated).Ok?
    ensures PrepareStereo(data, usePreCalibrated).value.left == left
    ensures PrepareStereo(data, usePreCalibrated).value.right == right
  {
    var cs := data["chessboard_size"].ints;
    ReshapeKeeps(left, cs[0] * cs[1]);
    ReshapeKeeps(right, cs[0] * cs[1]);
  }

  /** Unequal left and right counts are refused (boards of at least one point). */
  lemma PrepareRejectsUnequalCounts(data: Doc, usePreCalibrated: bool, left: seq<ImageSample>, right: seq<ImageSample>)
    requires "chessboard_size" in data && data["chessboard_size"].IntsV? && |data["chessboard_size"].ints| >= 2
    requires data["chessboard_size"].ints[0] > 0 && data["chessboard_size"].ints[1] > 0
    requires "left" in data && data["left"].DictV? && "right" in data && data["right"].DictV?
    requires "image_points" in data["left"].entries && data["left"].entries["image_points"] == ImagesV(left)
    requires "image_points" in data["right"].entries && data["right"].entries["image_points"] == ImagesV(right)
    requires var cs := data["chessboard_size"].ints;
             |left| != |right| && Uniform(right, cs[0] * cs[1])
    ensures !PrepareStereo(data, usePreCalibrated).Ok?
  {
    var cs := data["chessboard_size"].ints;
    if PrepareStereo(data, usePreCalibrated).Ok? {
      assert |PrepareStereo(data, usePreCalibrated).value.right| == |left|;
      ReshapeRejectsCount(right, |left|, cs[0] * cs[1]);
    }
  }

  /** `cv.fisheye.stereoCalibrate`: rms, new K/D for both eyes, R and T. */
  type StereoCalibrator = StereoInputs -> (real, Matrix, Matrix, Matrix, Matrix, Matrix, Matrix)

  const StereoKeys: set<string> := {"rms", "individual_calibration", "K_left", "D_left", "K_right", "D_right", "R", "T"}

  /** The view check `cv.fisheye.stereoCalibrate` makes before solving: at
      least one view (preparation already gives every list the same length). */
  predicate StereoSolverAccepts(inputs: StereoInputs) {
    |inputs.objects| > 0
  }

  /** `stereo_calibrate`: the solver's results under eight keys, together
      with the input data itself. A failed preparation raises its own
      exception; prepared inputs without a view make the solver raise. */
  function StereoCalibrate(data: Doc, cv: StereoCalibrator, usePreCalibrated: bool := true): (r: Result<Doc>)
    ensures PrepareStereo(data, usePreCalibrated).Raise? ==> r == Raise(PrepareStereo(data, usePreCalibrated).exc)
    ensures PrepareStereo(data, usePreCalibrated).Ok? && !StereoSolverAccepts(PrepareStereo(data, usePreCalibrated).value) ==>
              r == Raise(CvError)
    ensures r.Ok? <==> PrepareStereo(data, usePreCalibrated).Ok? && StereoSolverAccepts(PrepareStereo(data, usePreCalibrated).value)
    ensures r.Ok? ==> r.value.Keys == StereoKeys
    ensures r.Ok? ==> r.value["individual_calibration"] == DictV(data)
    ensures r.Ok? ==> r.value["rms"] == FloatV(cv(PrepareStereo(data, usePreCalibrated).value).0)
    ensures r.Ok? ==>
              var (_, kLeft, dLeft, kRight, dRight, rot, trans) := cv(PrepareStereo(data, usePreCalibrated).value);
              && r.value["K_left"] == MatV(kLeft) && r.value["D_left"] == MatV(dLeft)
              && r.value["K_right"] == MatV(kRight) && r.value["D_right"] == MatV(dRight)
              && r.value["R"] == MatV(rot) && r.value["T"] == MatV(trans)
  {
    var inputs :- PrepareStereo(data, usePreCalibrated);
    if !StereoSolverAccepts(inputs) then Raise(CvError) else
    var (rms, kLeft, dLeft, kRight, dRight, rot, trans) := cv(inputs);
    Ok(map["rms" := FloatV(rms), "individual_calibration" := DictV(data),
           "K_left" := MatV(kLeft), "D_left" := MatV(dLeft), "K_right" := MatV(kRight), "D_right" := MatV(dRight),
           "R" := MatV(rot), "T" := MatV(trans)])
  }

  /** Both eyes without image points: preparation succeeds with no view, and
      the solver refuses it. */
  lemma NoViewsRejected(data: Doc, cv: StereoCalibrator, usePreCalibrated: bool)
    requires "chessboard_size" in data && data["chessboard_size"].IntsV? && |data["chessboard_size"].ints| >= 2
    requires data["chessboard_size"].ints[0] >= 0 && data["chessboard_size"].ints[1] >= 0
    requires "left" in data && data["left"].DictV? && "right" in data && data["right"].DictV?
    requires data["left"].entries.Keys >= {"image_size", "image_points", "K", "D"}
    requires data["right"].entries.Keys >= {"image_points", "K", "D"}
    requires data["left"].entries["image_points"] == ImagesV([])
    requires data["right"].entries["image_points"] == ImagesV([])
    ensures PrepareStereo(data, usePreCalibrated).Ok?
    ensures StereoCalibrate(data, cv, usePreCalibrated) == Raise(CvError)
  {
    PrepareKeepsPoints(data, usePreCalibrated, [], []);
  }

  /** A Python dict the caller owns and the callee changes in place. */
  class PyDict {
    var entries: Doc

    constructor (entries: Doc)
      ensures this.entries == entries
    {
      this.entries := entries;
    }
  }

  /** The dict after `save_stereo_calibration`'s four assignments. */
  function StereoRecord(entries: Doc, imageSize: Value, salt: int, pickSize: int, cid: string): (r: Doc)
    ensures r.Keys == entries.Keys + {"image_size", "salt", "pick_size", "cid"}
    ensures r["image_size"] == imageSize && r["salt"] == IntV(salt) && r["pick_size"] == IntV(pickSize) && r["cid"] == StrV(cid)
    ensures forall k :: k in entries && k !in {"image_size", "salt", "pick_size", "cid"} ==> r[k] == entries[k]
  {
    entries["image_size" := imageSize]["salt" := IntV(salt)]["pick_size" := IntV(pickSize)]["cid" := StrV(cid)]
  }

  /** `save_stereo_calibration`: writes four entries into the caller's dict and
      then the whole dict as JSON. */
  method SaveStereoCalibration(disk: Disk, calibrationFile: string, parameters: PyDict, imageSize: Value,
                               salt: int, pickSize: int, cid: string) returns (d: Disk)
    modifies parameters
    ensures parameters.entries == StereoRecord(old(parameters.entries), imageSize, salt, pickSize, cid)
    ensures d == SaveJson(disk, calibrationFile, parameters.entries)
  {
    parameters.entries := parameters.entries["image_size" := imageSize];
    parameters.entries := parameters.entries["salt" := IntV(salt)];
    parameters.entries := parameters.entries["pick_size" := IntV(pickSize)];
    parameters.entries := parameters.entries["cid" := StrV(cid)];
    d := SaveJson(disk, calibrationFile, parameters.entries);
  }

  const LoadedKeys: set<string> := {"K_left", "K_right", "D_left", "D_right", "R", "T", "image_size"}

  /** `load_stereo_calibration`: `None` when the file cannot be opened; a file
      that is not JSON fails to decode (`ValueError`); a missing key escapes as a
      `KeyError`. Seven keys come back; salt, pick_size and cid do not. */
  function LoadStereoCalibration(disk: Disk, calibrationFile: string): (r: Result<Option<Doc>>)
    ensures calibrationFile !in disk.files <==> r == Ok(None)
    ensures r.Ok? && r.value.Some? ==> r.value.value.Keys == LoadedKeys
    ensures calibrationFile in disk.files && !disk.files[calibrationFile].Json? ==> r == Raise(ValueError)
  {
    if calibrationFile !in disk.files then Ok(None)
    else if !disk.files[calibrationFile].Json? then Raise(ValueError)
    else
      var data := disk.files[calibrationFile].doc;
      var kLeft :- Get(data, "K_left");
      var kRight :- Get(data, "K_right");
      var dLeft :- Get(data, "D_left");
      var dRight :- Get(data, "D_right");
      var rot :- Get(data, "R");
      var trans :- Get(data, "T");
      var sz :- Get(data, "image_size");
      var size :- Iterate(sz);
      Ok(Some(map["K_left" := kLeft, "K_right" := kRight, "D_left" := dLeft, "D_right" := dRight,
                  "R" := rot, "T" := trans, "image_size" := size]))
  }

  /** Saving then loading keeps the six matrices and the image size, and drops
      everything else. */
  lemma StereoRoundTrip(disk: Disk, calibrationFile: string, entries: Doc, imageSize: Value,
                        salt: int, pickSize: int, cid: string)
    requires entries.Keys >= {"K_left", "K_right", "D_left", "D_right", "R", "T"}
    requires !(imageSize.Scalar? || imageSize.IntV? || imageSize.FloatV?)
    ensures var d := SaveJson(disk, calibrationFile, StereoRecord(entries, imageSize, salt, pickSize, cid));
            LoadStereoCalibration(d, calibrationFile) ==
              Ok(Some(map["K_left" := entries["K_left"], "K_right" := entries["K_right"],
                          "D_left" := entries["D_left"], "D_right" := entries["D_right"],
                          "R" := entries["R"], "T" := entries["T"], "image_size" := imageSize]))
  {
  }

  /** The lines of `header + '\n' + text`: the header on a line of its own,
      then the text's lines. */
  function Lines(header: string, text: string): seq<string> {
    [header] + Text.Split(text, '\n')
  }

  /** One block of labels: `'<header>\n{<key>}'.format(**calibration).split('\n')`,
      `render` being numpy's `str` of a value; a missing key is a `KeyError`. */
  function Block(calibration: Doc, header: string, key: string, render: Value -> string): (r: Result<seq<string>>)
    requires '\n' !in header
    ensures r.Ok? <==> key in calibration
    ensures !r.Ok? ==> r.exc == KeyError
    ensures r.Ok? ==> r.value == Lines(header, render(calibration[key]))
  {
    var v :- Get(calibration, key);
    Text.SplitAfterHeader(header, '\n', render(v));
    Ok(Text.Split(header + "\n" + render(v), '\n'))
  }

  /** The K, D, R and T blocks for one eye. */
  function EyeLabels(calibration: Doc, kKey: string, dKey: string, render: Value -> string): Result<seq<string>> {
    if kKey in calibration && dKey in calibration && "R" in calibration && "T" in calibration then
      Ok(Lines("K", render(calibration[kKey])) + Lines("D", render(calibration[dKey]))
         + Lines("R", render(calibration["R"])) + Lines("T", render(calibration["T"])))
    else Raise(KeyError)
  }

  /** No label spans more than one line. */
  predicate SingleLines(labels: seq<string>) {
    forall i :: 0 <= i < |labels| ==> '\n' !in labels[i]
  }

  /** A block is its header line followed by at least one line of text. */
  lemma LinesAreSingle(header: string, text: string)
    requires '\n' !in header
    ensures var ls := Lines(header, text); |ls| >= 2 && ls[0] == header && SingleLines(ls)
  {
    var ls := Lines(header, text);
    forall i | 0 <= i < |ls| ensures '\n' !in ls[i] {
      if i > 0 { assert ls[i] == Text.Split(text, '\n')[i - 1]; }
    }
  }

  lemma ConcatSingle(a: seq<string>, b: seq<string>)
    requires SingleLines(a) && SingleLines(b)
    ensures SingleLines(a + b)
  {
    forall i | 0 <= i < |a + b| ensures '\n' !in (a + b)[i] {
      if i >= |a| { assert (a + b)[i] == b[i - |a|]; }
    }
  }

  /** Every label is a single line of text, and each block starts with its header. */
  lemma EyeLabelsAreLines(calibration: Doc, kKey: string, dKey: string, render: Value -> string)
    requires EyeLabels(calibration, kKey, dKey, render).Ok?
    ensures var labels := EyeLabels(calibration, kKey, dKey, render).value;
            && |labels| >= 8 && labels[0] == "K"
            && forall i :: 0 <= i < |labels| ==> '\n' !in labels[i]
  {
    var c := calibration;
    var k, d, rr, t := Lines("K", render(c[kKey])), Lines("D", render(c[dKey])), Lines("R", render(c["R"])), Lines("T", render(c["T"]));
    LinesAreSingle("K", render(c[kKey]));
    LinesAreSingle("D", render(c[dKey]));
    LinesAreSingle("R", render(c["R"]));
    LinesAreSingle("T", render(c["T"]));
    ConcatSingle(k, d);
    ConcatSingle(k + d, rr);
    ConcatSingle(k + d + rr, t);
    assert EyeLabels(calibration, kKey, dKey, render).value == k + d + rr + t;
  }

  /** `calibration_labels(calibration, side)`. */
  method CalibrationLabels(calibration: Doc, side: string, render: Value -> string) returns (r: Result<seq<string>>)
    ensures side != "left" && side != "right" ==> r == Ok([])
    ensures side == "left" ==> r == EyeLabels(calibration, "K_left", "D_left", render)
    ensures side == "right" ==> r == EyeLabels(calibration, "K_right", "D_right", render)
  {
    assert "left"[0] != "right"[0];
    var labels: seq<string> := [];
    if side == "left" {
      labels :- EyeBlocks(calibration, "K_left", "D_left", render, labels);
      assert labels == EyeLabels(calibration, "K_left", "D_left", render).value;
    }
    if side == "right" {
      labels :- EyeBlocks(calibration, "K_right", "D_right", render, labels);
      assert labels == EyeLabels(calibration, "K_right", "D_right", render).value;
    }
    return Ok(labels);
  }

  /** One side's branch of `calibration_labels`: the K, D, R and T blocks
      appended in that order; the first missing key escapes. */
  method EyeBlocks(calibration: Doc, kKey: string, dKey: string, render: Value -> string, labels: seq<string>)
    returns (r: Result<seq<string>>)
    ensures r.Ok? <==> EyeLabels(calibration, kKey, dKey, render).Ok?
    ensures r.Ok? ==> r.value == labels + EyeLabels(calibration, kKey, dKey, render).value
    ensures r.Raise? ==> r.exc == KeyError
  {
    var acc := labels;
    var k :- Block(calibration, "K", kKey, render);
    acc := acc + k;
    var d :- Block(calibration, "D", dKey, render);
    acc := acc + d;
    var rot :- Block(calibration, "R", "R", render);
    acc := acc + rot;
    var t :- Block(calibration, "T", "T", render);
    acc := acc + t;
    assert acc == labels + (k + d + rot + t);
    return Ok(acc);
  }

  /** The `cid` property: the stored id of a non-empty calibration, else 'UNSET'. */
  function CidOf(calibration: Option<Doc>): (r: Value)
    ensures Truthy(calibration) && "cid" in calibration.value ==> r == calibration.value["cid"]
    ensures !(Truthy(calibration) && "cid" in calibration.value) ==> r == StrV("UNSET")
  {
    if Truthy(calibration) then GetOr(calibration.value, "cid", StrV("UNSET")) else StrV("UNSET")
  }

  /** The `calibration_time` property: the stored time, else -1. */
  function TimeOf(calibration: Option<Doc>): (r: Value)
    ensures Truthy(calibration) && "time" in calibration.value ==> r == calibration.value["time"]
    ensures !(Truthy(calibration) && "time" in calibration.value) ==> r == IntV(-1)
  {
    if Truthy(calibration) then GetOr(calibration.value, "time", IntV(-1)) else IntV(-1)
  }

  /** A calibration read back by `load_stereo_calibration` carries neither a cid
      nor a time, so a camera holding it always reports 'UNSET' and -1, even
      when a cid was saved. */
  lemma LoadedCalibrationIsUnset(disk: Disk, calibrationFile: string)
    requires LoadStereoCalibration(disk, calibrationFile).Ok?
    ensures var c := LoadStereoCalibration(disk, calibrationFile).value;
            CidOf(c) == StrV("UNSET") && TimeOf(c) == IntV(-1)
  {
    assert "cid" !in LoadedKeys && "time" !in LoadedKeys;
  }

  /** `cv.fisheye.stereoRectify` results: R_left, R_right, P1, P2, Q. */
  datatype Rectification = Rectification(rLeft: Matrix, rRight: Matrix, p1: Matrix, p2: Matrix, q: Matrix)

  /** `cv.fisheye.stereoRectify(K1, D1, K2, D2, imageSize, R, tvec, CALIB_ZERO_DISPARITY, balance, fov_scale=1)`. */
  type Rectifier = (Value, Value, Value, Value, Value, Value, Value, real) -> Rectification

  /** The map builder `set_maps` calls, with the keywords it passes
      (img, image_size, K, D, R, balance). */
  type StereoMapper = (Image, Value, Value, Value, Matrix, real) -> Fisheye.Maps

  /** `print_calibration` reads six keys of its argument; `None` is a `TypeError`. */
  function PrintCalibration(calibration: Option<Doc>): (r: Result<()>)
    ensures r.Ok? <==> calibration.Some? && {"K_left", "K_right", "D_left", "D_right", "R", "T"} <= calibration.value.Keys
    ensures calibration.None? ==> r == Raise(TypeError)
  {
    if calibration.None? then Raise(TypeError)
    else
      var c := calibration.value;
      var _ :- Get(c, "K_left");
      var _ :- Get(c, "K_right");
      var _ :- Get(c, "D_left");
      var _ :- Get(c, "D_right");
      var _ :- Get(c, "R");
      var _ :- Get(c, "T");
      Ok(())
  }

  /** `set_stereo_rectify_parameters`: `None` is a `TypeError`, a missing key a `KeyError`. */
  function RectifyParameters(calibration: Option<Doc>, balance: real, rectify: Rectifier): (r: Result<Rectification>)
    ensures r.Ok? <==> calibration.Some? && LoadedKeys <= calibration.value.Keys
    ensures r.Ok? ==> var c := calibration.value;
              r.value == rectify(c["K_left"], c["D_left"], c["K_right"], c["D_right"], c["image_size"], c["R"], c["T"], balance)
  {
    if calibration.None? then Raise(TypeError)
    else
      var c := calibration.value;
      var kLeft :- Get(c, "K_left");
      var dLeft :- Get(c, "D_left");
      var kRight :- Get(c, "K_right");
      var dRight :- Get(c, "D_right");
      var size :- Get(c, "image_size");
      var rot :- Get(c, "R");
      var trans :- Get(c, "T");
      Ok(rectify(kLeft, dLeft, kRight, dRight, size, rot, trans, balance))
  }

  /** The calibration a camera starts from: loaded when the file exists, `None`
      otherwise (a load error escapes). */
  function InitialCalibration(disk: Disk, calibrationFile: string): (r: Result<Option<Doc>>)
    ensures !Exists(disk, calibrationFile) ==> r == Ok(None)
    ensures Exists(disk, calibrationFile) ==> r == LoadStereoCalibration(disk, calibrationFile)
  {
    if Exists(disk, calibrationFile) then LoadStereoCalibration(disk, calibrationFile) else Ok(None)
  }

  class CalibratedStereoFisheyeCamera {
    var balance: real
    var name: string
    var dim2: Option<Fisheye.Size>
    var dim3: Option<Fisheye.Size>
    var calibration: Option<Doc>
    /** R_left, R_right, P1, P2, Q; `None` while never assigned. */
    var rectification: Option<Rectification>
    /** (left_map1, left_map2) and (right_map1, right_map2); `None` while never assigned. */
    var leftMaps: Option<Fisheye.Maps>
    var rightMaps: Option<Fisheye.Maps>

    constructor (balance: real, name: string, dim2: Option<Fisheye.Size>, dim3: Option<Fisheye.Size>,
                 calibration: Option<Doc>, rectification: Option<Rectification>)
      ensures this.balance == balance && this.name == name && this.dim2 == dim2 && this.dim3 == dim3
      ensures this.calibration == calibration && this.rectification == rectification
      ensures leftMaps == None && rightMaps == None
    {
      this.balance := balance;
      this.name := name;
      this.dim2 := dim2;
      this.dim3 := dim3;
      this.calibration := calibration;
      this.rectification := rectification;
      leftMaps := None;
      rightMaps := None;
    }

    /** `CalibratedStereoFisheyeCamera(calibration_file, balance, dim2, dim3, name)`
        as written: after loading (or not), the calibration is printed and the
        rectification computed unconditionally, so a missing file ends in a
        `TypeError` from `print_calibration(None)`. */
    static method Open(disk: Disk, calibrationFile: string, balance: real, rectify: Rectifier,
                       dim2: Option<Fisheye.Size> := None, dim3: Option<Fisheye.Size> := None,
                       name: string := "stereo fisheye")
      returns (r: Result<CalibratedStereoFisheyeCamera>)
      ensures !Exists(disk, calibrationFile) ==> r == Raise(TypeError)
      ensures r.Ok? <==> LoadStereoCalibration(disk, calibrationFile).Ok?
                         && LoadStereoCalibration(disk, calibrationFile).value.Some? && Exists(disk, calibrationFile)
      ensures r.Ok? ==> fresh(r.value) && r.value.calibration == LoadStereoCalibration(disk, calibrationFile).value
      ensures r.Ok? ==> r.value.rectification == Some(RectifyParameters(r.value.calibration, balance, rectify).value)
      ensures r.Ok? ==> r.value.balance == balance && r.value.dim2 == dim2 && r.value.dim3 == dim3 && r.value.name == name
      ensures r.Ok? ==> r.value.leftMaps == None && r.value.rightMaps == None
    {
      var cal :- InitialCalibration(disk, calibrationFile);
      var _ :- PrintCalibration(cal);
      // A calibration that prints has every key the rectification reads.
      var rect := RectifyParameters(cal, balance, rectify);
      assert rect.Ok?;
      var c := new CalibratedStereoFisheyeCamera(balance, name, dim2, dim3, cal, Some(rect.value));
      return Ok(c);
    }

    /** The evidently intended constructor: with no calibration the camera is
        built without one (the branch that logs the missing file), and printing
        and rectification happen only for a loaded calibration. */
    static method OpenGuarded(disk: Disk, calibrationFile: string, balance: real, rectify: Rectifier,
                              dim2: Option<Fisheye.Size> := None, dim3: Option<Fisheye.Size> := None,
                              name: string := "stereo fisheye")
      returns (r: Result<CalibratedStereoFisheyeCamera>)
      ensures !Exists(disk, calibrationFile) ==> r.Ok? && r.value.calibration == None && r.value.rectification == None
      ensures r.Ok? <==> InitialCalibration(disk, calibrationFile).Ok?
      ensures r.Ok? ==> fresh(r.value) && r.value.calibration == InitialCalibration(disk, calibrationFile).value
      ensures r.Ok? ==> r.value.leftMaps == None && r.value.rightMaps == None
    {
      var cal :- InitialCalibration(disk, calibrationFile);
      var rect: Option<Rectification> := None;
      if cal.Some? {
        var rc := RectifyParameters(cal, balance, rectify);
        assert rc.Ok?;
        rect := Some(rc.value);
      }
      var c := new CalibratedStereoFisheyeCamera(balance, name, dim2, dim3, cal, rect);
      return Ok(c);
    }

    /** `set_calibration`. */
    method SetCalibration(c: Option<Doc>)
      modifies this
      ensures calibration == c
      ensures balance == old(balance) && name == old(name) && dim2 == old(dim2) && dim3 == old(dim3)
      ensures rectification == old(rectification) && leftMaps == old(leftMaps) && rightMaps == old(rightMaps)
    {
      calibration := c;
    }

    function Cid(): (r: Value)
      reads this
      ensures r == CidOf(calibration)
    {
      CidOf(calibration)
    }

    function CalibrationTime(): (r: Value)
      reads this
      ensures r == TimeOf(calibration)
    {
      TimeOf(calibration)
    }

    /** `set_maps(first_frame)`: with a non-empty calibration, the left maps and
        then the right maps are built from the first frame (a failure on the
        right leaves the left maps set); otherwise nothing changes. */
    method SetMaps(firstFrame: Image, getMaps: StereoMapper) returns (r: Result<()>)
      modifies this
      ensures !Truthy(old(calibration)) ==> r.Ok? && leftMaps == old(leftMaps) && rightMaps == old(rightMaps)
      ensures Truthy(old(calibration)) && r.Ok? ==>
                var c := old(calibration).value;
                && {"image_size", "K_left", "D_left", "K_right", "D_right"} <= c.Keys && rectification.Some?
                && leftMaps == Some(getMaps(firstFrame, c["image_size"], c["K_left"], c["D_left"], rectification.value.rLeft, balance))
                && rightMaps == Some(getMaps(firstFrame, c["image_size"], c["K_right"], c["D_right"], rectification.value.rRight, balance))
      ensures (Truthy(old(calibration)) && !({"image_size", "K_left", "D_left"} <= old(calibration).value.Keys)) ==>
                r == Raise(KeyError) && leftMaps == old(leftMaps) && rightMaps == old(rightMaps)
      ensures (Truthy(old(calibration)) && {"image_size", "K_left", "D_left"} <= old(calibration).value.Keys
               && old(rectification).None?) ==>
                r == Raise(AttributeError) && leftMaps == old(leftMaps) && rightMaps == old(rightMaps)
      ensures (Truthy(old(calibration)) && {"image_size", "K_left", "D_left"} <= old(calibration).value.Keys
               && old(rectification).Some? && !({"K_right", "D_right"} <= old(calibration).value.Keys)) ==>
                var c := old(calibration).value;
                && r == Raise(KeyError)
                && leftMaps == Some(getMaps(firstFrame, c["image_size"], c["K_left"], c["D_left"], old(rectification).value.rLeft, balance))
                && rightMaps == old(rightMaps)
      ensures (Truthy(old(calibration)) && {"image_size", "K_left", "D_left", "K_right", "D_right"} <= old(calibration).value.Keys
               && old(rectification).Some?) ==> r.Ok?
      ensures calibration == old(calibration) && rectification == old(rectification) && balance == old(balance)
      ensures name == old(name) && dim2 == old(dim2) && dim3 == old(dim3)
    {
      if !Truthy(calibration) {
        return Ok(());
      }
      var c := calibration.value;
      var size :- Get(c, "image_size");
      var kLeft :- Get(c, "K_left");
      var dLeft :- Get(c, "D_left");
      if rectification.None? {
        return Raise(AttributeError);
      }
      leftMaps := Some(getMaps(firstFrame, size, kLeft, dLeft, rectification.value.rLeft, balance));
      var kRight :- Get(c, "K_right");
      var dRight :- Get(c, "D_right");
      rightMaps := Some(getMaps(firstFrame, size, kRight, dRight, rectification.value.rRight, balance));
      return Ok(());
    }

    /** `correct(left, right)`: each frame undistorted with its own maps; an
        `AttributeError` while the maps were never set. */
    method Correct(left: Image, right: Image, ops: Fisheye.FisheyeOps) returns (r: Result<(Image, Image)>)
      ensures leftMaps.None? || rightMaps.None? ==> r == Raise(AttributeError)
      ensures leftMaps.Some? && rightMaps.Some? ==>
                r == Ok((Fisheye.Undistort(ops, left, leftMaps.value), Fisheye.Undistort(ops, right, rightMaps.value)))
    {
      if leftMaps.None? {
        return Raise(AttributeError);
      }
      var leftCorrected := Fisheye.Undistort(ops, left, leftMaps.value);
      if rightMaps.None? {
        return Raise(AttributeError);
      }
      var rightCorrected := Fisheye.Undistort(ops, right, rightMaps.value);
      return Ok((leftCorrected, rightCorrected));
    }
  }

  /** As written, a camera cannot be opened on a missing file at all. */
  method MissingFileAsWritten(disk: Disk, calibrationFile: string, rectify: Rectifier)
    returns (r: Result<CalibratedStereoFisheyeCamera>)
    requires !Exists(disk, calibrationFile)
    ensures r == Raise(TypeError)
  {
    r := CalibratedStereoFisheyeCamera.Open(disk, calibrationFile, 0.5, rectify);
  }

  /** With the guard, a camera opened on a missing file reports 'UNSET',
      ignores `set_maps` and refuses to correct frames. */
  method MissingFileGuarded(disk: Disk, calibrationFile: string, rectify: Rectifier, frame: Image,
                            getMaps: StereoMapper, ops: Fisheye.FisheyeOps)
    returns (cid: Value, corrected: Result<(Image, Image)>)
    requires !Exists(disk, calibrationFile)
    ensures cid == StrV("UNSET")
    ensures corrected == Raise(AttributeError)
  {
    var cam := CalibratedStereoFisheyeCamera.OpenGuarded(disk, calibrationFile, 0.5, rectify);
    var c := cam.value;
    cid := c.Cid();
    var _ := c.SetMaps(frame, getMaps);
    corrected := c.Correct(frame, frame, ops);
  }
}

/** Undistorting a live feed from a fisheye camera with a fixed calibration
    (`cli/undistort_fisheye.py`). The map rules are those of `get_maps`
    (module Fisheye) with the calibration size fixed at `DIM`; each output
    frame is the input beside its labelled undistorted version. */
module UndistortFisheye {
  import opened Py
  import opened Mats
  import opened Records
  import Text
  import Fisheye

  /** The calibration frame size, (width, height). */
  const DIM: Fisheye.Size := (1920, 1080)

  /** The camera matrix found for that size. */
  const K: Matrix := [[567.3170670993122, 0.0, 976.0120777004776],
                      [0.0, 565.0311669847642, 474.9942585301562],
                      [0.0, 0.0, 1.0]]

  /** The four distortion coefficients, as a 4x1 array. */
  const D: Value := MatV([[-0.05503152854179671], [0.045691961267593166], [-0.02707027623305218], [0.005637830698947465]])

  /** The drawing collaborators: `add_frame_labels(frame, labels)` and
      Python's `str()` of a float. */
  datatype Annotate = Annotate(addLabels: (Image, seq<string>) -> Image, floatText: real -> string)

  /** Labels drawn inside the frame: they do not change its shape. */
  ghost predicate KeepsShape(ann: Annotate) {
    forall img, labels :: Shape2(ann.addLabels(img, labels)) == Shape2(img)
  }

  /** A tuple `(w, h)` as f-strings print it. */
  function SizeText(s: Fisheye.Size): string {
    "(" + Text.IntToString(s.0) + ", " + Text.IntToString(s.1) + ")"
  }

  /** The four label lines: the cost, the balance, and the two target sizes. */
  function Labels(costText: string, balanceText: string, dim2: Fisheye.Size, dim3: Fisheye.Size): (r: seq<string>)
    ensures |r| == 4
  {
    ["undistort cost: " + costText + "ms", "balance " + balanceText, "dim2 " + SizeText(dim2), "dim3 " + SizeText(dim3)]
  }

  /** `undistort(img, balance, dim2, dim3)`: the `get_maps` rules against
      `DIM` (a `ZeroDivisionError` for an empty frame, an `AssertionError`
      for another aspect ratio), the frame remapped, labelled with the cost
      of the call (`costText`, a clock reading) and the sizes in force after
      defaulting, and put to the right of the input. */
  function Undistort(ops: Fisheye.FisheyeOps, ann: Annotate, img: Image, costText: string,
                     balance: real := 0.5, dim2: Option<Fisheye.Size> := None, dim3: Option<Fisheye.Size> := None)
    : (r: Result<Image>)
    ensures Height(img) == 0 ==> r == Raise(ZeroDivisionError)
    ensures Height(img) != 0 && Width(img) * DIM.1 != DIM.0 * Height(img) ==> r == Raise(AssertionError)
    ensures r.Ok? ==> Height(img) != 0 && Width(img) * DIM.1 == DIM.0 * Height(img)
  {
    var maps :- Fisheye.GetMaps(ops, img, DIM, K, D, balance, dim2, dim3);
    var p := Fisheye.MapParameters(img, DIM, K, dim2, dim3).value;
    var undistorted := Fisheye.Undistort(ops, img, maps);
    var labelled := ann.addLabels(undistorted, Labels(costText, ann.floatText(balance), p.dim2, p.dim3));
    HStack(img, labelled)
  }

  /** A frame of the calibration's aspect ratio with no target size given
      comes out twice as wide: itself on the left, its labelled undistorted
      version on the right. */
  lemma UndistortSideBySide(ops: Fisheye.FisheyeOps, ann: Annotate, img: Image, costText: string, balance: real)
    requires Fisheye.SizesHonoured(ops) && KeepsShape(ann)
    requires Height(img) != 0 && Width(img) * DIM.1 == DIM.0 * Height(img)
    ensures Undistort(ops, ann, img, costText, balance).Ok?
    ensures var out := Undistort(ops, ann, img, costText, balance).value;
            && Shape2(out) == (Height(img), 2 * Width(img))
            && forall i, j :: 0 <= i < Height(img) && 0 <= j < Width(img) ==> At(out, i, j) == At(img, i, j)
  {
    var maps := Fisheye.GetMaps(ops, img, DIM, K, D, balance, None, None).value;
    Fisheye.UndistortKeepsSize(ops, img, DIM, K, D, balance);
    var u := Fisheye.Undistort(ops, img, maps);
    var p := Fisheye.MapParameters(img, DIM, K, None, None).value;
    assert Shape2(ann.addLabels(u, Labels(costText, ann.floatText(balance), p.dim2, p.dim3))) == Shape2(u);
  }

  /** At the calibration size the camera matrix is used as found: the
      scaling leaves K unchanged, its [2][2] entry already being 1. */
  lemma FullSizeUsesK(img: Image, dim2: Option<Fisheye.Size>, dim3: Option<Fisheye.Size>)
    requires Fisheye.FrameSize(img) == DIM
    ensures Fisheye.MapParameters(img, DIM, K, dim2, dim3).Ok?
    ensures Fisheye.MapParameters(img, DIM, K, dim2, dim3).value.scaledK == K
  {
    Fisheye.ScaleKSameWidth(K, DIM.0);
    assert K[2][2 := 1.0] == K[2];
    assert K[2 := K[2]] == K;
  }

  /** `simple_undistort(img_path)`: the picture (an `AttributeError` when
      `imread` finds none) remapped with K itself for `DIM`, whatever its own
      size, and put beside the original. The window is not modelled. */
  function SimpleUndistort(ops: Fisheye.FisheyeOps, disk: Disk, imgPath: string): (r: Result<Image>)
    ensures Imread(disk, imgPath).None? ==> r == Raise(AttributeError)
    ensures r.Ok? ==> Imread(disk, imgPath).Some?
  {
    var picture := Imread(disk, imgPath);
    if picture.None? then Raise(AttributeError)
    else
      var img := picture.value;
      var maps := ops.initMap(K, D, K, DIM);
      HStack(img, ops.remap(img, maps))
  }

  /** The maps are always built for `DIM`, so the side-by-side stacking
      succeeds exactly for pictures 1080 rows high, and then holds the
      picture and a full calibration-size frame. */
  lemma SimpleUndistortNeedsCalibrationHeight(ops: Fisheye.FisheyeOps, disk: Disk, imgPath: string)
    requires Fisheye.SizesHonoured(ops)
    ensures SimpleUndistort(ops, disk, imgPath).Ok? <==>
            Imread(disk, imgPath).Some? && Height(Imread(disk, imgPath).value) == DIM.1
    ensures SimpleUndistort(ops, disk, imgPath).Ok? ==>
            Shape2(SimpleUndistort(ops, disk, imgPath).value) == (DIM.1, Width(Imread(disk, imgPath).value) + DIM.0)
  {
    var picture := Imread(disk, imgPath);
    if picture.Some? {
      var maps := ops.initMap(K, D, K, DIM);
      assert maps.size == DIM;
      assert Height(ops.remap(picture.value, maps)) == DIM.1;
    }
  }

  /** The `undistort(img=frame)` call the loop makes on its `k`-th read
      (`costs(k)` is that call's cost text). */
  function Call(ops: Fisheye.FisheyeOps, ann: Annotate, costs: nat -> string): (Image, nat) -> Result<Image> {
    (img, k) => Undistort(ops, ann, img, costs(k))
  }

  /** What the player is shown for the reads the stream delivers, one
      `go()` poll per read, when the `k`-th successful read is handled by
      `step`: a failed read shows nothing and the loop goes on; the first
      frame `step` rejects ends the command with its exception. */
  function Shown(step: (Image, nat) -> Result<Image>, delivered: seq<Option<Image>>): (r: Result<seq<Image>>)
    ensures r.Ok? ==> |r.value| <= |delivered|
    decreases |delivered|
  {
    if |delivered| == 0 then Ok([])
    else
      var n := |delivered| - 1;
      var before :- Shown(step, delivered[..n]);
      if delivered[n].None? then Ok(before)
      else
        var out :- step(delivered[n].value, n);
        Ok(before + [out])
  }

  /** One more read: nothing more is shown for a failed read, and the
      handled frame (or its exception) for a successful one. */
  lemma ShownStep(step: (Image, nat) -> Result<Image>, delivered: seq<Option<Image>>, i: nat, shown: seq<Image>)
    requires i < |delivered| && Shown(step, delivered[..i]) == Ok(shown)
    ensures delivered[i].None? ==> Shown(step, delivered[..i + 1]) == Ok(shown)
    ensures delivered[i].Some? ==>
              var out := step(delivered[i].value, i);
              Shown(step, delivered[..i + 1]) == if out.Raise? then Raise(out.exc) else Ok(shown + [out.value])
  {
    assert delivered[..i + 1][..i] == delivered[..i];
  }

  /** Once a prefix of the reads has ended the command, later reads change nothing. */
  lemma {:induction false} ShownStopsAtFailure(step: (Image, nat) -> Result<Image>, delivered: seq<Option<Image>>, i: nat)
    requires i <= |delivered| && Shown(step, delivered[..i]).Raise?
    ensures Shown(step, delivered) == Shown(step, delivered[..i])
    decreases |delivered|
  {
    if i < |delivered| {
      var n := |delivered| - 1;
      assert delivered[..n][..i] == delivered[..i];
      ShownStopsAtFailure(step, delivered[..n], i);
    } else {
      assert delivered[..i] == delivered;
    }
  }

  /** The command fails exactly when some successful read is rejected. */
  lemma {:induction false} ShownFailsOnRejectedFrame(step: (Image, nat) -> Result<Image>, delivered: seq<Option<Image>>)
    ensures Shown(step, delivered).Ok? <==>
            forall i :: 0 <= i < |delivered| && delivered[i].Some? ==> step(delivered[i].value, i).Ok?
    decreases |delivered|
  {
    if |delivered| > 0 {
      var n := |delivered| - 1;
      ShownFailsOnRejectedFrame(step, delivered[..n]);
      assert forall i :: 0 <= i < n ==> delivered[..n][i] == delivered[i];
    }
  }

  /** With the shape-keeping collaborators, a frame is rejected exactly when
      it is empty or off the calibration's aspect ratio. */
  lemma UndistortAcceptsAspect(ops: Fisheye.FisheyeOps, ann: Annotate, img: Image, costText: string)
    requires Fisheye.SizesHonoured(ops) && KeepsShape(ann)
    ensures Undistort(ops, ann, img, costText).Ok? <==> Height(img) != 0 && Width(img) * DIM.1 == DIM.0 * Height(img)
  {
    if Height(img) != 0 && Width(img) * DIM.1 == DIM.0 * Height(img) {
      UndistortSideBySide(ops, ann, img, costText, 0.5);
    }
  }

  /** With the shape-keeping collaborators, the command runs to the end of
      the stream exactly when every frame read has the calibration's aspect
      ratio. */
  lemma ShownAcceptsAspect(ops: Fisheye.FisheyeOps, ann: Annotate, delivered: seq<Option<Image>>, costs: nat -> string)
    requires Fisheye.SizesHonoured(ops) && KeepsShape(ann)
    ensures Shown(Call(ops, ann, costs), delivered).Ok? <==>
            forall i :: 0 <= i < |delivered| && delivered[i].Some? ==>
              Height(delivered[i].value) != 0 && Width(delivered[i].value) * DIM.1 == DIM.0 * Height(delivered[i].value)
  {
    ShownFailsOnRejectedFrame(Call(ops, ann, costs), delivered);
    forall i | 0 <= i < |delivered| && delivered[i].Some?
      ensures Call(ops, ann, costs)(delivered[i].value, i).Ok? <==>
              Height(delivered[i].value) != 0 && Width(delivered[i].value) * DIM.1 == DIM.0 * Height(delivered[i].value)
    {
      UndistortAcceptsAspect(ops, ann, delivered[i].value, costs(i));
    }
  }

  /** `cli`: every `go()` poll reads the stream and shows the undistorted
      frame when the read succeeded; a failed read does not end the loop.
      The calibration file option is never read: the constants above are
      used. */
  method Cli(ops: Fisheye.FisheyeOps, ann: Annotate, delivered: seq<Option<Image>>, costs: nat -> string)
    returns (r: Result<seq<Image>>)
    ensures r == Shown(Call(ops, ann, costs), delivered)
  {
    var undistort := Call(ops, ann, costs);
    var shown: seq<Image> := [];
    var i := 0;
    while i < |delivered|
      invariant i <= |delivered|
      invariant Shown(undistort, delivered[..i]) == Ok(shown)
    {
      ShownStep(undistort, delivered, i, shown);
      var frame := delivered[i];
      if frame.Some? {
        var out := undistort(frame.value, i);
        if out.Raise? {
          ShownStopsAtFailure(undistort, delivered, i + 1);
          return Raise(out.exc);
        }
        shown := shown + [out.value];
      }
      i := i + 1;
    }
    assert delivered[..i] == delivered;
    return Ok(shown);
  }
}

/** Frames as numpy holds them: `height` rows of `width` BGR pixels of `uint8`.
    Only what the modelled code does with frames is here: the all-zero frame,
    `shape[:2]`, numpy's clamping slice `m[r0:r1, c0:c1]` and `np.hstack`. */
module Mats {
  import opened Py

  type Byte = x: int | 0 <= x < 256

  datatype Pixel = Pixel(b: Byte, g: Byte, r: Byte)

  const Black := Pixel(0, 0, 0)

  datatype RawImage = RawImage(rows: seq<seq<Pixel>>, width: nat)

  predicate WellFormed(m: RawImage) {
    forall i :: 0 <= i < |m.rows| ==> |m.rows[i]| == m.width
  }

  /** A rectangular frame of shape (height, width, 3). */
  type Image = m: RawImage | WellFormed(m) witness RawImage([], 0)

  function Height(m: Image): nat { |m.rows| }

  function Width(m: Image): nat { m.width }

  /** `m.shape[:2]`, that is (height, width). */
  function Shape2(m: Image): (nat, nat) { (Height(m), Width(m)) }

  function At(m: Image, i: nat, j: nat): Pixel
    requires i < Height(m) && j < Width(m)
  {
    m.rows[i][j]
  }

  /** `np.zeros((h, w, 3), np.uint8)`. */
  function Zeros(h: nat, w: nat): (m: Image)
    ensures Shape2(m) == (h, w)
    ensures forall i, j :: 0 <= i < h && 0 <= j < w ==> At(m, i, j) == Black
  {
    RawImage(seq(h, _ => seq(w, _ => Black)), w)
  }

  /** The end numpy uses for a slice bound `b` over a length `n` axis, `b >= 0`. */
  function Clamp(b: nat, n: nat): nat { if b < n then b else n }

  /** `m[r0:r1, c0:c1]` for non-negative bounds: numpy clamps the bounds to the
      frame and yields an empty extent where a lower bound passes the upper one. */
  function Crop(m: Image, r0: nat, r1: nat, c0: nat, c1: nat): (c: Image)
    ensures var lo, hi := Clamp(r0, Height(m)), Clamp(r1, Height(m));
            Height(c) == if hi < lo then 0 else hi - lo
    ensures var lo, hi := Clamp(c0, Width(m)), Clamp(c1, Width(m));
            Width(c) == if hi < lo then 0 else hi - lo
    ensures forall i, j :: 0 <= i < Height(c) && 0 <= j < Width(c) ==>
              At(c, i, j) == At(m, Clamp(r0, Height(m)) + i, Clamp(c0, Width(m)) + j)
  {
    var rlo, rhi := Clamp(r0, Height(m)), Clamp(r1, Height(m));
    var clo, chi := Clamp(c0, Width(m)), Clamp(c1, Width(m));
    var h := if rhi < rlo then 0 else rhi - rlo;
    var w := if chi < clo then 0 else chi - clo;
    RawImage(seq(h, i requires 0 <= i < h => m.rows[rlo + i][clo..clo + w]), w)
  }

  /** `np.hstack((a, b))`: both frames side by side; a `ValueError` unless their heights agree. */
  function HStack(a: Image, b: Image): (r: Result<Image>)
    ensures r.Ok? <==> Height(a) == Height(b)
    ensures r.Ok? ==> Shape2(r.value) == (Height(a), Width(a) + Width(b))
    ensures r.Ok? ==> forall i, j :: 0 <= i < Height(a) && 0 <= j < Width(a) + Width(b) ==>
              At(r.value, i, j) == if j < Width(a) then At(a, i, j) else At(b, i, j - Width(a))
    ensures !r.Ok? ==> r.exc == ValueError
  {
    if Height(a) != Height(b) then Raise(ValueError)
    else
      var m: RawImage := RawImage(seq(Height(a), i requires 0 <= i < Height(a) => a.rows[i] + b.rows[i]),
                                  Width(a) + Width(b));
      Ok(m)
  }

  /** `np.vstack((a, b))`: `a` above `b`; a `ValueError` unless their widths agree. */
  function VStack(a: Image, b: Image): (r: Result<Image>)
    ensures r.Ok? <==> Width(a) == Width(b)
    ensures r.Ok? ==> Shape2(r.value) == (Height(a) + Height(b), Width(a))
    ensures r.Ok? ==> forall i, j :: 0 <= i < Height(a) + Height(b) && 0 <= j < Width(a) ==>
              At(r.value, i, j) == if i < Height(a) then At(a, i, j) else At(b, i - Height(a), j)
    ensures !r.Ok? ==> r.exc == ValueError
  {
    if Width(a) != Width(b) then Raise(ValueError)
    else
      var m: RawImage := RawImage(a.rows + b.rows, Width(a));
      Ok(m)
  }

  /** Two frames are equal when their shapes and all their pixels agree. */
  lemma Extensionality(a: Image, b: Image)
    requires Shape2(a) == Shape2(b)
    requires forall i, j :: 0 <= i < Height(a) && 0 <= j < Width(a) ==> At(a, i, j) == At(b, i, j)
    ensures a == b
  {
    forall i | 0 <= i < Height(a) ensures a.rows[i] == b.rows[i] {
      assert forall j :: 0 <= j < Width(a) ==> a.rows[i][j] == At(a, i, j);
    }
  }
}

/** Calibration points and the index grid every "zero object" is built from.
    `np.mgrid[0:a, 0:b].T.reshape(-1, 2)` (and `np.indices((a, b)).T.reshape(-1, 2)`,
    which is the same array) lists the pairs (i, j), i < a, j < b, with i
    varying fastest: entry k is (k mod a, k div a). */
module Grid {

  datatype Point2 = Point2(x: real, y: real)

  datatype Point3 = Point3(x: real, y: real, z: real)

  /** Detected corners of one calibration image, in detection order. */
  type ImageSample = seq<Point2>

  /** The numpy axis layout a set of object points is stored with. */
  datatype Layout =
    | Flat        // shape (N, 3)
    | OneRow      // shape (1, N, 3)
    | OneColumn   // shape (N, 1, 3)

  /** The object points of one calibration pattern, in storage order. */
  datatype ObjectSample = ObjectSample(layout: Layout, points: seq<Point3>)

  /** `np.mgrid[0:a, 0:b].T.reshape(-1, 2)`, built one j-slice at a time
      in the order the transposed array is flattened. */
  function MgridT(a: nat, b: nat): seq<(nat, nat)>
    decreases b
  {
    if b == 0 then [] else MgridT(a, b - 1) + seq(a, i requires 0 <= i < a => (i as nat, (b - 1) as nat))
  }

  lemma {:induction false} MgridTLength(a: nat, b: nat)
    ensures |MgridT(a, b)| == a * b
  {
    if b > 0 {
      MgridTLength(a, b - 1);
      assert a * b == a * (b - 1) + a;
    }
  }

  /** Euclidean division is determined by quotient and remainder. */
  lemma DivModUnique(k: nat, a: nat, q: nat, r: nat)
    requires 0 < a && r < a && k == a * q + r
    ensures k / a == q && k % a == r
  {
    var q', r' := k / a, k % a;
    assert k == a * q' + r';
    if q' < q {
      assert a * q' + a <= a * q by { MulLe(a, q' + 1, q); }
    } else if q' > q {
      assert a * q + a <= a * q' by { MulLe(a, q + 1, q'); }
    }
  }

  lemma MulLe(a: nat, x: nat, y: nat)
    requires x <= y
    ensures a * x <= a * y
  {
  }

  /** Entry k of the grid is (k mod a, k div a). */
  lemma {:induction false} MgridTAt(a: nat, b: nat, k: nat)
    requires k < a * b
    ensures |MgridT(a, b)| == a * b && MgridT(a, b)[k] == (k % a, k / a)
  {
    MgridTLength(a, b);
    MgridTLength(a, b - 1);
    assert a * b == a * (b - 1) + a;
    if k < a * (b - 1) {
      MgridTAt(a, b - 1, k);
    } else {
      var i := k - a * (b - 1);
      DivModUnique(k, a, b - 1, i);
    }
  }

  lemma MgridTAll(a: nat, b: nat)
    ensures |MgridT(a, b)| == a * b
    ensures forall k :: 0 <= k < a * b ==> MgridT(a, b)[k] == (k % a, k / a)
  {
    MgridTLength(a, b);
    forall k | 0 <= k < a * b ensures MgridT(a, b)[k] == (k % a, k / a) {
      MgridTAt(a, b, k);
    }
  }

  /** The planar points (i·s, j·s, 0) for the grid pairs (i, j). */
  function PlanarPoints(pairs: seq<(nat, nat)>, s: real): (r: seq<Point3>)
    ensures |r| == |pairs|
    ensures forall k :: 0 <= k < |r| ==> r[k] == Point3(pairs[k].0 as real * s, pairs[k].1 as real * s, 0.0)
  {
    seq(|pairs|, k requires 0 <= k < |pairs| => Point3(pairs[k].0 as real * s, pairs[k].1 as real * s, 0.0))
  }

  /** The pattern of an `a` by `b` board with squares of side `s`: point k is
      ((k mod a)·s, (k div a)·s, 0). */
  function Board(a: nat, b: nat, s: real): (r: seq<Point3>)
    ensures |r| == a * b
    ensures forall k :: 0 <= k < a * b ==> r[k] == Point3((k % a) as real * s, (k / a) as real * s, 0.0)
  {
    MgridTAll(a, b);
    PlanarPoints(MgridT(a, b), s)
  }
}

/** `ImageSize` (`img.py`): a (height, width) pair with its call, constructor
    from a frame and its two text forms. */
module Img {
  import opened Mats
  import Text

  datatype ImageSize = ImageSize(height: int, width: int) {
    /** `size()`: (height, width), in that order. */
    function Call(): (r: (int, int))
      ensures r.0 == height && r.1 == width
    {
      (height, width)
    }

    /** `str(size)`. */
    function Str(): string {
      "height: " + Text.IntToString(height) + ", width: " + Text.IntToString(width)
    }

    /** `repr(size)`. */
    function Repr(): string {
      "ImageSize(height=" + Text.IntToString(height) + ", width=" + Text.IntToString(width) + ")"
    }
  }

  /** `ImageSize.from_mat(mat)`: the frame's `shape[:2]`. */
  function FromMat(mat: Image): (r: ImageSize)
    ensures r.Call() == Shape2(mat)
  {
    var (h, w) := Shape2(mat);
    ImageSize(h, w)
  }

  /** `str(i)` determines `i`. */
  lemma IntToStringInjective(i: int, j: int)
    requires Text.IntToString(i) == Text.IntToString(j)
    ensures i == j
  {
    Text.IntToStringParses(i);
    Text.IntToStringParses(j);
  }

  /** Two numbers rendered between fixed texts whose middle starts with a
      character no number contains can be read back from the result. */
  lemma {:induction false} TwoFieldsInjective(pre: string, mid: string, post: string, a: int, b: int, c: int, d: int)
    requires |mid| > 0 && !Text.IsDigit(mid[0]) && mid[0] != '-'
    requires pre + Text.IntToString(a) + mid + Text.IntToString(b) + post
             == pre + Text.IntToString(c) + mid + Text.IntToString(d) + post
    ensures a == c && b == d
  {
    var s := pre + Text.IntToString(a) + mid + Text.IntToString(b) + post;
    var x, y := Text.IntToString(a), Text.IntToString(c);
    Text.IntToStringChars(a);
    Text.IntToStringChars(c);
    var t := pre + y + mid + Text.IntToString(d) + post;
    assert s[|pre| + |x|] == mid[0] && t[|pre| + |y|] == mid[0];
    assert x == s[|pre|..|pre| + |x|] == y;
    IntToStringInjective(a, c);
    var u, v := Text.IntToString(b), Text.IntToString(d);
    var start := |pre| + |x| + |mid|;
    assert |u| == |v|;
    assert u == s[start..start + |u|] == v;
    IntToStringInjective(b, d);
  }

  /** `str` tells sizes apart: the text gives back both numbers. */
  lemma StrInjective(s: ImageSize, t: ImageSize)
    requires s.Str() == t.Str()
    ensures s == t
  {
    TwoFieldsInjective("height: ", ", width: ", "", s.height, s.width, t.height, t.width);
  }

  /** So does `repr`. */
  lemma ReprInjective(s: ImageSize, t: ImageSize)
    requires s.Repr() == t.Repr()
    ensures s == t
  {
    TwoFieldsInjective("ImageSize(height=", ", width=", ")", s.height, s.width, t.height, t.width);
  }
}

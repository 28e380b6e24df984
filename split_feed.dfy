/** Splitting a side-by-side stereo recording into its two eyes
    (`cli/split_feed.py`): the first frame fixes the size, and every later
    frame is cut at half that width into a left and a right frame. */
module SplitFeed {
  import opened Py
  import opened Mats
  import Video

  /** `hw = int(w / 2)`: the half width, for the frame width `w >= 0`. */
  function HalfWidth(w: nat): (hw: nat)
    ensures hw + hw == w || hw + hw + 1 == w
  {
    w / 2
  }

  /** `frame[0:h, 0:hw]`, with `h, w` taken from the sizing frame `first`. */
  function LeftHalf(first: Image, frame: Image): Image {
    Crop(frame, 0, Height(first), 0, HalfWidth(Width(first)))
  }

  /** `frame[0:h, hw:w]`. */
  function RightHalf(first: Image, frame: Image): Image {
    Crop(frame, 0, Height(first), HalfWidth(Width(first)), Width(first))
  }

  /** The two halves of a frame no larger than the sizing frame, put side by
      side again, give back the frame. */
  lemma HalvesRestore(first: Image, frame: Image)
    requires Height(frame) <= Height(first) && Width(frame) <= Width(first)
    ensures HStack(LeftHalf(first, frame), RightHalf(first, frame)) == Ok(frame)
  {
    var l, r := LeftHalf(first, frame), RightHalf(first, frame);
    var s := HStack(l, r);
    assert s.Ok?;
    Extensionality(s.value, frame);
  }

  /** On a frame of the sizing frame's shape the halves have its height, the
      left is `w div 2` wide and the right is wider by exactly `w mod 2`. */
  lemma HalvesShape(first: Image, frame: Image)
    requires Shape2(frame) == Shape2(first)
    ensures Height(LeftHalf(first, frame)) == Height(RightHalf(first, frame)) == Height(frame)
    ensures Width(LeftHalf(first, frame)) == Width(frame) / 2
    ensures Width(RightHalf(first, frame)) == Width(LeftHalf(first, frame)) + Width(frame) % 2
  {
  }

  /** The frame of the `i`-th `read()` of the file: what the reader delivers
      once `i` reads are consumed, and a failure past the end. */
  function ReadAt(delivered: seq<Option<Image>>, i: nat): (r: Option<Image>)
    ensures r == Video.NextRead(if i <= |delivered| then delivered[i..] else []).1
  {
    if i < |delivered| then delivered[i] else None
  }

  /** What the two writers receive, or the exception that ends the command.
      The first read only sizes the halves and is never written. When it
      failed, `h`, `w` and `hw` are never bound, so the first later read that
      succeeds raises a `NameError`; when it succeeded, each later read up to
      the first failure gives one left and one right frame. */
  function SplitOutcome(delivered: seq<Option<Image>>): Result<(seq<Image>, seq<Image>)> {
    var frames := Video.Delivered(if |delivered| == 0 then [] else delivered[1..]);
    if |delivered| == 0 || delivered[0].None? then
      if |frames| > 0 then Raise(NameError) else Ok(([], []))
    else
      var first := delivered[0].value;
      Ok((Lefts(first, frames, |frames|), Rights(first, frames, |frames|)))
  }

  /** The left halves of the first `n` frames, in order. */
  function Lefts(first: Image, frames: seq<Image>, n: nat): (r: seq<Image>)
    requires n <= |frames|
    ensures |r| == n && forall k :: 0 <= k < n ==> r[k] == LeftHalf(first, frames[k])
  {
    seq(n, k requires 0 <= k < n => LeftHalf(first, frames[k]))
  }

  /** The right halves of the first `n` frames, in order. */
  function Rights(first: Image, frames: seq<Image>, n: nat): (r: seq<Image>)
    requires n <= |frames|
    ensures |r| == n && forall k :: 0 <= k < n ==> r[k] == RightHalf(first, frames[k])
  {
    seq(n, k requires 0 <= k < n => RightHalf(first, frames[k]))
  }

  /** One more frame adds one half to each writer. */
  lemma HalvesSnoc(first: Image, frames: seq<Image>, n: nat)
    requires n < |frames|
    ensures Lefts(first, frames, n + 1) == Lefts(first, frames, n) + [LeftHalf(first, frames[n])]
    ensures Rights(first, frames, n + 1) == Rights(first, frames, n) + [RightHalf(first, frames[n])]
  {
  }

  /** Both writers receive one frame per successful read after the sizing
      one, in order, and together those frames give back the frames read
      when the recording keeps the first frame's shape. */
  lemma SplitOutcomeRestores(delivered: seq<Option<Image>>, k: nat)
    requires |delivered| > 0 && delivered[0].Some?
    requires SplitOutcome(delivered).Ok?
    requires k < |SplitOutcome(delivered).value.0|
    requires delivered[k + 1].Some? && Shape2(delivered[k + 1].value) == Shape2(delivered[0].value)
    ensures |SplitOutcome(delivered).value.1| == |SplitOutcome(delivered).value.0|
    ensures HStack(SplitOutcome(delivered).value.0[k], SplitOutcome(delivered).value.1[k]) == Ok(delivered[k + 1].value)
  {
    var frames := Video.Delivered(delivered[1..]);
    assert delivered[1..][k] == Some(frames[k]);
    HalvesRestore(delivered[0].value, frames[k]);
  }

  /** A failed sizing read followed by a successful one raises a `NameError`;
      a successful sizing read never raises. */
  lemma SplitOutcomeRaises(delivered: seq<Option<Image>>)
    ensures delivered != [] && delivered[0].Some? ==> SplitOutcome(delivered).Ok?
    ensures |delivered| >= 2 && delivered[0].None? && delivered[1].Some? ==> SplitOutcome(delivered) == Raise(NameError)
  {
    if |delivered| >= 2 {
      assert delivered[1..][0] == delivered[1];
    }
  }

  /** `cli`: the sizing read, then the loop that cuts each successful read
      and hands the halves to the two writers, ending at the first failed
      read. The writers are the two sequences returned. */
  method Cli(delivered: seq<Option<Image>>) returns (r: Result<(seq<Image>, seq<Image>)>)
    ensures r == SplitOutcome(delivered)
  {
    var first := ReadAt(delivered, 0);
    var sized := first.Some?;
    var h, w, hw := 0, 0, 0;
    if sized {
      h, w := Height(first.value), Width(first.value);
      hw := HalfWidth(w);
    }
    ghost var rest := if |delivered| == 0 then [] else delivered[1..];
    ghost var frames := Video.Delivered(rest);
    var lefts, rights := [], [];
    var i := 0;
    while true
      invariant i <= |frames|
      invariant sized ==> h == Height(first.value) && w == Width(first.value) && hw == HalfWidth(w)
      invariant sized ==> lefts == Lefts(first.value, frames, i) && rights == Rights(first.value, frames, i)
      invariant !sized ==> i == 0 && lefts == [] && rights == []
      decreases |delivered| - i
    {
      var frame := ReadAt(delivered, i + 1);
      Video.DeliveredNext(rest, i);
      assert i + 1 < |delivered| ==> rest[i] == delivered[i + 1];
      if frame.None? {
        break;
      }
      if !sized {
        return Raise(NameError);
      }
      HalvesSnoc(first.value, frames, i);
      lefts := lefts + [Crop(frame.value, 0, h, 0, hw)];
      rights := rights + [Crop(frame.value, 0, h, hw, w)];
      i := i + 1;
    }
    return Ok((lefts, rights));
  }
}

/** The stereo chessboard finder (`cli/find_chessboards_stereo_live.py`):
    every read is counted, each good read is searched for the board in both
    frames, a pair with the board in both is saved as two numbered pictures,
    and the annotated pair is shown side by side. */
module FindChessboardsStereoLive {
  import opened Py
  import opened Mats
  import opened Collection
  import Text
  import StereoReader
  import Video
  import FindChessboardsLive

  /** `f'{out_path}/{side}_{good_count:05}.jpg'`. */
  function PairName(outPath: string, side: string, k: nat): string {
    outPath + "/" + SideName(side, k)
  }

  function SideName(side: string, k: nat): string {
    side + "_" + Text.Pad5(k) + ".jpg"
  }

  /** The pictures written for `pairs`, two per pair. */
  function SavedPairs(outPath: string, pairs: seq<(Image, Image)>): (r: seq<(string, Image)>)
    ensures |r| == 2 * |pairs|
    decreases |pairs|
  {
    if |pairs| == 0 then []
    else
      var n := |pairs| - 1;
      SavedPairs(outPath, pairs[..n]) + [(PairName(outPath, "left", n), pairs[n].0),
                                         (PairName(outPath, "right", n), pairs[n].1)]
  }

  /** Pair k is written as pictures 2k and 2k + 1: its left frame then its
      right, both under the number k. */
  lemma {:induction false} SavedPairsAt(outPath: string, pairs: seq<(Image, Image)>, k: nat)
    requires k < |pairs|
    ensures SavedPairs(outPath, pairs)[2 * k] == (PairName(outPath, "left", k), pairs[k].0)
    ensures SavedPairs(outPath, pairs)[2 * k + 1] == (PairName(outPath, "right", k), pairs[k].1)
    decreases |pairs|
  {
    var n := |pairs| - 1;
    var init := SavedPairs(outPath, pairs[..n]);
    var last := [(PairName(outPath, "left", n), pairs[n].0), (PairName(outPath, "right", n), pairs[n].1)];
    assert SavedPairs(outPath, pairs) == init + last;
    if k < n {
      SavedPairsAt(outPath, pairs[..n], k);
      assert pairs[..n][k] == pairs[k];
      assert (init + last)[2 * k] == init[2 * k] && (init + last)[2 * k + 1] == init[2 * k + 1];
    } else {
      assert (init + last)[2 * k] == last[0] && (init + last)[2 * k + 1] == last[1];
    }
  }

  /** Saving one more pair appends its two pictures. */
  lemma SavedPairsSnoc(outPath: string, pairs: seq<(Image, Image)>, pair: (Image, Image))
    ensures SavedPairs(outPath, pairs + [pair])
            == SavedPairs(outPath, pairs) + [(PairName(outPath, "left", |pairs|), pair.0),
                                             (PairName(outPath, "right", |pairs|), pair.1)]
  {
    assert (pairs + [pair])[..|pairs|] == pairs;
  }

  /** A name fixes its side and its number, so no picture overwrites another. */
  lemma PairNamesDistinct(outPath: string, s1: string, k1: nat, s2: string, k2: nat)
    requires s1 == "left" || s1 == "right"
    requires s2 == "left" || s2 == "right"
    requires PairName(outPath, s1, k1) == PairName(outPath, s2, k2)
    ensures s1 == s2 && k1 == k2
  {
    var a1, a2 := Text.Pad5(k1) + ".jpg", Text.Pad5(k2) + ".jpg";
    CancelPrefix(outPath + "/", SideName(s1, k1), SideName(s2, k2));
    assert SideName(s1, k1)[0] == s1[0] && SideName(s2, k2)[0] == s2[0];
    assert SideName(s1, k1) == (s1 + "_") + a1;
    assert SideName(s2, k2) == (s2 + "_") + a2;
    CancelPrefix(s1 + "_", a1, a2);
    Text.Pad5Properties(k1);
    Text.Pad5Properties(k2);
    FindChessboardsLive.PadsEqual(Text.Pad5(k1), Text.Pad5(k2));
    Text.Pad5Injective(k1, k2);
  }

  lemma CancelPrefix(p: string, a: string, b: string)
    requires p + a == p + b
    ensures a == b
  {
    assert a == (p + a)[|p|..];
    assert b == (p + b)[|p|..];
  }

  /** Both frames of a good read show the board. */
  predicate BothBoards(f: StereoReader.StereoFrame, detect: Detector) {
    StereoReader.IsGood(f) && detect(f.left.value).0 && detect(f.right.value).0
  }

  /** The pairs of the reads in which both frames show the board, in order. */
  function Pairs(delivered: seq<StereoReader.StereoFrame>, detect: Detector): (r: seq<(Image, Image)>)
    ensures |r| <= |delivered|
    ensures forall k :: 0 <= k < |r| ==> detect(r[k].0).0 && detect(r[k].1).0
    decreases |delivered|
  {
    if |delivered| == 0 then []
    else
      var f := delivered[|delivered| - 1];
      Pairs(delivered[..|delivered| - 1], detect)
      + (if BothBoards(f, detect) then [(f.left.value, f.right.value)] else [])
  }

  /** Taking one more read adds its pair when both its frames show the board. */
  lemma PairsSnoc(delivered: seq<StereoReader.StereoFrame>, detect: Detector, i: nat)
    requires i < |delivered|
    ensures Pairs(delivered[..i + 1], detect)
            == Pairs(delivered[..i], detect)
               + if BothBoards(delivered[i], detect) then [(delivered[i].left.value, delivered[i].right.value)] else []
  {
    assert delivered[..i + 1][..i] == delivered[..i];
  }

  /** The counter and the pictures after one more read are those of the
      pairs found so far, with that read taken. */
  lemma PairsStep(delivered: seq<StereoReader.StereoFrame>, detect: Detector, outPath: string, i: nat,
                  goodCount: nat, saved: seq<(string, Image)>)
    requires i < |delivered|
    requires var pairs := Pairs(delivered[..i], detect)
                          + if BothBoards(delivered[i], detect) then [(delivered[i].left.value, delivered[i].right.value)] else [];
             goodCount == |pairs| && saved == SavedPairs(outPath, pairs)
    ensures goodCount == |Pairs(delivered[..i + 1], detect)|
    ensures saved == SavedPairs(outPath, Pairs(delivered[..i + 1], detect))
  {
    PairsSnoc(delivered, detect, i);
  }

  /** A pair is saved exactly for each read in which both frames show the board. */
  lemma {:induction false} PairsCounted(delivered: seq<StereoReader.StereoFrame>, detect: Detector)
    ensures |Pairs(delivered, detect)| == |set i | 0 <= i < |delivered| && BothBoards(delivered[i], detect)|
    decreases |delivered|
  {
    if |delivered| > 0 {
      var n := |delivered| - 1;
      PairsCounted(delivered[..n], detect);
      BothBoardsStep(delivered, detect);
    }
  }

  /** One more read adds its index to the reads with both boards exactly when
      both its frames show the board. */
  lemma BothBoardsStep(delivered: seq<StereoReader.StereoFrame>, detect: Detector)
    requires |delivered| > 0
    ensures var n := |delivered| - 1;
            |set i | 0 <= i < |delivered| && BothBoards(delivered[i], detect)|
            == |set i | 0 <= i < n && BothBoards(delivered[..n][i], detect)| + (if BothBoards(delivered[n], detect) then 1 else 0)
  {
    var n := |delivered| - 1;
    var init := delivered[..n];
    var s := set i | 0 <= i < |delivered| && BothBoards(delivered[i], detect);
    var t := set i | 0 <= i < n && BothBoards(init[i], detect);
    forall i ensures i in s <==> i in t || (BothBoards(delivered[n], detect) && i == n) {
      if 0 <= i < n { assert init[i] == delivered[i]; }
    }
    CountOneMore(s, t, n, BothBoards(delivered[n], detect));
  }

  /** A good read whose annotated frames `np.hstack` refuses: their heights
      differ (annotation keeps a frame's shape). */
  predicate Unstackable(f: StereoReader.StereoFrame) {
    StereoReader.IsGood(f) && Height(f.left.value) != Height(f.right.value)
  }

  /** The index of the first unstackable read, or the number of reads. */
  function FirstUnstackable(delivered: seq<StereoReader.StereoFrame>): (n: nat)
    ensures n <= |delivered|
    ensures forall i :: 0 <= i < n ==> !Unstackable(delivered[i])
    ensures n < |delivered| ==> Unstackable(delivered[n])
  {
    if |delivered| == 0 || Unstackable(delivered[0]) then 0 else 1 + FirstUnstackable(delivered[1..])
  }

  /** What the loop leaves behind: the counters, the pictures written in
      order, and the exception that ended it, if any. */
  datatype Run = Run(frameCount: nat, goodCount: nat, saved: seq<(string, Image)>, failure: Option<Exc>)

  /** The loop over the reads: every read up to and including the first
      unstackable one is taken, and that one ends the run with its
      `ValueError` after its pair, if any, has been saved. */
  function Outcome(delivered: seq<StereoReader.StereoFrame>, detect: Detector, outPath: string): Run {
    var stop := FirstUnstackable(delivered);
    var taken := if stop < |delivered| then stop + 1 else stop;
    var pairs := Pairs(delivered[..taken], detect);
    Run(taken, |pairs|, SavedPairs(outPath, pairs), if stop < |delivered| then Some(ValueError) else None)
  }

  /** A stackable read before the first unstackable one moves that bound past it. */
  lemma StackableStep(delivered: seq<StereoReader.StereoFrame>, i: nat)
    requires i < |delivered| && i <= FirstUnstackable(delivered) && !Unstackable(delivered[i])
    ensures i + 1 <= FirstUnstackable(delivered)
  {
  }

  /** The run stopped by the unstackable read at `i`. */
  lemma OutcomeAtStop(delivered: seq<StereoReader.StereoFrame>, detect: Detector, outPath: string, i: nat)
    requires i < |delivered| && Unstackable(delivered[i])
    requires forall j :: 0 <= j < i ==> !Unstackable(delivered[j])
    ensures var pairs := Pairs(delivered[..i + 1], detect);
            Outcome(delivered, detect, outPath) == Run(i + 1, |pairs|, SavedPairs(outPath, pairs), Some(ValueError))
  {
    FirstUnstackableAt(delivered, i);
  }

  /** The first unstackable read is the one with none before it. */
  lemma FirstUnstackableAt(delivered: seq<StereoReader.StereoFrame>, i: nat)
    requires i <= |delivered| && (i < |delivered| ==> Unstackable(delivered[i]))
    requires forall j :: 0 <= j < i ==> !Unstackable(delivered[j])
    ensures FirstUnstackable(delivered) == i
  {
  }

  /** The run that takes every read. */
  lemma OutcomeAtEnd(delivered: seq<StereoReader.StereoFrame>, detect: Detector, outPath: string)
    requires forall j :: 0 <= j < |delivered| ==> !Unstackable(delivered[j])
    ensures var pairs := Pairs(delivered, detect);
            Outcome(delivered, detect, outPath) == Run(|delivered|, |pairs|, SavedPairs(outPath, pairs), None)
  {
    FirstUnstackableAt(delivered, |delivered|);
    assert delivered[..|delivered|] == delivered;
  }

  /** Without an unstackable read every read is counted and the run ends
      normally; the pictures come in left/right pairs, one pair per read with
      the board in both frames. */
  lemma OutcomeCounts(delivered: seq<StereoReader.StereoFrame>, detect: Detector, outPath: string)
    requires forall i :: 0 <= i < |delivered| ==> !Unstackable(delivered[i])
    ensures Outcome(delivered, detect, outPath).frameCount == |delivered|
    ensures Outcome(delivered, detect, outPath).failure == None
    ensures |Outcome(delivered, detect, outPath).saved| == 2 * Outcome(delivered, detect, outPath).goodCount
    ensures Outcome(delivered, detect, outPath).goodCount
            == |set i | 0 <= i < |delivered| && BothBoards(delivered[i], detect)|
  {
    assert delivered[..|delivered|] == delivered;
    PairsCounted(delivered, detect);
  }

  /** The body of the loop for one read, after the frame count: a good read
      is searched for the board in its left frame and then its right; the
      pair is saved under the next number when both show it; then the
      annotated pair is stacked for display, which fails on frames of
      different heights. A read that is not good changes nothing. */
  method TakeRead(frames: StereoReader.StereoFrame, detect: Detector, outPath: string,
                  goodCount: nat, saved: seq<(string, Image)>, ghost pairs: seq<(Image, Image)>)
    returns (goodCount': nat, saved': seq<(string, Image)>, failure: Option<Exc>)
    requires goodCount == |pairs| && saved == SavedPairs(outPath, pairs)
    ensures var pairs' := pairs + if BothBoards(frames, detect) then [(frames.left.value, frames.right.value)] else [];
            goodCount' == |pairs'| && saved' == SavedPairs(outPath, pairs')
    ensures failure.Some? <==> Unstackable(frames)
    ensures failure.Some? ==> failure.value == ValueError
  {
    goodCount', saved', failure := goodCount, saved, None;
    assert pairs + [] == pairs;
    if StereoReader.IsGood(frames) {
      var left, right := frames.left.value, frames.right.value;
      var good := [detect(left).0, detect(right).0];
      if good[0] && good[1] {
        SavedPairsSnoc(outPath, pairs, (left, right));
        saved' := saved' + [(PairName(outPath, "left", goodCount), left), (PairName(outPath, "right", goodCount), right)];
        goodCount' := goodCount' + 1;
      }
      var shown := HStack(left, right);
      failure := if shown.Raise? then Some(shown.exc) else None;
    }
  }

  /** The loop of `cli`: the frame count rises on every read; a good read is
      searched in its left frame, then its right; the pair is saved, under
      the fixed names 'left' and 'right', when both show the board; the
      annotated pair is stacked for display. The annotation, the display and
      the two video writers are not modelled. */
  method StereoLoop(delivered: seq<StereoReader.StereoFrame>, detect: Detector, outPath: string) returns (run: Run)
    ensures run == Outcome(delivered, detect, outPath)
  {
    var frameCount, goodCount := 0, 0;
    var saved: seq<(string, Image)> := [];
    var i := 0;
    while i < |delivered|
      invariant i <= |delivered|
      invariant i <= FirstUnstackable(delivered)
      invariant frameCount == i && goodCount == |Pairs(delivered[..i], detect)|
      invariant saved == SavedPairs(outPath, Pairs(delivered[..i], detect))
    {
      var failure;
      goodCount, saved, failure := TakeRead(delivered[i], detect, outPath, goodCount, saved, Pairs(delivered[..i], detect));
      PairsStep(delivered, detect, outPath, i, goodCount, saved);
      frameCount := frameCount + 1;
      if failure.Some? {
        OutcomeAtStop(delivered, detect, outPath, i);
        return Run(frameCount, goodCount, saved, failure);
      }
      StackableStep(delivered, i);
      i := i + 1;
    }
    assert delivered[..i] == delivered;
    OutcomeAtEnd(delivered, detect, outPath);
    return Run(frameCount, goodCount, saved, None);
  }

  /** The command: the output folder is user-expanded, the board size is
      (columns, rows), and the stereo camera is opened on the two eyes; the
      loop runs over the pairs `stream.read()` delivers. */
  method Cli(devices: Video.Devices, home: string, finderFor: (int, int) -> Detector,
             delivered: seq<StereoReader.StereoFrame>,
             leftEye: string := "http://axis-lab/axis-cgi/mjpg/video.cgi?&camera=1",
             rightEye: string := "http://axis-lab/axis-cgi/mjpg/video.cgi?&camera=2",
             outputFolder: string := "~/rakali/stereo/chessboards/",
             chessboardRows: int := 9, chessboardColumns: int := 6)
    returns (r: Result<Run>)
    ensures Text.Strip(leftEye) == Text.Strip(rightEye) ==> r == Raise(SystemExit)
    ensures Text.Strip(leftEye) != Text.Strip(rightEye) ==>
              var dl, dr := devices(Video.Path(leftEye)), devices(Video.Path(rightEye));
              && (r.Ok? <==> Trunc(dl.width) >= 0 && Trunc(dl.height) >= 0 && Trunc(dr.width) >= 0 && Trunc(dr.height) >= 0)
              && (r.Raise? ==> r.exc == ValueError)
    ensures r.Ok? ==> r.value == Outcome(delivered, finderFor(chessboardColumns, chessboardRows),
                                         FindChessboardsLive.OutPath(outputFolder, home))
  {
    var outPath := FindChessboardsLive.OutPath(outputFolder, home);
    var detect := finderFor(chessboardColumns, chessboardRows);
    var stream :- StereoReader.StereoCamera.Open(devices, leftEye, rightEye);
    var _ := stream.Enter();
    var run := StereoLoop(delivered, detect, outPath);
    stream.Exit();
    return Ok(run);
  }
}

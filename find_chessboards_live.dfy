/** The live chessboard finder (`cli/find_chessboards_live.py`): how the
    source option is turned into something to open, and the loop that saves
    every frame in which the board is found as a numbered picture. */
module FindChessboardsLive {
  import opened Py
  import opened Mats
  import opened Collection
  import Text
  import Video

  /** The `--source` default. */
  const DefaultSource := "http://axis-lab/axis-cgi/mjpg/video.cgi?&camera=1"

  /** The source as written: anything containing "rtsp" is kept, an integer
      literal becomes a device index, and everything else is read as a path,
      user-expanded and normalised by `pathlib`. */
  function ResolveSourceAsWritten(source: string, home: string): (r: Video.Source)
    ensures r.Index? ==> Text.ParseInt(source) == Some(r.index)
    ensures r.Path? ==> r.path == source || r.path == Text.ExpandUser(source, home)
  {
    if Text.Find(source, "rtsp") >= 0 then Video.Path(source)
    else if Text.ParseInt(source).Some? then Video.Index(Text.ParseInt(source).value)
    else Video.Path(Text.ExpandUser(source, home))
  }

  /** A URL that is neither rtsp nor a number has its "//" collapsed by `pathlib`,
      so the path the reader is opened on is not the URL given. */
  lemma UrlMangledAsWritten(source: string, home: string, i: nat)
    requires Text.Find(source, "rtsp") < 0
    requires Text.OccursAt(source, "://", i)
    requires !Text.IsSpace(source[0]) && !Text.IsSpace(source[|source| - 1])
    ensures ResolveSourceAsWritten(source, home) != Video.Path(source)
  {
    var r := Text.ExpandUser(source, home);
    UrlReadAsPath(source, home, i);
    Text.ExpandUserParts(source, home);
    assert Text.NoDoubleSlashFrom(r, 1);
    DoubleSlashNotNormal(source, i);
  }

  /** A text holding "://" has a doubled separator after its first character. */
  lemma DoubleSlashNotNormal(p: string, i: nat)
    requires Text.OccursAt(p, "://", i)
    ensures !Text.NoDoubleSlashFrom(p, 1)
  {
    assert p[i..i + 3] == "://";
    assert p[i + 1] == '/' && p[i + 2] == '/';
  }

  /** Such a URL is not a number, so it is read as a path, user-expanded and
      normalised. */
  lemma UrlReadAsPath(source: string, home: string, i: nat)
    requires Text.Find(source, "rtsp") < 0
    requires Text.OccursAt(source, "://", i)
    requires !Text.IsSpace(source[0]) && !Text.IsSpace(source[|source| - 1])
    ensures ResolveSourceAsWritten(source, home) == Video.Path(Text.ExpandUser(source, home))
  {
    assert source[i..i + 3] == "://";
    Text.StripUnchanged(source);
    Text.ParseIntRejects(source, i);
  }

  /** A text holding "://" is not in `pathlib`'s normal form. */
  lemma DoubleSlashNormalised(p: string, i: nat)
    requires Text.OccursAt(p, "://", i)
    ensures Text.PathText(p) != p
  {
    assert p[i..i + 3] == "://";
    assert p[i + 1] == '/' && p[i + 2] == '/';
    assert !Text.NoDoubleSlashFrom(p, 1);
    Text.PathTextNormal(p);
  }

  /** A concrete URL of the default source's kind: the reader is opened on
      "http:/axis-lab", which is not the URL given. */
  lemma AxisUrlMangledAsWritten(s: string, home: string)
    requires s == "http://axis-lab"
    ensures ResolveSourceAsWritten(s, home) != Video.Path(s)
  {
    assert s[..1] == "h" && s[|s| - 1..] == "b";
    assert s[4..7] == "://";
    assert !Text.IsSpace(s[0]) && !Text.IsSpace(s[|s| - 1]) && s[0] != '~' by {
      assert s[0] == s[..1][0] && s[|s| - 1] == s[|s| - 1..][0];
    }
    assert Text.Find(s, "rtsp") < 0 by {
      assert forall k :: 0 <= k < |s| ==> s[k] != 'r';
      FindAbsent(s, "rtsp");
    }
    UrlMangledAsWritten(s, home, 4);
  }

  /** A text none of whose characters starts `sub` does not contain it. */
  lemma FindAbsent(s: string, sub: string)
    requires |sub| > 0 && forall k :: 0 <= k < |s| ==> s[k] != sub[0]
    ensures Text.Find(s, sub) == -1
  {
    OccurrenceStarts(s, sub, Text.Find(s, sub));
  }

  lemma OccurrenceStarts(s: string, sub: string, i: int)
    ensures Text.OccursAt(s, sub, i) && |sub| > 0 ==> s[i] == sub[0]
  {
    if Text.OccursAt(s, sub, i) && |sub| > 0 {
      assert s[i..i + |sub|][0] == s[i];
    }
  }

  /** The source as evidently intended: anything with a URL scheme ("://"),
      rtsp or not, is handed to the reader unchanged. */
  function ResolveSource(source: string, home: string): (r: Video.Source)
    ensures Text.Find(source, "://") >= 0 || Text.Find(source, "rtsp") >= 0 ==> r == Video.Path(source)
    ensures r.Index? ==> Text.ParseInt(source) == Some(r.index)
    ensures r.Path? ==> r.path == source || r.path == Text.ExpandUser(source, home)
  {
    if Text.Find(source, "rtsp") >= 0 || Text.Find(source, "://") >= 0 then Video.Path(source)
    else ResolveSourceAsWritten(source, home)
  }

  /** Without a URL scheme the two agree. */
  lemma ResolveSourceAgrees(source: string, home: string)
    requires Text.Find(source, "://") < 0
    ensures ResolveSource(source, home) == ResolveSourceAsWritten(source, home)
  {
  }

  /** The text of an integer opens that device index. */
  lemma IntegerSourceIsIndex(i: int, home: string)
    ensures ResolveSource(Text.IntToString(i), home) == Video.Index(i)
  {
    var s := Text.IntToString(i);
    Text.IntToStringChars(i);
    Text.IntToStringParses(i);
    FindAbsent(s, "rtsp");
    FindAbsent(s, "://");
  }

  /** `Path(out_folder).expanduser()`, as text. */
  function OutPath(outFolder: string, home: string): string {
    Text.ExpandUser(outFolder, home)
  }

  /** The frames in which the board is found, in order. */
  function Boards(delivered: seq<Option<Image>>, detect: Detector): (r: seq<Image>)
    ensures |r| <= |delivered|
    ensures forall k :: 0 <= k < |r| ==> detect(r[k]).0
    decreases |delivered|
  {
    if |delivered| == 0 then []
    else
      var last := delivered[|delivered| - 1];
      Boards(delivered[..|delivered| - 1], detect) + (if last.Some? && detect(last.value).0 then [last.value] else [])
  }

  /** One picture is saved per frame with a board: exactly as many as there are such frames. */
  lemma {:induction false} BoardsCounted(delivered: seq<Option<Image>>, detect: Detector)
    ensures |Boards(delivered, detect)| == |set i | 0 <= i < |delivered| && delivered[i].Some? && detect(delivered[i].value).0|
    decreases |delivered|
  {
    if |delivered| > 0 {
      var n := |delivered| - 1;
      BoardsCounted(delivered[..n], detect);
      BoardFramesStep(delivered, detect);
    }
  }

  /** One more frame adds its index to the frames with a board exactly when
      the board is found in it. */
  lemma BoardFramesStep(delivered: seq<Option<Image>>, detect: Detector)
    requires |delivered| > 0
    ensures var n := |delivered| - 1;
            |set i | 0 <= i < |delivered| && delivered[i].Some? && detect(delivered[i].value).0|
            == |set i | 0 <= i < n && delivered[..n][i].Some? && detect(delivered[..n][i].value).0|
               + (if delivered[n].Some? && detect(delivered[n].value).0 then 1 else 0)
  {
    var n := |delivered| - 1;
    var init := delivered[..n];
    var s := set i | 0 <= i < |delivered| && delivered[i].Some? && detect(delivered[i].value).0;
    var t := set i | 0 <= i < n && init[i].Some? && detect(init[i].value).0;
    forall i ensures i in s <==> i in t || (delivered[n].Some? && detect(delivered[n].value).0 && i == n) {
      if 0 <= i < n { assert init[i] == delivered[i]; }
    }
    CountOneMore(s, t, n, delivered[n].Some? && detect(delivered[n].value).0);
  }

  /** The k-th saved picture, `{out_path}/{k:05}.jpg`. */
  function PictureName(outPath: string, k: nat): string {
    outPath + "/" + Text.Pad5(k) + ".jpg"
  }

  /** The pictures written for `boards`, numbered from zero. */
  function SavedAs(outPath: string, boards: seq<Image>): seq<(string, Image)> {
    seq(|boards|, k requires 0 <= k < |boards| => (PictureName(outPath, k), boards[k]))
  }

  /** Saving one more board appends its picture under the next number. */
  lemma SavedAsSnoc(outPath: string, boards: seq<Image>, board: Image)
    ensures SavedAs(outPath, boards + [board]) == SavedAs(outPath, boards) + [(PictureName(outPath, |boards|), board)]
  {
  }

  /** No picture overwrites another: the names are distinct. */
  lemma SavedNamesDistinct(outPath: string, boards: seq<Image>, j: nat, k: nat)
    requires j < k < |boards|
    ensures SavedAs(outPath, boards)[j].0 != SavedAs(outPath, boards)[k].0
  {
    if PictureName(outPath, j) == PictureName(outPath, k) {
      var p := outPath + "/";
      assert Text.Pad5(j) + ".jpg" == PictureName(outPath, j)[|p|..];
      assert Text.Pad5(k) + ".jpg" == PictureName(outPath, k)[|p|..];
      Text.Pad5Properties(j);
      Text.Pad5Properties(k);
      PadsEqual(Text.Pad5(j), Text.Pad5(k));
      Text.Pad5Injective(j, k);
    }
  }

  /** Two digit strings followed by ".jpg" are equal when the results are. */
  lemma PadsEqual(a: string, b: string)
    requires Text.AllDigits(a) && Text.AllDigits(b)
    requires a + ".jpg" == b + ".jpg"
    ensures a == b
  {
    assert a == (a + ".jpg")[..|a|];
    assert b == (b + ".jpg")[..|b|];
  }

  /** The loop: each read that succeeds is searched for the board and saved
      under the next number when it is found; the first failed read ends the
      loop. The display and the labels are not modelled. */
  method SaveBoards(delivered: seq<Option<Image>>, detect: Detector, outPath: string)
    returns (writes: seq<(string, Image)>, count: nat)
    ensures writes == SavedAs(outPath, Boards(delivered[..Video.FirstFailure(delivered)], detect))
    ensures count == |writes|
  {
    writes, count := [], 0;
    var i := 0;
    while i < |delivered|
      invariant i <= Video.FirstFailure(delivered)
      invariant writes == SavedAs(outPath, Boards(delivered[..i], detect)) && count == |writes|
    {
      var frame := delivered[i];
      if frame.None? {
        break;
      }
      assert delivered[..i + 1][..i] == delivered[..i];
      assert Boards(delivered[..i + 1], detect)
             == Boards(delivered[..i], detect) + (if detect(frame.value).0 then [frame.value] else []);
      var (hasCorners, _) := detect(frame.value);
      if hasCorners {
        SavedAsSnoc(outPath, Boards(delivered[..i], detect), frame.value);
        writes := writes + [(PictureName(outPath, count), frame.value)];
        count := count + 1;
      }
      i := i + 1;
    }
    assert delivered[..i] == delivered[..Video.FirstFailure(delivered)];
  }

  /** Opening the reader on `src` and running the loop: a `ValueError` when
      the device reports a negative size, otherwise the loop runs over the
      frames `stream.read()` delivers, with the finder built for the board
      size, and the reader is stopped on leaving. */
  method SaveFromSource(devices: Video.Devices, src: Video.Source, home: string, chessboardSize: (int, int),
                        outFolder: string, finderFor: (int, int) -> Detector,
                        delivered: seq<Option<Image>>)
    returns (r: Result<seq<(string, Image)>>)
    ensures var d := devices(src);
            r.Ok? <==> Trunc(d.width) >= 0 && Trunc(d.height) >= 0
    ensures r.Raise? ==> r.exc == ValueError
    ensures r.Ok? ==> r.value == SavedAs(OutPath(outFolder, home),
                                         Boards(delivered[..Video.FirstFailure(delivered)], finderFor(chessboardSize.0, chessboardSize.1)))
  {
    var stream :- Video.VideoStream.Open(devices, src);
    var detect := finderFor(chessboardSize.0, chessboardSize.1);
    var _ := stream.Enter();
    var writes, _ := SaveBoards(delivered, detect, OutPath(outFolder, home));
    stream.Exit();
    return Ok(writes);
  }

  /** `find_chessboards_in_stream` as written: the reader is opened on
      `ResolveSourceAsWritten`, so a non-rtsp URL is opened with its "//"
      collapsed. */
  method FindChessboardsInStream(devices: Video.Devices, home: string, source: string, chessboardSize: (int, int),
                                 outFolder: string, finderFor: (int, int) -> Detector,
                                 delivered: seq<Option<Image>>)
    returns (r: Result<seq<(string, Image)>>)
    ensures var d := devices(ResolveSourceAsWritten(source, home));
            r.Ok? <==> Trunc(d.width) >= 0 && Trunc(d.height) >= 0
    ensures r.Raise? ==> r.exc == ValueError
    ensures r.Ok? ==> r.value == SavedAs(OutPath(outFolder, home),
                                         Boards(delivered[..Video.FirstFailure(delivered)], finderFor(chessboardSize.0, chessboardSize.1)))
  {
    r := SaveFromSource(devices, ResolveSourceAsWritten(source, home), home, chessboardSize, outFolder, finderFor, delivered);
  }

  /** The evidently intended `find_chessboards_in_stream`: a URL is opened as
      given (`ResolveSource`). */
  method FindChessboardsInStreamIntended(devices: Video.Devices, home: string, source: string, chessboardSize: (int, int),
                                         outFolder: string, finderFor: (int, int) -> Detector,
                                         delivered: seq<Option<Image>>)
    returns (r: Result<seq<(string, Image)>>)
    ensures var d := devices(ResolveSource(source, home));
            r.Ok? <==> Trunc(d.width) >= 0 && Trunc(d.height) >= 0
    ensures r.Raise? ==> r.exc == ValueError
    ensures r.Ok? ==> r.value == SavedAs(OutPath(outFolder, home),
                                         Boards(delivered[..Video.FirstFailure(delivered)], finderFor(chessboardSize.0, chessboardSize.1)))
  {
    r := SaveFromSource(devices, ResolveSource(source, home), home, chessboardSize, outFolder, finderFor, delivered);
  }

  /** The command, as written: the board size is (columns, rows), and the
      source is resolved as `find_chessboards_in_stream` does. */
  method Cli(devices: Video.Devices, home: string, finderFor: (int, int) -> Detector, delivered: seq<Option<Image>>,
             source: string := DefaultSource, outputFolder: string := "~/rakali/chessboards/",
             chessboardRows: int := 9, chessboardColumns: int := 6)
    returns (r: Result<seq<(string, Image)>>)
    ensures var d := devices(ResolveSourceAsWritten(source, home));
            r.Ok? <==> Trunc(d.width) >= 0 && Trunc(d.height) >= 0
    ensures r.Ok? ==> r.value == SavedAs(OutPath(outputFolder, home),
                                         Boards(delivered[..Video.FirstFailure(delivered)], finderFor(chessboardColumns, chessboardRows)))
    ensures r.Raise? ==> r.exc == ValueError
  {
    r := FindChessboardsInStream(devices, home, source, (chessboardColumns, chessboardRows), outputFolder,
                                 finderFor, delivered);
  }
}

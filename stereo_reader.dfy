/** A stereo pair read as one (`stereo/reader.py`): the time-stamped pair of
    frames and the camera pair that produces them. */
module StereoReader {
  import opened Py
  import opened Mats
  import Text
  import Video

  /** `StereoFrame`: two frames (either may be `None`), their names and a timestamp. */
  datatype StereoFrame = StereoFrame(left: Option<Image>, right: Option<Image>,
                                     leftName: string, rightName: string, timestamp: real)

  /** `StereoFrame(left, right, left_name, right_name, timestamp)`; without a
      timestamp the clock's `now` is taken. */
  function MakeStereoFrame(left: Option<Image>, right: Option<Image>, now: real,
                           leftName: string := "left", rightName: string := "right",
                           timestamp: Option<real> := None): (f: StereoFrame)
    ensures f.timestamp == timestamp.GetOr(now)
    ensures f.leftName == leftName && f.rightName == rightName
  {
    StereoFrame(left, right, leftName, rightName, if timestamp.None? then now else timestamp.value)
  }

  /** `frames()`. */
  function Frames(f: StereoFrame): (Option<Image>, Option<Image>) {
    (f.left, f.right)
  }

  /** `calibration_named_frames()`: the fixed names 'left' and 'right', whatever
      the frame's own names. */
  function CalibrationNamedFrames(f: StereoFrame): (r: seq<(string, Option<Image>)>)
    ensures |r| == 2 && r[0].0 == "left" && r[1].0 == "right"
    ensures r[0].1 == Frames(f).0 && r[1].1 == Frames(f).1
  {
    [("left", f.left), ("right", f.right)]
  }

  /** `frames()` gives back the frames a stereo frame was built from, left first,
      whatever its names and timestamp. */
  lemma FramesInOrder(left: Option<Image>, right: Option<Image>, now: real,
                      leftName: string, rightName: string, timestamp: Option<real>)
    ensures Frames(MakeStereoFrame(left, right, now, leftName, rightName, timestamp)) == (left, right)
    ensures CalibrationNamedFrames(MakeStereoFrame(left, right, now, leftName, rightName, timestamp))
            == [("left", left), ("right", right)]
  {
  }

  /** `is_good()`: both frames present. */
  predicate IsGood(f: StereoFrame) {
    f.left.Some? && f.right.Some?
  }

  /** `get_stereo_frame_size()`: (2 * width, height) of the left frame; an
      `AttributeError` without one. */
  function GetStereoFrameSize(f: StereoFrame): (r: Result<(nat, nat)>)
    ensures r.Ok? <==> f.left.Some?
    ensures r.Ok? ==> r.value == (2 * Width(f.left.value), Height(f.left.value))
    ensures r.Raise? ==> r.exc == AttributeError
  {
    if f.left.None? then Raise(AttributeError)
    else
      var (h, w) := Shape2(f.left.value);
      Ok((w * 2, h))
  }

  /** The size is that of the two frames stacked side by side, as (width,
      height), when the right frame has the left's shape. */
  lemma StereoSizeIsStackedSize(f: StereoFrame)
    requires IsGood(f) && Shape2(f.left.value) == Shape2(f.right.value)
    ensures HStack(f.left.value, f.right.value).Ok?
    ensures var s := Shape2(HStack(f.left.value, f.right.value).value);
            GetStereoFrameSize(f) == Ok((s.1, s.0))
  {
  }

  class StereoCamera {
    var leftReader: Video.VideoStream
    var rightReader: Video.VideoStream

    constructor Init(leftReader: Video.VideoStream, rightReader: Video.VideoStream)
      ensures this.leftReader == leftReader && this.rightReader == rightReader
    {
      this.leftReader := leftReader;
      this.rightReader := rightReader;
    }

    /** `StereoCamera(left_src, right_src)`: sources equal up to surrounding
        whitespace end the program; otherwise, as written, the right reader is
        opened on `left_src` and the left reader on `right_src`. */
    static method Open(devices: Video.Devices, leftSrc: string, rightSrc: string) returns (r: Result<StereoCamera>)
      ensures Text.Strip(leftSrc) == Text.Strip(rightSrc) ==> r == Raise(SystemExit)
      ensures Text.Strip(leftSrc) != Text.Strip(rightSrc) ==>
                var dl, dr := devices(Video.Path(leftSrc)), devices(Video.Path(rightSrc));
                && (r.Ok? <==> Trunc(dl.width) >= 0 && Trunc(dl.height) >= 0 && Trunc(dr.width) >= 0 && Trunc(dr.height) >= 0)
                && (r.Raise? ==> r.exc == ValueError)
      ensures r.Ok? ==> Text.Strip(leftSrc) != Text.Strip(rightSrc)
      ensures r.Ok? ==> && fresh(r.value) && fresh(r.value.leftReader) && fresh(r.value.rightReader)
                        && r.value.leftReader != r.value.rightReader
                        && r.value.rightReader.stream.src == Video.Path(leftSrc)
                        && r.value.leftReader.stream.src == Video.Path(rightSrc)
                        && !r.value.leftReader.stopped && !r.value.rightReader.stopped
      ensures r.Ok? ==> var d := devices(Video.Path(rightSrc));
                      && Trunc(d.height) >= 0 && Trunc(d.width) >= 0
                      && r.value.leftReader.frame == Some(Zeros(Trunc(d.height), Trunc(d.width)))
                      && r.value.rightReader.frame
                         == Some(Zeros(Trunc(devices(Video.Path(leftSrc)).height), Trunc(devices(Video.Path(leftSrc)).width)))
    {
      if Text.Strip(leftSrc) == Text.Strip(rightSrc) {
        return Raise(SystemExit);
      }
      var right :- Video.VideoStream.Open(devices, Video.Path(leftSrc));
      var left :- Video.VideoStream.Open(devices, Video.Path(rightSrc));
      var c := new StereoCamera.Init(left, right);
      return Ok(c);
    }

    /** `__enter__`: starts the left reader, then the right. */
    method Enter() returns (r: StereoCamera)
      ensures r == this
    {
      var _ := leftReader.Start();
      var _ := rightReader.Start();
      r := this;
    }

    /** `__exit__`: stops both readers. */
    method Exit()
      modifies leftReader, rightReader
      ensures leftReader.stopped && rightReader.stopped
      ensures leftReader.frame == old(leftReader.frame) && rightReader.frame == old(rightReader.frame)
    {
      leftReader.Stop();
      rightReader.Stop();
    }

    /** `read()`: the latest frame of each reader, paired under the default
        names and the clock's `now`; the readers' own success flags are
        discarded and the pair is good exactly when both frames are present. */
    method Read(now: real) returns (good: bool, frame: StereoFrame)
      ensures frame == MakeStereoFrame(leftReader.Read(), rightReader.Read(), now)
      ensures good <==> leftReader.frame.Some? && rightReader.frame.Some?
    {
      var left := leftReader.Read();
      var right := rightReader.Read();
      frame := MakeStereoFrame(left, right, now);
      good := IsGood(frame);
    }
  }

  /** Straight after opening, the pair read is good and its left frame is the
      zero frame sized by the device behind `right_src`. */
  method FirstReadSwapsEyes(devices: Video.Devices, leftSrc: string, rightSrc: string, now: real)
    returns (r: Result<(bool, StereoFrame)>)
      ensures r.Ok? ==> var d := devices(Video.Path(rightSrc));
              && r.value.0 && Trunc(d.height) >= 0 && Trunc(d.width) >= 0
              && r.value.1.left == Some(Zeros(Trunc(d.height), Trunc(d.width)))
  {
    var cam :- StereoCamera.Open(devices, leftSrc, rightSrc);
    var good, frame := cam.Read(now);
    return Ok((good, frame));
  }
}

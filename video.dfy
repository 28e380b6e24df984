/** The single-slot live reader `VideoStream` (`video/reader.py`), over an
    OpenCV capture device. The older `video_reader.py` holds the same state
    machine without `size` and `copy`; both are modelled by this class. */
module Video {
  import opened Py
  import opened Mats

  /** What `cv.VideoCapture(src)` is opened on: a device index or a path/URL. */
  datatype Source = Index(index: int) | Path(path: string)

  /** What a device offers: the frame size it reports through
      `CAP_PROP_FRAME_WIDTH`/`CAP_PROP_FRAME_HEIGHT`, and the frames its reads
      deliver in order (`None` where a read fails). */
  datatype Device = Device(width: real, height: real, frames: seq<Option<Image>>)

  /** The devices reachable from this process, by source. */
  type Devices = Source -> Device

  /** The result of `stream.read()` given the frames still to come: a failed
      read, and the end of the stream, are `(False, None)`. */
  function NextRead(pending: seq<Option<Image>>): (r: (bool, Option<Image>))
    ensures r.0 <==> r.1.Some?
    ensures |pending| == 0 ==> r == (false, None)
    ensures |pending| > 0 ==> r.1 == pending[0]
  {
    if |pending| == 0 then (false, None) else (pending[0].Some?, pending[0])
  }

  /** The index of the first failed read, or the number of delivered. */
  function FirstFailure(delivered: seq<Option<Image>>): (n: nat)
    ensures n <= |delivered|
    ensures forall i :: 0 <= i < n ==> delivered[i].Some?
    ensures n < |delivered| ==> delivered[n].None?
  {
    if |delivered| == 0 || delivered[0].None? then 0 else 1 + FirstFailure(delivered[1..])
  }

  /** The frames of the reads before the first failed one, in order. */
  function Delivered(delivered: seq<Option<Image>>): (frames: seq<Image>)
    ensures |frames| == FirstFailure(delivered)
    ensures forall k :: 0 <= k < |frames| ==> delivered[k] == Some(frames[k])
  {
    if |delivered| == 0 || delivered[0].None? then [] else [delivered[0].value] + Delivered(delivered[1..])
  }

  /** After `j` successful reads, the next read succeeds exactly when the
      first failure lies further on. */
  lemma DeliveredNext(delivered: seq<Option<Image>>, j: nat)
    requires j <= |Delivered(delivered)|
    ensures (j < |delivered| && delivered[j].Some?) <==> j < |Delivered(delivered)|
    ensures j < |Delivered(delivered)| ==> delivered[j] == Some(Delivered(delivered)[j])
  {
  }

  /** `cv.VideoCapture`: an opened source and the frames it has not yet delivered. */
  class Capture {
    const src: Source
    const width: real
    const height: real
    var pending: seq<Option<Image>>

    constructor (src: Source, device: Device)
      ensures this.src == src && width == device.width && height == device.height
      ensures pending == device.frames
    {
      this.src := src;
      width := device.width;
      height := device.height;
      pending := device.frames;
    }

    /** `read()`: the next frame, consumed. */
    method Read() returns (ok: bool, frame: Option<Image>)
      modifies this
      ensures (ok, frame) == NextRead(old(pending))
      ensures pending == if |old(pending)| == 0 then [] else old(pending)[1..]
    {
      ok, frame := NextRead(pending).0, NextRead(pending).1;
      if |pending| > 0 {
        pending := pending[1..];
      }
    }
  }

  class VideoStream {
    const stream: Capture
    var grabbed: bool
    /** The latest frame; `None` after a failed read. */
    var frame: Option<Image>
    var stopped: bool
    const width: int
    const height: int

    constructor Init(stream: Capture, grabbed: bool, width: nat, height: nat)
      ensures this.stream == stream && this.grabbed == grabbed && this.width == width && this.height == height
      ensures frame == Some(Zeros(height, width)) && !stopped
    {
      this.stream := stream;
      this.grabbed := grabbed;
      this.width := width;
      this.height := height;
      frame := Some(Zeros(height, width));
      stopped := false;
    }

    /** `VideoStream(src)`: the capture is opened and read once, then the frame is
        replaced by zeros of the size the device reports, truncated to integers
        (`np.zeros` refuses a negative size with a `ValueError`). The first frame
        read is discarded. */
    static method Open(devices: Devices, src: Source := Index(0)) returns (r: Result<VideoStream>)
      ensures var d := devices(src);
              r.Ok? <==> Trunc(d.width) >= 0 && Trunc(d.height) >= 0
      ensures r.Raise? ==> r.exc == ValueError
      ensures r.Ok? ==> var d := devices(src);
                && fresh(r.value) && fresh(r.value.stream) && r.value.stream.src == src
                && r.value.grabbed == NextRead(d.frames).0
                && r.value.frame == Some(Zeros(Trunc(d.height), Trunc(d.width)))
                && !r.value.stopped
                && r.value.Size() == (Trunc(d.width), Trunc(d.height))
                && r.value.stream.pending == if |d.frames| == 0 then [] else d.frames[1..]
    {
      var stream := new Capture(src, devices(src));
      var grabbed, first := stream.Read();
      var w, h := Trunc(stream.width), Trunc(stream.height);
      if h < 0 || w < 0 {
        return Raise(ValueError);
      }
      var s := new VideoStream.Init(stream, grabbed, w, h);
      return Ok(s);
    }

    /** `size()`: the size recorded at construction. */
    function Size(): (int, int)
      reads this
    {
      (width, height)
    }

    /** `get_wh_size()`: the current frame's `shape[:2]` swapped to (width, height);
        an `AttributeError` once a failed read has left no frame. */
    function GetWhSize(): (r: Result<(nat, nat)>)
      reads this
      ensures r.Ok? <==> frame.Some?
      ensures r.Ok? ==> r.value.0 == Shape2(frame.value).1 && r.value.1 == Shape2(frame.value).0
      ensures r.Raise? ==> r.exc == AttributeError
    {
      if frame.None? then Raise(AttributeError) else Ok((Width(frame.value), Height(frame.value)))
    }

    /** `get_shape()`: (height, width, 3); an `AttributeError` without a frame. */
    function GetShape(): (r: Result<(nat, nat, nat)>)
      reads this
      ensures r.Ok? <==> frame.Some?
      ensures r.Ok? ==> (r.value.0, r.value.1) == Shape2(frame.value) && r.value.2 == 3
      ensures r.Raise? ==> r.exc == AttributeError
    {
      if frame.None? then Raise(AttributeError) else Ok((Height(frame.value), Width(frame.value), 3))
    }

    /** `start()` hands `update` to a thread and returns the stream; the thread is
        modelled by the caller running `UpdateStep`. */
    method Start() returns (r: VideoStream)
      ensures r == this
    {
      r := this;
    }

    /** One iteration of `update()`'s loop: when stopped the loop returns
        (`done`) and nothing changes; otherwise the next device read replaces
        both the flag and the frame. */
    method UpdateStep() returns (done: bool)
      modifies this, stream
      ensures done == old(stopped)
      ensures old(stopped) ==> grabbed == old(grabbed) && frame == old(frame) && stream.pending == old(stream.pending)
      ensures !old(stopped) ==> (grabbed, frame) == NextRead(old(stream.pending))
                                && stream.pending == if |old(stream.pending)| == 0 then [] else old(stream.pending)[1..]
      ensures stopped == old(stopped)
    {
      if stopped {
        return true;
      }
      grabbed, frame := stream.Read();
      return false;
    }

    /** `read()`: the latest frame alone. */
    function Read(): Option<Image>
      reads this
    {
      frame
    }

    /** `copy()`: a frame equal to the latest one; frames are values here, so
        later reads cannot change it. */
    method Copy() returns (c: Option<Image>)
      ensures c == frame
    {
      c := frame;
    }

    /** `stop()`. */
    method Stop()
      modifies this
      ensures stopped
      ensures grabbed == old(grabbed) && frame == old(frame)
    {
      stopped := true;
    }

    method Enter() returns (r: VideoStream)
      ensures r == this
    {
      r := Start();
    }

    method Exit()
      modifies this
      ensures stopped
      ensures grabbed == old(grabbed) && frame == old(frame)
    {
      Stop();
    }
  }

  /** The reader keeps only the latest frame: after two update steps a read
      sees the second device frame, the first is gone, and a copy taken before
      them still holds the frame of that moment. */
  method LatestFrameWins(s: VideoStream) returns (before: Option<Image>, after: Option<Image>)
    requires !s.stopped && |s.stream.pending| >= 2
    modifies s, s.stream
    ensures before == old(s.frame)
    ensures after == old(s.stream.pending[1])
  {
    before := s.Copy();
    var _ := s.UpdateStep();
    var _ := s.UpdateStep();
    after := s.Read();
  }

  /** Once stopped, update steps change nothing and the loop ends. */
  method StoppedStreamIsFrozen(s: VideoStream) returns (done: bool)
    modifies s, s.stream
    ensures done && s.stopped
    ensures s.frame == old(s.frame) && s.stream.pending == old(s.stream.pending)
  {
    s.Stop();
    done := s.UpdateStep();
  }
}

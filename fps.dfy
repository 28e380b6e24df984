/** The `FPS` stopwatch (`video/fps.py`): a start time, an end time, and a
    count of finished frames. Times come from the caller's clock. */
module Fps {
  import opened Py

  class FPS {
    var start: Option<real>
    /** Set to `None` by the constructor and never used. */
    var stop: Option<real>
    /** `None` while the attribute `end` does not exist. */
    var end: Option<real>
    var frames: int

    /** `FPS()`: no start time, frames 0; `end` is not created. */
    constructor ()
      ensures start == None && stop == None && end == None && frames == 0
    {
      start := None;
      stop := None;
      end := None;
      frames := 0;
    }

    /** `begin()`: `start` takes the clock's time; the stopwatch is returned. */
    method Begin(now: real) returns (r: FPS)
      modifies this
      ensures r == this && start == Some(now)
      ensures frames == old(frames) && end == old(end) && stop == old(stop)
    {
      start := Some(now);
      r := this;
    }

    /** `done()`: `end` takes the clock's time and one more frame is counted. */
    method Done(now: real)
      modifies this
      ensures end == Some(now) && frames == old(frames) + 1
      ensures start == old(start) && stop == old(stop)
    {
      end := Some(now);
      frames := frames + 1;
    }

    /** `cost()`: `end - start`; an `AttributeError` before any `done()`, a
        `TypeError` (`float - None`) without a `begin()`. */
    function Cost(): (r: Result<real>)
      reads this
      ensures end.None? ==> r == Raise(AttributeError)
      ensures end.Some? && start.None? ==> r == Raise(TypeError)
      ensures r.Ok? <==> end.Some? && start.Some?
      ensures r.Ok? ==> start.value + r.value == end.value
    {
      if end.None? then Raise(AttributeError)
      else if start.None? then Raise(TypeError)
      else Ok(end.value - start.value)
    }

    /** `fps()`: `1 / cost()`; a zero cost divides by zero. */
    function Rate(): (r: Result<real>)
      reads this
      ensures Cost().Raise? ==> r == Raise(Cost().exc)
      ensures Cost() == Ok(0.0) ==> r == Raise(ZeroDivisionError)
      ensures r.Ok? ==> Cost().Ok? && r.value * Cost().value == 1.0
    {
      var c :- Cost();
      if c == 0.0 then Raise(ZeroDivisionError) else Ok(1.0 / c)
    }
  }

  /** A timed frame: after `begin` at `t0` and `done` at `t1`, one frame is
      counted, the cost is `t1 - t0`, and its rate inverts it. A fresh
      stopwatch cannot report a cost. */
  method TimedFrame(t0: real, t1: real) returns (fresh0: Result<real>, cost: Result<real>, frames: int)
    ensures fresh0 == Raise(AttributeError)
    ensures cost == Ok(t1 - t0) && frames == 1
  {
    var f := new FPS();
    fresh0 := f.Cost();
    var _ := f.Begin(t0);
    f.Done(t1);
    cost := f.Cost();
    frames := f.frames;
  }
}

/**
 The viewer's main loop, with the camera state it updates in place.

 The process-wide world offset and zoom scale, together with the loop's
 mouse_held and running flags, are the fields of one Camera object. Each event
 handler updates them step by step as the loop body does, and is proved to
 agree with the value-level rule of the Input module; the poll loop and the
 outer frame loop are proved to agree with ApplyEvents, Frame, Run and Drawn.
 */
module Viewer {
  import opened Transform
  import opened Input

  class Camera {
    var offX: real
    var offY: real
    var zoom: Scale
    var held: bool
    var running: bool

    /** The object's state as an Input.State value. */
    ghost function Snapshot(): State
      reads this
    {
      State(View(offX, offY, zoom), held, running)
    }

    /** The object invariant: the scale stays within the clamp range. */
    ghost predicate Valid()
      reads this
    {
      InRange(zoom)
    }

    /** The startup values of the globals and the loop flags. */
    constructor ()
      ensures Valid() && Snapshot() == Initial
    {
      offX, offY, zoom := 0.0, 0.0, InitialZoom;
      held, running := false, true;
    }

    /** A wheel event, with the anchor (ax, ay) taken at the top of the frame. */
    method Wheel(preciseY: real, mx: int, my: int, ax: real, ay: real)
      requires Valid()
      modifies this
      ensures Valid()
      ensures Snapshot() == old(Snapshot()).(view := WheelStep(old(Snapshot()).view, mx, my, ax, ay, preciseY))
      ensures preciseY != 0.0 ==>
        ScreenToWorldX(Snapshot().view, mx as real) == ax && ScreenToWorldY(Snapshot().view, my as real) == ay
    {
      var zoomed := false;
      if preciseY > 0.0 {
        zoom := zoom * 2.0;
        zoomed := true;
        if MaxZoom < zoom {
          zoom := MaxZoom;
        }
      }
      if preciseY < 0.0 {
        zoom := zoom * 0.5;
        zoomed := true;
        if zoom < MinZoom {
          zoom := MinZoom;
        }
      }
      if zoomed {
        var afterX := ScreenToWorldX(View(offX, offY, zoom), mx as real);
        var afterY := ScreenToWorldY(View(offX, offY, zoom), my as real);
        offX := offX - (afterX - ax);
        offY := offY - (afterY - ay);
      }
    }

    /** A button press starts a drag. */
    method ButtonDown()
      requires Valid()
      modifies this
      ensures Valid()
      ensures Snapshot() == old(Snapshot()).(held := true)
    {
      held := true;
    }

    /** A button release ends it. */
    method ButtonUp()
      requires Valid()
      modifies this
      ensures Valid()
      ensures Snapshot() == old(Snapshot()).(held := false)
    {
      held := false;
    }

    /** A motion event: pans only while the button is held. */
    method Motion(xrel: int, yrel: int)
      requires Valid()
      modifies this
      ensures Valid()
      ensures Snapshot() == old(Snapshot()).(view := MotionStep(old(Snapshot()).view, old(held), xrel, yrel))
    {
      if held {
        offX := offX - xrel as real / zoom;
        offY := offY - yrel as real / zoom;
      }
    }

    /** One frame's poll loop, with the pointer at (mx, my): the anchor is taken
        once, before the first event, and a quit ends the loop at once. */
    method ProcessEvents(mx: int, my: int, events: seq<Event>)
      requires Valid()
      modifies this
      ensures Valid()
      ensures Snapshot() == Frame(old(Snapshot()), FrameInput(mx, my, events))
      ensures running <==> old(running) && Quit !in events
    {
      var ax := ScreenToWorldX(View(offX, offY, zoom), mx as real);
      var ay := ScreenToWorldY(View(offX, offY, zoom), my as real);
      ghost var goal := Frame(old(Snapshot()), FrameInput(mx, my, events));
      var i := 0;
      while i < |events|
        invariant 0 <= i <= |events|
        invariant Valid()
        invariant ApplyEvents(Snapshot(), mx, my, ax, ay, events[i..]) == goal
      {
        var e := events[i];
        if e.Quit? {
          running := false;
          break;
        }
        if e.MouseWheel? {
          Wheel(e.preciseY, mx, my, ax, ay);
        }
        if e.MouseButtonDown? {
          ButtonDown();
        }
        if e.MouseButtonUp? {
          ButtonUp();
        }
        if e.MouseMotion? {
          Motion(e.xrel, e.yrel);
        }
        i := i + 1;
      }
    }

    /** The outer loop: one frame per input while running; each frame drains its
        events and then projects the sprites, in draw order, with the camera as
        the events left it. */
    method MainLoop(frames: seq<FrameInput>, sprites: seq<Rect>) returns (drawn: seq<seq<Rect>>)
      requires Valid()
      modifies this
      ensures Valid()
      ensures Snapshot() == Run(old(Snapshot()), frames)
      ensures drawn == Drawn(old(Snapshot()), frames, sprites)
    {
      ghost var start := Snapshot();
      drawn := [];
      var k := 0;
      while running && k < |frames|
        invariant 0 <= k <= |frames|
        invariant Valid()
        invariant Run(Snapshot(), frames[k..]) == Run(start, frames)
        invariant drawn + Drawn(Snapshot(), frames[k..], sprites) == Drawn(start, frames, sprites)
      {
        var f := frames[k];
        assert frames[k..][1..] == frames[k + 1..];
        ProcessEvents(f.mouseX, f.mouseY, f.events);
        drawn := drawn + [ProjectAll(View(offX, offY, zoom), sprites)];
        k := k + 1;
      }
    }
  }
}

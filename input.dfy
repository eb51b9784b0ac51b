/**
 The input rules of the viewer's event loop, as functions on values.

 Each frame the loop reads the pointer position, records the world point under
 it (the anchor), and then drains the queued events one by one: the wheel zooms
 about the anchor, button presses start and stop a drag, motion while dragging
 pans, and a quit event ends the loop and abandons the events still queued.
 After the events the frame's sprites are projected and drawn.
 */
module Input {
  import opened Transform

  /** The clamp range of the zoom scale and its value at startup. */
  const MinZoom: real := 0.01
  const MaxZoom: real := 512.0
  const InitialZoom: Scale := 2.0

  predicate InRange(z: real) {
    MinZoom <= z <= MaxZoom
  }

  /** The events the loop distinguishes. Motion deltas and the pointer position
      are whole pixels; the wheel delta is fractional. */
  datatype Event =
    | Quit
    | WindowResized(width: int, height: int)
    | MouseWheel(preciseY: real)
    | MouseButtonDown
    | MouseButtonUp
    | MouseMotion(xrel: int, yrel: int)
    | Other

  predicate IsButton(e: Event) {
    e.MouseButtonDown? || e.MouseButtonUp?
  }

  /** Everything the loop updates: the camera, whether the button is held and
      whether the loop keeps running. */
  datatype State = State(view: View, held: bool, running: bool)

  /** The state at startup: offset (0, 0), scale 2, not dragging, running. */
  const Initial: State := State(View(0.0, 0.0, InitialZoom), false, true)

  /** What one frame receives from the windowing library: the pointer position
      read at the top of the frame and the events queued since the last one. */
  datatype FrameInput = FrameInput(mouseX: int, mouseY: int, events: seq<Event>)

  /** The new zoom scale after a wheel step: doubled on a positive delta, halved
      on a negative one, then clamped. It stays in range, moves in the wheel's
      direction, and stands still exactly on a zero delta or at the limit it is
      pushed against. */
  function ZoomStep(zoom: Scale, preciseY: real): (r: Scale)
    ensures preciseY == 0.0 ==> r == zoom
    ensures InRange(zoom) ==> InRange(r)
    ensures InRange(zoom) && preciseY > 0.0 ==> zoom <= r
    ensures InRange(zoom) && preciseY < 0.0 ==> r <= zoom
    ensures preciseY > 0.0 && zoom * 2.0 <= MaxZoom ==> r == zoom * 2.0
    ensures preciseY > 0.0 && zoom * 2.0 > MaxZoom ==> r == MaxZoom
    ensures preciseY < 0.0 && zoom * 0.5 >= MinZoom ==> r == zoom * 0.5
    ensures preciseY < 0.0 && zoom * 0.5 < MinZoom ==> r == MinZoom
    ensures InRange(zoom) ==>
      (r == zoom <==> preciseY == 0.0 || (preciseY > 0.0 && zoom == MaxZoom) || (preciseY < 0.0 && zoom == MinZoom))
  {
    if preciseY > 0.0 then
      var z := zoom * 2.0;
      if z < MaxZoom then z else MaxZoom
    else if preciseY < 0.0 then
      var z := zoom * 0.5;
      if z > MinZoom then z else MinZoom
    else
      zoom
  }

  /** A wheel event with the pointer at (mx, my) and the anchor (ax, ay)
      recorded at the top of the frame. A non-zero delta rescales and then
      shifts the offset so that the anchor is again the world point under the
      pointer; a zero delta changes nothing. */
  function WheelStep(v: View, mx: int, my: int, ax: real, ay: real, preciseY: real): (r: View)
    ensures preciseY == 0.0 ==> r == v
    ensures r.zoom == ZoomStep(v.zoom, preciseY)
    ensures preciseY != 0.0 ==>
      ScreenToWorldX(r, mx as real) == ax && ScreenToWorldY(r, my as real) == ay
  {
    if preciseY == 0.0 then v
    else
      var zoomed := v.(zoom := ZoomStep(v.zoom, preciseY));
      var afterX := ScreenToWorldX(zoomed, mx as real);
      var afterY := ScreenToWorldY(zoomed, my as real);
      zoomed.(offX := v.offX - (afterX - ax), offY := v.offY - (afterY - ay))
  }

  /** With the anchor freshly taken from the current view, a wheel step keeps
      the world point under the pointer where it is. */
  lemma WheelKeepsPointUnderCursor(v: View, mx: int, my: int, preciseY: real)
    ensures var r := WheelStep(v, mx, my, ScreenToWorldX(v, mx as real), ScreenToWorldY(v, my as real), preciseY);
      ScreenToWorldX(r, mx as real) == ScreenToWorldX(v, mx as real) &&
      ScreenToWorldY(r, my as real) == ScreenToWorldY(v, my as real)
  {
  }

  /** Zooming in at the upper limit, or out at the lower one, with a fresh
      anchor changes neither the scale nor the offset. */
  lemma WheelAtLimitIsNoOp(v: View, mx: int, my: int, preciseY: real)
    requires (preciseY > 0.0 && v.zoom == MaxZoom) || (preciseY < 0.0 && v.zoom == MinZoom)
    ensures WheelStep(v, mx, my, ScreenToWorldX(v, mx as real), ScreenToWorldY(v, my as real), preciseY) == v
  {
  }

  /** At a limit the scale stands still, but with an anchor that no longer
      matches the view (the view was panned after the anchor was taken) the
      offset still moves, by the distance between the anchor and the world
      point now under the pointer. */
  lemma WheelAtLimitWithStaleAnchor(v: View, mx: int, my: int, ax: real, ay: real, preciseY: real)
    requires (preciseY > 0.0 && v.zoom == MaxZoom) || (preciseY < 0.0 && v.zoom == MinZoom)
    ensures var r := WheelStep(v, mx, my, ax, ay, preciseY);
      r.zoom == v.zoom &&
      r.offX == v.offX + (ax - ScreenToWorldX(v, mx as real)) &&
      r.offY == v.offY + (ay - ScreenToWorldY(v, my as real))
  {
  }

  /** A motion event: while the button is held the offset moves against the
      motion, scaled by the zoom; otherwise nothing changes. The scale is never
      touched. */
  function MotionStep(v: View, held: bool, xrel: int, yrel: int): (r: View)
    ensures r.zoom == v.zoom
    ensures !held ==> r == v
    ensures held ==> r.offX - v.offX == -(xrel as real) / v.zoom
    ensures held ==> r.offY - v.offY == -(yrel as real) / v.zoom
  {
    if held then
      v.(offX := v.offX - xrel as real / v.zoom, offY := v.offY - yrel as real / v.zoom)
    else
      v
  }

  /** Dragging moves the whole world with the pointer: every world point is
      shown exactly (xrel, yrel) pixels further on, whatever the zoom. */
  lemma DragMovesWorldWithPointer(v: View, xrel: int, yrel: int, wx: real, wy: real)
    ensures WorldToScreenX(MotionStep(v, true, xrel, yrel), wx) == WorldToScreenX(v, wx) + xrel as real
    ensures WorldToScreenY(MotionStep(v, true, xrel, yrel), wy) == WorldToScreenY(v, wy) + yrel as real
  {
  }

  /** One event of the poll loop. Only quit stops the loop; only the buttons
      change the drag state, and they leave the camera alone; only the wheel
      changes the scale; the rest leave the camera as it is. */
  function ApplyEvent(s: State, mx: int, my: int, ax: real, ay: real, e: Event): (r: State)
    ensures r.running == (s.running && !e.Quit?)
    ensures !IsButton(e) ==> r.held == s.held
    ensures e.MouseButtonDown? ==> r.held
    ensures e.MouseButtonUp? ==> !r.held
    ensures !(e.MouseWheel? || e.MouseMotion?) ==> r.view == s.view
    ensures !e.MouseWheel? ==> r.view.zoom == s.view.zoom
  {
    match e
    case Quit => s.(running := false)
    case WindowResized(_, _) => s
    case MouseWheel(preciseY) => s.(view := WheelStep(s.view, mx, my, ax, ay, preciseY))
    case MouseButtonDown => s.(held := true)
    case MouseButtonUp => s.(held := false)
    case MouseMotion(xrel, yrel) => s.(view := MotionStep(s.view, s.held, xrel, yrel))
    case Other => s
  }

  /** The poll loop of one frame: the events in order, stopping right after the
      first quit. The loop keeps running exactly when it was running and no
      quit came, and a scale in range stays in range. */
  function ApplyEvents(s: State, mx: int, my: int, ax: real, ay: real, events: seq<Event>): (r: State)
    ensures r.running <==> s.running && Quit !in events
    ensures InRange(s.view.zoom) ==> InRange(r.view.zoom)
    decreases |events|
  {
    if events == [] then s
    else
      var next := ApplyEvent(s, mx, my, ax, ay, events[0]);
      if events[0].Quit? then next else ApplyEvents(next, mx, my, ax, ay, events[1..])
  }

  /** Before the first quit, the loop is the events applied one after another. */
  lemma {:induction false} ApplyEventsSplit(s: State, mx: int, my: int, ax: real, ay: real, pre: seq<Event>, post: seq<Event>)
    requires Quit !in pre
    ensures ApplyEvents(s, mx, my, ax, ay, pre + post) ==
            ApplyEvents(ApplyEvents(s, mx, my, ax, ay, pre), mx, my, ax, ay, post)
    decreases |pre|
  {
    if pre != [] {
      assert (pre + post)[0] == pre[0];
      assert (pre + post)[1..] == pre[1..] + post;
      ApplyEventsSplit(ApplyEvent(s, mx, my, ax, ay, pre[0]), mx, my, ax, ay, pre[1..], post);
    } else {
      assert pre + post == post;
    }
  }

  /** A quit stops the loop: the events queued behind it are abandoned, and the
      state is the one the events before it reached, with running cleared. */
  lemma {:induction false} QuitAbandonsRest(s: State, mx: int, my: int, ax: real, ay: real, pre: seq<Event>, post: seq<Event>)
    requires Quit !in pre
    ensures ApplyEvents(s, mx, my, ax, ay, pre + [Quit] + post) ==
            ApplyEvents(s, mx, my, ax, ay, pre).(running := false)
  {
    ApplyEventsSplit(s, mx, my, ax, ay, pre, [Quit] + post);
    assert pre + [Quit] + post == pre + ([Quit] + post);
  }

  /** Events other than the two buttons never change the drag state. */
  lemma {:induction false} HeldWithoutButtons(s: State, mx: int, my: int, ax: real, ay: real, events: seq<Event>)
    requires forall e | e in events :: !IsButton(e)
    ensures ApplyEvents(s, mx, my, ax, ay, events).held == s.held
    decreases |events|
  {
    if events != [] && !events[0].Quit? {
      HeldWithoutButtons(ApplyEvent(s, mx, my, ax, ay, events[0]), mx, my, ax, ay, events[1..]);
    }
  }

  /** The drag state after a frame is set by the last button event before any
      quit: held after a press, released after a release. */
  lemma HeldFollowsLastButton(s: State, mx: int, my: int, ax: real, ay: real, pre: seq<Event>, b: Event, post: seq<Event>)
    requires Quit !in pre && IsButton(b)
    requires forall e | e in post :: !IsButton(e)
    ensures ApplyEvents(s, mx, my, ax, ay, pre + [b] + post).held == b.MouseButtonDown?
  {
    ApplyEventsSplit(s, mx, my, ax, ay, pre, [b] + post);
    assert pre + [b] + post == pre + ([b] + post);
    var t := ApplyEvents(s, mx, my, ax, ay, pre);
    assert ([b] + post)[1..] == post;
    HeldWithoutButtons(ApplyEvent(t, mx, my, ax, ay, b), mx, my, ax, ay, post);
  }

  /** Drag gating: with the button up, a frame with no press and no wheel event
      leaves the camera where it was, however much the pointer moves. */
  lemma {:induction false} IdleMotionIsIgnored(s: State, mx: int, my: int, ax: real, ay: real, events: seq<Event>)
    requires !s.held
    requires forall e | e in events :: !e.MouseButtonDown? && !e.MouseWheel?
    ensures ApplyEvents(s, mx, my, ax, ay, events).view == s.view
    decreases |events|
  {
    if events != [] && !events[0].Quit? {
      IdleMotionIsIgnored(ApplyEvent(s, mx, my, ax, ay, events[0]), mx, my, ax, ay, events[1..]);
    }
  }

  /** Zoom anchoring over a whole frame: if the anchor is the world point under
      the pointer and no motion event arrives, the anchor is still the world
      point under the pointer after any number of wheel and button events. */
  lemma {:induction false} AnchorHoldsWithoutMotion(s: State, mx: int, my: int, ax: real, ay: real, events: seq<Event>)
    requires ScreenToWorldX(s.view, mx as real) == ax && ScreenToWorldY(s.view, my as real) == ay
    requires forall e | e in events :: !e.MouseMotion?
    ensures var r := ApplyEvents(s, mx, my, ax, ay, events);
      ScreenToWorldX(r.view, mx as real) == ax && ScreenToWorldY(r.view, my as real) == ay
    decreases |events|
  {
    if events != [] && !events[0].Quit? {
      AnchorHoldsWithoutMotion(ApplyEvent(s, mx, my, ax, ay, events[0]), mx, my, ax, ay, events[1..]);
    }
  }

  /** The anchor is taken once per frame, before the events: a drag followed by
      a non-zero wheel step in the same frame puts the world point that was
      under the pointer at the top of the frame back under it, so the drag's
      displacement of that point is lost. */
  lemma DragThenWheelReturnsToFrameAnchor(s: State, mx: int, my: int, xrel: int, yrel: int, preciseY: real)
    requires preciseY != 0.0
    ensures var ax := ScreenToWorldX(s.view, mx as real);
      var ay := ScreenToWorldY(s.view, my as real);
      var r := ApplyEvents(s, mx, my, ax, ay, [MouseMotion(xrel, yrel), MouseWheel(preciseY)]);
      ScreenToWorldX(r.view, mx as real) == ax && ScreenToWorldY(r.view, my as real) == ay
  {
    var ax := ScreenToWorldX(s.view, mx as real);
    var ay := ScreenToWorldY(s.view, my as real);
    var events := [MouseMotion(xrel, yrel), MouseWheel(preciseY)];
    var panned := ApplyEvent(s, mx, my, ax, ay, events[0]);
    assert events[1..] == [MouseWheel(preciseY)];
    assert ApplyEvents(panned, mx, my, ax, ay, [MouseWheel(preciseY)]) ==
           ApplyEvent(panned, mx, my, ax, ay, MouseWheel(preciseY));
  }

  /** One frame: take the anchor under the pointer, then run the poll loop. */
  function Frame(s: State, f: FrameInput): (r: State)
    ensures r.running <==> s.running && Quit !in f.events
    ensures InRange(s.view.zoom) ==> InRange(r.view.zoom)
    ensures (forall e | e in f.events :: !e.MouseMotion?) ==>
      ScreenToWorldX(r.view, f.mouseX as real) == ScreenToWorldX(s.view, f.mouseX as real) &&
      ScreenToWorldY(r.view, f.mouseY as real) == ScreenToWorldY(s.view, f.mouseY as real)
  {
    var ax := ScreenToWorldX(s.view, f.mouseX as real);
    var ay := ScreenToWorldY(s.view, f.mouseY as real);
    if forall e | e in f.events :: !e.MouseMotion? then
      AnchorHoldsWithoutMotion(s, f.mouseX, f.mouseY, ax, ay, f.events);
      ApplyEvents(s, f.mouseX, f.mouseY, ax, ay, f.events)
    else
      ApplyEvents(s, f.mouseX, f.mouseY, ax, ay, f.events)
  }

  /** The outer loop: frames run while the loop is running and input lasts. */
  function Run(s: State, frames: seq<FrameInput>): (r: State)
    ensures InRange(s.view.zoom) ==> InRange(r.view.zoom)
    ensures !s.running ==> r == s
    decreases |frames|
  {
    if !s.running || frames == [] then s
    else Run(Frame(s, frames[0]), frames[1..])
  }

  /** The screen rectangles drawn by the outer loop, one list per frame, each
      projected with the camera as the frame's events left it. */
  function Drawn(s: State, frames: seq<FrameInput>, sprites: seq<Rect>): (d: seq<seq<Rect>>)
    ensures |d| <= |frames|
    ensures s.running && frames != [] ==> d != [] && d[0] == ProjectAll(Frame(s, frames[0]).view, sprites)
    ensures s.running && (forall i | 0 <= i < |frames| :: Quit !in frames[i].events) ==> |d| == |frames|
    decreases |frames|
  {
    if !s.running || frames == [] then []
    else
      var next := Frame(s, frames[0]);
      [ProjectAll(next.view, sprites)] + Drawn(next, frames[1..], sprites)
  }

  /** One more frame of the outer loop, while it is still running, is one
      more Frame step. */
  lemma {:induction false} RunAppend(s: State, pre: seq<FrameInput>, f: FrameInput)
    requires Run(s, pre).running
    ensures Run(s, pre + [f]) == Frame(Run(s, pre), f)
    decreases |pre|
  {
    if pre == [] {
      assert pre + [f] == [f];
      assert [f][1..] == [];
    } else {
      assert (pre + [f])[0] == pre[0];
      assert (pre + [f])[1..] == pre[1..] + [f];
      RunAppend(Frame(s, pre[0]), pre[1..], f);
    }
  }

  /** One more frame of the outer loop, while it is still running, draws one
      more list: the sprites projected with the camera as that frame left it. */
  lemma {:induction false} DrawnAppend(s: State, pre: seq<FrameInput>, f: FrameInput, sprites: seq<Rect>)
    requires Run(s, pre).running
    ensures Drawn(s, pre + [f], sprites) == Drawn(s, pre, sprites) + [ProjectAll(Run(s, pre + [f]).view, sprites)]
    decreases |pre|
  {
    if pre == [] {
      assert pre + [f] == [f];
      assert [f][1..] == [];
      RunAppend(s, pre, f);
    } else {
      assert (pre + [f])[0] == pre[0];
      assert (pre + [f])[1..] == pre[1..] + [f];
      DrawnAppend(Frame(s, pre[0]), pre[1..], f, sprites);
      assert Run(s, pre + [f]) == Run(Frame(s, pre[0]), pre[1..] + [f]);
    }
  }

  /** Zoom bounds: from startup, any input keeps the scale in [0.01, 512]. */
  lemma ZoomStaysInRange(frames: seq<FrameInput>)
    ensures InRange(Run(Initial, frames).view.zoom)
  {
  }

  /** A frame holding a quit is the last one: it is still drawn, and the input
      after it is never read. */
  lemma {:induction false} QuitFrameIsLast(s: State, pre: seq<FrameInput>, f: FrameInput, post: seq<FrameInput>, sprites: seq<Rect>)
    requires Quit in f.events
    ensures Run(s, pre + [f] + post) == Run(s, pre + [f])
    ensures Drawn(s, pre + [f] + post, sprites) == Drawn(s, pre + [f], sprites)
    ensures !Run(s, pre + [f]).running
    ensures Run(s, pre).running ==>
      Drawn(s, pre + [f], sprites) == Drawn(s, pre, sprites) + [ProjectAll(Run(s, pre + [f]).view, sprites)]
    decreases |pre|
  {
    if Run(s, pre).running {
      RunAppend(s, pre, f);
      DrawnAppend(s, pre, f, sprites);
    }
    if !s.running {
    } else if pre == [] {
      assert pre + [f] + post == [f] + post;
      assert ([f] + post)[1..] == post;
      assert (pre + [f])[1..] == [];
      assert !Frame(s, f).running;
    } else {
      assert (pre + [f] + post)[0] == pre[0] && (pre + [f])[0] == pre[0];
      assert (pre + [f] + post)[1..] == pre[1..] + [f] + post;
      assert (pre + [f])[1..] == pre[1..] + [f];
      QuitFrameIsLast(Frame(s, pre[0]), pre[1..], f, post, sprites);
    }
  }
}

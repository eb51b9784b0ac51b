# Pan and zoom viewer: camera model

This project models the camera of a small 2D image viewer. The viewer places a
few sprites in a world coordinate space. The user drags with the mouse to pan
and turns the wheel to zoom. The zoom is anchored at the pointer, so the world
point under the cursor stays where it is on screen.

The model has three modules:

- `Transform` (transform.dfy) holds the four world↔screen maps of main.cpp
  lines 64-78. They read the world offset and the zoom scale, given here as a
  `View` value. The module also holds the projection of a sprite's world
  rectangle to the screen rectangle it is drawn into.
- `Input` (input.dfy) states the rules of the event loop as functions on
  values. It covers the wheel zoom with its clamp and anchoring, the two-state
  drag, panning, quit, the per-frame poll loop and the outer frame loop. The
  lemmas about these rules are also here.
- `Viewer` (viewer.dfy) has a `Camera` class. Its fields are the globals
  `world_offset_x`, `world_offset_y` and `zoom_scale`, plus the loop's
  `mouse_held` and `running` flags. Its methods update those fields in place,
  in the order the loop body does. Each method is proved equal to the matching
  rule in `Input`. `ProcessEvents` is the inner `for (...; SDL_PollEvent(...);)`
  loop, including the `break` on quit. `MainLoop` is the outer
  `while (running)` loop and returns the rectangles drawn in each frame.

The C++ uses `float`, and the model uses exact `real` arithmetic. The zoom
scale has type `Scale`, a real greater than zero. The clamp range
[0.01, 512] is the object invariant `Camera.Valid()`. The windowing library is
modelled by inputs:

- the pointer position read at the top of each frame (`SDL_GetMouseState`);
- the events queued for that frame (`SDL_PollEvent`).

Each frame's pair is one `FrameInput`, and the sprites are a parameter.

The code captures the anchor once per frame, before the events are polled
(main.cpp:114-117). Capturing it at each wheel event would behave
differently. The model captures it once per frame, as the code does. The
consequences are proved:

- `AnchorHoldsWithoutMotion`: a frame of wheel and button events keeps the
  world point under the pointer exactly.
- `DragThenWheelReturnsToFrameAnchor`: a drag followed by a wheel step in the
  same frame puts the frame's anchor back under the pointer. The drag's effect
  on that point is lost.
- `WheelAtLimitWithStaleAnchor`: at a zoom limit, a stale anchor still moves
  the offset.

## Model

| member | source | states |
|---|---|---|
| Transform.WorldToScreenX | main.cpp:64-66 | The world x equal to the offset maps to screen x = 0. World points left of the offset map to negative screen x. |
| Transform.WorldToScreenY | main.cpp:68-70 | The same as WorldToScreenX, on the y axis. |
| Transform.ScreenToWorldX | main.cpp:72-74 | The result is the world x that world_to_screen_x maps to the given screen x. |
| Transform.ScreenToWorldY | main.cpp:76-78 | The same as ScreenToWorldX, on the y axis. |
| Transform.RoundTrip | main.cpp:64-78 | screen_to_world(world_to_screen(p)) == p and world_to_screen(screen_to_world(p)) == p, exactly, on both axes, for every offset and every positive scale. |
| Transform.Project | main.cpp:175-181 | Both corners of the projected rectangle map back to the matching corners of the sprite's world rectangle. |
| Transform.ProjectedSizeIgnoresOffset | main.cpp:175-181 | The projected width and height are the world size times the scale. They do not depend on the offset. |
| Transform.ProjectAll | main.cpp:175-182 | One screen rectangle per sprite, in draw order. Each position maps back to the sprite's world position, and each size is the world size times the scale. |
| Input.ZoomStep | main.cpp:131-142 | A positive delta doubles the scale, or gives 512 when doubling would exceed it. A negative delta halves it, or gives 0.01 when halving would fall below it. Starting in [0.01, 512], the new scale stays in range and moves in the wheel's direction. It is unchanged exactly when the delta is 0, or when zooming in at 512 or out at 0.01. |
| Input.WheelStep | main.cpp:131-151 | A zero delta changes nothing. Otherwise the scale becomes ZoomStep's value, and the captured anchor is afterwards exactly the world point under the pointer on both axes. |
| Input.WheelKeepsPointUnderCursor | main.cpp:114-151 | With an anchor taken from the current view, a wheel step keeps the world point under the pointer fixed. |
| Input.WheelAtLimitIsNoOp | main.cpp:131-151 | Zooming in at 512 or out at 0.01 with a fresh anchor leaves the scale and both offsets unchanged. |
| Input.WheelAtLimitWithStaleAnchor | main.cpp:114-151 | At a limit the scale is unchanged. The offsets still move by the difference between the anchor and the world point now under the pointer. |
| Input.MotionStep | main.cpp:162-168 | Motion never changes the scale. While the button is up, motion changes nothing. While it is held, each offset moves by minus the delta divided by the scale. |
| Input.DragMovesWorldWithPointer | main.cpp:162-168 | While dragging, every world point moves on screen by exactly (xrel, yrel), at any zoom. |
| Input.ApplyEvent | main.cpp:119-168 | Only quit clears running. Only the two buttons change the drag state: a press sets it and a release clears it. Buttons, quit, resize and other events leave the camera unchanged. Only the wheel changes the scale. |
| Input.ApplyEvents | main.cpp:119-170 | The loop is still running after the events exactly when it was running before and no quit came. A scale in range stays in range. |
| Input.ApplyEventsSplit | main.cpp:119-170 | With no quit in the first part, the poll loop over two parts of a sequence equals running the first part and then the second. |
| Input.QuitAbandonsRest | main.cpp:119-123 | Events queued after a quit are never processed. The result is the state after the events before the quit, with running cleared. |
| Input.HeldWithoutButtons | main.cpp:154-160 | Events without a button press or release leave mouse_held unchanged. |
| Input.HeldFollowsLastButton | main.cpp:154-160 | After a frame, mouse_held is true exactly when the last button event before any quit was a press. |
| Input.IdleMotionIsIgnored | main.cpp:154-168 | With the button up, a frame with no press and no wheel event leaves the offsets and the scale unchanged. |
| Input.AnchorHoldsWithoutMotion | main.cpp:114-151 | If the anchor is the world point under the pointer, it still is after any frame with no motion event, across any number of wheel steps. |
| Input.DragThenWheelReturnsToFrameAnchor | main.cpp:114-168 | In one frame, a drag followed by a non-zero wheel step leaves the frame-start anchor under the pointer. |
| Input.Frame | main.cpp:113-170 | The loop is still running after a frame exactly when it was running and the frame had no quit. A frame keeps the scale in range. A frame with no motion event keeps the world point under the pointer fixed. |
| Input.Run | main.cpp:112-170 | The frame loop keeps the scale in range and does nothing once running is false. |
| Input.Drawn | main.cpp:112-181 | No more frames are drawn than there are frame inputs. The first list drawn holds the sprites projected with the camera as the first frame's events left it. With no quit in the input, every frame is drawn. |
| Input.RunAppend | main.cpp:112-170 | While the loop is still running, one more frame input is one more Frame step on the state reached so far. |
| Input.DrawnAppend | main.cpp:112-182 | While the loop is still running, one more frame input draws one more list: the sprites projected with the camera after that frame. |
| Input.ZoomStaysInRange | main.cpp:57-151 | From the startup state (offset (0,0), scale 2), the scale stays in [0.01, 512] after any input. |
| Input.QuitFrameIsLast | main.cpp:112-185 | The loop stops after a frame that receives quit. That frame is still drawn, with the camera as its events left it. No input after it is read, so neither the final state nor the drawn rectangles depend on that input. |
| Viewer.Camera.constructor | main.cpp:57-62 | Startup state: offset (0,0), scale 2.0, not dragging, running. The scale is in range. |
| Viewer.Camera.Wheel | main.cpp:131-151 | Doubles or halves the scale in place, clamps it and shifts the offsets. The new state is WheelStep of the old one. A non-zero delta leaves the anchor under the pointer. The scale stays in range. |
| Viewer.Camera.ButtonDown | main.cpp:154-156 | Sets mouse_held. Nothing else changes. The scale stays in range. |
| Viewer.Camera.ButtonUp | main.cpp:158-160 | Clears mouse_held. Nothing else changes. The scale stays in range. |
| Viewer.Camera.Motion | main.cpp:162-168 | Pans in place only while held. The new state is MotionStep of the old one. The scale stays in range. |
| Viewer.Camera.ProcessEvents | main.cpp:114-170 | The per-frame poll loop with the anchor taken once and the break on quit. The new state is Frame of the old one. running is cleared exactly when a quit arrived. The scale stays in range. |
| Viewer.Camera.MainLoop | main.cpp:112-185 | The `while (running)` loop. The final state is Run of the initial one. The rectangles drawn each frame are Drawn's, projected with the camera after that frame's events. |

## Left out

- `load_texture` and the `Texture_Info` record (main.cpp:26-54). They decode
  images and create SDL surfaces and textures. This is foreign I/O.
- Window, renderer and texture setup and teardown, the draw colour, clear,
  `SDL_RenderCopyF` and present (main.cpp:84-100, 172-173, 176, 179, 182, 184,
  187-193).
  These are library calls. The model computes the rectangles passed to the
  draw call, but not the drawing.
- `SDL_GetMouseState` and `SDL_PollEvent` are inputs: one `FrameInput` per
  frame. The real loop runs until quit. The model also stops when the finite
  input runs out.
- The initial sprite rectangles (main.cpp:102-105) depend on the loaded
  texture sizes, so the sprites are a parameter. Line 103 computes the y
  position from `sashishi.width` rather than `.height`. This is not modelled.
- Window-resize bookkeeping (main.cpp:124-129). The new width and height are
  stored but never read again, so `WindowResized` leaves the modelled state
  unchanged.
- IEEE `float` rounding and NaN. All arithmetic is exact over the reals, so the
  round-trip and anchoring equalities hold exactly in the model but only
  approximately in the program. The limit 0.01 is the exact rational 1/100,
  not its nearest `float`.

/**
 The world <-> screen coordinate mapping of the 2D pan/zoom viewer.

 The viewer keeps a world offset (the world point shown at the screen origin)
 and a zoom scale (screen pixels per world unit). A world coordinate is mapped
 to the screen by subtracting the offset and scaling; a screen coordinate is
 mapped back by dividing by the scale and adding the offset. Each axis is
 mapped independently.
 */
module Transform {

  /** A zoom scale: screen pixels per world unit. It is never zero or negative. */
  type Scale = z: real | 0.0 < z witness 1.0

  /** The camera as the transforms see it: the world offset and the zoom scale. */
  datatype View = View(offX: real, offY: real, zoom: Scale)

  /** A rectangle: top-left corner and extent. */
  datatype Rect = Rect(x: real, y: real, w: real, h: real)

  /** world_to_screen_x: the offset's x is the world x shown at screen x = 0,
      and the map keeps left and right. */
  function WorldToScreenX(v: View, x: real): (s: real)
    ensures s == 0.0 <==> x == v.offX
    ensures s < 0.0 <==> x < v.offX
  {
    (x - v.offX) * v.zoom
  }

  /** world_to_screen_y: as WorldToScreenX, on the y axis. */
  function WorldToScreenY(v: View, y: real): (s: real)
    ensures s == 0.0 <==> y == v.offY
    ensures s < 0.0 <==> y < v.offY
  {
    (y - v.offY) * v.zoom
  }

  /** screen_to_world_x: the world x that world_to_screen_x shows at screen x. */
  function ScreenToWorldX(v: View, x: real): (w: real)
    ensures WorldToScreenX(v, w) == x
  {
    x / v.zoom + v.offX
  }

  /** screen_to_world_y: the world y that world_to_screen_y shows at screen y. */
  function ScreenToWorldY(v: View, y: real): (w: real)
    ensures WorldToScreenY(v, w) == y
  {
    y / v.zoom + v.offY
  }

  /** The two maps are inverse to each other, in both directions and on both axes. */
  lemma RoundTrip(v: View, p: real)
    ensures ScreenToWorldX(v, WorldToScreenX(v, p)) == p
    ensures ScreenToWorldY(v, WorldToScreenY(v, p)) == p
    ensures WorldToScreenX(v, ScreenToWorldX(v, p)) == p
    ensures WorldToScreenY(v, ScreenToWorldY(v, p)) == p
  {
  }

  /** The screen rectangle a sprite with world rectangle r is drawn into: both
      corners of the result map back to the corresponding corners of r, so the
      position is transformed while the extent is only scaled. */
  function Project(v: View, r: Rect): (p: Rect)
    ensures ScreenToWorldX(v, p.x) == r.x && ScreenToWorldY(v, p.y) == r.y
    ensures ScreenToWorldX(v, p.x + p.w) == r.x + r.w
    ensures ScreenToWorldY(v, p.y + p.h) == r.y + r.h
  {
    Rect(WorldToScreenX(v, r.x), WorldToScreenY(v, r.y), r.w * v.zoom, r.h * v.zoom)
  }

  /** The extent of a projected sprite depends on the zoom scale alone: two
      views with the same scale give it the same size whatever their offsets. */
  lemma ProjectedSizeIgnoresOffset(v: View, u: View, r: Rect)
    requires v.zoom == u.zoom
    ensures Project(v, r).w == Project(u, r).w && Project(v, r).h == Project(u, r).h
    ensures Project(v, r).w == r.w * v.zoom && Project(v, r).h == r.h * v.zoom
  {
  }

  /** Every sprite of a frame, projected in draw order. */
  function ProjectAll(v: View, sprites: seq<Rect>): (ps: seq<Rect>)
    ensures |ps| == |sprites|
    ensures forall i | 0 <= i < |ps| ::
      ScreenToWorldX(v, ps[i].x) == sprites[i].x && ScreenToWorldY(v, ps[i].y) == sprites[i].y &&
      ps[i].w == sprites[i].w * v.zoom && ps[i].h == sprites[i].h * v.zoom
  {
    seq(|sprites|, i requires 0 <= i < |sprites| => Project(v, sprites[i]))
  }
}

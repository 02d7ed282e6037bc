/** The whiteboard's infinite-canvas transform: a scale and a screen-space offset.
    Screen coordinates are relative to the canvas' top-left corner; world coordinates
    are the ones shapes are stored in. Coordinates are exact reals. */
module ViewTransform {

  datatype Point = Point(x: real, y: real)

  datatype View = View(scale: real, offset: Point)

  const MinScale: real := 0.1
  const MaxScale: real := 5.0

  /** The view a client starts with and the "reset view" button restores. */
  const Home: View := View(1.0, Point(0.0, 0.0))

  predicate InRange(v: View)
  {
    MinScale <= v.scale <= MaxScale
  }

  /** World to screen: the canvas transform used for rendering (translate by the
      offset, then scale). */
  function ToScreen(v: View, w: Point): Point
  {
    Point(w.x * v.scale + v.offset.x, w.y * v.scale + v.offset.y)
  }

  /** Screen to world (`toWorld`): the inverse of the rendering transform. */
  function ToWorld(v: View, p: Point): (w: Point)
    requires v.scale > 0.0
    ensures ToScreen(v, w) == p
  {
    Point((p.x - v.offset.x) / v.scale, (p.y - v.offset.y) / v.scale)
  }

  /** Rendering a world point and converting the screen point back gives the world
      point again. */
  lemma WorldRoundTrip(v: View, w: Point)
    requires v.scale > 0.0
    ensures ToWorld(v, ToScreen(v, w)) == w
  {
    var p := ToScreen(v, w);
    assert (p.x - v.offset.x) / v.scale == w.x by {
      assert p.x - v.offset.x == w.x * v.scale;
    }
    assert (p.y - v.offset.y) / v.scale == w.y by {
      assert p.y - v.offset.y == w.y * v.scale;
    }
  }

  /** `Math.min(Math.max(x, 0.1), 5)`. */
  function ClampScale(x: real): (r: real)
    ensures MinScale <= r <= MaxScale
    ensures MinScale <= x <= MaxScale ==> r == x
    ensures x < MinScale ==> r == MinScale
    ensures x > MaxScale ==> r == MaxScale
  {
    var lo := if x > MinScale then x else MinScale;
    if lo < MaxScale then lo else MaxScale
  }

  /** Zooming by `factor` about the mouse position: the new scale is the clamped
      product, and the world point under the mouse stays under the mouse. */
  function Zoom(v: View, mouse: Point, factor: real): (r: View)
    requires v.scale > 0.0
    ensures InRange(r)
    ensures r.scale == ClampScale(v.scale * factor)
    ensures ToWorld(r, mouse) == ToWorld(v, mouse)
  {
    var s := ClampScale(v.scale * factor);
    var ratio := s / v.scale;
    var r := View(s, Point(mouse.x - (mouse.x - v.offset.x) * ratio,
                           mouse.y - (mouse.y - v.offset.y) * ratio));
    RescaleKeepsQuotient(mouse.x - v.offset.x, v.scale, s);
    RescaleKeepsQuotient(mouse.y - v.offset.y, v.scale, s);
    r
  }

  /** (d * (t / s)) / t == d / s for positive s and t. */
  lemma RescaleKeepsQuotient(d: real, s: real, t: real)
    requires s > 0.0 && t > 0.0
    ensures (d * (t / s)) / t == d / s
  {
    var q := d / s;
    assert d == q * s;
    assert d * (t / s) == q * t by {
      calc {
        d * (t / s);
        (q * s) * (t / s);
        q * (s * (t / s));
        { assert s * (t / s) == t; }
        q * t;
      }
    }
  }

  /** Dragging with the select tool from `last` to `now` (both screen points). */
  function Pan(v: View, last: Point, now: Point): (r: View)
    ensures r.scale == v.scale
    ensures forall w :: ToScreen(r, w) == Point(ToScreen(v, w).x + (now.x - last.x),
                                                ToScreen(v, w).y + (now.y - last.y))
  {
    View(v.scale, Point(v.offset.x + (now.x - last.x), v.offset.y + (now.y - last.y)))
  }

  /** Panning drags the board along with the mouse: the world point that was under
      the mouse before the move is under the mouse after it. */
  lemma PanKeepsGrabbedPoint(v: View, last: Point, now: Point)
    requires v.scale > 0.0
    ensures ToWorld(Pan(v, last, now), now) == ToWorld(v, last)
  {
    var r := Pan(v, last, now);
    assert now.x - r.offset.x == last.x - v.offset.x;
    assert now.y - r.offset.y == last.y - v.offset.y;
  }
}

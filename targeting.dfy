/** Mapping between viewport fractions and world coordinates of an orthographic camera. */
module Targeting {
  import opened Types
  import opened Camera

  datatype Bounds = Bounds(left: real, right: real, top: real, bottom: real)

  datatype CornerOrigins = CornerOrigins(bottomLeft: Vec2, topRight: Vec2)

  /** The visible world rectangle: each frustum plane divided by the zoom. */
  function GetVisibleBounds(cam: OrthoCamera): (b: Bounds)
    requires cam.zoom != 0.0
    ensures b.left * cam.zoom == cam.left && b.right * cam.zoom == cam.right
    ensures b.top * cam.zoom == cam.top && b.bottom * cam.zoom == cam.bottom
    ensures b.right - b.left == GetVisibleSize(cam).width
    ensures b.top - b.bottom == GetVisibleSize(cam).height
  {
    var b := Bounds(cam.left / cam.zoom, cam.right / cam.zoom, cam.top / cam.zoom, cam.bottom / cam.zoom);
    assert (b.right - b.left) * cam.zoom == cam.right - cam.left;
    assert (b.top - b.bottom) * cam.zoom == cam.top - cam.bottom;
    b
  }

  /** Corner origins for the curves, inset from the visible corners by `padPx` pixels. */
  function GetCornerOrigins(cam: OrthoCamera, pxH: real, padPx: real): (c: CornerOrigins)
    requires cam.zoom != 0.0 && pxH != 0.0
    ensures var b := GetVisibleBounds(cam);
            var pad := padPx * WorldUnitsPerPixelOrtho(cam, pxH);
            && c.bottomLeft.x - b.left == pad && c.bottomLeft.y - b.bottom == pad
            && b.right - c.topRight.x == pad && b.top - c.topRight.y == pad
  {
    var b := GetVisibleBounds(cam);
    var padWorld := padPx * WorldUnitsPerPixelOrtho(cam, pxH);
    CornerOrigins(Vec2(b.left + padWorld, b.bottom + padWorld), Vec2(b.right - padWorld, b.top - padWorld))
  }

  /** The world point at viewport fraction `(u, v)`, measured from the bottom-left corner. */
  function WorldFromViewport(cam: OrthoCamera, u: real, v: real): (p: Vec2)
    requires cam.zoom != 0.0
    ensures u == 0.0 ==> p.x == GetVisibleBounds(cam).left
    ensures u == 1.0 ==> p.x == GetVisibleBounds(cam).right
    ensures v == 0.0 ==> p.y == GetVisibleBounds(cam).bottom
    ensures v == 1.0 ==> p.y == GetVisibleBounds(cam).top
  {
    var b := GetVisibleBounds(cam);
    Vec2(b.left + (b.right - b.left) * u, b.bottom + (b.top - b.bottom) * v)
  }

  /** `(0,0)` is the bottom-left and `(1,1)` the top-right visible corner. */
  lemma WorldFromViewportCorners(cam: OrthoCamera)
    requires cam.zoom != 0.0
    ensures var b := GetVisibleBounds(cam);
            && WorldFromViewport(cam, 0.0, 0.0) == Vec2(b.left, b.bottom)
            && WorldFromViewport(cam, 1.0, 1.0) == Vec2(b.right, b.top)
  {
  }

  /** The horizontal coordinate depends only on `u`, the vertical one only on `v`. */
  lemma WorldFromViewportSeparable(cam: OrthoCamera, u1: real, v1: real, u2: real, v2: real)
    requires cam.zoom != 0.0
    ensures WorldFromViewport(cam, u1, v1).x == WorldFromViewport(cam, u1, v2).x
    ensures WorldFromViewport(cam, u1, v1).y == WorldFromViewport(cam, u2, v1).y
  {
  }

  /** One coordinate of the mapping, `lo + d * a`, commutes with weighted averages. */
  lemma AffineCoordinate(lo: real, d: real, a1: real, a2: real, w: real)
    ensures lo + d * ((1.0 - w) * a1 + w * a2) == (1.0 - w) * (lo + d * a1) + w * (lo + d * a2)
  {
    calc {
      (1.0 - w) * (lo + d * a1) + w * (lo + d * a2);
      == (1.0 - w) * lo + w * lo + (1.0 - w) * (d * a1) + w * (d * a2);
      == lo + d * ((1.0 - w) * a1) + d * (w * a2);
      == lo + d * ((1.0 - w) * a1 + w * a2);
    }
  }

  /** Each coordinate is affine in its viewport fraction: it maps weighted averages to weighted averages. */
  lemma WorldFromViewportAffine(cam: OrthoCamera, u1: real, u2: real, v1: real, v2: real, w: real)
    requires cam.zoom != 0.0
    ensures WorldFromViewport(cam, (1.0 - w) * u1 + w * u2, (1.0 - w) * v1 + w * v2)
         == Vec2((1.0 - w) * WorldFromViewport(cam, u1, v1).x + w * WorldFromViewport(cam, u2, v2).x,
                 (1.0 - w) * WorldFromViewport(cam, u1, v1).y + w * WorldFromViewport(cam, u2, v2).y)
  {
    var b := GetVisibleBounds(cam);
    WorldFromViewportIsInBounds(cam, (1.0 - w) * u1 + w * u2, (1.0 - w) * v1 + w * v2);
    WorldFromViewportIsInBounds(cam, u1, v1);
    WorldFromViewportIsInBounds(cam, u2, v2);
    AffineOverBounds(b, u1, u2, v1, v2, w, InBounds(b, (1.0 - w) * u1 + w * u2, (1.0 - w) * v1 + w * v2),
                     InBounds(b, u1, v1), InBounds(b, u2, v2));
  }

  /** The same point computed on a plain rectangle, so that the affine identity is free of the zoom division. */
  function InBounds(b: Bounds, u: real, v: real): Vec2 {
    Vec2(EdgeToEdge(b.left, b.right, u), EdgeToEdge(b.bottom, b.top, v))
  }

  /** One coordinate of the mapping: the point a fraction `a` of the way from `lo` to `hi`. */
  function EdgeToEdge(lo: real, hi: real, a: real): real {
    lo + (hi - lo) * a
  }

  lemma WorldFromViewportIsInBounds(cam: OrthoCamera, u: real, v: real)
    requires cam.zoom != 0.0
    ensures WorldFromViewport(cam, u, v) == InBounds(GetVisibleBounds(cam), u, v)
  {
  }

  lemma AffineOverBounds(b: Bounds, u1: real, u2: real, v1: real, v2: real, w: real, p: Vec2, p1: Vec2, p2: Vec2)
    requires p == InBounds(b, (1.0 - w) * u1 + w * u2, (1.0 - w) * v1 + w * v2)
    requires p1 == InBounds(b, u1, v1) && p2 == InBounds(b, u2, v2)
    ensures p == Vec2((1.0 - w) * p1.x + w * p2.x, (1.0 - w) * p1.y + w * p2.y)
  {
    AffineCoordinate(b.left, b.right - b.left, u1, u2, w);
    assert p.x == (1.0 - w) * p1.x + w * p2.x;
    AffineCoordinate(b.bottom, b.top - b.bottom, v1, v2, w);
    assert p.y == (1.0 - w) * p1.y + w * p2.y;
  }

  /** With the bounds the right way round, moving right or up in the viewport moves right or up in the world. */
  lemma WorldFromViewportMonotone(cam: OrthoCamera, u1: real, v1: real, u2: real, v2: real)
    requires cam.zoom != 0.0 && u1 <= u2 && v1 <= v2
    requires GetVisibleBounds(cam).left <= GetVisibleBounds(cam).right
    requires GetVisibleBounds(cam).bottom <= GetVisibleBounds(cam).top
    ensures WorldFromViewport(cam, u1, v1).x <= WorldFromViewport(cam, u2, v2).x
    ensures WorldFromViewport(cam, u1, v1).y <= WorldFromViewport(cam, u2, v2).y
  {
    WorldFromViewportIsInBounds(cam, u1, v1);
    WorldFromViewportIsInBounds(cam, u2, v2);
    MonotoneOverBounds(GetVisibleBounds(cam), u1, v1, u2, v2, WorldFromViewport(cam, u1, v1), WorldFromViewport(cam, u2, v2));
  }

  lemma MonotoneOverBounds(b: Bounds, u1: real, v1: real, u2: real, v2: real, p1: Vec2, p2: Vec2)
    requires b.left <= b.right && b.bottom <= b.top && u1 <= u2 && v1 <= v2
    requires p1 == InBounds(b, u1, v1) && p2 == InBounds(b, u2, v2)
    ensures p1.x <= p2.x && p1.y <= p2.y
  {
    EdgeToEdgeMonotone(b.left, b.right, u1, u2);
    EdgeToEdgeMonotone(b.bottom, b.top, v1, v2);
  }

  /** One coordinate of the mapping, `lo + (hi - lo) * a`, is non-decreasing in `a` when `lo <= hi`. */
  lemma EdgeToEdgeMonotone(lo: real, hi: real, a1: real, a2: real)
    requires lo <= hi && a1 <= a2
    ensures EdgeToEdge(lo, hi, a1) <= EdgeToEdge(lo, hi, a2)
  {
    var d := hi - lo;
    assert d * a2 - d * a1 == d * (a2 - a1);
    assert d * (a2 - a1) >= 0.0;
  }

  /**
   * A non-negative padding keeps each corner origin on the inner side of its visible edges,
   * and when the padding is at most half the visible width and height both origins lie
   * inside the visible rectangle.
   */
  lemma CornerOriginsInside(cam: OrthoCamera, pxH: real, padPx: real)
    requires cam.zoom != 0.0 && pxH != 0.0
    requires padPx * WorldUnitsPerPixelOrtho(cam, pxH) >= 0.0
    ensures var b := GetVisibleBounds(cam);
            var c := GetCornerOrigins(cam, pxH, padPx);
            && b.left <= c.bottomLeft.x && b.bottom <= c.bottomLeft.y
            && c.topRight.x <= b.right && c.topRight.y <= b.top
    ensures var b := GetVisibleBounds(cam);
            var c := GetCornerOrigins(cam, pxH, padPx);
            var pad := padPx * WorldUnitsPerPixelOrtho(cam, pxH);
            2.0 * pad <= b.right - b.left && 2.0 * pad <= b.top - b.bottom ==>
              && c.bottomLeft.x <= c.topRight.x && c.bottomLeft.y <= c.topRight.y
              && c.bottomLeft.x <= b.right && c.bottomLeft.y <= b.top
              && b.left <= c.topRight.x && b.bottom <= c.topRight.y
  {
  }

  /** Without padding the corner origins are the viewport's bottom-left and top-right corners. */
  lemma CornerOriginsUnpadded(cam: OrthoCamera, pxH: real)
    requires cam.zoom != 0.0 && pxH != 0.0
    ensures GetCornerOrigins(cam, pxH, 0.0)
         == CornerOrigins(WorldFromViewport(cam, 0.0, 0.0), WorldFromViewport(cam, 1.0, 1.0))
  {
  }
}

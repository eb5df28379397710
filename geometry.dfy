/**
 * Core Graphics geometry on `real` numbers: `CGRect` with its standardizing
 * getters and `insetBy`, and the `ceil`, `min` and `max` of `CGFloat`.
 */
module Geometry {

  function Min(a: real, b: real): (m: real)
    ensures m <= a && m <= b && (m == a || m == b)
  {
    if a <= b then a else b
  }

  function Max(a: real, b: real): (m: real)
    ensures m >= a && m >= b && (m == a || m == b)
  {
    if a >= b then a else b
  }

  /** A whole number. */
  predicate IsIntegral(x: real) {
    x == x.Floor as real
  }

  /** `ceil`: the least whole number not below `x`. */
  function Ceil(x: real): (r: real)
    ensures IsIntegral(r)
    ensures r - 1.0 < x <= r
  {
    (-((-x).Floor)) as real
  }

  /** A whole number is its own ceiling, so `ceil(ceil(x)) == ceil(x)`. */
  lemma CeilOfIntegral(x: real)
    requires IsIntegral(x)
    ensures Ceil(x) == x
  {
    var c := Ceil(x);
    assert c.Floor as real == c;
    assert x.Floor as real == x;
    assert x.Floor == c.Floor;
  }

  /**
   * `CGRect(x:y:width:height:)`: an origin and a size as stored, where the
   * size may be negative. The getters answer as Core Graphics' do, as if the
   * rectangle had been standardized first.
   */
  datatype Rect = Rect(x: real, y: real, w: real, h: real) {

    predicate IsStandard() {
      w >= 0.0 && h >= 0.0
    }

    function Width(): (r: real)
      ensures r >= 0.0 && (r == w || r == -w)
    {
      if w >= 0.0 then w else -w
    }

    function Height(): (r: real)
      ensures r >= 0.0 && (r == h || r == -h)
    {
      if h >= 0.0 then h else -h
    }

    function MinX(): real {
      if w >= 0.0 then x else x + w
    }

    function MaxX(): real {
      if w >= 0.0 then x + w else x
    }

    function MidX(): real {
      x + w / 2.0
    }

    function MinY(): real {
      if h >= 0.0 then y else y + h
    }

    function MaxY(): real {
      if h >= 0.0 then y + h else y
    }

    function MidY(): real {
      y + h / 2.0
    }

    /** `insetBy(dx:dy:)` when the result is not the null rectangle. */
    function InsetBy(dx: real, dy: real): (r: Rect)
      requires 2.0 * dx <= Width() && 2.0 * dy <= Height()
      ensures r.IsStandard()
      ensures r.MinX() == MinX() + dx && r.MaxX() == MaxX() - dx
      ensures r.MinY() == MinY() + dy && r.MaxY() == MaxY() - dy
    {
      Rect(MinX() + dx, MinY() + dy, Width() - 2.0 * dx, Height() - 2.0 * dy)
    }

    /** `contains(_:)` for a rectangle: `inner` lies within this one. */
    predicate Contains(inner: Rect) {
      && MinX() <= inner.MinX() && inner.MaxX() <= MaxX()
      && MinY() <= inner.MinY() && inner.MaxY() <= MaxY()
    }
  }

  /**
   * The standardizing getters: the minimum is the lesser of the two edges
   * `x` and `x + w`, the maximum the greater, and the middle lies halfway
   * between them; likewise for y.
   */
  lemma RectEdges(r: Rect)
    ensures r.MinX() == Min(r.x, r.x + r.w) && r.MaxX() == Max(r.x, r.x + r.w)
    ensures r.MinY() == Min(r.y, r.y + r.h) && r.MaxY() == Max(r.y, r.y + r.h)
    ensures r.MidX() - r.x == r.x + r.w - r.MidX() && r.MidY() - r.y == r.y + r.h - r.MidY()
  {
  }

  /** The getters agree with one another: the extent spans the width, the middle is halfway. */
  lemma RectExtents(r: Rect)
    ensures r.MaxX() - r.MinX() == r.Width() && r.MaxY() - r.MinY() == r.Height()
    ensures r.MidX() == (r.MinX() + r.MaxX()) / 2.0 && r.MidY() == (r.MinY() + r.MaxY()) / 2.0
  {
  }
}

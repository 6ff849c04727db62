/**
 * Core Graphics geometry used by the library: `CGRect`, `UIEdgeInsets` and
 * `CGRect.intersection`. Coordinates are `real`, so sums and differences are exact.
 */
module Geometry {
  import opened Wrappers

  /** A `CGRect`: origin and size. A negative width or height is allowed, as in Core Graphics. */
  datatype Rect = Rect(x: real, y: real, width: real, height: real)

  /** `CGRect.zero` */
  const ZeroRect: Rect := Rect(0.0, 0.0, 0.0, 0.0)

  /** A `UIEdgeInsets` record. */
  datatype EdgeInsets = EdgeInsets(top: real, left: real, bottom: real, right: real)

  function Min(a: real, b: real): real { if a <= b then a else b }
  function Max(a: real, b: real): real { if a <= b then b else a }

  // The edges of the standardised rectangle (non-negative size).
  function MinX(r: Rect): real { Min(r.x, r.x + r.width) }
  function MaxX(r: Rect): real { Max(r.x, r.x + r.width) }
  function MinY(r: Rect): real { Min(r.y, r.y + r.height) }
  function MaxY(r: Rect): real { Max(r.y, r.y + r.height) }

  /** The height of the standardised rectangle. */
  function SpanY(r: Rect): (h: real)
    ensures h >= 0.0
  {
    MaxY(r) - MinY(r)
  }

  /** Point (px, py) lies in the closed region covered by `r`. */
  predicate Covers(r: Rect, px: real, py: real) {
    MinX(r) <= px <= MaxX(r) && MinY(r) <= py <= MaxY(r)
  }

  /** The closed horizontal and vertical spans of `a` and `b` overlap. */
  predicate Overlap(a: Rect, b: Rect) {
    Max(MinX(a), MinX(b)) <= Min(MaxX(a), MaxX(b)) &&
    Max(MinY(a), MinY(b)) <= Min(MaxY(a), MaxY(b))
  }

  /**
   * `a.intersection(b)`: both rectangles are standardised and clipped to their
   * common span on each axis; when a span is empty the result is `CGRect.null`,
   * written `None` here.
   */
  function Intersection(a: Rect, b: Rect): (r: Option<Rect>)
    ensures r.Some? <==> Overlap(a, b)
    ensures r.Some? ==> r.value.width >= 0.0 && r.value.height >= 0.0
    ensures r.Some? ==> MinY(a) <= r.value.y && r.value.y + r.value.height <= MaxY(a)
    ensures r.Some? ==> MinY(b) <= r.value.y && r.value.y + r.value.height <= MaxY(b)
  {
    var x0 := Max(MinX(a), MinX(b));
    var x1 := Min(MaxX(a), MaxX(b));
    var y0 := Max(MinY(a), MinY(b));
    var y1 := Min(MaxY(a), MaxY(b));
    if x0 <= x1 && y0 <= y1 then Some(Rect(x0, y0, x1 - x0, y1 - y0)) else None
  }

  /** `a.intersection(b).size.height`; the null rectangle has height 0. */
  function IntersectionHeight(a: Rect, b: Rect): (h: real)
    ensures 0.0 <= h <= SpanY(a) && h <= SpanY(b)
    ensures !Overlap(a, b) ==> h == 0.0
    ensures h > 0.0 <==> Overlap(a, b) && Max(MinY(a), MinY(b)) < Min(MaxY(a), MaxY(b))
  {
    match Intersection(a, b)
    case None => 0.0
    case Some(r) => r.height
  }

  /**
   * The intersection is exactly the common region: a point is covered by the
   * result iff it is covered by both rectangles, and a null result means that
   * no point is covered by both.
   */
  lemma IntersectionIsCommonRegion(a: Rect, b: Rect, px: real, py: real)
    ensures Intersection(a, b).Some? ==>
              (Covers(Intersection(a, b).value, px, py) <==> Covers(a, px, py) && Covers(b, px, py))
    ensures Intersection(a, b).None? ==> !(Covers(a, px, py) && Covers(b, px, py))
  {
  }

  /** Intersection does not depend on the order of its arguments. */
  lemma IntersectionCommutes(a: Rect, b: Rect)
    ensures Intersection(a, b) == Intersection(b, a)
  {
  }

  /** A keyboard lying entirely below a 320 by 400 container overlaps none of it. */
  lemma KeyboardBelowContainer()
    ensures IntersectionHeight(Rect(0.0, 0.0, 320.0, 400.0), Rect(0.0, 500.0, 320.0, 300.0)) == 0.0
  {
  }

  /** A 300-point keyboard over the lower part of a 320 by 400 container overlaps 300 points of it. */
  lemma KeyboardOverLowerPart()
    ensures IntersectionHeight(Rect(0.0, 0.0, 320.0, 400.0), Rect(0.0, 100.0, 320.0, 300.0)) == 300.0
  {
  }

  /**
   * A keyboard that only touches the container's right edge shares no area
   * with it, yet the closed-span intersection is a zero-width rectangle whose
   * height is the vertical overlap: 300 points.
   */
  lemma KeyboardBesideContainer()
    ensures Intersection(Rect(0.0, 0.0, 320.0, 400.0), Rect(320.0, 100.0, 100.0, 300.0)) ==
            Some(Rect(320.0, 100.0, 0.0, 300.0))
    ensures IntersectionHeight(Rect(0.0, 0.0, 320.0, 400.0), Rect(320.0, 100.0, 100.0, 300.0)) == 300.0
  {
  }
}

/**
 The target (the "wooden fish" body) is an axis-aligned ellipse with fixed
 half-axes around a movable centre. This module holds the point-in-ellipse
 test and the range from which a new centre is drawn.
 */
module TargetGeometry {
  import opened IntMath

  /** Half-axes of the fish body (`body_rx`, `body_ry`). */
  const BodyRx: int := 170
  const BodyRy: int := 86
  /** Gap kept between the ellipse and the canvas edge when repositioning. */
  const EdgeGap: int := 30
  /** Canvas sizes below these are treated as these when repositioning. */
  const MinWidth: int := 760
  const MinHeight: int := 360

  /**
   Closed-ellipse containment, cross-multiplied so that no division is
   needed. For positive half-axes it holds exactly when
   ((x-cx)/rx)^2 + ((y-cy)/ry)^2 <= 1 over the reals.
   */
  predicate IsHit(x: int, y: int, cx: int, cy: int, rx: int, ry: int)
    ensures rx > 0 && ry > 0 ==>
      (IsHit(x, y, cx, cy, rx, ry) <==>
        var dx := (x - cx) as real / rx as real;
        var dy := (y - cy) as real / ry as real;
        dx * dx + dy * dy <= 1.0)
  {
    if rx > 0 && ry > 0 then
      CrossMultiplied(x - cx, y - cy, rx, ry);
      InsideScaled(x - cx, y - cy, rx, ry)
    else
      InsideScaled(x - cx, y - cy, rx, ry)
  }

  /** a^2*q^2 + b^2*p^2 <= p^2*q^2: the ellipse test with both sides multiplied by p^2*q^2. */
  predicate InsideScaled(a: int, b: int, p: int, q: int)
  {
    a * a * (q * q) + b * b * (p * p) <= (p * p) * (q * q)
  }

  /** Multiplying the real-number ellipse test by p^2*q^2 > 0 does not change its outcome. */
  lemma CrossMultiplied(a: int, b: int, p: int, q: int)
    requires p > 0 && q > 0
    ensures InsideScaled(a, b, p, q) <==>
      var dx := a as real / p as real;
      var dy := b as real / q as real;
      dx * dx + dy * dy <= 1.0
  {
    var dx, dy := a as real / p as real, b as real / q as real;
    var sum, k := dx * dx + dy * dy, ((p * p) * (q * q)) as real;
    ScaledSum(a, b, p, q);
    assert k > 0.0;
    var lhs, rhs := a * a * (q * q) + b * b * (p * p), (p * p) * (q * q);
    assert sum * k == lhs as real;
    assert InsideScaled(a, b, p, q) <==> lhs <= rhs;
    assert lhs <= rhs <==> lhs as real <= rhs as real;
    if sum <= 1.0 {
      assert sum * k <= 1.0 * k;
    } else {
      assert sum * k > 1.0 * k;
    }
  }

  /** The real-number ellipse sum, times p^2*q^2, is the left side of the scaled test. */
  lemma ScaledSum(a: int, b: int, p: int, q: int)
    requires p > 0 && q > 0
    ensures var dx := a as real / p as real;
      var dy := b as real / q as real;
      (dx * dx + dy * dy) * ((p * p) * (q * q)) as real == (a * a * (q * q) + b * b * (p * p)) as real
  {
    var ra, rb := a as real, b as real;
    var rp, rq := p as real, q as real;
    var dx, dy := ra / rp, rb / rq;
    assert dx * rp == ra && dy * rq == rb;
    assert ((p * p) * (q * q)) as real == rp * rp * (rq * rq);
    calc {
      (dx * dx + dy * dy) * (rp * rp * (rq * rq));
      dx * dx * (rp * rp) * (rq * rq) + dy * dy * (rq * rq) * (rp * rp);
      (dx * rp) * (dx * rp) * (rq * rq) + (dy * rq) * (dy * rq) * (rp * rp);
      ra * ra * (rq * rq) + rb * rb * (rp * rp);
    }
    assert (a * a * (q * q) + b * b * (p * p)) as real == ra * ra * (rq * rq) + rb * rb * (rp * rp);
  }

  /** A hit lies inside the ellipse's bounding box. */
  lemma HitWithinBoundingBox(x: int, y: int, cx: int, cy: int, rx: int, ry: int)
    requires rx > 0 && ry > 0
    requires IsHit(x, y, cx, cy, rx, ry)
    ensures cx - rx <= x <= cx + rx
    ensures cy - ry <= y <= cy + ry
  {
    assert InsideScaled(x - cx, y - cy, rx, ry);
    ScaledWithinBox(x - cx, y - cy, rx, ry);
  }

  /** The scaled test bounds each offset by its half-axis. */
  lemma ScaledWithinBox(a: int, b: int, p: int, q: int)
    requires p > 0 && q > 0
    requires InsideScaled(a, b, p, q)
    ensures -p <= a <= p && -q <= b <= q
  {
    var u, v := a * a, b * b;
    assert v * (p * p) >= 0;
    assert u * (q * q) <= (p * p) * (q * q);
    SquareBound(a, p, q);
    assert u * (p * p) >= 0;
    SquareBound(b, q, p);
  }

  /** From d^2*r2^2 <= r1^2*r2^2 with positive radii, |d| <= r1. */
  lemma SquareBound(d: int, r1: int, r2: int)
    requires r1 > 0 && r2 > 0
    requires d * d * (r2 * r2) <= (r1 * r1) * (r2 * r2)
    ensures -r1 <= d <= r1
  {
    var k := r2 * r2;
    assert (r1 * r1 - d * d) * k >= 0;
    NonNegativeFactor(r1 * r1 - d * d, k);
    assert (r1 - d) * (r1 + d) >= 0;
    if d >= 0 {
      NonNegativeFactor(r1 - d, r1 + d);
    } else {
      assert (r1 + d) * (r1 - d) >= 0;
      NonNegativeFactor(r1 + d, r1 - d);
    }
  }

  /** A product that is not negative, with one factor positive, has the other not negative. */
  lemma NonNegativeFactor(a: int, c: int)
    requires c > 0 && a * c >= 0
    ensures a >= 0
  {
  }

  /** The centre itself, and any point on the axis ends, is a hit. */
  lemma AxisEndsAreHits(cx: int, cy: int, rx: int, ry: int)
    ensures IsHit(cx, cy, cx, cy, rx, ry)
    ensures IsHit(cx + rx, cy, cx, cy, rx, ry) && IsHit(cx - rx, cy, cx, cy, rx, ry)
    ensures IsHit(cx, cy + ry, cx, cy, rx, ry) && IsHit(cx, cy - ry, cx, cy, rx, ry)
  {
  }

  /** Lowest centre coordinate `random_reposition_fish` may pick on one axis. */
  function CentreLow(radius: int): int
  {
    radius + EdgeGap
  }

  /**
   Highest centre coordinate on one axis: the canvas extent is first raised to
   `floor`, and an extent too small for the margins clamps the range to a point.
   */
  function CentreHigh(extent: int, floor: int, radius: int): (hi: int)
    ensures hi >= CentreLow(radius)
  {
    Max(CentreLow(radius), Max(floor, extent) - CentreLow(radius))
  }

  /** A centre `random.randint(lo, hi)` can return on one axis. */
  predicate CentreAllowed(c: int, extent: int, floor: int, radius: int)
  {
    CentreLow(radius) <= c <= CentreHigh(extent, floor, radius)
  }

  /** The centre chosen for a canvas of `width` x `height`. */
  predicate PositionAllowed(cx: int, cy: int, width: int, height: int)
  {
    CentreAllowed(cx, width, MinWidth, BodyRx) && CentreAllowed(cy, height, MinHeight, BodyRy)
  }

  /** Whenever the floor leaves room for both margins, the ellipse keeps the gap on both sides. */
  lemma AllowedCentreKeepsGap(c: int, extent: int, floor: int, radius: int)
    requires floor >= 2 * CentreLow(radius)
    requires CentreAllowed(c, extent, floor, radius)
    ensures c - radius >= EdgeGap
    ensures c + radius <= Max(floor, extent) - EdgeGap
  {
  }

  /**
   With the 760 x 360 floors the range is never a clamped point, and every
   allowed centre keeps the whole body at least 30 units inside the (floored) canvas.
   */
  lemma PositionKeepsBodyInside(cx: int, cy: int, width: int, height: int)
    requires PositionAllowed(cx, cy, width, height)
    ensures CentreHigh(width, MinWidth, BodyRx) == Max(MinWidth, width) - CentreLow(BodyRx)
    ensures CentreHigh(height, MinHeight, BodyRy) == Max(MinHeight, height) - CentreLow(BodyRy)
    ensures cx - BodyRx >= EdgeGap && cx + BodyRx <= Max(MinWidth, width) - EdgeGap
    ensures cy - BodyRy >= EdgeGap && cy + BodyRy <= Max(MinHeight, height) - EdgeGap
  {
    AllowedCentreKeepsGap(cx, width, MinWidth, BodyRx);
    AllowedCentreKeepsGap(cy, height, MinHeight, BodyRy);
  }
}

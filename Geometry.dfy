/** Circle against axis-aligned rectangle, as both Pong engines test a ball
    against a paddle: clamp the ball centre into the rectangle to get the
    nearest point, and compare the squared distance with the squared radius. */
module Geometry {
  import opened RealMath

  function Square(a: real): (r: real)
    ensures r >= 0.0
  {
    a * a
  }

  /** Squared Euclidean distance between (ax, ay) and (qx, qy). */
  function Dist2(ax: real, ay: real, qx: real, qy: real): (r: real)
    ensures r >= 0.0
  {
    Square(ax - qx) + Square(ay - qy)
  }

  /** (px, py) lies in the closed rectangle with corner (x, y) and extent w by h. */
  predicate InRect(px: real, py: real, x: real, y: real, w: real, h: real)
  {
    x <= px <= x + w && y <= py <= y + h
  }

  /** The point of the rectangle nearest to the centre: each coordinate
      clamped into the rectangle's extent on that axis. */
  function Closest(cx: real, cy: real, x: real, y: real, w: real, h: real): (p: (real, real))
    ensures w >= 0.0 && h >= 0.0 ==> InRect(p.0, p.1, x, y, w, h)
  {
    (Max(x, Min(cx, x + w)), Max(y, Min(cy, y + h)))
  }

  /** Squaring is monotone on non-negative reals. */
  lemma {:induction false} SquareMono(a: real, b: real)
    requires 0.0 <= a <= b
    ensures Square(a) <= Square(b)
  {
    assert a * (b - a) >= 0.0;
    assert b * (b - a) >= 0.0;
  }

  /** One axis of the nearest-point argument: the clamped coordinate is at
      least as close to c as any coordinate inside [lo, hi]. */
  lemma {:induction false} ClampIsNearest(c: real, lo: real, hi: real, p: real)
    requires lo <= p <= hi
    ensures Square(c - Max(lo, Min(c, hi))) <= Square(c - p)
  {
    var q := Max(lo, Min(c, hi));
    if c < lo {
      SquareMono(lo - c, p - c);
      assert Square(c - q) == Square(lo - c) && Square(c - p) == Square(p - c);
    } else if c > hi {
      SquareMono(c - hi, c - p);
    } else {
      assert q == c;
    }
  }

  /** The clamped point is the nearest point of the rectangle. */
  lemma {:induction false} ClosestIsNearest(cx: real, cy: real, x: real, y: real, w: real, h: real, px: real, py: real)
    requires w >= 0.0 && h >= 0.0
    requires InRect(px, py, x, y, w, h)
    ensures var p := Closest(cx, cy, x, y, w, h);
      Dist2(cx, cy, p.0, p.1) <= Dist2(cx, cy, px, py)
  {
    ClampIsNearest(cx, x, x + w, px);
    ClampIsNearest(cy, y, y + h, py);
  }

  /** A circle of radius `radius` centred at (cx, cy) overlaps the rectangle:
      the squared distance to the nearest point is below the squared radius.
      The result is true exactly when SOME point of the rectangle lies
      strictly inside the circle (for a rectangle of non-negative extent). */
  function CircleHitsRect(cx: real, cy: real, radius: real, x: real, y: real, w: real, h: real): (hit: bool)
    ensures w >= 0.0 && h >= 0.0 && hit ==>
      exists px, py :: InRect(px, py, x, y, w, h) && Dist2(cx, cy, px, py) < radius * radius
    ensures (exists px, py :: InRect(px, py, x, y, w, h) && Dist2(cx, cy, px, py) < radius * radius) ==> hit
  {
    var p := Closest(cx, cy, x, y, w, h);
    var hit := Dist2(cx, cy, p.0, p.1) < radius * radius;
    if !hit && w >= 0.0 && h >= 0.0 then
      assert forall px, py :: InRect(px, py, x, y, w, h) ==> Dist2(cx, cy, px, py) >= radius * radius by {
        forall px, py | InRect(px, py, x, y, w, h) ensures Dist2(cx, cy, px, py) >= radius * radius {
          ClosestIsNearest(cx, cy, x, y, w, h, px, py);
        }
      }
      hit
    else
      hit
  }

  /** A circle whose centre is at distance at least its radius from the
      rectangle along one axis does not overlap the rectangle. */
  lemma {:induction false} SeparatedOnXMisses(cx: real, cy: real, radius: real, x: real, y: real, w: real, h: real)
    requires w >= 0.0 && h >= 0.0 && radius >= 0.0
    requires cx >= x + w + radius || cx <= x - radius
    ensures !CircleHitsRect(cx, cy, radius, x, y, w, h)
  {
    var p := Closest(cx, cy, x, y, w, h);
    if cx >= x + w + radius {
      SquareMono(radius, cx - p.0);
    } else {
      SquareMono(radius, p.0 - cx);
      assert Square(cx - p.0) == Square(p.0 - cx);
    }
  }

  lemma {:induction false} SeparatedOnYMisses(cx: real, cy: real, radius: real, x: real, y: real, w: real, h: real)
    requires w >= 0.0 && h >= 0.0 && radius >= 0.0
    requires cy >= y + h + radius || cy <= y - radius
    ensures !CircleHitsRect(cx, cy, radius, x, y, w, h)
  {
    var p := Closest(cx, cy, x, y, w, h);
    if cy >= y + h + radius {
      SquareMono(radius, cy - p.1);
    } else {
      SquareMono(radius, p.1 - cy);
      assert Square(cy - p.1) == Square(p.1 - cy);
    }
  }
}

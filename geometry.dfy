/**
  * Three-component vectors and axis-aligned boxes, the part of the engine's
  * Vector3 and Bounds types that the shadow manager relies on. Coordinates
  * are mathematical reals. The box operations are component-wise min and
  * max, which the engine computes exactly up to the float rounding of the
  * center and extents it stores.
  */
module Geometry {

  datatype Vec3 = Vec3(x: real, y: real, z: real)

  function Add(a: Vec3, b: Vec3): Vec3 { Vec3(a.x + b.x, a.y + b.y, a.z + b.z) }

  function Sub(a: Vec3, b: Vec3): Vec3 { Vec3(a.x - b.x, a.y - b.y, a.z - b.z) }

  function Scale(a: Vec3, k: real): Vec3 { Vec3(a.x * k, a.y * k, a.z * k) }

  function Dot(a: Vec3, b: Vec3): real { a.x * b.x + a.y * b.y + a.z * b.z }

  function Min(a: real, b: real): real { if a <= b then a else b }

  function Max(a: real, b: real): real { if a >= b then a else b }

  function MinV(a: Vec3, b: Vec3): Vec3 { Vec3(Min(a.x, b.x), Min(a.y, b.y), Min(a.z, b.z)) }

  function MaxV(a: Vec3, b: Vec3): Vec3 { Vec3(Max(a.x, b.x), Max(a.y, b.y), Max(a.z, b.z)) }

  /** Component-wise a <= b. */
  predicate LessEq(a: Vec3, b: Vec3) { a.x <= b.x && a.y <= b.y && a.z <= b.z }

  /**
    * `m` is the Euclidean length of `v`. The engine computes it with a square
    * root; the model never computes it and only asks for a number with this
    * property wherever a length is used.
    */
  predicate IsMagnitude(v: Vec3, m: real) { m >= 0.0 && m * m == Dot(v, v) }

  /** A unit-length direction, such as a light's forward axis. */
  predicate IsUnit(v: Vec3) { Dot(v, v) == 1.0 }

  /** An axis-aligned box given by its two extreme corners. */
  datatype Bounds = Bounds(min: Vec3, max: Vec3) {

    function Center(): Vec3 { Scale(Add(min, max), 0.5) }

    function Size(): Vec3 { Sub(max, min) }

    /** The extents are non-negative on every axis. */
    predicate WellFormed() { LessEq(min, max) }
  }

  predicate ContainsPoint(b: Bounds, p: Vec3) { LessEq(b.min, p) && LessEq(p, b.max) }

  /** Every point of `inner` (that is, everything between its corners) lies in `outer`. */
  predicate ContainsBox(outer: Bounds, inner: Bounds) {
    LessEq(outer.min, inner.min) && LessEq(inner.max, outer.max)
  }

  /** Grow `b` by the least amount that makes it contain `p`. */
  function EncapsulatePoint(b: Bounds, p: Vec3): (r: Bounds)
    ensures ContainsPoint(r, p) && ContainsBox(r, b)
  {
    Bounds(MinV(b.min, p), MaxV(b.max, p))
  }

  /** No box holding `b` and `p` is smaller than EncapsulatePoint(b, p). */
  lemma EncapsulatePointLeast(b: Bounds, p: Vec3, c: Bounds)
    requires ContainsBox(c, b) && ContainsPoint(c, p)
    ensures ContainsBox(c, EncapsulatePoint(b, p))
  {
  }

  /** Grow `a` by the least amount that makes it contain the box `b`. */
  function EncapsulateBox(a: Bounds, b: Bounds): (r: Bounds)
    ensures ContainsBox(r, a) && ContainsBox(r, b)
  {
    Bounds(MinV(a.min, b.min), MaxV(a.max, b.max))
  }

  /**
    * For a box with min <= max, growing by the box is growing by its two
    * corners, center - extents and center + extents, which is how the
    * engine's Bounds.Encapsulate(Bounds) is defined.
    */
  lemma EncapsulateBoxByCorners(a: Bounds, b: Bounds)
    requires b.WellFormed()
    ensures var extents := Scale(b.Size(), 0.5);
            EncapsulateBox(a, b)
            == EncapsulatePoint(EncapsulatePoint(a, Sub(b.Center(), extents)), Add(b.Center(), extents))
  {
    var extents := Scale(b.Size(), 0.5);
    assert Sub(b.Center(), extents) == b.min;
    assert Add(b.Center(), extents) == b.max;
  }

  /** No box holding `a` and `b` is smaller than EncapsulateBox(a, b). */
  lemma EncapsulateBoxLeast(a: Bounds, b: Bounds, c: Bounds)
    requires ContainsBox(c, a) && ContainsBox(c, b)
    ensures ContainsBox(c, EncapsulateBox(a, b))
  {
  }

  // ---------------------------------------------------------------------
  // Facts about lengths used by the depth-range argument

  /** Cauchy-Schwarz in three dimensions, through Lagrange's identity. */
  lemma CauchySchwarz(u: Vec3, v: Vec3)
    ensures Dot(u, v) * Dot(u, v) <= Dot(u, u) * Dot(v, v)
  {
    var a1, a2, a3 := u.x, u.y, u.z;
    var b1, b2, b3 := v.x, v.y, v.z;
    var cx := a2 * b3 - a3 * b2;
    var cy := a3 * b1 - a1 * b3;
    var cz := a1 * b2 - a2 * b1;
    assert cx * cx == a2 * a2 * (b3 * b3) - 2.0 * (a2 * b2) * (a3 * b3) + a3 * a3 * (b2 * b2);
    assert cy * cy == a3 * a3 * (b1 * b1) - 2.0 * (a3 * b3) * (a1 * b1) + a1 * a1 * (b3 * b3);
    assert cz * cz == a1 * a1 * (b2 * b2) - 2.0 * (a1 * b1) * (a2 * b2) + a2 * a2 * (b1 * b1);
    var d := a1 * b1 + a2 * b2 + a3 * b3;
    assert d * d == a1 * a1 * (b1 * b1) + a2 * a2 * (b2 * b2) + a3 * a3 * (b3 * b3)
      + 2.0 * (a1 * b1) * (a2 * b2) + 2.0 * (a2 * b2) * (a3 * b3) + 2.0 * (a3 * b3) * (a1 * b1);
    var nu := a1 * a1 + a2 * a2 + a3 * a3;
    var nv := b1 * b1 + b2 * b2 + b3 * b3;
    assert nu * nv == a1 * a1 * (b1 * b1) + a1 * a1 * (b2 * b2) + a1 * a1 * (b3 * b3)
      + a2 * a2 * (b1 * b1) + a2 * a2 * (b2 * b2) + a2 * a2 * (b3 * b3)
      + a3 * a3 * (b1 * b1) + a3 * a3 * (b2 * b2) + a3 * a3 * (b3 * b3);
    assert nu * nv - d * d == cx * cx + cy * cy + cz * cz;
    assert cx * cx >= 0.0 && cy * cy >= 0.0 && cz * cz >= 0.0;
  }

  /** The projection of u on a unit vector is at most as long as u. */
  lemma UnitCauchySchwarz(u: Vec3, v: Vec3)
    requires IsUnit(v)
    ensures Dot(u, v) * Dot(u, v) <= Dot(u, u)
  {
    CauchySchwarz(u, v);
    var n := Dot(u, u);
    assert n * Dot(v, v) == n;
  }

  lemma PositiveProduct(a: real, b: real)
    requires a > 0.0 && b > 0.0
    ensures a * b > 0.0
  {
  }

  /** A number whose square is at most s * s, for s >= 0, lies in [-s, s]. */
  lemma WithinFromSquare(t: real, s: real)
    requires s >= 0.0 && t * t <= s * s
    ensures -s <= t <= s
  {
    if t > s {
      assert t * t - s * s == (t - s) * (t + s);
      PositiveProduct(t - s, t + s);
    } else if t < -s {
      assert t * t - s * s == (s - t) * (-s - t);
      PositiveProduct(s - t, -s - t);
    }
  }

  /** A point between lo and hi is at most half the span from their midpoint. */
  lemma HalfSpan(lo: real, hi: real, p: real)
    requires lo <= p <= hi
    ensures 4.0 * ((p - (lo + hi) * 0.5) * (p - (lo + hi) * 0.5)) <= (hi - lo) * (hi - lo)
  {
    var u := p - (lo + hi) * 0.5;
    assert (hi - lo) * (hi - lo) - 4.0 * (u * u) == 4.0 * ((hi - p) * (p - lo));
    assert (hi - p) * (p - lo) >= 0.0;
  }

  /** Every point of a box is within half the diagonal of its center. */
  lemma OffsetFromCenter(b: Bounds, p: Vec3)
    requires ContainsPoint(b, p)
    ensures 4.0 * Dot(Sub(p, b.Center()), Sub(p, b.Center())) <= Dot(b.Size(), b.Size())
  {
    HalfSpan(b.min.x, b.max.x, p.x);
    HalfSpan(b.min.y, b.max.y, p.y);
    HalfSpan(b.min.z, b.max.z, p.z);
  }
}

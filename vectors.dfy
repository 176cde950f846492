/** Two-dimensional vectors as the page's script writes them (`{x, y}`
    objects), and the host's `Math.hypot`. */
module Vectors {

  datatype Vec2 = Vec2(x: real, y: real) {
    function Add(o: Vec2): Vec2 { Vec2(x + o.x, y + o.y) }
    function Scale(k: real): Vec2 { Vec2(x * k, y * k) }
  }

  const Zero: Vec2 := Vec2(0.0, 0.0)

  /** Squared Euclidean length. */
  function Norm2(v: Vec2): real {
    v.x * v.x + v.y * v.y
  }

  function Dot(u: Vec2, v: Vec2): real {
    u.x * v.x + u.y * v.y
  }

  /** `r` points the same way as `v`: the two are collinear and not opposed. */
  ghost predicate SameDirection(r: Vec2, v: Vec2) {
    r.x * v.y == r.y * v.x && Dot(r, v) >= 0.0
  }

  /** `Math.hypot(x, y)`, a host function, is a parameter of the model. */
  type Hypot = (real, real) -> real

  /** What the model relies on of `Math.hypot`: it is the non-negative square
      root of x*x + y*y. */
  ghost predicate IsHypot(hyp: Hypot) {
    forall x: real, y: real :: hyp(x, y) >= 0.0 && hyp(x, y) * hyp(x, y) == x * x + y * y
  }

  /** `Math.hypot` of a vector. */
  function Length(hyp: Hypot, v: Vec2): real {
    hyp(v.x, v.y)
  }

  /** JavaScript's `m || 1` for a number m that is not NaN: 0 becomes 1. */
  function OrOne(m: real): (r: real)
    ensures m >= 0.0 ==> r > 0.0
    ensures m != 0.0 ==> r == m
  {
    if m == 0.0 then 1.0 else m
  }

  // Small facts of real arithmetic, one product at a time.

  lemma MulNonneg(a: real, b: real)
    requires 0.0 <= a && 0.0 <= b
    ensures 0.0 <= a * b
  {
  }

  lemma SquareNonneg(a: real)
    ensures 0.0 <= a * a
  {
  }

  lemma SquareMono(a: real, b: real)
    requires 0.0 <= a <= b
    ensures a * a <= b * b
  {
    assert a * a <= a * b;
    assert a * b <= b * b;
  }

  lemma DivThenMul(a: real, s: real, m: real)
    requires s != 0.0
    ensures (a / s) * m == a * (m / s)
  {
  }

  lemma ScaleNorm(v: Vec2, k: real)
    ensures Norm2(v.Scale(k)) == k * k * Norm2(v)
  {
    assert (v.x * k) * (v.x * k) + (v.y * k) * (v.y * k) == k * k * (v.x * v.x + v.y * v.y);
  }

  lemma QuotientTimes(k: real, s: real, m: real)
    requires s != 0.0 && k == m / s
    ensures k * k * (s * s) == m * m
  {
    assert k * s == m;
  }

  lemma ScaleSameDirection(v: Vec2, k: real)
    requires k >= 0.0
    ensures SameDirection(v.Scale(k), v)
  {
    assert (v.x * k) * v.y == (v.y * k) * v.x;
    SquareNonneg(v.x);
    SquareNonneg(v.y);
    assert Dot(v.Scale(k), v) == k * Norm2(v);
    MulNonneg(k, Norm2(v));
  }

  /** `(v / s) * m` componentwise, for s the length of v, has length m and
      keeps the direction of v. */
  lemma Rescaled(v: Vec2, s: real, m: real)
    requires s > 0.0 && s * s == Norm2(v) && m >= 0.0
    ensures Vec2((v.x / s) * m, (v.y / s) * m) == v.Scale(m / s)
    ensures Norm2(Vec2((v.x / s) * m, (v.y / s) * m)) == m * m
    ensures SameDirection(Vec2((v.x / s) * m, (v.y / s) * m), v)
  {
    var k := m / s;
    DivThenMul(v.x, s, m);
    DivThenMul(v.y, s, m);
    ScaleNorm(v, k);
    QuotientTimes(k, s, m);
    ScaleSameDirection(v, k);
  }
}

/** Ken Perlin's "Improved Noise" as the page's `Perlin` class has it
    (app.py:69-99): a table of 512 entries holding a permutation of 0..255
    twice, and 3D gradient noise read through that table. */
module PerlinNoise {
  import opened Vectors

  /** `perm` is an arrangement of the numbers 0..255, each exactly once. */
  ghost predicate IsPermutation(perm: seq<int>) {
    |perm| == 256 &&
    (forall i :: 0 <= i < 256 ==> 0 <= perm[i] < 256) &&
    (forall i, j :: 0 <= i < j < 256 ==> perm[i] != perm[j])
  }

  /** `n & 255` for an integral number n: the two's-complement low byte,
      which is n modulo 256 (never negative), also for negative n. */
  function Low8(n: int): (r: int)
    ensures 0 <= r < 256
    ensures (n - r) % 256 == 0
  {
    n % 256
  }

  /** Shifting a coordinate by 256 keeps its cell index modulo 256 and its
      fractional offset. */
  lemma ShiftCell(x: real)
    ensures Low8((x + 256.0).Floor) == Low8(x.Floor)
    ensures (x + 256.0) - (x + 256.0).Floor as real == x - x.Floor as real
  {
    assert (x + 256.0).Floor == x.Floor + 256;
  }

  /** The quintic fade curve 6t^5 - 15t^4 + 10t^3. */
  function Fade(t: real): (r: real)
    ensures t == 0.0 ==> r == 0.0
    ensures t == 1.0 ==> r == 1.0
  {
    t * t * t * (t * (t * 6.0 - 15.0) + 10.0)
  }

  /** On [0, 1] the fade curve stays in [0, 1]. */
  lemma FadeUnit(t: real)
    requires 0.0 <= t <= 1.0
    ensures 0.0 <= Fade(t) <= 1.0
  {
    var c := t * t * t;
    MulNonneg(t, t);
    MulNonneg(t * t, t);
    var q := t * (t * 6.0 - 15.0) + 10.0;
    assert q - 1.0 == 3.0 * ((3.0 - 2.0 * t) * (1.0 - t));
    MulNonneg(3.0 - 2.0 * t, 1.0 - t);
    MulNonneg(c, q);
    var s := 1.0 - t;
    MulNonneg(s, s);
    MulNonneg(s * s, s);
    var e := 6.0 * t * t + 3.0 * t + 1.0;
    assert 1.0 - Fade(t) == s * s * s * e;
    MulNonneg(s * s * s, e);
  }

  /** Linear interpolation from a (at t = 0) to b (at t = 1). */
  function Lerp(t: real, a: real, b: real): (r: real)
    ensures t == 0.0 ==> r == a
    ensures t == 1.0 ==> r == b
  {
    a + t * (b - a)
  }

  /** For t in [0, 1] the interpolation lies between its two ends. */
  lemma LerpBetween(t: real, a: real, b: real, lo: real, hi: real)
    requires 0.0 <= t <= 1.0
    requires lo <= a <= hi && lo <= b <= hi
    ensures lo <= Lerp(t, a, b) <= hi
  {
    if a <= b {
      MulNonneg(t, b - a);
      MulNonneg(1.0 - t, b - a);
    } else {
      MulNonneg(t, a - b);
      MulNonneg(1.0 - t, a - b);
    }
  }

  /** Trilinear blend of the eight corner values, in the nesting order of
      `noise`: first along x with u, then along y with v, then along z with w. */
  function Trilinear(u: real, v: real, w: real,
                     g000: real, g100: real, g010: real, g110: real,
                     g001: real, g101: real, g011: real, g111: real): real
  {
    Lerp(w,
      Lerp(v, Lerp(u, g000, g100), Lerp(u, g010, g110)),
      Lerp(v, Lerp(u, g001, g101), Lerp(u, g011, g111)))
  }

  /** With blend weights in [0, 1], the blend stays within any interval
      holding all eight corner values. */
  lemma TrilinearBetween(u: real, v: real, w: real,
                         g000: real, g100: real, g010: real, g110: real,
                         g001: real, g101: real, g011: real, g111: real, lo: real, hi: real)
    requires 0.0 <= u <= 1.0 && 0.0 <= v <= 1.0 && 0.0 <= w <= 1.0
    requires lo <= g000 <= hi && lo <= g100 <= hi && lo <= g010 <= hi && lo <= g110 <= hi
    requires lo <= g001 <= hi && lo <= g101 <= hi && lo <= g011 <= hi && lo <= g111 <= hi
    ensures lo <= Trilinear(u, v, w, g000, g100, g010, g110, g001, g101, g011, g111) <= hi
  {
    var a, b, c, d := Lerp(u, g000, g100), Lerp(u, g010, g110), Lerp(u, g001, g101), Lerp(u, g011, g111);
    LerpBetween(u, g000, g100, lo, hi);
    LerpBetween(u, g010, g110, lo, hi);
    LerpBetween(u, g001, g101, lo, hi);
    LerpBetween(u, g011, g111, lo, hi);
    LerpBetween(v, a, b, lo, hi);
    LerpBetween(v, c, d, lo, hi);
    LerpBetween(w, Lerp(v, a, b), Lerp(v, c, d), lo, hi);
  }

  /** The gradient choice of `grad`: the low four bits of the hash pick one
      of sixteen ways to add or subtract two of the offsets. */
  function Grad(hash: int, x: real, y: real, z: real): real {
    var h := hash % 16;
    var u := if h < 8 then x else y;
    var v := if h < 4 then y else if h == 12 || h == 14 then x else z;
    (if h % 2 == 0 then u else -u) + (if (h / 2) % 2 == 0 then v else -v)
  }

  /** Perlin's table of gradient directions: the twelve edge midpoints of
      the cube, with four of them repeated to make sixteen. */
  const Gradients: seq<(real, real, real)> := [
    (1.0, 1.0, 0.0), (-1.0, 1.0, 0.0), (1.0, -1.0, 0.0), (-1.0, -1.0, 0.0),
    (1.0, 0.0, 1.0), (-1.0, 0.0, 1.0), (1.0, 0.0, -1.0), (-1.0, 0.0, -1.0),
    (0.0, 1.0, 1.0), (0.0, -1.0, 1.0), (0.0, 1.0, -1.0), (0.0, -1.0, -1.0),
    (1.0, 1.0, 0.0), (0.0, -1.0, 1.0), (-1.0, 1.0, 0.0), (0.0, -1.0, -1.0)]

  /** `grad` is the dot product of the offset (x, y, z) with the table's
      direction for `hash & 15`; each direction has components in {-1, 0, 1}
      and squared length 2, so two are +1 or -1 and one is 0. */
  lemma GradIsDot(hash: int, x: real, y: real, z: real)
    ensures var g := Gradients[hash % 16];
      Grad(hash, x, y, z) == g.0 * x + g.1 * y + g.2 * z
    ensures var g := Gradients[hash % 16];
      g.0 in {-1.0, 0.0, 1.0} && g.1 in {-1.0, 0.0, 1.0} && g.2 in {-1.0, 0.0, 1.0} &&
      g.0 * g.0 + g.1 * g.1 + g.2 * g.2 == 2.0
  {
    var h := hash % 16;
    if h == 0 {} else if h == 1 {} else if h == 2 {} else if h == 3 {}
    else if h == 4 {} else if h == 5 {} else if h == 6 {} else if h == 7 {}
    else if h == 8 {} else if h == 9 {} else if h == 10 {} else if h == 11 {}
    else if h == 12 {} else if h == 13 {} else if h == 14 {} else {}
  }

  /** With every offset in [-1, 1] the gradient term lies in [-2, 2]. */
  lemma GradBound(hash: int, x: real, y: real, z: real)
    requires -1.0 <= x <= 1.0 && -1.0 <= y <= 1.0 && -1.0 <= z <= 1.0
    ensures -2.0 <= Grad(hash, x, y, z) <= 2.0
  {
  }

  /** The table positions of the four hashes a lookup needs, AA, AB, BA
      and BB; each is read together with its successor. */
  datatype Corners = Corners(aa: int, ab: int, ba: int, bb: int)

  /** The hashes of the eight cube corners, named by corner: `h101` belongs
      to the corner at offset (1, 0, 1) from the cell's origin. */
  datatype CornerHashes = CornerHashes(h000: int, h100: int, h010: int, h110: int,
                                       h001: int, h101: int, h011: int, h111: int)

  /** The eight corner gradients at fractional offsets (fx, fy, fz), blended
      by the faded offsets. */
  function Blend(g: CornerHashes, fx: real, fy: real, fz: real): real {
    Trilinear(Fade(fx), Fade(fy), Fade(fz),
      Grad(g.h000, fx, fy, fz), Grad(g.h100, fx - 1.0, fy, fz),
      Grad(g.h010, fx, fy - 1.0, fz), Grad(g.h110, fx - 1.0, fy - 1.0, fz),
      Grad(g.h001, fx, fy, fz - 1.0), Grad(g.h101, fx - 1.0, fy, fz - 1.0),
      Grad(g.h011, fx, fy - 1.0, fz - 1.0), Grad(g.h111, fx - 1.0, fy - 1.0, fz - 1.0))
  }

  /** Every corner offset lies in [-1, 1] when the fractional offsets lie in
      [0, 1), so every corner gradient lies in [-2, 2]. */
  lemma CornerGradsBounded(g: CornerHashes, fx: real, fy: real, fz: real)
    requires 0.0 <= fx < 1.0 && 0.0 <= fy < 1.0 && 0.0 <= fz < 1.0
    ensures -2.0 <= Grad(g.h000, fx, fy, fz) <= 2.0
    ensures -2.0 <= Grad(g.h100, fx - 1.0, fy, fz) <= 2.0
    ensures -2.0 <= Grad(g.h010, fx, fy - 1.0, fz) <= 2.0
    ensures -2.0 <= Grad(g.h110, fx - 1.0, fy - 1.0, fz) <= 2.0
    ensures -2.0 <= Grad(g.h001, fx, fy, fz - 1.0) <= 2.0
    ensures -2.0 <= Grad(g.h101, fx - 1.0, fy, fz - 1.0) <= 2.0
    ensures -2.0 <= Grad(g.h011, fx, fy - 1.0, fz - 1.0) <= 2.0
    ensures -2.0 <= Grad(g.h111, fx - 1.0, fy - 1.0, fz - 1.0) <= 2.0
  {
    GradBound(g.h000, fx, fy, fz);
    GradBound(g.h100, fx - 1.0, fy, fz);
    GradBound(g.h010, fx, fy - 1.0, fz);
    GradBound(g.h110, fx - 1.0, fy - 1.0, fz);
    GradBound(g.h001, fx, fy, fz - 1.0);
    GradBound(g.h101, fx - 1.0, fy, fz - 1.0);
    GradBound(g.h011, fx, fy - 1.0, fz - 1.0);
    GradBound(g.h111, fx - 1.0, fy - 1.0, fz - 1.0);
  }

  /** Within a cell, the blend lies in [-2, 2]. */
  lemma BlendBounded(g: CornerHashes, fx: real, fy: real, fz: real)
    requires 0.0 <= fx < 1.0 && 0.0 <= fy < 1.0 && 0.0 <= fz < 1.0
    ensures -2.0 <= Blend(g, fx, fy, fz) <= 2.0
  {
    FadeUnit(fx);
    FadeUnit(fy);
    FadeUnit(fz);
    CornerGradsBounded(g, fx, fy, fz);
    TrilinearBetween(Fade(fx), Fade(fy), Fade(fz),
      Grad(g.h000, fx, fy, fz), Grad(g.h100, fx - 1.0, fy, fz),
      Grad(g.h010, fx, fy - 1.0, fz), Grad(g.h110, fx - 1.0, fy - 1.0, fz),
      Grad(g.h001, fx, fy, fz - 1.0), Grad(g.h101, fx - 1.0, fy, fz - 1.0),
      Grad(g.h011, fx, fy - 1.0, fz - 1.0), Grad(g.h111, fx - 1.0, fy - 1.0, fz - 1.0),
      -2.0, 2.0);
  }

  /** At a cell's origin corner every gradient term is 0, and so is the blend. */
  lemma BlendAtOrigin(g: CornerHashes)
    ensures Blend(g, 0.0, 0.0, 0.0) == 0.0
  {
    assert Grad(g.h000, 0.0, 0.0, 0.0) == 0.0;
  }

  /** A table of 512 entries with `p[i] == perm[i & 255]`. */
  class Perlin {
    const p: array<int>
    ghost const perm: seq<int>

    ghost predicate Valid()
      reads p
    {
      IsPermutation(perm) && p.Length == 512 &&
      forall i :: 0 <= i < 512 ==> p[i] == perm[i % 256]
    }

    /** Fills the table from `perm`, the shuffled 0..255 (app.py:72-74). */
    constructor (perm: seq<int>)
      requires IsPermutation(perm)
      ensures Valid() && this.perm == perm && fresh(p)
    {
      var table := new int[512];
      var i := 0;
      while i < 512
        invariant 0 <= i <= 512
        invariant forall j :: 0 <= j < i ==> table[j] == perm[j % 256]
      {
        table[i] := perm[i % 256];
        i := i + 1;
      }
      p := table;
      this.perm := perm;
    }

    /** The table is the permutation written twice: every entry is in 0..255
        and the second half repeats the first. */
    lemma TableIsDoubledPermutation()
      requires Valid()
      ensures p[..256] == perm && p[256..] == perm
      ensures forall i :: 0 <= i < 512 ==> 0 <= p[i] < 256
      ensures forall i :: 0 <= i < 256 ==> p[i] == p[i + 256]
    {
      forall i | 0 <= i < 256
        ensures p[i + 256] == perm[i]
      {
        assert (i + 256) % 256 == i;
      }
    }

    /** The positions of AA, AB, BA and BB for lattice cell (X, Y, Z): every
        index the lookup reads, the four positions and their successors
        included, is below 512. */
    function Hashes(X: int, Y: int, Z: int): (c: Corners)
      reads p
      requires Valid()
      requires 0 <= X < 256 && 0 <= Y < 256 && 0 <= Z < 256
      ensures 0 <= c.aa && c.aa + 1 < 512 && 0 <= c.ab && c.ab + 1 < 512
      ensures 0 <= c.ba && c.ba + 1 < 512 && 0 <= c.bb && c.bb + 1 < 512
    {
      var A := p[X] + Y;
      var B := p[X + 1] + Y;
      Corners(p[A] + Z, p[A + 1] + Z, p[B] + Z, p[B + 1] + Z)
    }

    /** The eight corner hashes of lattice cell (X, Y, Z), each a table
        entry, so in 0..255. */
    function CornerHashesAt(X: int, Y: int, Z: int): (g: CornerHashes)
      reads p
      requires Valid()
      requires 0 <= X < 256 && 0 <= Y < 256 && 0 <= Z < 256
    {
      var c := Hashes(X, Y, Z);
      CornerHashes(p[c.aa], p[c.ba], p[c.ab], p[c.bb],
                   p[c.aa + 1], p[c.ba + 1], p[c.ab + 1], p[c.bb + 1])
    }

    /** `noise(x, y, z)`: the corner gradients of the unit cell around
        (x, y, z), blended with the faded fractional offsets. */
    function Noise(x: real, y: real, z: real): real
      reads p
      requires Valid()
    {
      Blend(CornerHashesAt(Low8(x.Floor), Low8(y.Floor), Low8(z.Floor)),
            x - x.Floor as real, y - y.Floor as real, z - z.Floor as real)
    }

    /** At every lattice point the noise is exactly 0. */
    lemma NoiseAtLattice(i: int, j: int, k: int)
      requires Valid()
      ensures Noise(i as real, j as real, k as real) == 0.0
    {
      BlendAtOrigin(CornerHashesAt(Low8(i), Low8(j), Low8(k)));
    }

    /** Noise repeats with period 256 along each axis. */
    lemma NoisePeriodic(x: real, y: real, z: real)
      requires Valid()
      ensures Noise(x + 256.0, y, z) == Noise(x, y, z)
      ensures Noise(x, y + 256.0, z) == Noise(x, y, z)
      ensures Noise(x, y, z + 256.0) == Noise(x, y, z)
    {
      NoiseShiftX(x, y, z);
      NoiseShiftY(x, y, z);
      NoiseShiftZ(x, y, z);
    }

    lemma NoiseShiftX(x: real, y: real, z: real)
      requires Valid()
      ensures Noise(x + 256.0, y, z) == Noise(x, y, z)
    {
      ShiftCell(x);
    }

    lemma NoiseShiftY(x: real, y: real, z: real)
      requires Valid()
      ensures Noise(x, y + 256.0, z) == Noise(x, y, z)
    {
      ShiftCell(y);
    }

    lemma NoiseShiftZ(x: real, y: real, z: real)
      requires Valid()
      ensures Noise(x, y, z + 256.0) == Noise(x, y, z)
    {
      ShiftCell(z);
    }

    /** Noise values lie in [-2, 2]. */
    lemma NoiseBounded(x: real, y: real, z: real)
      requires Valid()
      ensures -2.0 <= Noise(x, y, z) <= 2.0
    {
      BlendBounded(CornerHashesAt(Low8(x.Floor), Low8(y.Floor), Low8(z.Floor)),
                   x - x.Floor as real, y - y.Floor as real, z - z.Floor as real);
    }
  }
}

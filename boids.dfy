/** The page's `Boid` class (app.py:102-134): position, velocity and an
    acceleration accumulator, a speed limit, a force limit, and the three
    flocking rules (alignment, cohesion, separation). */
module Boids {
  import opened Vectors

  /** `this.maxSpeed` and `this.maxForce`: every boid gets the same values. */
  const MaxSpeed: real := 2.2
  const MaxForce: real := 0.05

  /** The `params` object `flock` reads: the three radii and three weights. */
  datatype Params = Params(alignDist: real, cohesionDist: real, separationDist: real,
                           alignWeight: real, cohesionWeight: real, separationWeight: real)

  /** What one boid is at a moment: its three vectors. */
  datatype Agent = Agent(pos: Vec2, vel: Vec2, acc: Vec2)

  /** The speed limit of `update`: `(v / s) * maxSpeed` when the length s
      of `v` exceeds `maxSpeed`, otherwise `v`. */
  function ClampSpeed(v: Vec2, hyp: Hypot): Vec2 {
    var s := hyp(v.x, v.y);
    if s > MaxSpeed then Vec2((v.x / s) * MaxSpeed, (v.y / s) * MaxSpeed) else v
  }

  /** A velocity faster than `maxSpeed` is scaled back to exactly `maxSpeed`
      in the same direction; a slower one is kept. */
  lemma ClampSpeedSpec(v: Vec2, hyp: Hypot)
    requires IsHypot(hyp)
    ensures Norm2(ClampSpeed(v, hyp)) <= MaxSpeed * MaxSpeed
    ensures Length(hyp, v) <= MaxSpeed ==> ClampSpeed(v, hyp) == v
    ensures Length(hyp, v) > MaxSpeed ==>
      Norm2(ClampSpeed(v, hyp)) == MaxSpeed * MaxSpeed && SameDirection(ClampSpeed(v, hyp), v)
  {
    var s := hyp(v.x, v.y);
    if s > MaxSpeed {
      Rescaled(v, s, MaxSpeed);
    } else {
      SquareMono(s, MaxSpeed);
    }
  }

  /** `update` on the value of a boid: velocity gains the accumulated force
      and is clamped, position moves by the new velocity, the accumulator is
      emptied. */
  function Integrate(a: Agent, hyp: Hypot): Agent {
    var v := ClampSpeed(a.vel.Add(a.acc), hyp);
    Agent(a.pos.Add(v), v, Zero)
  }

  /** After `update` the accumulator is empty, the speed is at most
      `maxSpeed`, the position has moved by exactly the new velocity, and the
      new velocity is the old one plus the force unless that was too fast. */
  lemma IntegrateSpec(a: Agent, hyp: Hypot)
    requires IsHypot(hyp)
    ensures Integrate(a, hyp).acc == Zero
    ensures Norm2(Integrate(a, hyp).vel) <= MaxSpeed * MaxSpeed
    ensures Integrate(a, hyp).pos == a.pos.Add(Integrate(a, hyp).vel)
    ensures Length(hyp, a.vel.Add(a.acc)) <= MaxSpeed ==> Integrate(a, hyp).vel == a.vel.Add(a.acc)
  {
    ClampSpeedSpec(a.vel.Add(a.acc), hyp);
  }

  /** One coordinate of `edges`: below 0 it moves to the far edge, beyond the
      far edge it moves to 0. The far edge itself is kept. */
  function WrapCoord(c: real, bound: real): (r: real)
    ensures bound >= 0.0 ==> 0.0 <= r <= bound
    ensures 0.0 <= c <= bound ==> r == c
    ensures bound >= 0.0 && c < 0.0 ==> r == bound
    ensures bound >= 0.0 && c > bound ==> r == 0.0
  {
    var c1 := if c < 0.0 then bound else c;
    if c1 > bound then 0.0 else c1
  }

  /** Wrapping twice is wrapping once. */
  lemma WrapCoordIdempotent(c: real, bound: real)
    requires bound >= 0.0
    ensures WrapCoord(WrapCoord(c, bound), bound) == WrapCoord(c, bound)
  {
  }

  /** The full-speed velocity towards `v`, `(v / (|v| || 1)) * maxSpeed`, as
      alignment and cohesion compute it. */
  function Desired(v: Vec2, hyp: Hypot): Vec2 {
    var m := OrOne(hyp(v.x, v.y));
    Vec2((v.x / m) * MaxSpeed, (v.y / m) * MaxSpeed)
  }

  /** The desired velocity has speed exactly `maxSpeed` along `v`, or is
      zero when `v` has length zero. */
  lemma DesiredSpec(v: Vec2, hyp: Hypot)
    requires IsHypot(hyp)
    ensures Norm2(Desired(v, hyp)) <= MaxSpeed * MaxSpeed
    ensures Length(hyp, v) != 0.0 ==>
      Norm2(Desired(v, hyp)) == MaxSpeed * MaxSpeed && SameDirection(Desired(v, hyp), v)
    ensures v == Zero ==> Desired(v, hyp) == Zero
  {
    var l := hyp(v.x, v.y);
    if l != 0.0 {
      Rescaled(v, l, MaxSpeed);
    } else {
      assert Norm2(v) == 0.0;
      assert Desired(v, hyp) == v.Scale(MaxSpeed);
      ScaleNorm(v, MaxSpeed);
    }
  }

  /** The local `limit` of `flock`, bound `mf` (by default `maxForce`). */
  function Limit(v: Vec2, mf: real, hyp: Hypot): Vec2 {
    var m := OrOne(hyp(v.x, v.y));
    if m > mf then Vec2((v.x / m) * mf, (v.y / m) * mf) else v
  }

  /** A vector longer than the bound is scaled to exactly the bound in the
      same direction; a shorter non-zero one is kept; zero stays zero. */
  lemma LimitSpec(v: Vec2, mf: real, hyp: Hypot)
    requires IsHypot(hyp) && mf >= 0.0
    ensures Norm2(Limit(v, mf, hyp)) <= mf * mf
    ensures v == Zero ==> Limit(v, mf, hyp) == Zero
    ensures Length(hyp, v) > mf ==> Norm2(Limit(v, mf, hyp)) == mf * mf && SameDirection(Limit(v, mf, hyp), v)
    ensures Length(hyp, v) <= mf && Length(hyp, v) != 0.0 ==> Limit(v, mf, hyp) == v
  {
    var l := hyp(v.x, v.y);
    assert Limit(v, mf, hyp) == Capped(v, l, mf);
    if l > mf {
      CappedLong(v, l, mf);
    } else if l != 0.0 {
      CappedShort(v, l, mf);
    } else {
      CappedNull(v, l, mf);
      CappedZero(l, mf);
    }
  }

  /** The body of `limit` once the length `l` of `v` is known: with
      `m = l || 1`, the vector is rescaled to length `mf` when m exceeds it. */
  function Capped(v: Vec2, l: real, mf: real): Vec2 {
    var m := OrOne(l);
    if m > mf then Vec2((v.x / m) * mf, (v.y / m) * mf) else v
  }

  lemma CappedLong(v: Vec2, l: real, mf: real)
    requires l > mf >= 0.0 && l * l == Norm2(v)
    ensures Norm2(Capped(v, l, mf)) == mf * mf && SameDirection(Capped(v, l, mf), v)
  {
    Rescaled(v, l, mf);
  }

  lemma CappedShort(v: Vec2, l: real, mf: real)
    requires 0.0 < l <= mf && l * l == Norm2(v)
    ensures Capped(v, l, mf) == v && Norm2(v) <= mf * mf
  {
    SquareMono(l, mf);
  }

  /** A vector of length 0 stays of length 0, whatever `m || 1` makes of it. */
  lemma CappedNull(v: Vec2, l: real, mf: real)
    requires l == 0.0 && l * l == Norm2(v)
    ensures Norm2(Capped(v, l, mf)) <= mf * mf
  {
    assert Norm2(v) == 0.0;
    SquareNonneg(mf);
    if 1.0 > mf {
      assert Capped(v, l, mf) == v.Scale(mf);
      ScaleNorm(v, mf);
    }
  }

  lemma CappedZero(l: real, mf: real)
    ensures Capped(Zero, l, mf) == Zero
  {
  }

  /** A running sum of `flock`'s neighbour scan and the number of boids that
      contributed to it: `steerA`/`ta`, `steerC`/`tc` or `steerS`/`ts`. */
  datatype Sum = Sum(total: Vec2, count: nat)

  const NoSum: Sum := Sum(Zero, 0)

  /** `Math.hypot` of the offset from `me` to the other boid `o`. */
  function Distance(me: Vec2, o: Agent, hyp: Hypot): real {
    hyp(o.pos.x - me.x, o.pos.y - me.y)
  }

  /** Alignment's sum: the velocities of the other boids within `alignDist`. */
  function Aligned(me: Vec2, others: seq<Agent>, params: Params, hyp: Hypot): Sum {
    if |others| == 0 then NoSum
    else AlignStep(Aligned(me, others[..|others| - 1], params, hyp), me, others[|others| - 1], params, hyp)
  }

  /** Cohesion's sum: the positions of the other boids within `cohesionDist`. */
  function Cohered(me: Vec2, others: seq<Agent>, params: Params, hyp: Hypot): Sum {
    if |others| == 0 then NoSum
    else CohereStep(Cohered(me, others[..|others| - 1], params, hyp), me, others[|others| - 1], params, hyp)
  }

  /** Separation's sum: for every other boid within `separationDist`, a push
      away from it weighted by the inverse squared distance. */
  function Separated(me: Vec2, others: seq<Agent>, params: Params, hyp: Hypot): Sum {
    if |others| == 0 then NoSum
    else SeparateStep(Separated(me, others[..|others| - 1], params, hyp), me, others[|others| - 1], params, hyp)
  }

  /** What one other boid `o` adds to alignment's sum. */
  function AlignStep(s: Sum, me: Vec2, o: Agent, params: Params, hyp: Hypot): Sum {
    if Distance(me, o, hyp) < params.alignDist then Sum(s.total.Add(o.vel), s.count + 1) else s
  }

  /** What one other boid `o` adds to cohesion's sum. */
  function CohereStep(s: Sum, me: Vec2, o: Agent, params: Params, hyp: Hypot): Sum {
    if Distance(me, o, hyp) < params.cohesionDist then Sum(s.total.Add(o.pos), s.count + 1) else s
  }

  /** What one other boid `o` adds to separation's sum. */
  function SeparateStep(s: Sum, me: Vec2, o: Agent, params: Params, hyp: Hypot): Sum {
    var d := Distance(me, o, hyp);
    if d < params.separationDist then
      Sum(Vec2(s.total.x - Repel(o.pos.x - me.x, d), s.total.y - Repel(o.pos.y - me.y, d)), s.count + 1)
    else s
  }

  /** One component of the separation push, `dx / (d*d + 0.0001)`: the
      0.0001 keeps the divisor above 0 when two boids coincide. */
  function Repel(dx: real, d: real): real {
    SquareNonneg(d);
    dx / (d * d + 0.0001)
  }

  /** Each counter counts at most one per other boid, and a sum to which no
      boid contributed is zero. */
  lemma {:induction false} SumsCounted(me: Vec2, others: seq<Agent>, params: Params, hyp: Hypot)
    ensures var a := Aligned(me, others, params, hyp);
      a.count <= |others| && (a.count == 0 ==> a.total == Zero)
    ensures var c := Cohered(me, others, params, hyp);
      c.count <= |others| && (c.count == 0 ==> c.total == Zero)
    ensures var s := Separated(me, others, params, hyp);
      s.count <= |others| && (s.count == 0 ==> s.total == Zero)
  {
    if |others| != 0 {
      SumsCounted(me, others[..|others| - 1], params, hyp);
    }
  }

  /** Alignment: with neighbours, the full-speed velocity along their mean
      velocity, minus the boid's own velocity. */
  function AlignSteer(s: Sum, vel: Vec2, hyp: Hypot): Vec2 {
    if s.count == 0 then s.total
    else
      var desired := Desired(Vec2(s.total.x / s.count as real, s.total.y / s.count as real), hyp);
      Vec2(desired.x - vel.x, desired.y - vel.y)
  }

  /** Cohesion: with neighbours, the full-speed velocity towards their
      centroid, minus the boid's own velocity. */
  function CohesionSteer(s: Sum, pos: Vec2, vel: Vec2, hyp: Hypot): Vec2 {
    if s.count == 0 then s.total
    else
      var desired := Desired(Vec2(s.total.x / s.count as real - pos.x, s.total.y / s.count as real - pos.y), hyp);
      Vec2(desired.x - vel.x, desired.y - vel.y)
  }

  /** The three forces `flock` adds, one per rule. */
  datatype Forces = Forces(align: Vec2, cohesion: Vec2, separation: Vec2)

  /** The forces `flock` adds for a boid in state `me` among `others`: each
      weighted steering vector, limited to `maxForce`. */
  function FlockForces(me: Agent, others: seq<Agent>, params: Params, hyp: Hypot): Forces {
    Forces(Limit(AlignSteer(Aligned(me.pos, others, params, hyp), me.vel, hyp).Scale(params.alignWeight), MaxForce, hyp),
           Limit(CohesionSteer(Cohered(me.pos, others, params, hyp), me.pos, me.vel, hyp).Scale(params.cohesionWeight), MaxForce, hyp),
           Limit(Separated(me.pos, others, params, hyp).total.Scale(params.separationWeight), MaxForce, hyp))
  }

  /** Each of the three forces is at most `maxForce` long. */
  lemma FlockForcesBounded(me: Agent, others: seq<Agent>, params: Params, hyp: Hypot)
    requires IsHypot(hyp)
    ensures var f := FlockForces(me, others, params, hyp);
      && Norm2(f.align) <= MaxForce * MaxForce
      && Norm2(f.cohesion) <= MaxForce * MaxForce
      && Norm2(f.separation) <= MaxForce * MaxForce
  {
    LimitSpec(AlignSteer(Aligned(me.pos, others, params, hyp), me.vel, hyp).Scale(params.alignWeight), MaxForce, hyp);
    LimitSpec(CohesionSteer(Cohered(me.pos, others, params, hyp), me.pos, me.vel, hyp).Scale(params.cohesionWeight), MaxForce, hyp);
    LimitSpec(Separated(me.pos, others, params, hyp).total.Scale(params.separationWeight), MaxForce, hyp);
  }

  /** No other boid is within any of the three radii of position `me`. */
  ghost predicate Alone(me: Vec2, others: seq<Agent>, params: Params, hyp: Hypot) {
    forall o :: o in others ==>
      var d := Distance(me, o, hyp);
      d >= params.alignDist && d >= params.cohesionDist && d >= params.separationDist
  }

  lemma {:induction false} SumsAlone(me: Vec2, others: seq<Agent>, params: Params, hyp: Hypot)
    requires Alone(me, others, params, hyp)
    ensures Aligned(me, others, params, hyp) == NoSum
    ensures Cohered(me, others, params, hyp) == NoSum
    ensures Separated(me, others, params, hyp) == NoSum
  {
    if |others| != 0 {
      var init := others[..|others| - 1];
      assert forall o :: o in init ==> o in others;
      SumsAlone(me, init, params, hyp);
    }
  }

  /** With no other boid within any radius, all three forces are zero. */
  lemma FlockAlone(me: Agent, others: seq<Agent>, params: Params, hyp: Hypot)
    requires Alone(me.pos, others, params, hyp)
    ensures FlockForces(me, others, params, hyp) == Forces(Zero, Zero, Zero)
  {
    SumsAlone(me.pos, others, params, hyp);
    assert Zero.Scale(params.alignWeight) == Zero;
  }

  /** The states of the boids in `bs` other than `me`, in order: what the
      neighbour loop of `me.flock(bs, ...)` visits. */
  function OthersOf(me: Boid, bs: seq<Boid>): (r: seq<Agent>)
    reads bs
  {
    OthersUpTo(me, bs, |bs|)
  }

  function OthersUpTo(me: Boid, bs: seq<Boid>, n: nat): (r: seq<Agent>)
    requires n <= |bs|
    reads bs
    ensures |r| <= n
  {
    if n == 0 then []
    else OthersUpTo(me, bs, n - 1) + (if bs[n - 1] == me then [] else [bs[n - 1].State()])
  }

  /** The three sums of the neighbour scan of `me`, standing at `at`, after
      its loop has visited `bs[..n]`. */
  datatype Scan = Scan(align: Sum, cohere: Sum, separate: Sum)

  function ScanUpTo(me: Boid, at: Vec2, bs: seq<Boid>, n: nat, params: Params, hyp: Hypot): Scan
    requires n <= |bs|
    reads bs
  {
    if n == 0 then Scan(NoSum, NoSum, NoSum)
    else
      var t := ScanUpTo(me, at, bs, n - 1, params, hyp);
      if bs[n - 1] == me then t
      else
        var o := bs[n - 1].State();
        Scan(AlignStep(t.align, at, o, params, hyp), CohereStep(t.cohere, at, o, params, hyp),
             SeparateStep(t.separate, at, o, params, hyp))
  }

  /** The scan over the boids computes the three sums over the states of the
      other boids. */
  lemma {:induction false} ScanUpToSums(me: Boid, at: Vec2, bs: seq<Boid>, n: nat, params: Params, hyp: Hypot)
    requires n <= |bs|
    ensures ScanUpTo(me, at, bs, n, params, hyp)
      == Scan(Aligned(at, OthersUpTo(me, bs, n), params, hyp), Cohered(at, OthersUpTo(me, bs, n), params, hyp),
              Separated(at, OthersUpTo(me, bs, n), params, hyp))
  {
    if n != 0 {
      ScanUpToSums(me, at, bs, n - 1, params, hyp);
      var prev := OthersUpTo(me, bs, n - 1);
      if bs[n - 1] != me {
        var next := prev + [bs[n - 1].State()];
        assert OthersUpTo(me, bs, n) == next;
        assert next[..|next| - 1] == prev;
      } else {
        assert OthersUpTo(me, bs, n) == prev + [] == prev;
      }
    }
  }

  class Boid {
    var pos: Vec2
    var vel: Vec2
    var acc: Vec2

    function State(): Agent
      reads this
    {
      Agent(pos, vel, acc)
    }

    /** A boid at (x, y) with initial velocity `heading`; the page draws the
        heading's angle at random and passes its cosine and sine. */
    constructor (x: real, y: real, heading: Vec2)
      ensures State() == Agent(Vec2(x, y), heading, Zero)
    {
      pos := Vec2(x, y);
      vel := heading;
      acc := Zero;
    }

    /** `applyForce`: the force is added to the accumulator. */
    method ApplyForce(f: Vec2)
      modifies this`acc
      ensures acc == old(acc).Add(f)
    {
      acc := Vec2(acc.x + f.x, acc.y + f.y);
    }

    /** `edges`: toroidal wrap into [0, w] x [0, h]. Only the position moves,
        and a coordinate already inside stays where it is. */
    method Edges(w: real, h: real)
      modifies this`pos
      ensures pos == Vec2(WrapCoord(old(pos).x, w), WrapCoord(old(pos).y, h))
      ensures w >= 0.0 && h >= 0.0 ==> 0.0 <= pos.x <= w && 0.0 <= pos.y <= h
    {
      if pos.x < 0.0 { pos := pos.(x := w); }
      if pos.x > w { pos := pos.(x := 0.0); }
      if pos.y < 0.0 { pos := pos.(y := h); }
      if pos.y > h { pos := pos.(y := 0.0); }
    }

    /** `update`: integrate the accumulated force, cap the speed at
        `maxSpeed`, move, and empty the accumulator. */
    method Update(hyp: Hypot)
      modifies this`pos, this`vel, this`acc
      ensures State() == Integrate(old(State()), hyp)
    {
      var v := Vec2(vel.x + acc.x, vel.y + acc.y);
      var s := hyp(v.x, v.y);
      if s > MaxSpeed {
        v := Vec2((v.x / s) * MaxSpeed, (v.y / s) * MaxSpeed);
      }
      vel := v;
      pos := Vec2(pos.x + vel.x, pos.y + vel.y);
      acc := Zero;
    }

    /** The neighbour scan of `flock`: one pass over `boids`, skipping this
        boid, summing for each rule what the boids within its radius
        contribute. */
    method Neighbours(boids: seq<Boid>, params: Params, hyp: Hypot) returns (align: Sum, cohere: Sum, separate: Sum)
      ensures align == Aligned(pos, OthersOf(this, boids), params, hyp)
      ensures cohere == Cohered(pos, OthersOf(this, boids), params, hyp)
      ensures separate == Separated(pos, OthersOf(this, boids), params, hyp)
    {
      var steerA, steerC, steerS := Zero, Zero, Zero;
      var ta: nat, tc: nat, ts: nat := 0, 0, 0;
      var i := 0;
      while i < |boids|
        invariant 0 <= i <= |boids|
        invariant Sum(steerA, ta) == ScanUpTo(this, pos, boids, i, params, hyp).align
        invariant Sum(steerC, tc) == ScanUpTo(this, pos, boids, i, params, hyp).cohere
        invariant Sum(steerS, ts) == ScanUpTo(this, pos, boids, i, params, hyp).separate
      {
        var other := boids[i];
        if other != this {
          var dx, dy := other.pos.x - pos.x, other.pos.y - pos.y;
          var d := Distance(pos, other.State(), hyp);
          if d < params.alignDist {
            steerA := Vec2(steerA.x + other.vel.x, steerA.y + other.vel.y);
            ta := ta + 1;
          }
          if d < params.cohesionDist {
            steerC := Vec2(steerC.x + other.pos.x, steerC.y + other.pos.y);
            tc := tc + 1;
          }
          if d < params.separationDist {
            steerS := Vec2(steerS.x - Repel(dx, d), steerS.y - Repel(dy, d));
            ts := ts + 1;
          }
        }
        i := i + 1;
      }
      ScanUpToSums(this, pos, boids, |boids|, params, hyp);
      align, cohere, separate := Sum(steerA, ta), Sum(steerC, tc), Sum(steerS, ts);
    }

    /** `flock`: scan the other boids, then add the limited alignment,
        cohesion and separation forces to this boid's accumulator. Nothing
        but `this.acc` changes. */
    method Flock(boids: seq<Boid>, params: Params, hyp: Hypot)
      modifies this`acc
      ensures var f := FlockForces(old(State()), old(OthersOf(this, boids)), params, hyp);
        acc == old(acc).Add(f.align).Add(f.cohesion).Add(f.separation)
    {
      var align, cohere, separate := Neighbours(boids, params, hyp);
      var steerA := AlignSteer(align, vel, hyp);
      var steerC := CohesionSteer(cohere, pos, vel, hyp);
      var fa := Limit(steerA.Scale(params.alignWeight), MaxForce, hyp);
      var fc := Limit(steerC.Scale(params.cohesionWeight), MaxForce, hyp);
      var fs := Limit(separate.total.Scale(params.separationWeight), MaxForce, hyp);
      assert Forces(fa, fc, fs) == FlockForces(State(), OthersOf(this, boids), params, hyp);
      ApplyForce(fa);
      ApplyForce(fc);
      ApplyForce(fs);
    }
  }
}

/** The page's animation state and the per-boid part of its frame `loop`
    (app.py:144-174, 201): a noise field, the boids, the shared flocking
    parameters and the frame counter `t`. In every frame each boid in array
    order is pushed by the flow field, flocks, moves and wraps; the boids are
    updated in place, so a boid's turn already sees the new states of the
    boids before it. */
module World {
  import opened Vectors
  import opened PerlinNoise
  import opened Boids

  /** The `params` object of the page (app.py:148). */
  const DefaultParams: Params := Params(36.0, 48.0, 24.0, 0.7, 0.35, 0.85)

  /** The states of the boids, in array order. */
  function Snap(bs: seq<Boid>): (s: seq<Agent>)
    reads bs
    ensures |s| == |bs| && forall k :: 0 <= k < |bs| ==> s[k] == bs[k].State()
  {
    seq(|bs|, k requires 0 <= k < |bs| reads bs => bs[k].State())
  }

  /** All states but the i-th, in order. */
  function Without(s: seq<Agent>, i: nat): (r: seq<Agent>)
    requires i < |s|
  {
    s[..i] + s[i + 1..]
  }

  /** The turn of boid `i` in states `s`, with `flow` the flow force at its
      position: `applyForce(flow)`, then `flock` against the other boids as
      they are now, `update` and `edges(w, h)`. */
  function Turn(s: seq<Agent>, i: nat, flow: Vec2, w: real, h: real, params: Params, hyp: Hypot): Agent
    requires i < |s|
  {
    var a1 := s[i].(acc := s[i].acc.Add(flow));
    var f := FlockForces(a1, Without(s, i), params, hyp);
    var a2 := Integrate(a1.(acc := a1.acc.Add(f.align).Add(f.cohesion).Add(f.separation)), hyp);
    a2.(pos := Vec2(WrapCoord(a2.pos.x, w), WrapCoord(a2.pos.y, h)))
  }

  /** The states after the first `n` turns of a frame that starts in `s0`,
      `flows[i]` being the flow force boid i meets. Only the boid whose turn
      it is changes, and the number of boids stays the same. */
  function PassUpTo(s0: seq<Agent>, flows: seq<Vec2>, n: nat, w: real, h: real, params: Params, hyp: Hypot): (s: seq<Agent>)
    requires |flows| == |s0| && n <= |s0|
    ensures |s| == |s0|
  {
    if n == 0 then s0
    else
      var s := PassUpTo(s0, flows, n - 1, w, h, params, hyp);
      s[n - 1 := Turn(s, n - 1, flows[n - 1], w, h, params, hyp)]
  }

  /** A boid at rest between frames: nothing accumulated, speed at most
      `maxSpeed`, position on the canvas. */
  ghost predicate Settled(a: Agent, w: real, h: real) {
    a.acc == Zero && Norm2(a.vel) <= MaxSpeed * MaxSpeed &&
    0.0 <= a.pos.x <= w && 0.0 <= a.pos.y <= h
  }

  /** A boid leaves its turn settled, whatever the forces were. */
  lemma TurnSettles(s: seq<Agent>, i: nat, flow: Vec2, w: real, h: real, params: Params, hyp: Hypot)
    requires i < |s| && IsHypot(hyp) && w >= 0.0 && h >= 0.0
    ensures Settled(Turn(s, i, flow, w, h, params, hyp), w, h)
  {
    var a1 := s[i].(acc := s[i].acc.Add(flow));
    var f := FlockForces(a1, Without(s, i), params, hyp);
    IntegrateSpec(a1.(acc := a1.acc.Add(f.align).Add(f.cohesion).Add(f.separation)), hyp);
  }

  /** After the first n turns those n boids are settled. */
  lemma {:induction false} PassSettles(s0: seq<Agent>, flows: seq<Vec2>, n: nat, w: real, h: real, params: Params, hyp: Hypot)
    requires |flows| == |s0| && n <= |s0| && IsHypot(hyp) && w >= 0.0 && h >= 0.0
    ensures forall k :: 0 <= k < n ==> Settled(PassUpTo(s0, flows, n, w, h, params, hyp)[k], w, h)
  {
    if n != 0 {
      PassSettles(s0, flows, n - 1, w, h, params, hyp);
      TurnSettles(PassUpTo(s0, flows, n - 1, w, h, params, hyp), n - 1, flows[n - 1], w, h, params, hyp);
    }
  }

  /** After the first n turns the other boids are still as the frame found
      them: every boid takes its turn from the state it had when the frame
      began. */
  lemma {:induction false} PassKeepsRest(s0: seq<Agent>, flows: seq<Vec2>, n: nat, w: real, h: real, params: Params, hyp: Hypot)
    requires |flows| == |s0| && n <= |s0|
    ensures forall k :: n <= k < |s0| ==> PassUpTo(s0, flows, n, w, h, params, hyp)[k] == s0[k]
  {
    if n != 0 {
      PassKeepsRest(s0, flows, n - 1, w, h, params, hyp);
    }
  }

  /** The states seen by `me`'s neighbour scan, when `me` is the i-th of
      distinct boids whose other states are those of `s`, are the states of
      `s` other than the i-th, in array order. */
  lemma {:induction false} OthersUpToIs(me: Boid, bs: seq<Boid>, i: nat, s: seq<Agent>, n: nat)
    requires i < |bs| == |s| && bs[i] == me && n <= |bs|
    requires forall j, k :: 0 <= j < k < |bs| ==> bs[j] != bs[k]
    requires forall k :: 0 <= k < |bs| && k != i ==> bs[k].State() == s[k]
    ensures n <= i ==> OthersUpTo(me, bs, n) == s[..n]
    ensures i < n ==> OthersUpTo(me, bs, n) == s[..i] + s[i + 1..n]
  {
    if n != 0 {
      OthersUpToIs(me, bs, i, s, n - 1);
      if n - 1 < i {
        assert bs[n - 1] != me;
        assert s[..n] == s[..n - 1] + [s[n - 1]];
      } else if n - 1 == i {
        assert s[..i] + s[i + 1..n] == s[..i];
      } else {
        assert bs[n - 1] != me;
        assert s[i + 1..n] == s[i + 1..n - 1] + [s[n - 1]];
      }
    }
  }

  lemma OthersOfIs(me: Boid, bs: seq<Boid>, i: nat, s: seq<Agent>)
    requires i < |bs| == |s| && bs[i] == me
    requires forall j, k :: 0 <= j < k < |bs| ==> bs[j] != bs[k]
    requires forall k :: 0 <= k < |bs| && k != i ==> bs[k].State() == s[k]
    ensures OthersOf(me, bs) == Without(s, i)
  {
    OthersUpToIs(me, bs, i, s, |bs|);
    assert s[i + 1..|bs|] == s[i + 1..];
  }

  /** When boid i is in state `a` and every other boid is as in `s`, the
      boids are in the states `s` with the i-th replaced by `a`. */
  lemma StatesAfterTurn(bs: seq<Boid>, s: seq<Agent>, i: nat, a: Agent)
    requires i < |bs| == |s| && bs[i].State() == a
    requires forall k :: 0 <= k < |bs| && k != i ==> bs[k].State() == s[k]
    ensures forall k :: 0 <= k < |bs| ==> bs[k].State() == s[i := a][k]
  {
  }

  /** The page's state: the noise field, the boids and the frame counter. */
  class Simulation {
    const perlin: Perlin
    const boids: seq<Boid>
    const params: Params
    /** `SETTINGS.NOISE_SCALE`. */
    const noiseScale: real
    var t: nat

    ghost predicate Valid()
      reads perlin.p
    {
      perlin.Valid() && forall j, k :: 0 <= j < k < |boids| ==> boids[j] != boids[k]
    }

    /** `new Perlin(...)`, the `params` object and the boids, which the page
        places at random. */
    constructor (perm: seq<int>, boids: seq<Boid>, noiseScale: real)
      requires IsPermutation(perm)
      requires forall j, k :: 0 <= j < k < |boids| ==> boids[j] != boids[k]
      ensures Valid() && perlin.perm == perm && this.boids == boids
      ensures params == DefaultParams && this.noiseScale == noiseScale && t == 0
    {
      perlin := new Perlin(perm);
      this.boids := boids;
      params := DefaultParams;
      this.noiseScale := noiseScale;
      t := 0;
    }

    /** The flow force at `pos` in frame `tick`: `flowOf` turns the noise
        value into the force, `(cos, sin)` of `noise * 4π` times
        `SETTINGS.FLOW_STRENGTH`. */
    function Flow(pos: Vec2, tick: nat, flowOf: real -> Vec2): Vec2
      reads perlin.p
      requires perlin.Valid()
    {
      flowOf(perlin.Noise(pos.x * noiseScale, pos.y * noiseScale, tick as real * 0.003))
    }

    /** The flow force met by each boid of `s` in frame `tick`. */
    function Flows(s: seq<Agent>, tick: nat, flowOf: real -> Vec2): (fs: seq<Vec2>)
      reads perlin.p
      requires perlin.Valid()
      ensures |fs| == |s|
    {
      seq(|s|, k requires 0 <= k < |s| && perlin.Valid() reads perlin.p => Flow(s[k].pos, tick, flowOf))
    }

    /** A boid meets, at its turn, the flow force at the position it had
        when the frame began: the boids before it have moved, it has not.
        So the `flows` the page's loop applies in frame `tick` are
        `Flows` of the frame's starting states. */
    lemma FlowMetAtTurn(s0: seq<Agent>, tick: nat, flowOf: real -> Vec2, k: nat, w: real, h: real, hyp: Hypot)
      requires perlin.Valid() && k < |s0|
      ensures Flows(s0, tick, flowOf)[k] == Flow(PassUpTo(s0, Flows(s0, tick, flowOf), k, w, h, params, hyp)[k].pos, tick, flowOf)
    {
      PassKeepsRest(s0, Flows(s0, tick, flowOf), k, w, h, params, hyp);
    }

    /** The turn of the i-th boid in the frame's loop once its flow force
        is known: `applyForce(flow)`, `flock`, `update`, `edges(w, h)`. Only
        that boid changes. */
    method TakeTurn(i: nat, flow: Vec2, w: real, h: real, hyp: Hypot, ghost s: seq<Agent>)
      requires i < |boids| == |s| && forall j, k :: 0 <= j < k < |boids| ==> boids[j] != boids[k]
      requires forall k :: 0 <= k < |boids| ==> boids[k].State() == s[k]
      modifies boids[i]
      ensures boids[i].State() == Turn(s, i, flow, w, h, params, hyp)
      ensures forall k :: 0 <= k < |boids| && k != i ==> boids[k].State() == s[k]
    {
      var b := boids[i];
      b.ApplyForce(flow);
      ghost var a1 := s[i].(acc := s[i].acc.Add(flow));
      assert b.State() == a1;
      OthersOfIs(b, boids, i, s);
      b.Flock(boids, params, hyp);
      ghost var f := FlockForces(a1, Without(s, i), params, hyp);
      assert b.State() == a1.(acc := a1.acc.Add(f.align).Add(f.cohesion).Add(f.separation));
      b.Update(hyp);
      b.Edges(w, h);
      assert b.State() == Turn(s, i, flow, w, h, params, hyp);
    }

    /** One frame of `loop` apart from drawing: every boid in array order
        takes its turn with its flow force, then `t` grows by one. The page
        passes `flows == Flows(Snap(boids), t, flowOf)` (see
        `FlowMetAtTurn`); by `PassSettles` every boid then ends the frame
        settled on the canvas. */
    method Step(w: real, h: real, flows: seq<Vec2>, hyp: Hypot)
      requires Valid() && |flows| == |boids|
      modifies set b | b in boids, this`t
      ensures Snap(boids) == PassUpTo(old(Snap(boids)), flows, |boids|, w, h, params, hyp)
      ensures t == old(t) + 1
      ensures Valid()
    {
      ghost var s0 := Snap(boids);
      ghost var cur := s0;
      var i := 0;
      while i < |boids|
        invariant 0 <= i <= |boids| && t == old(t)
        invariant cur == PassUpTo(s0, flows, i, w, h, params, hyp)
        invariant forall k :: 0 <= k < |boids| ==> boids[k].State() == cur[k]
      {
        TakeTurn(i, flows[i], w, h, hyp, cur);
        ghost var turned := Turn(cur, i, flows[i], w, h, params, hyp);
        StatesAfterTurn(boids, cur, i, turned);
        cur := cur[i := turned];
        i := i + 1;
      }
      t := t + 1;
      assert Snap(boids) == cur;
    }
  }
}

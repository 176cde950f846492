# Flocking with a Perlin flow field — a verified model

The page served by `app.py` animates a flock of boids drifting through a
flow field. The simulation is JavaScript embedded in the page's template
(`{{` and `}}` in the template are single braces in the script). This project
models that simulation core in Dafny and proves properties of it:

- `mulberry32`, the seeded pseudorandom generator (module `Prng`,
  `prng.dfy`). The accumulator is kept as a 32-bit word with wrapping
  addition, which is all that the bitwise operators and `Math.imul` ever
  see.
- the `Perlin` class (module `PerlinNoise`, `perlin.dfy`): the doubled
  permutation table, `fade`, `lerp`, `grad` and `noise`;
- the `Boid` class (module `Boids`, `boids.dfy`): `applyForce`, `edges`,
  `update`, `flock` and its local `limit`, as a Dafny class whose methods
  update its fields in place, next to value-level functions that specify
  them;
- the per-boid part of the frame `loop` and the frame counter `t` (module
  `World`, `world.dfy`): each boid in array order is pushed by its flow
  force, flocks, moves and wraps, then `t` grows by one;
- two-dimensional vectors and the host's `Math.hypot` (module `Vectors`,
  `vectors.dfy`).

Numbers are modelled as mathematical reals. `Math.hypot` is a parameter
`hyp` of the operations that call it, and the lemmas assume only that it is
the non-negative square root of `x*x + y*y` (`IsHypot`).

Two points of the code behave differently from what a reader of a
toroidal flocking simulation might expect. The model follows the code in
both:

- **Edge bound.** A toroidal world would keep positions in the half-open
  box `[0, w) x [0, h)` and send a coordinate at or beyond the bound to 0.
  The code (app.py:109) resets a coordinate only when it is strictly beyond
  `w`, and it sends a negative coordinate to `w` itself. So positions stay
  in the closed box `[0, w] x [0, h]`, which is what `Boids.WrapCoord`,
  `Boids.Boid.Edges` and `World.Settled` state.
- **Update order.** A simulation free of order effects would let every boid
  flock against a snapshot of the states from before the frame. The code
  (app.py:168-174) updates the boids in place, one after another, so boid i
  flocks against the new states of boids 0..i-1 and the old states of the
  rest. `World.PassUpTo` and `World.Simulation.Step` model the in-place
  order.

## Model

| member | source | states |
|---|---|---|
| Vectors.OrOne | app.py:127-129 | the page's fallback of a length to 1: a non-zero m is kept and 0 becomes 1, so a non-negative length gives a positive divisor |
| Prng.Mix | app.py:63-66 | the mixing of one draw on the 32-bit word: `Math.imul` as multiplication modulo 2^32, `^` and `>>>` on the same 32 bits, and the final `>>> 0` as an unsigned read; no contract of its own; pinned by `Prng.FirstDrawsOfSeedOne` and used through `Prng.DrawAt` and `Prng.Mulberry32.Next` |
| Prng.Advanced | app.py:63 | the accumulator after n draws, `a += 0x6d2b79f5` n times modulo 2^32; no contract of its own; specified by `Prng.AdvancedAdd` and tied to the closure's state by `Prng.Mulberry32.Next` |
| Prng.Uniform | app.py:66 | the scaled word lies in [0, 1), and multiplying it by 2^32 gives back the unsigned word |
| Prng.AdvancedAdd | app.py:63 | advancing the accumulator n + m times is advancing it n times and then m times |
| Prng.Draws | app.py:61-67 | n draws give exactly n values |
| Prng.DrawAt | app.py:63-66 | the k-th draw is the mixing of the accumulator advanced k+1 times by 0x6d2b79f5, whatever was drawn before |
| Prng.DrawsInRange | app.py:66 | every drawn value lies in [0, 1) |
| Prng.DrawsSplit | app.py:61-67 | drawing n + m values is drawing n values and then m values from the generator those n draws left behind |
| Prng.FirstDrawsOfSeedOne | app.py:61-67 | `mulberry32(1)` first returns 2693262067, 11749833 and 2265367787, each divided by 2^32 |
| Prng.Mulberry32.constructor | app.py:61-62 | the closure starts with the accumulator equal to the seed and nothing drawn |
| Prng.Mulberry32.Next | app.py:62-67 | one call adds exactly 0x6d2b79f5 to the accumulator modulo 2^32 and returns the mixed new accumulator scaled into [0, 1); the values returned so far stay the n-draw sequence of the seed |
| PerlinNoise.Low8 | app.py:83 | `n & 255` lies in 0..255 and differs from n by a multiple of 256, negative n included |
| PerlinNoise.ShiftCell | app.py:83-84 | moving a coordinate by 256 keeps its cell index `floor & 255` and its fractional offset |
| PerlinNoise.Fade | app.py:76 | the fade curve maps 0 to 0 and 1 to 1 |
| PerlinNoise.FadeUnit | app.py:76 | on [0, 1] the fade curve stays in [0, 1] |
| PerlinNoise.Lerp | app.py:77 | `lerp(t, a, b)` is a at t = 0 and b at t = 1 |
| PerlinNoise.LerpBetween | app.py:77 | for t in [0, 1] the interpolation lies within any interval that holds both ends |
| PerlinNoise.TrilinearBetween | app.py:88-97 | the nested lerps of `noise` stay within any interval holding the eight corner values when the weights lie in [0, 1] |
| PerlinNoise.Grad | app.py:78-81 | `grad(hash, x, y, z)` with `hash & 15` as `hash % 16` and the bit tests `& 1`, `& 2` as parity tests; no contract of its own; specified by `PerlinNoise.GradIsDot` and `PerlinNoise.GradBound` |
| PerlinNoise.GradIsDot | app.py:78-81 | `grad` is the dot product of the offset with one of Perlin's sixteen gradient directions, chosen by `hash & 15`; each direction has two components equal to +1 or -1 and one equal to 0 |
| PerlinNoise.GradBound | app.py:78-81 | with offsets in [-1, 1] a gradient term lies in [-2, 2] |
| PerlinNoise.CornerGradsBounded | app.py:90-95 | for fractional offsets in [0, 1) all eight corner gradient terms of `noise` lie in [-2, 2] |
| PerlinNoise.BlendBounded | app.py:85-97 | within a cell the faded blend of the corner gradients lies in [-2, 2] |
| PerlinNoise.BlendAtOrigin | app.py:88-97 | at a cell's origin corner the blend is 0 |
| PerlinNoise.Perlin.constructor | app.py:72-74 | the 512-entry table holds `perm[i & 255]` at every index i |
| PerlinNoise.Perlin.TableIsDoubledPermutation | app.py:72-74 | the table is the permutation written twice: both halves equal `perm`, every entry is in 0..255, and entry i + 256 repeats entry i |
| PerlinNoise.Perlin.Hashes | app.py:87 | for cell indices in 0..255 the hashes AA, AB, BA and BB and their successors are all valid table indices below 512 |
| PerlinNoise.Perlin.Noise | app.py:82-98 | `noise(x, y, z)`: cell indices `floor & 255`, fractional offsets, the table lookups of `PerlinNoise.Perlin.Hashes` and the faded trilinear blend of the eight corner gradients; no contract of its own; specified by `NoiseAtLattice`, `NoisePeriodic` and `NoiseBounded` |
| PerlinNoise.Perlin.NoiseAtLattice | app.py:82-98 | the noise is exactly 0 at every integer lattice point |
| PerlinNoise.Perlin.NoiseShiftX | app.py:83-84 | the noise repeats with period 256 along x |
| PerlinNoise.Perlin.NoiseShiftY | app.py:83-84 | the noise repeats with period 256 along y |
| PerlinNoise.Perlin.NoiseShiftZ | app.py:83-84 | the noise repeats with period 256 along z |
| PerlinNoise.Perlin.NoisePeriodic | app.py:82-98 | the noise repeats with period 256 along each of the three axes |
| PerlinNoise.Perlin.NoiseBounded | app.py:82-98 | every noise value lies in [-2, 2] |
| Boids.ClampSpeed | app.py:111-113 | the speed cap of `update`; no contract of its own; specified by `Boids.ClampSpeedSpec` |
| Boids.Integrate | app.py:110-115 | `update` on the value of a boid; no contract of its own; specified by `Boids.IntegrateSpec`, and `Boids.Boid.Update` is proved equal to it |
| Boids.ClampSpeedSpec | app.py:111-113 | the speed clamp of `update` leaves at most `maxSpeed`; a faster velocity is scaled to exactly `maxSpeed` in the same direction, and a slower one is kept |
| Boids.IntegrateSpec | app.py:110-115 | after `update` the accumulator is empty, the speed is at most `maxSpeed`, the position has moved by exactly the new velocity, and the velocity is old velocity plus force whenever that is not too fast |
| Boids.WrapCoord | app.py:109 | one coordinate of `edges`: the result lies in [0, bound]; a coordinate inside is kept, a negative one goes to the bound, one beyond the bound goes to 0 |
| Boids.WrapCoordIdempotent | app.py:109 | wrapping an already wrapped coordinate changes nothing |
| Boids.DesiredSpec | app.py:127-128 | the desired velocity, v divided by its length (or by 1 when that is 0) and times `maxSpeed`, has speed exactly `maxSpeed` along v when v has non-zero length, and is zero when v is zero |
| Boids.Limit | app.py:129 | the local `limit(v, mf)` of `flock`; no contract of its own; specified by `Boids.LimitSpec` |
| Boids.LimitSpec | app.py:129 | `limit(v, mf)` is at most mf long; a longer vector is scaled to exactly mf in the same direction, a shorter non-zero one is kept, and zero stays zero |
| Boids.CappedLong | app.py:129 | `limit` with a known length above mf gives length mf in the direction of v |
| Boids.CappedShort | app.py:129 | `limit` with a known positive length at most mf returns v |
| Boids.CappedNull | app.py:129 | `limit` of a zero-length vector stays within mf, whatever the fallback to 1 makes of it |
| Boids.CappedZero | app.py:129 | `limit` of the zero vector is zero |
| Boids.SumsCounted | app.py:119-126 | each neighbour counter `ta`, `tc`, `ts` counts at most one per other boid, and a sum no boid contributed to is zero |
| Boids.FlockForces | app.py:127-132 | the three weighted, limited forces `flock` applies, from the neighbour sums; no contract of its own; specified by `Boids.FlockForcesBounded` and `Boids.FlockAlone`, and `Boids.Boid.Flock` is proved to add exactly these |
| Boids.FlockForcesBounded | app.py:129-132 | each of the three forces `flock` applies is at most `maxForce` long |
| Boids.FlockAlone | app.py:120-132 | a boid with no other boid within any of the three radii gets three zero forces |
| Boids.OthersUpTo | app.py:120-121 | the neighbour loop visits at most one state per boid it passes |
| Boids.ScanUpToSums | app.py:120-126 | the loop's running sums after the first n boids are the alignment, cohesion and separation sums over the states of those boids other than this one |
| Boids.Boid.constructor | app.py:103-107 | a new boid sits at (x, y) with the given heading as velocity and an empty accumulator |
| Boids.Boid.ApplyForce | app.py:108 | the force is added to the accumulator and nothing else changes |
| Boids.Boid.Edges | app.py:109 | each coordinate is wrapped as `WrapCoord` says; for a non-negative box the position ends inside `[0, w] x [0, h]`; only the position changes |
| Boids.Boid.Update | app.py:110-115 | the new state is `Integrate` of the old one, about which `IntegrateSpec` proves the speed bound, the move and the emptied accumulator |
| Boids.Boid.Neighbours | app.py:118-126 | the loop over `boids` returns the alignment, cohesion and separation sums over the states of all boids other than this one, in array order |
| Boids.Boid.Flock | app.py:116-133 | the accumulator grows by exactly the three limited forces of `FlockForces` for this boid's state among the others; nothing else changes |
| World.PassUpTo | app.py:168-174 | a frame's turns keep the number of boids |
| World.Turn | app.py:169-173 | one boid's turn on the states of all boids: flow force, flocking against the others as they are now, `update`, `edges`; no contract of its own; specified by `World.TurnSettles`, and `World.Simulation.TakeTurn` is proved equal to it |
| World.TurnSettles | app.py:168-174 | after its turn a boid has an empty accumulator, speed at most `maxSpeed` and a position inside the canvas, whatever the forces were |
| World.PassSettles | app.py:168-174 | after the first n turns of a frame those n boids are settled; with n the number of boids, every boid ends the frame settled |
| World.PassKeepsRest | app.py:168-174 | after the first n turns the boids from n on are still as the frame found them, so each boid starts its turn from its state at the start of the frame |
| World.OthersUpToIs | app.py:120-121 | for distinct boids, the states boid i's neighbour loop visits among the first n are the states of those boids other than i, in order |
| World.OthersOfIs | app.py:120-121 | for distinct boids, boid i's neighbour loop visits the states of all other boids, in order |
| World.Simulation.constructor | app.py:147-162 | the noise table comes from the given permutation, the boids are the given ones, `params` has the page's radii and weights, and `t` starts at 0 |
| World.Simulation.Flow | app.py:169-170 | the flow force at a position in frame `tick`: `perlin.noise` at the scaled position and time `tick * 0.003`, turned into a force by `flowOf`; no contract of its own; used by `World.Simulation.FlowMetAtTurn` |
| World.Simulation.Flows | app.py:169-170 | one flow force per boid |
| World.Simulation.FlowMetAtTurn | app.py:168-170 | the flow force boid k meets at its turn is the flow at the position it had when the frame began, even though the boids before it have moved |
| World.Simulation.TakeTurn | app.py:169-173 | boid i's turn (`applyForce`, `flock`, `update`, `edges`) gives it the state `Turn` computes from the current states, and no other boid changes |
| World.Simulation.Step | app.py:163-201 | one frame moves the boids to the states `PassUpTo` gives for all turns in array order, updated in place, and increases `t` by one |

## Left out

- Drawing, the canvas, `fit`, the resize handler, `requestAnimationFrame`, the vector overlay and the HTML and Streamlit page around the script: these are I/O, not simulation.
- Floating point: all numbers are mathematical reals, with no rounding, overflow, NaN or infinities.
- `Math.random`: the random start positions and the random heading angle are parameters of the constructors.
- `Math.cos` and `Math.sin`: the boid constructor takes its heading as a vector, and the flow force is a function `flowOf` of the noise value.
- `Math.hypot`: it is a parameter `hyp`. The lemmas about lengths assume `IsHypot(hyp)`.
- PerlinNoise.Perlin.constructor: takes the shuffled permutation as input. The page shuffles 0..255 with `sort` and a comparator that returns `rand() - 0.5`. The resulting order depends on the engine's sort algorithm, so the model accepts any permutation of 0..255.
- Prng.Mulberry32: the accumulator is kept modulo 2^32. In the page it is a floating-point Number, and `a += 0x6d2b79f5` (app.py:63) is a floating-point addition. That addition is exact only while `a` stays below 2^53. The page's seed is an integer in 0..999999 (app.py:18), so this holds for about 4.9 million draws (2^53 / 0x6d2b79f5). Within that bound only `a` modulo 2^32 reaches the bitwise operators, and the returned values are those of the model. Beyond it the sum rounds, and the model no longer describes the page. The page draws only in the `Perlin` constructor's shuffle of 256 entries, a few thousand draws, well within the bound.
- World.Simulation.Step: takes the flow force of every boid as an input. The page computes the flow force of boid k from `perlin.noise` at the boid's position during its turn. `World.Simulation.FlowMetAtTurn` shows that this position is the boid's position at the start of the frame. So the page's frame is `Step` with `flows == Flows(Snap(boids), t, flowOf)`. Proving that link inside `Step` itself was beyond what the verifier could do at an acceptable cost.
- World.Simulation.Step: does not itself state that every boid ends the frame settled. That follows from its postcondition together with `World.PassSettles`, taking n as the number of boids.
- PerlinNoise.Perlin.NoiseBounded: states the range [-2, 2]. The true range of 3D improved noise is narrower; the model does not derive its exact extremes.
- Boids.Boid.Flock: the page destructures `params` afresh on every call. The model passes the same `params` value.
- The page's `SETTINGS` other than `NOISE_SCALE` and `FLOW_STRENGTH`, such as colours, trail and the number of boids: these only configure drawing and set-up. `NOISE_SCALE` is the field `noiseScale` of `World.Simulation`; `FLOW_STRENGTH` scales the flow force every frame and is folded into `flowOf`, with `Math.cos`, `Math.sin` and the factor `Math.PI * 4`.

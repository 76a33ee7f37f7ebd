// The ocean scene's atmosphere: flickering caustic lights, rising bubbles,
// drifting plankton, stirred sand and swaying god rays. Every system here
// overwrites its entities from elapsed time and the entity's own component;
// the sines and cosines it samples and the random numbers a bubble draws on
// reset are inputs.

module Atmosphere {
  import opened Vectors
  import opened Sequences

  // ---------------------------------------------------------------------------
  // Caustic lights
  // ---------------------------------------------------------------------------

  /// A point light and its `CausticsLight` component.
  datatype CausticsLight = CausticsLight(baseIntensity: real, phase: real)
  datatype CausticsBody = CausticsBody(intensity: real, caustics: CausticsLight)

  /// The seven caustic lights: base intensity 50000 and phase 1.2·i.
  function SpawnedCaustics(): (r: seq<CausticsBody>)
    ensures |r| == 7
    ensures forall i :: 0 <= i < 7 ==> r[i].caustics == CausticsLight(50000.0, i as real * 1.2)
  {
    seq(7, i requires 0 <= i => CausticsBody(50000.0, CausticsLight(50000.0, i as real * 1.2)))
  }

  /// The flicker factor for three wave samples: it lies in [0.15, 1.05],
  /// and both ends are reached.
  function Flicker(w1: real, w2: real, w3: real): (r: real)
    requires -1.0 <= w1 <= 1.0 && -1.0 <= w2 <= 1.0 && -1.0 <= w3 <= 1.0
    ensures 0.15 <= r <= 1.05
    ensures w1 == 1.0 && w2 == 1.0 && w3 == 1.0 ==> r == 1.05
    ensures w1 == -1.0 && w2 == -1.0 && w3 == -1.0 ==> r == 0.15
  {
    0.6 + (w1 * 0.2 + w2 * 0.15 + w3 * 0.1)
  }

  /// One tick for one light: the intensity is the base intensity scaled by
  /// the flicker factor, and the component is kept.
  function CausticsTick(b: CausticsBody, w1: real, w2: real, w3: real): (r: CausticsBody)
    requires -1.0 <= w1 <= 1.0 && -1.0 <= w2 <= 1.0 && -1.0 <= w3 <= 1.0
    ensures r.caustics == b.caustics
    ensures 0.0 <= b.caustics.baseIntensity ==>
              b.caustics.baseIntensity * 0.15 <= r.intensity <= b.caustics.baseIntensity * 1.05
  {
    var base := b.caustics.baseIntensity;
    var f := Flicker(w1, w2, w3);
    assert 0.0 <= base ==> base * 0.15 <= base * f <= base * 1.05 by {
      if 0.0 <= base {
        assert (f - 0.15) * base >= 0.0;
        assert (1.05 - f) * base >= 0.0;
      }
    }
    CausticsBody(base * f, b.caustics)
  }

  /// The tick at elapsed time `t`, sampling the three sines where the
  /// source does.
  function CausticsAt(b: CausticsBody, t: real, sin: real -> real): CausticsBody
    requires IsWave(sin)
  {
    var ph := b.caustics.phase;
    Sample(sin, t * 2.0 + ph);
    Sample(sin, t * 3.7 + ph * 1.5);
    Sample(sin, t * 1.3 + ph * 0.7);
    CausticsTick(b, sin(t * 2.0 + ph), sin(t * 3.7 + ph * 1.5), sin(t * 1.3 + ph * 0.7))
  }

  function CausticsStep(t: real, sin: real -> real): CausticsBody -> CausticsBody
    requires IsWave(sin)
  {
    b => CausticsAt(b, t, sin)
  }

  /// `animate_caustics_light`: every light of the query, in place.
  method AnimateCausticsLight(lights: array<CausticsBody>, t: real, sin: real -> real)
    requires IsWave(sin)
    modifies lights
    ensures lights[..] == MapFirst(old(lights[..]), lights.Length, CausticsStep(t, sin))
  {
    ghost var data := lights[..];
    ghost var step := CausticsStep(t, sin);
    var i := 0;
    while i < lights.Length
      invariant 0 <= i <= lights.Length
      invariant lights[..] == MapFirst(data, i, step) + data[i..]
    {
      MapFirstNext(data, i, step);
      lights[i] := CausticsAt(lights[i], t, sin);
      i := i + 1;
    }
    assert data[i..] == [];
  }

  /// After any tick every spawned caustic light shines between 7500 and
  /// 52500 and keeps its phase.
  lemma SpawnedCausticsBand(t: real, sin: real -> real, k: nat)
    requires IsWave(sin) && k < 7
    ensures var r := MapFirst(SpawnedCaustics(), 7, CausticsStep(t, sin))[k];
            7500.0 <= r.intensity <= 52500.0 && r.caustics.phase == k as real * 1.2
  {
    MapFirstAt(SpawnedCaustics(), 7, CausticsStep(t, sin), k);
  }

  // ---------------------------------------------------------------------------
  // Bubbles
  // ---------------------------------------------------------------------------

  /// A bubble entity: its translation and its `Bubble` component.
  datatype Bubble = Bubble(speed: real, wobblePhase: real, startX: real, startZ: real)
  datatype BubbleBody = BubbleBody(pos: Vec3, bubble: Bubble)

  /// Height of the water surface, where bubbles reset, and where they
  /// reappear.
  const Surface: real := 20.0
  const ResetY: real := -5.0

  /// A random draw in [0, 1) mapped onto a start coordinate in [-50, 50).
  function StartCoordinate(r: real): (c: real)
    requires 0.0 <= r < 1.0
    ensures -50.0 <= c < 50.0
  {
    (r - 0.5) * 100.0
  }

  /// What a bubble keeps between ticks: its start within the 100 × 100
  /// square, at most at the surface, and within 0.5 of its start
  /// horizontally.
  predicate BubbleValid(b: BubbleBody) {
    -50.0 <= b.bubble.startX < 50.0 && -50.0 <= b.bubble.startZ < 50.0 &&
    b.pos.y <= Surface &&
    -0.5 <= b.pos.x - b.bubble.startX <= 0.5 && -0.5 <= b.pos.z - b.bubble.startZ <= 0.5
  }

  /// A spawned bubble for draws `rx`, `rz`, `ry`, `rs`, `rp` in [0, 1): it
  /// starts at its start, at a height in [-5, 15), rising at 0.8 to 3.3.
  function SpawnBubble(rx: real, rz: real, ry: real, rs: real, rp: real, tau: real): (r: BubbleBody)
    requires 0.0 <= rx < 1.0 && 0.0 <= rz < 1.0 && 0.0 <= ry < 1.0 && 0.0 <= rs < 1.0 && 0.0 <= rp < 1.0
    ensures BubbleValid(r)
    ensures -5.0 <= r.pos.y < 15.0
    ensures 0.8 <= r.bubble.speed < 3.3
    ensures r.pos.x == r.bubble.startX && r.pos.z == r.bubble.startZ
  {
    var x, z := StartCoordinate(rx), StartCoordinate(rz);
    BubbleBody(Vec3(x, ry * 20.0 - 5.0, z), Bubble(0.8 + rs * 2.5, rp * tau, x, z))
  }

  /// One tick for one bubble, with wobble samples `wx` (a sine) and `wz` (a
  /// cosine) and the draws `rx`, `rz` it would use on reset. It rises by
  /// speed·dt; a bubble that rises above the surface goes back to -5 at a
  /// fresh start, any other wobbles within 0.5 of its start.
  function BubbleTick(b: BubbleBody, dt: real, wx: real, wz: real, rx: real, rz: real): (r: BubbleBody)
    requires -1.0 <= wx <= 1.0 && -1.0 <= wz <= 1.0 && 0.0 <= rx < 1.0 && 0.0 <= rz < 1.0
    ensures r.bubble.speed == b.bubble.speed && r.bubble.wobblePhase == b.bubble.wobblePhase
    ensures r.pos.y <= Surface
    ensures b.pos.y + b.bubble.speed * dt > Surface ==>
              r.pos == Vec3(r.bubble.startX, ResetY, r.bubble.startZ) &&
              r.bubble.startX == StartCoordinate(rx) && r.bubble.startZ == StartCoordinate(rz)
    ensures b.pos.y + b.bubble.speed * dt <= Surface ==>
              r.pos.y == b.pos.y + b.bubble.speed * dt &&
              r.bubble.startX == b.bubble.startX && r.bubble.startZ == b.bubble.startZ &&
              r.pos.x == b.bubble.startX + wx * 0.5 && r.pos.z == b.bubble.startZ + wz * 0.5
    ensures -0.5 <= r.pos.x - r.bubble.startX <= 0.5 && -0.5 <= r.pos.z - r.bubble.startZ <= 0.5
  {
    var bu := b.bubble;
    var y := b.pos.y + bu.speed * dt;
    if y > Surface then
      var sx, sz := StartCoordinate(rx), StartCoordinate(rz);
      BubbleBody(Vec3(sx, ResetY, sz), bu.(startX := sx, startZ := sz))
    else
      BubbleBody(Vec3(bu.startX + wx * 0.5, y, bu.startZ + wz * 0.5), bu)
  }

  /// A tick keeps every bubble valid, whatever its speed and `dt`.
  lemma BubbleTickKeepsValid(b: BubbleBody, dt: real, wx: real, wz: real, rx: real, rz: real)
    requires -1.0 <= wx <= 1.0 && -1.0 <= wz <= 1.0 && 0.0 <= rx < 1.0 && 0.0 <= rz < 1.0
    requires BubbleValid(b)
    ensures BubbleValid(BubbleTick(b, dt, wx, wz, rx, rz))
  {
  }

  /// The two draws a bubble would use if it reset this tick.
  datatype Draw = Draw(rx: real, rz: real)

  predicate DrawValid(d: Draw) {
    0.0 <= d.rx < 1.0 && 0.0 <= d.rz < 1.0
  }

  /// The tick at elapsed time `t` and frame time `dt`.
  function BubbleAt(b: BubbleBody, d: Draw, dt: real, t: real, sin: real -> real, cos: real -> real): BubbleBody
    requires IsWave(sin) && IsWave(cos) && DrawValid(d)
  {
    var ph := b.bubble.wobblePhase;
    Sample(sin, t + ph);
    Sample(cos, t * 1.3 + ph);
    BubbleTick(b, dt, sin(t + ph), cos(t * 1.3 + ph), d.rx, d.rz)
  }

  /// `animate_bubbles`: every bubble of the query, in place; bubble `k`
  /// uses draw `k` if it resets.
  method AnimateBubbles(bubbles: array<BubbleBody>, draws: seq<Draw>, dt: real, t: real,
                        sin: real -> real, cos: real -> real)
    requires IsWave(sin) && IsWave(cos)
    requires |draws| == bubbles.Length && forall k :: 0 <= k < |draws| ==> DrawValid(draws[k])
    modifies bubbles
    ensures forall k :: 0 <= k < bubbles.Length ==>
              bubbles[k] == BubbleAt(old(bubbles[k]), draws[k], dt, t, sin, cos)
  {
    var i := 0;
    while i < bubbles.Length
      invariant 0 <= i <= bubbles.Length
      invariant forall k :: 0 <= k < i ==> bubbles[k] == BubbleAt(old(bubbles[k]), draws[k], dt, t, sin, cos)
      invariant forall k :: i <= k < bubbles.Length ==> bubbles[k] == old(bubbles[k])
    {
      bubbles[i] := BubbleAt(bubbles[i], draws[i], dt, t, sin, cos);
      i := i + 1;
    }
  }

  /// After a tick no bubble is above the surface, and every bubble is
  /// within 0.5 of its start horizontally.
  lemma BubblesBelowSurface(b: BubbleBody, d: Draw, dt: real, t: real, sin: real -> real, cos: real -> real)
    requires IsWave(sin) && IsWave(cos) && DrawValid(d)
    ensures var r := BubbleAt(b, d, dt, t, sin, cos);
            r.pos.y <= 20.0 &&
            -0.5 <= r.pos.x - r.bubble.startX <= 0.5 && -0.5 <= r.pos.z - r.bubble.startZ <= 0.5
  {
  }

  // ---------------------------------------------------------------------------
  // Plankton
  // ---------------------------------------------------------------------------

  /// The `Plankton` component. `baseScale` is the scale the plankton was
  /// spawned with, which the corrected pulse scales (see the as-written
  /// pulse below).
  datatype Plankton = Plankton(driftPhase: real, driftSpeed: real, basePos: Vec3, baseScale: real)
  datatype PlanktonBody = PlanktonBody(pos: Vec3, scale: Vec3, plankton: Plankton)

  /// The bioluminescent pulse for a sine sample: in [0.8, 1.0].
  function PlanktonPulse(s: real): (r: real)
    requires -1.0 <= s <= 1.0
    ensures 0.8 <= r <= 1.0
    ensures s == 1.0 ==> r == 1.0
    ensures s == -1.0 ==> r == 0.8
  {
    0.9 + s * 0.1
  }

  /// The drift offset for samples `sx`, `sy` (sines) and `cz` (a cosine):
  /// within 1.5 in x and z and 0.8 in y.
  function DriftOffset(sx: real, sy: real, cz: real): (r: Vec3)
    requires -1.0 <= sx <= 1.0 && -1.0 <= sy <= 1.0 && -1.0 <= cz <= 1.0
    ensures -1.5 <= r.x <= 1.5 && -0.8 <= r.y <= 0.8 && -1.5 <= r.z <= 1.5
    ensures sx == 0.0 && sy == 0.0 && cz == 0.0 ==> r == Zero
  {
    Vec3(sx * 1.5, sy * 0.8, cz * 1.5)
  }

  /// The scale update as the source writes it: the current scale is
  /// multiplied by the pulse and divided by 0.9 + 0.1, so each tick can only
  /// keep or shrink it.
  function PlanktonScaleAsWritten(scale: Vec3, s: real): (r: Vec3)
    requires -1.0 <= s <= 1.0
    ensures r.x == r.y == r.z
    ensures 0.0 <= scale.x ==> 0.8 * scale.x <= r.x <= scale.x
  {
    var p := PlanktonPulse(s);
    MulBelow(scale.x, 0.8, p);
    MulBelow(scale.x, p, 1.0);
    var q := scale.x * p;
    assert q / (0.9 + 0.1) == q;
    Splat(q / (0.9 + 0.1))
  }

  /// The as-written scale after a run of ticks with pulse samples `ss`.
  function ScaleAfterAsWritten(scale: Vec3, ss: seq<real>): Vec3
    requires forall i :: 0 <= i < |ss| ==> -1.0 <= ss[i] <= 1.0
  {
    if |ss| == 0 then scale else PlanktonScaleAsWritten(ScaleAfterAsWritten(scale, ss[..|ss| - 1]), ss[|ss| - 1])
  }

  /// The as-written scale never grows over any run of ticks; it shrinks
  /// whenever a pulse below 1 is sampled, and the shrinking compounds.
  lemma {:induction false} AsWrittenNeverGrows(scale: Vec3, ss: seq<real>)
    requires forall i :: 0 <= i < |ss| ==> -1.0 <= ss[i] <= 1.0
    requires 0.0 <= scale.x
    ensures 0.0 <= ScaleAfterAsWritten(scale, ss).x <= scale.x
  {
    if |ss| > 0 {
      AsWrittenNeverGrows(scale, ss[..|ss| - 1]);
    }
  }

  /// Two ticks at the bottom of the pulse leave a plankton of scale 1 at
  /// 0.64, below the 0.8 floor of a single pulse: the scale drifts toward
  /// zero instead of pulsing about the spawned scale.
  lemma AsWrittenDriftsBelowPulse()
    ensures ScaleAfterAsWritten(One, [-1.0, -1.0]) == Splat(0.64)
  {
    assert [-1.0, -1.0][..1] == [-1.0];
    assert [-1.0][..0] == [];
    assert ScaleAfterAsWritten(One, [-1.0]) == Splat(0.8);
  }

  /// One tick for one plankton with drift samples `sx`, `sy`, `cz` and
  /// pulse sample `sp`: it sits at its base position plus the drift offset,
  /// and its scale pulses between 0.8 and 1.0 of the spawned scale.
  function PlanktonTick(b: PlanktonBody, sx: real, sy: real, cz: real, sp: real): (r: PlanktonBody)
    requires -1.0 <= sx <= 1.0 && -1.0 <= sy <= 1.0 && -1.0 <= cz <= 1.0 && -1.0 <= sp <= 1.0
    ensures r.plankton == b.plankton
    ensures r.pos == Add(b.plankton.basePos, DriftOffset(sx, sy, cz))
    ensures r.scale.x == r.scale.y == r.scale.z
    ensures 0.0 <= b.plankton.baseScale ==>
              0.8 * b.plankton.baseScale <= r.scale.x <= b.plankton.baseScale
  {
    var pl := b.plankton;
    var p := PlanktonPulse(sp);
    assert 0.0 <= pl.baseScale ==> 0.8 * pl.baseScale <= pl.baseScale * p <= pl.baseScale by {
      if 0.0 <= pl.baseScale {
        assert (p - 0.8) * pl.baseScale >= 0.0;
        assert (1.0 - p) * pl.baseScale >= 0.0;
      }
    }
    PlanktonBody(Add(pl.basePos, DriftOffset(sx, sy, cz)), Splat(pl.baseScale * p), pl)
  }

  /// The corrected tick depends only on the samples and the component: two
  /// plankton with the same component end up the same, however they were
  /// placed and scaled before.
  lemma PlanktonForgetsHistory(a: PlanktonBody, b: PlanktonBody, sx: real, sy: real, cz: real, sp: real)
    requires -1.0 <= sx <= 1.0 && -1.0 <= sy <= 1.0 && -1.0 <= cz <= 1.0 && -1.0 <= sp <= 1.0
    requires a.plankton == b.plankton
    ensures PlanktonTick(a, sx, sy, cz, sp) == PlanktonTick(b, sx, sy, cz, sp)
  {
  }

  /// The four samples of one tick.
  datatype PlanktonSamples = PlanktonSamples(sx: real, sy: real, cz: real, sp: real)

  predicate SamplesValid(q: PlanktonSamples) {
    -1.0 <= q.sx <= 1.0 && -1.0 <= q.sy <= 1.0 && -1.0 <= q.cz <= 1.0 && -1.0 <= q.sp <= 1.0
  }

  /// The corrected plankton after a run of ticks.
  function PlanktonAfter(b: PlanktonBody, qs: seq<PlanktonSamples>): PlanktonBody
    requires forall i :: 0 <= i < |qs| ==> SamplesValid(qs[i])
  {
    if |qs| == 0 then b
    else
      var q := qs[|qs| - 1];
      assert SamplesValid(q);
      PlanktonTick(PlanktonAfter(b, qs[..|qs| - 1]), q.sx, q.sy, q.cz, q.sp)
  }

  /// Over any non-empty run of corrected ticks the plankton keeps its
  /// component and its scale stays within [0.8, 1.0] of the spawned scale:
  /// unlike the as-written update, it never drifts below the pulse.
  lemma {:induction false} PlanktonAfterInBand(b: PlanktonBody, qs: seq<PlanktonSamples>)
    requires forall i :: 0 <= i < |qs| ==> SamplesValid(qs[i])
    requires 0.0 <= b.plankton.baseScale
    ensures PlanktonAfter(b, qs).plankton == b.plankton
    ensures |qs| > 0 ==> 0.8 * b.plankton.baseScale <= PlanktonAfter(b, qs).scale.x <= b.plankton.baseScale
  {
    if |qs| > 0 {
      PlanktonAfterInBand(b, qs[..|qs| - 1]);
    }
  }

  /// A spawned plankton, for draws in [0, 1): `lo + r·span` for its scale,
  /// as both plankton waves do (0.5 + r·1.5 and 0.8 + r·1.0).
  function SpawnPlankton(base: Vec3, lo: real, span: real, rScale: real, rPhase: real, rSpeed: real,
                         speedLo: real, speedSpan: real, tau: real): (r: PlanktonBody)
    requires 0.0 <= rScale < 1.0 && 0.0 < lo && 0.0 <= span
    ensures r.pos == base && r.plankton.basePos == base
    ensures lo <= r.plankton.baseScale <= lo + span
    ensures r.scale == Splat(r.plankton.baseScale)
  {
    MulBelow(span, rScale, 1.0);
    var s := lo + rScale * span;
    PlanktonBody(base, Splat(s), Plankton(rPhase * tau, speedLo + rSpeed * speedSpan, base, s))
  }

  /// The tick at elapsed time `t`.
  function PlanktonAt(b: PlanktonBody, t: real, sin: real -> real, cos: real -> real): PlanktonBody
    requires IsWave(sin) && IsWave(cos)
  {
    var ph, sp := b.plankton.driftPhase, b.plankton.driftSpeed;
    Sample(sin, t * sp + ph);
    Sample(sin, t * sp * 0.7 + ph * 1.3);
    Sample(cos, t * sp * 0.9 + ph * 0.7);
    Sample(sin, t * 2.0 + ph);
    PlanktonTick(b, sin(t * sp + ph), sin(t * sp * 0.7 + ph * 1.3), cos(t * sp * 0.9 + ph * 0.7), sin(t * 2.0 + ph))
  }

  function PlanktonStep(t: real, sin: real -> real, cos: real -> real): PlanktonBody -> PlanktonBody
    requires IsWave(sin) && IsWave(cos)
  {
    b => PlanktonAt(b, t, sin, cos)
  }

  /// `animate_plankton` with the corrected scale update: every plankton of
  /// the query, in place.
  method AnimatePlankton(plankton: array<PlanktonBody>, t: real, sin: real -> real, cos: real -> real)
    requires IsWave(sin) && IsWave(cos)
    modifies plankton
    ensures plankton[..] == MapFirst(old(plankton[..]), plankton.Length, PlanktonStep(t, sin, cos))
  {
    ghost var data := plankton[..];
    ghost var step := PlanktonStep(t, sin, cos);
    var i := 0;
    while i < plankton.Length
      invariant 0 <= i <= plankton.Length
      invariant plankton[..] == MapFirst(data, i, step) + data[i..]
    {
      MapFirstNext(data, i, step);
      plankton[i] := PlanktonAt(plankton[i], t, sin, cos);
      i := i + 1;
    }
    assert data[i..] == [];
  }

  // ---------------------------------------------------------------------------
  // Sand
  // ---------------------------------------------------------------------------

  /// A sand grain: its translation and its `SandParticle` component.
  datatype SandParticle = SandParticle(settleSpeed: real, driftPhase: real, basePos: Vec3)
  datatype SandBody = SandBody(pos: Vec3, sand: SandParticle)

  /// The vertical offset for stir sample `stir`: lifted by (stir − 0.7)·5
  /// while stirred above 0.7, otherwise sunk by (0.7 − stir)·settle up to
  /// 0.5; never below -0.5.
  function SandLift(stir: real, settle: real): (r: real)
    ensures r >= -0.5
    ensures stir > 0.7 ==> r == (stir - 0.7) * 5.0
    ensures stir <= 0.7 && 0.0 <= settle ==>
              -0.5 <= r <= 0.0 && (r == -((0.7 - stir) * settle) || r == -0.5)
    ensures stir <= 1.0 && 0.0 <= settle ==> r <= 1.5
  {
    var amount := (0.7 - stir) * settle;
    SettleNonNegative(stir, settle);
    var y :=
      if stir > 0.7 then (stir - 0.7) * 5.0
      else -(if amount < 0.5 then amount else 0.5);
    if y < -0.5 then -0.5 else y
  }

  /// Below the stir threshold a non-negative settle speed sinks, never lifts.
  lemma SettleNonNegative(stir: real, settle: real)
    ensures stir <= 0.7 && 0.0 <= settle ==> 0.0 <= (0.7 - stir) * settle
  {
    if stir <= 0.7 && 0.0 <= settle {
      var x := 0.7 - stir;
      assert 0.0 <= x;
      assert 0.0 <= x * settle;
    }
  }

  /// One tick for one grain with drift samples `sx` (a sine), `cz` (a
  /// cosine) and stir sample `stir`: within 2 of its base in x and z.
  function SandTick(b: SandBody, sx: real, cz: real, stir: real): (r: SandBody)
    requires -1.0 <= sx <= 1.0 && -1.0 <= cz <= 1.0 && -1.0 <= stir <= 1.0
    ensures r.sand == b.sand
    ensures -2.0 <= r.pos.x - b.sand.basePos.x <= 2.0 && -2.0 <= r.pos.z - b.sand.basePos.z <= 2.0
    ensures r.pos.y == b.sand.basePos.y + SandLift(stir, b.sand.settleSpeed)
  {
    var base := b.sand.basePos;
    SandBody(Add(base, Vec3(sx * 2.0, SandLift(stir, b.sand.settleSpeed), cz * 2.0)), b.sand)
  }

  /// Grains with a non-negative settle speed stay between 0.5 below and
  /// 1.5 above their base.
  lemma SandHeightBand(b: SandBody, sx: real, cz: real, stir: real)
    requires -1.0 <= sx <= 1.0 && -1.0 <= cz <= 1.0 && -1.0 <= stir <= 1.0
    requires 0.0 <= b.sand.settleSpeed
    ensures var r := SandTick(b, sx, cz, stir);
            b.sand.basePos.y - 0.5 <= r.pos.y <= b.sand.basePos.y + 1.5
  {
  }

  /// A spawned grain: its settle speed, 0.1 + r·0.2, is non-negative, so
  /// the height band above holds for it.
  function SpawnSand(base: Vec3, rSettle: real, rPhase: real, tau: real): (r: SandBody)
    requires 0.0 <= rSettle < 1.0
    ensures 0.1 <= r.sand.settleSpeed < 0.3
    ensures r.pos == base && r.sand.basePos == base
  {
    SandBody(base, SandParticle(0.1 + rSettle * 0.2, rPhase * tau, base))
  }

  /// The tick at elapsed time `t`.
  function SandAt(b: SandBody, t: real, sin: real -> real, cos: real -> real): SandBody
    requires IsWave(sin) && IsWave(cos)
  {
    var ph := b.sand.driftPhase;
    Sample(sin, t * 0.5 + ph);
    Sample(cos, t * 0.3 + ph * 1.5);
    Sample(sin, t * 0.2 + ph);
    SandTick(b, sin(t * 0.5 + ph), cos(t * 0.3 + ph * 1.5), sin(t * 0.2 + ph))
  }

  function SandStep(t: real, sin: real -> real, cos: real -> real): SandBody -> SandBody
    requires IsWave(sin) && IsWave(cos)
  {
    b => SandAt(b, t, sin, cos)
  }

  /// `animate_sand_particles`: every grain of the query, in place.
  method AnimateSandParticles(grains: array<SandBody>, t: real, sin: real -> real, cos: real -> real)
    requires IsWave(sin) && IsWave(cos)
    modifies grains
    ensures grains[..] == MapFirst(old(grains[..]), grains.Length, SandStep(t, sin, cos))
  {
    ghost var data := grains[..];
    ghost var step := SandStep(t, sin, cos);
    var i := 0;
    while i < grains.Length
      invariant 0 <= i <= grains.Length
      invariant grains[..] == MapFirst(data, i, step) + data[i..]
    {
      MapFirstNext(data, i, step);
      grains[i] := SandAt(grains[i], t, sin, cos);
      i := i + 1;
    }
    assert data[i..] == [];
  }

  // ---------------------------------------------------------------------------
  // God rays
  // ---------------------------------------------------------------------------

  /// Euler angles about X, Y and Z, in that order, as the source builds its
  /// rotations.
  datatype EulerXYZ = EulerXYZ(x: real, y: real, z: real)

  /// A god ray entity: rotation, scale and its `GodRay` component.
  datatype GodRay = GodRay(phase: real, swaySpeed: real)
  datatype GodRayBody = GodRayBody(rotation: EulerXYZ, scale: Vec3, ray: GodRay)

  /// One tick for one ray with sway samples `sx` (a sine), `cz` (a cosine)
  /// and intensity sample `si`: tilted 0.15 ± 0.05 about X and ± 0.03 about
  /// Y, its width and depth set to an intensity in [0.8, 1.0], and its
  /// length untouched.
  function GodRayTick(b: GodRayBody, sx: real, cz: real, si: real): (r: GodRayBody)
    requires -1.0 <= sx <= 1.0 && -1.0 <= cz <= 1.0 && -1.0 <= si <= 1.0
    ensures r.ray == b.ray
    ensures 0.1 <= r.rotation.x <= 0.2 && -0.03 <= r.rotation.y <= 0.03 && r.rotation.z == 0.0
    ensures 0.8 <= r.scale.x <= 1.0 && r.scale.z == r.scale.x
    ensures r.scale.y == b.scale.y
  {
    var intensity := 0.9 + si * 0.1;
    GodRayBody(EulerXYZ(0.15 + sx * 0.05, cz * 0.03, 0.0), b.scale.(x := intensity, z := intensity), b.ray)
  }

  /// The tick at elapsed time `t`.
  function GodRayAt(b: GodRayBody, t: real, sin: real -> real, cos: real -> real): GodRayBody
    requires IsWave(sin) && IsWave(cos)
  {
    var ph, sp := b.ray.phase, b.ray.swaySpeed;
    Sample(sin, t * sp + ph);
    Sample(cos, t * sp * 0.7 + ph * 1.3);
    Sample(sin, t * 0.5 + ph);
    GodRayTick(b, sin(t * sp + ph), cos(t * sp * 0.7 + ph * 1.3), sin(t * 0.5 + ph))
  }

  function GodRayStep(t: real, sin: real -> real, cos: real -> real): GodRayBody -> GodRayBody
    requires IsWave(sin) && IsWave(cos)
  {
    b => GodRayAt(b, t, sin, cos)
  }

  /// `animate_god_rays`: every ray of the query, in place.
  method AnimateGodRays(rays: array<GodRayBody>, t: real, sin: real -> real, cos: real -> real)
    requires IsWave(sin) && IsWave(cos)
    modifies rays
    ensures rays[..] == MapFirst(old(rays[..]), rays.Length, GodRayStep(t, sin, cos))
  {
    ghost var data := rays[..];
    ghost var step := GodRayStep(t, sin, cos);
    var i := 0;
    while i < rays.Length
      invariant 0 <= i <= rays.Length
      invariant rays[..] == MapFirst(data, i, step) + data[i..]
    {
      MapFirstNext(data, i, step);
      rays[i] := GodRayAt(rays[i], t, sin, cos);
      i := i + 1;
    }
    assert data[i..] == [];
  }

  /// Ray `k` after a tick: its length is the one it had before, whatever
  /// the time.
  lemma GodRaysKeepLength(data: seq<GodRayBody>, t: real, sin: real -> real, cos: real -> real, k: nat)
    requires IsWave(sin) && IsWave(cos) && k < |data|
    ensures var r := MapFirst(data, |data|, GodRayStep(t, sin, cos))[k];
            r.scale.y == data[k].scale.y && r.ray == data[k].ray && 0.8 <= r.scale.x <= 1.0
  {
    MapFirstAt(data, |data|, GodRayStep(t, sin, cos), k);
  }
}

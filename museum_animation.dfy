// The museum's time-driven animators: the slow turn of every rotating
// artwork, the breathing of the ceiling lights, the pulsing, colour-cycling
// and morphing sculptures. Each system writes into every entity of its query
// a value computed from the elapsed time and the entity's component alone.

module MuseumAnimation {
  import opened Vectors
  import opened Sequences

  // ---------------------------------------------------------------------------
  // rotate_artworks
  // ---------------------------------------------------------------------------

  /// Radians per second about Y.
  const RotationSpeed: real := 0.3

  /// An entity that may carry `Rotating` and `AnimatedLight`, with the angle
  /// it has turned about Y since it was spawned.
  datatype Spinner = Spinner(turned: real, rotating: bool, animatedLight: bool)

  /// The query of `rotate_artworks`: rotating, and not an animated light.
  predicate Turns(e: Spinner) {
    e.rotating && !e.animatedLight
  }

  /// One tick of `rotate_artworks` for one entity.
  function Spin(e: Spinner, dt: real): (r: Spinner)
    ensures r.rotating == e.rotating && r.animatedLight == e.animatedLight
    ensures Turns(e) ==> r.turned - e.turned == RotationSpeed * dt
    ensures !Turns(e) ==> r == e
  {
    if Turns(e) then e.(turned := e.turned + dt * 0.3) else e
  }

  /// Two ticks turn as far as one tick of their summed duration.
  lemma SpinsAdd(e: Spinner, a: real, b: real)
    ensures Spin(Spin(e, a), b) == Spin(e, a + b)
  {
  }

  function SpinStep(dt: real): Spinner -> Spinner {
    e => Spin(e, dt)
  }

  /// The body of `rotate_artworks` for one entity: only a rotating entity
  /// that is not an animated light turns.
  method RotateOne(e: Spinner, dt: real) returns (r: Spinner)
    ensures r == Spin(e, dt)
  {
    r := e;
    if e.rotating && !e.animatedLight {
      r := e.(turned := e.turned + dt * 0.3);
    }
  }

  /// `rotate_artworks` over every entity, in place.
  method RotateArtworks(es: array<Spinner>, dt: real)
    modifies es
    ensures es[..] == MapFirst(old(es[..]), es.Length, SpinStep(dt))
  {
    ghost var data := es[..];
    ghost var step := SpinStep(dt);
    var i := 0;
    while i < es.Length
      invariant 0 <= i <= es.Length
      invariant es[..] == MapFirst(data, i, step) + data[i..]
    {
      MapFirstNext(data, i, step);
      es[i] := RotateOne(es[i], dt);
      i := i + 1;
    }
    assert data[i..] == [];
  }

  // ---------------------------------------------------------------------------
  // animate_lighting
  // ---------------------------------------------------------------------------

  /// A point light: its intensity and whether it carries `AnimatedLight`.
  datatype Light = Light(intensity: real, animated: bool)

  /// The light pulse for a sample `s` of sin(2t).
  function LightPulse(s: real): (r: real)
    requires -1.0 <= s <= 1.0
    ensures 0.85 <= r <= 1.0
    ensures Abs(s) == 1.0 ==> r == 1.0
    ensures s == 0.0 ==> r == 0.85
  {
    Abs(s) * 0.15 + 0.85
  }

  function LightTick(l: Light, s: real): (r: Light)
    requires -1.0 <= s <= 1.0
    ensures r.animated == l.animated
    ensures l.animated ==> r.intensity == 6000.0 * LightPulse(s) && 5100.0 <= r.intensity <= 6000.0
    ensures !l.animated ==> r == l
  {
    if l.animated then l.(intensity := 6000.0 * LightPulse(s)) else l
  }

  function LightAt(l: Light, t: real, sin: real -> real): Light
    requires IsWave(sin)
  {
    Sample(sin, t * 2.0);
    LightTick(l, sin(t * 2.0))
  }

  function LightStep(t: real, sin: real -> real): Light -> Light
    requires IsWave(sin)
  {
    l => LightAt(l, t, sin)
  }

  /// `animate_lighting` over every light, in place.
  method AnimateLighting(lights: array<Light>, t: real, sin: real -> real)
    requires IsWave(sin)
    modifies lights
    ensures lights[..] == MapFirst(old(lights[..]), lights.Length, LightStep(t, sin))
  {
    ghost var data := lights[..];
    ghost var step := LightStep(t, sin);
    var i := 0;
    while i < lights.Length
      invariant 0 <= i <= lights.Length
      invariant lights[..] == MapFirst(data, i, step) + data[i..]
    {
      MapFirstNext(data, i, step);
      lights[i] := LightAt(lights[i], t, sin);
      i := i + 1;
    }
    assert data[i..] == [];
  }

  /// After a tick every animated light has the same intensity, within
  /// [5100, 6000], and every other light is as it was.
  lemma LightsAgree(data: seq<Light>, t: real, sin: real -> real, i: nat, j: nat)
    requires IsWave(sin) && i < |data| && j < |data|
    ensures var after := MapFirst(data, |data|, LightStep(t, sin));
              (data[i].animated && data[j].animated ==> after[i].intensity == after[j].intensity) &&
              (data[i].animated ==> 5100.0 <= after[i].intensity <= 6000.0) &&
              (!data[i].animated ==> after[i] == data[i])
  {
    MapFirstAt(data, |data|, LightStep(t, sin), i);
    MapFirstAt(data, |data|, LightStep(t, sin), j);
  }

  // ---------------------------------------------------------------------------
  // animate_pulsing_sculptures
  // ---------------------------------------------------------------------------

  /// `PulsingSculpture`, with its `scale_range` as `lo` and `hi`.
  datatype PulsingSculpture = PulsingSculpture(speed: real, lo: real, hi: real, phase: real)
  datatype PulsingBody = PulsingBody(scale: Vec3, pulsing: PulsingSculpture)

  /// The scale for a sample `s` of sin(t·speed + phase).
  function PulseScale(p: PulsingSculpture, s: real): (r: real)
    requires -1.0 <= s <= 1.0
    ensures p.lo <= p.hi ==> p.lo <= r <= p.hi
    ensures Abs(s) == 1.0 ==> r == p.hi
    ensures s == 0.0 ==> r == p.lo
  {
    var a := Abs(s);
    var span := p.hi - p.lo;
    MulBelow(span, 0.0, a);
    MulBelow(span, a, 1.0);
    p.lo + span * a
  }

  /// One tick for one sculpture, given the sample `s` of sin(t·speed + phase).
  function PulseTick(b: PulsingBody, s: real): (r: PulsingBody)
    requires -1.0 <= s <= 1.0
    ensures r.pulsing == b.pulsing
    ensures r.scale.x == r.scale.y == r.scale.z
    ensures b.pulsing.lo <= b.pulsing.hi ==> b.pulsing.lo <= r.scale.x <= b.pulsing.hi
  {
    b.(scale := Splat(PulseScale(b.pulsing, s)))
  }

  /// The scale depends only on the sample and the component: the scale the
  /// sculpture had before is forgotten, so two evaluations at the same time
  /// agree.
  lemma PulseForgetsScale(b: PulsingBody, s0: real, s: real)
    requires -1.0 <= s0 <= 1.0 && -1.0 <= s <= 1.0
    ensures PulseTick(PulseTick(b, s0), s) == PulseTick(b, s)
  {
  }

  /// The tick at elapsed time `t`.
  function PulseAt(b: PulsingBody, t: real, sin: real -> real): PulsingBody
    requires IsWave(sin)
  {
    var p := b.pulsing;
    Sample(sin, t * p.speed + p.phase);
    PulseTick(b, sin(t * p.speed + p.phase))
  }

  function PulseStep(t: real, sin: real -> real): PulsingBody -> PulsingBody
    requires IsWave(sin)
  {
    b => PulseAt(b, t, sin)
  }

  /// `animate_pulsing_sculptures` over every sculpture, in place.
  method AnimatePulsingSculptures(bodies: array<PulsingBody>, t: real, sin: real -> real)
    requires IsWave(sin)
    modifies bodies
    ensures bodies[..] == MapFirst(old(bodies[..]), bodies.Length, PulseStep(t, sin))
  {
    ghost var data := bodies[..];
    ghost var step := PulseStep(t, sin);
    var i := 0;
    while i < bodies.Length
      invariant 0 <= i <= bodies.Length
      invariant bodies[..] == MapFirst(data, i, step) + data[i..]
    {
      MapFirstNext(data, i, step);
      bodies[i] := PulseAt(bodies[i], t, sin);
      i := i + 1;
    }
    assert data[i..] == [];
  }

  /// The two pulsing sculptures of the gallery: the energy sphere and the
  /// energy torus.
  const SpawnedPulsing: seq<PulsingSculpture> := [
    PulsingSculpture(2.0, 0.9, 1.1, 0.0),
    PulsingSculpture(3.0, 0.8, 1.2, 1.57)
  ]

  /// Both stay within scale [0.8, 1.2].
  lemma SpawnedPulsingInRange(k: nat, b: PulsingBody, s: real)
    requires -1.0 <= s <= 1.0 && k < |SpawnedPulsing| && b.pulsing == SpawnedPulsing[k]
    ensures 0.8 <= PulseTick(b, s).scale.x <= 1.2
  {
  }

  // ---------------------------------------------------------------------------
  // animate_color_cycling_sculptures
  // ---------------------------------------------------------------------------

  /// An HSL colour; the conversion to RGB is not modelled.
  datatype Hsl = Hsl(hue: real, saturation: real, lightness: real)

  /// The colours the system writes into a `StandardMaterial`: the base
  /// colour, and the emissive colour with the factor it is multiplied by.
  datatype StandardMaterial = StandardMaterial(baseColor: Hsl, emissive: Hsl, emissiveScale: real)

  datatype ColorCyclingSculpture = ColorCyclingSculpture(speed: real, hueOffset: real)

  /// A colour-cycling entity and its material: `Some` when the material is
  /// a `StandardMaterial` asset, `None` when it is a shader material, which
  /// the system's query does not match.
  datatype CyclingBody = CyclingBody(cycling: ColorCyclingSculpture, material: Option<StandardMaterial>)

  /// `a % 360.0` on floats: the remainder of the division truncated toward
  /// zero, which has the sign of `a`.
  function Rem360(a: real): (r: real)
    ensures 0.0 <= a ==> 0.0 <= r < 360.0
    ensures a < 0.0 ==> -360.0 < r <= 0.0
    ensures 0.0 <= a < 360.0 ==> r == a
  {
    if 0.0 <= a then
      var q := (a / 360.0).Floor;
      a - 360.0 * q as real
    else
      var q := (-a / 360.0).Floor;
      a + 360.0 * q as real
  }

  /// A hue and the hue a full turn later are the same.
  lemma {:induction false} Rem360Periodic(a: real)
    requires 0.0 <= a
    ensures Rem360(a + 360.0) == Rem360(a)
  {
    assert (a + 360.0) / 360.0 == a / 360.0 + 1.0;
    assert ((a + 360.0) / 360.0).Floor == (a / 360.0).Floor + 1;
  }

  /// The hue at elapsed time `t`: the offset plus 60 degrees per second per
  /// unit of speed, wrapped.
  function Hue(c: ColorCyclingSculpture, t: real): (h: real)
    ensures 0.0 <= c.hueOffset + t * c.speed * 60.0 ==> 0.0 <= h < 360.0
  {
    Rem360(c.hueOffset + t * c.speed * 60.0)
  }

  function CycleColor(b: CyclingBody, t: real): (r: CyclingBody)
    ensures r.cycling == b.cycling
    ensures b.material.None? ==> r == b
    ensures b.material.Some? ==>
              var h := Hue(b.cycling, t);
              r.material == Some(StandardMaterial(Hsl(h, 0.8, 0.6), Hsl(h, 0.8, 0.3), 0.3))
  {
    match b.material
    case None => b
    case Some(_) =>
      var h := Hue(b.cycling, t);
      b.(material := Some(StandardMaterial(Hsl(h, 0.8, 0.6), Hsl(h, 0.8, 0.3), 0.3)))
  }

  function CycleStep(t: real): CyclingBody -> CyclingBody {
    b => CycleColor(b, t)
  }

  /// `animate_color_cycling_sculptures` over every colour-cycling entity,
  /// in place.
  method AnimateColorCyclingSculptures(bodies: array<CyclingBody>, t: real)
    modifies bodies
    ensures bodies[..] == MapFirst(old(bodies[..]), bodies.Length, CycleStep(t))
  {
    ghost var data := bodies[..];
    ghost var step := CycleStep(t);
    var i := 0;
    while i < bodies.Length
      invariant 0 <= i <= bodies.Length
      invariant bodies[..] == MapFirst(data, i, step) + data[i..]
    {
      MapFirstNext(data, i, step);
      bodies[i] := CycleColor(bodies[i], t);
      i := i + 1;
    }
    assert data[i..] == [];
  }

  /// The colour-cycling sculptures the museum spawns: six crystals of the
  /// crystal sculpture, the constellation sphere and the holographic
  /// crystal. All three kinds use shader materials.
  const SpawnedCyclers: seq<CyclingBody> := [
    CyclingBody(ColorCyclingSculpture(0.8, 0.0), None),
    CyclingBody(ColorCyclingSculpture(0.8, 0.2), None),
    CyclingBody(ColorCyclingSculpture(0.8, 0.4), None),
    CyclingBody(ColorCyclingSculpture(0.8, 0.6), None),
    CyclingBody(ColorCyclingSculpture(0.8, 0.8), None),
    CyclingBody(ColorCyclingSculpture(0.8, 1.0), None),
    CyclingBody(ColorCyclingSculpture(0.3, 240.0), None),
    CyclingBody(ColorCyclingSculpture(1.5, 120.0), None)
  ]

  /// So the system changes none of them, at any time.
  lemma SpawnedCyclersUnchanged(t: real)
    ensures MapFirst(SpawnedCyclers, |SpawnedCyclers|, CycleStep(t)) == SpawnedCyclers
  {
    var after := MapFirst(SpawnedCyclers, |SpawnedCyclers|, CycleStep(t));
    forall k | 0 <= k < |SpawnedCyclers|
      ensures after[k] == SpawnedCyclers[k]
    {
      MapFirstAt(SpawnedCyclers, |SpawnedCyclers|, CycleStep(t), k);
    }
  }

  // ---------------------------------------------------------------------------
  // animate_morphing_sculptures
  // ---------------------------------------------------------------------------

  /// `MorphingSculpture`; its base mesh handle is not modelled.
  datatype MorphingSculpture = MorphingSculpture(speed: real, amplitude: real)
  datatype MorphingBody = MorphingBody(scale: Vec3, morphing: MorphingSculpture)

  /// The common factor for samples `a` of sin u, `b` of sin 1.7u and `c` of
  /// cos 2.3u.
  function MorphFactor(amp: real, a: real, b: real, c: real): (f: real)
    requires -1.0 <= a <= 1.0 && -1.0 <= b <= 1.0 && -1.0 <= c <= 1.0
    ensures 0.0 <= amp ==> 1.0 - 0.65 * amp <= f <= 1.0 + 0.65 * amp
  {
    var w := a * 0.3 + b * 0.2 + c * 0.15;
    MulInBand(w, 0.65, amp);
    1.0 + w * amp
  }

  /// One axis: the factor times 1 + 0.1·w for a wave sample `w`.
  function AxisScale(f: real, w: real): (r: real)
    requires -1.0 <= w <= 1.0
    ensures 0.0 <= f ==> 0.9 * f <= r <= 1.1 * f
  {
    var k := 1.0 + w * 0.1;
    MulBelow(f, 0.9, k);
    MulBelow(f, k, 1.1);
    f * k
  }

  /// One tick for one sculpture, given the samples `a` of sin u, `b` of
  /// sin 1.7u, `c` of cos 2.3u and `wx`, `wy`, `wz` of sin 0.7u, cos 0.9u
  /// and sin 1.1u, for u = t·speed.
  function MorphTick(m: MorphingBody, a: real, b: real, c: real, wx: real, wy: real, wz: real): (r: MorphingBody)
    requires -1.0 <= a <= 1.0 && -1.0 <= b <= 1.0 && -1.0 <= c <= 1.0
    requires -1.0 <= wx <= 1.0 && -1.0 <= wy <= 1.0 && -1.0 <= wz <= 1.0
    ensures r.morphing == m.morphing
    ensures var lo, hi := 1.0 - 0.65 * m.morphing.amplitude, 1.0 + 0.65 * m.morphing.amplitude;
            0.0 <= m.morphing.amplitude && 0.0 <= lo ==>
              0.9 * lo <= r.scale.x <= 1.1 * hi && 0.9 * lo <= r.scale.y <= 1.1 * hi &&
              0.9 * lo <= r.scale.z <= 1.1 * hi
  {
    var amp := m.morphing.amplitude;
    var f := MorphFactor(amp, a, b, c);
    var lo, hi := 1.0 - 0.65 * amp, 1.0 + 0.65 * amp;
    var sx, sy, sz := AxisScale(f, wx), AxisScale(f, wy), AxisScale(f, wz);
    MulBelow(0.9, lo, f);
    MulBelow(1.1, f, hi);
    m.(scale := Vec3(sx, sy, sz))
  }

  /// The scale depends only on the samples and the component.
  lemma MorphForgetsScale(m: MorphingBody, a0: real, b0: real, c0: real, x0: real, y0: real, z0: real,
                          a: real, b: real, c: real, wx: real, wy: real, wz: real)
    requires -1.0 <= a0 <= 1.0 && -1.0 <= b0 <= 1.0 && -1.0 <= c0 <= 1.0
    requires -1.0 <= x0 <= 1.0 && -1.0 <= y0 <= 1.0 && -1.0 <= z0 <= 1.0
    requires -1.0 <= a <= 1.0 && -1.0 <= b <= 1.0 && -1.0 <= c <= 1.0
    requires -1.0 <= wx <= 1.0 && -1.0 <= wy <= 1.0 && -1.0 <= wz <= 1.0
    ensures MorphTick(MorphTick(m, a0, b0, c0, x0, y0, z0), a, b, c, wx, wy, wz) == MorphTick(m, a, b, c, wx, wy, wz)
  {
  }

  /// The tick at elapsed time `t`, sampling the waves where the source does.
  function MorphAt(m: MorphingBody, t: real, sin: real -> real, cos: real -> real): MorphingBody
    requires IsWave(sin) && IsWave(cos)
  {
    var u := t * m.morphing.speed;
    Sample(sin, u);
    Sample(sin, u * 1.7);
    Sample(cos, u * 2.3);
    Sample(sin, u * 0.7);
    Sample(cos, u * 0.9);
    Sample(sin, u * 1.1);
    MorphTick(m, sin(u), sin(u * 1.7), cos(u * 2.3), sin(u * 0.7), cos(u * 0.9), sin(u * 1.1))
  }

  function MorphStep(t: real, sin: real -> real, cos: real -> real): MorphingBody -> MorphingBody
    requires IsWave(sin) && IsWave(cos)
  {
    b => MorphAt(b, t, sin, cos)
  }

  /// `animate_morphing_sculptures` over every sculpture, in place.
  method AnimateMorphingSculptures(bodies: array<MorphingBody>, t: real, sin: real -> real, cos: real -> real)
    requires IsWave(sin) && IsWave(cos)
    modifies bodies
    ensures bodies[..] == MapFirst(old(bodies[..]), bodies.Length, MorphStep(t, sin, cos))
  {
    ghost var data := bodies[..];
    ghost var step := MorphStep(t, sin, cos);
    var i := 0;
    while i < bodies.Length
      invariant 0 <= i <= bodies.Length
      invariant bodies[..] == MapFirst(data, i, step) + data[i..]
    {
      MapFirstNext(data, i, step);
      bodies[i] := MorphAt(bodies[i], t, sin, cos);
      i := i + 1;
    }
    assert data[i..] == [];
  }

  /// The amplitudes the morphing displays use (the central piece, the
  /// platonic ring, the mandala ring, the flowing forms and the
  /// tetrahedron) are at most 0.4, so every axis keeps a scale of at least
  /// 0.9 · (1 − 0.65 · 0.4) = 0.666: no sculpture collapses or turns
  /// inside out.
  lemma MorphingNeverCollapses(m: MorphingBody, a: real, b: real, c: real, wx: real, wy: real, wz: real)
    requires -1.0 <= a <= 1.0 && -1.0 <= b <= 1.0 && -1.0 <= c <= 1.0
    requires -1.0 <= wx <= 1.0 && -1.0 <= wy <= 1.0 && -1.0 <= wz <= 1.0
    requires m.morphing.amplitude in {0.4, 0.25, 0.15, 0.2, 0.18}
    ensures var s := MorphTick(m, a, b, c, wx, wy, wz).scale; 0.666 <= s.x && 0.666 <= s.y && 0.666 <= s.z
  {
    var amp := m.morphing.amplitude;
    assert 0.0 <= amp <= 0.4;
    assert 0.9 * 0.74 <= 0.9 * (1.0 - 0.65 * amp);
  }
}

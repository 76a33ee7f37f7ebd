// The ocean scene's coral reef: the four species and their tables, how a
// cluster picks its size and species from random numbers, the parameters a
// coral is spawned with, and the swaying animation. Random numbers are
// inputs: `u32` draws as naturals, `f32` draws as reals in [0, 1).

module Coral {
  import opened Vectors
  import opened Sequences

  datatype CoralSpecies = Branching | Brain | Fan | Tube

  /// A colour as four components in [0, 1].
  datatype Vec4 = Vec4(r: real, g: real, b: real, a: real)

  function BaseColor(s: CoralSpecies): Vec4 {
    match s
    case Branching => Vec4(1.0, 0.4, 0.5, 1.0)
    case Brain => Vec4(0.9, 0.75, 0.3, 1.0)
    case Fan => Vec4(0.6, 0.2, 0.8, 1.0)
    case Tube => Vec4(0.3, 0.9, 0.7, 1.0)
  }

  function TipColor(s: CoralSpecies): Vec4 {
    match s
    case Branching => Vec4(1.0, 0.7, 0.75, 1.0)
    case Brain => Vec4(1.0, 0.9, 0.5, 1.0)
    case Fan => Vec4(0.8, 0.5, 1.0, 1.0)
    case Tube => Vec4(0.5, 1.0, 0.9, 1.0)
  }

  function GlowIntensity(s: CoralSpecies): (g: real)
    ensures g == 0.2 || g == 0.15 || g == 0.3 || g == 0.25
  {
    match s
    case Branching => 0.2
    case Brain => 0.15
    case Fan => 0.3
    case Tube => 0.25
  }

  predicate ColourInRange(c: Vec4) {
    0.0 <= c.r <= 1.0 && 0.0 <= c.g <= 1.0 && 0.0 <= c.b <= 1.0 && 0.0 <= c.a <= 1.0
  }

  /// Every species has opaque base and tip colours, its tips at least as
  /// light as its base in every channel, and a glow of its own.
  lemma SpeciesTables(s: CoralSpecies, u: CoralSpecies)
    ensures ColourInRange(BaseColor(s)) && ColourInRange(TipColor(s))
    ensures BaseColor(s).a == 1.0 && TipColor(s).a == 1.0
    ensures BaseColor(s).r <= TipColor(s).r && BaseColor(s).g <= TipColor(s).g && BaseColor(s).b <= TipColor(s).b
    ensures BaseColor(s) != TipColor(s)
    ensures s != u ==> GlowIntensity(s) != GlowIntensity(u) && BaseColor(s) != BaseColor(u)
  {
  }

  // ---------------------------------------------------------------------------
  // Clusters
  // ---------------------------------------------------------------------------

  /// The five reef centres, one cluster each.
  const ReefCenters: seq<Vec3> := [
    Vec3(15.0, 0.0, 10.0), Vec3(-20.0, 0.0, -15.0), Vec3(5.0, 0.0, -25.0),
    Vec3(-10.0, 0.0, 20.0), Vec3(30.0, 0.0, -5.0)
  ]

  /// The number of corals in a cluster for a `u32` draw `r`.
  function CoralCount(r: nat): (n: nat)
    ensures 15 <= n <= 24
  {
    15 + r % 10
  }

  /// Every cluster size from 15 to 24 comes from some draw.
  lemma EveryCountOccurs(n: nat)
    requires 15 <= n <= 24
    ensures CoralCount(n - 15) == n
  {
  }

  /// The species for a `u32` draw `r`.
  function SpeciesOf(r: nat): (s: CoralSpecies)
    ensures r % 4 == 0 <==> s == Branching
    ensures r % 4 == 1 <==> s == Brain
    ensures r % 4 == 2 <==> s == Fan
    ensures r % 4 == 3 <==> s == Tube
  {
    match r % 4
    case 0 => Branching
    case 1 => Brain
    case 2 => Fan
    case _ => Tube
  }

  /// The species depends only on the draw modulo 4, and every species is
  /// drawn by one of 0, 1, 2, 3.
  lemma SpeciesCycle(r: nat, s: CoralSpecies)
    ensures SpeciesOf(r + 4) == SpeciesOf(r)
    ensures exists k :: 0 <= k < 4 && SpeciesOf(k) == s
  {
    match s
    case Branching => assert SpeciesOf(0) == s;
    case Brain => assert SpeciesOf(1) == s;
    case Fan => assert SpeciesOf(2) == s;
    case Tube => assert SpeciesOf(3) == s;
  }

  /// A coral's position in a cluster about `center`, for draws `rx`, `rz`
  /// and the terrain height there: within 10 of the centre in x and z.
  function ClusterPosition(center: Vec3, rx: real, rz: real, terrainY: real): (p: Vec3)
    requires 0.0 <= rx < 1.0 && 0.0 <= rz < 1.0
    ensures center.x - 10.0 <= p.x < center.x + 10.0 && center.z - 10.0 <= p.z < center.z + 10.0
    ensures p.y == terrainY
  {
    Vec3(center.x + (rx - 0.5) * 20.0, terrainY, center.z + (rz - 0.5) * 20.0)
  }

  // ---------------------------------------------------------------------------
  // Shapes and rotations
  // ---------------------------------------------------------------------------

  /// A mesh or collider shape: capsule (radius, length), sphere (radius) or
  /// cylinder (radius, height).
  datatype Shape = Capsule(radius: real, length: real) | Sphere(r: real) | Cylinder(cr: real, height: real)

  function ScaledShape(sh: Shape, k: real): Shape {
    match sh
    case Capsule(r, l) => Capsule(r * k, l * k)
    case Sphere(r) => Sphere(r * k)
    case Cylinder(r, h) => Cylinder(r * k, h * k)
  }

  /// The mesh each species is drawn with.
  function MeshOf(s: CoralSpecies): Shape {
    match s
    case Branching => Capsule(0.3, 1.5)
    case Brain => Sphere(0.8)
    case Fan => Cylinder(0.8, 0.1)
    case Tube => Cylinder(0.2, 1.2)
  }

  /// The collider each species is given at scale `k`, as the source writes
  /// it out per species.
  function ColliderOf(s: CoralSpecies, k: real): Shape {
    match s
    case Branching => Capsule(0.3 * k, 1.5 * k)
    case Brain => Sphere(0.8 * k)
    case Fan => Cylinder(0.8 * k, 0.1 * k)
    case Tube => Cylinder(0.2 * k, 1.2 * k)
  }

  /// Every species' collider is its mesh scaled by the coral's scale, so the
  /// collider matches what is drawn.
  lemma ColliderMatchesMesh(s: CoralSpecies, k: real)
    ensures ColliderOf(s, k) == ScaledShape(MeshOf(s), k)
  {
  }

  /// An elementary rotation about one axis; a rotation is the product of a
  /// sequence of them, left to right.
  datatype Turn = RotX(ax: real) | RotY(ay: real) | RotZ(az: real)

  /// The rotation a coral is spawned with for a draw `r` in [0, 1): a sea
  /// fan is stood up by a quarter turn about X and then turned about its own
  /// axis; every other species is turned about Y only.
  function SpawnRotation(s: CoralSpecies, r: real, tau: real): (q: seq<Turn>)
    ensures s == Fan <==> (|q| == 2 && q[0] == RotX(tau / 4.0))
    ensures s != Fan ==> q == [RotY(r * tau)]
  {
    if s == Fan then [RotX(tau / 4.0), RotZ(r * tau)] else [RotY(r * tau)]
  }

  // ---------------------------------------------------------------------------
  // Sway
  // ---------------------------------------------------------------------------

  /// The `CoralSway` component. `rest` is the rotation the coral was
  /// spawned with, which the corrected sway keeps (see the as-written sway
  /// below).
  datatype CoralSway = CoralSway(phase: real, amplitude: real, rest: seq<Turn>)

  /// A coral entity.
  datatype CoralBody = CoralBody(species: CoralSpecies, pos: Vec3, rotation: seq<Turn>, scale: Vec3, sway: CoralSway)

  /// The parameters `spawn_coral` draws, for `f32` draws in [0, 1): scale
  /// in [0.5, 2), phase in [0, tau), amplitude in [0.02, 0.05) and polyp
  /// density in [15, 25).
  datatype Drawn = Drawn(scale: real, phase: real, polypDensity: real, turn: real, amplitude: real)

  function SpawnDraws(rScale: real, rPhase: real, rPolyp: real, rTurn: real, rAmp: real, tau: real): (d: Drawn)
    requires 0.0 <= rScale < 1.0 && 0.0 <= rPhase < 1.0 && 0.0 <= rPolyp < 1.0 && 0.0 <= rTurn < 1.0 && 0.0 <= rAmp < 1.0
    requires 0.0 < tau
    ensures 0.5 <= d.scale < 2.0
    ensures 0.0 <= d.phase < tau
    ensures 15.0 <= d.polypDensity < 25.0
    ensures 0.02 <= d.amplitude < 0.05
  {
    MulBelow(tau, rPhase, 1.0);
    assert rPhase * tau < tau by {
      assert (1.0 - rPhase) * tau > 0.0;
    }
    Drawn(0.5 + rScale * 1.5, rPhase * tau, 15.0 + rPolyp * 10.0, rTurn, 0.02 + rAmp * 0.03)
  }

  /// `spawn_coral`: a coral of species `s` at `position`, uniformly scaled,
  /// with its species' rotation and a collider matching its mesh.
  function SpawnCoral(s: CoralSpecies, position: Vec3, d: Drawn, tau: real): (c: CoralBody)
    ensures c.pos == position && c.scale == Splat(d.scale) && c.species == s
    ensures c.rotation == SpawnRotation(s, d.turn, tau) && c.sway.rest == c.rotation
    ensures c.sway.phase == d.phase && c.sway.amplitude == d.amplitude
  {
    var q := SpawnRotation(s, d.turn, tau);
    CoralBody(s, position, q, Splat(d.scale), CoralSway(d.phase, d.amplitude, q))
  }

  /// The sway angle for a sine sample: within the amplitude either way.
  function SwayAngle(s: real, amplitude: real): (a: real)
    requires -1.0 <= s <= 1.0
    ensures 0.0 <= amplitude ==> -amplitude <= a <= amplitude
    ensures s == 0.0 ==> a == 0.0
  {
    MulBound(s, amplitude);
    s * amplitude
  }

  /// The rotation `sway_coral` writes as the source has it: a turn about Z
  /// followed by half that turn about X, replacing the whole rotation.
  function SwayAsWritten(c: CoralBody, s: real): (r: CoralBody)
    requires -1.0 <= s <= 1.0
    ensures r.scale == c.scale && r.pos == c.pos && r.sway == c.sway
  {
    var a := SwayAngle(s, c.sway.amplitude);
    c.(rotation := [RotZ(a), RotX(a * 0.5)])
  }

  /// As written, a tick discards the spawn rotation: whatever rotation a
  /// coral had, the sway leaves exactly the two sway turns.
  lemma SwayAsWrittenIgnoresSpawnRotation(c: CoralBody, q: seq<Turn>, s: real)
    requires -1.0 <= s <= 1.0
    ensures SwayAsWritten(c.(rotation := q), s) == SwayAsWritten(c, s)
    ensures SwayAsWritten(c, s).rotation == [RotZ(SwayAngle(s, c.sway.amplitude)), RotX(SwayAngle(s, c.sway.amplitude) * 0.5)]
  {
  }

  /// So a sea fan standing on its quarter turn about X, with a spawned
  /// amplitude below 0.05, keeps no quarter turn about X anywhere in its
  /// rotation after the first frame (for tau = 2π, any tau above 0.1): it
  /// lies flat like the other species.
  lemma SwayAsWrittenLosesFanTilt(c: CoralBody, s: real, tau: real)
    requires -1.0 <= s <= 1.0
    requires c.species == Fan && |c.rotation| > 0 && c.rotation[0] == RotX(tau / 4.0)
    requires 0.0 <= c.sway.amplitude < 0.05 && 0.1 < tau
    ensures RotX(tau / 4.0) in c.rotation
    ensures RotX(tau / 4.0) !in SwayAsWritten(c, s).rotation
    ensures |SwayAsWritten(c, s).rotation| == 2
  {
    var a := SwayAngle(s, c.sway.amplitude);
    assert SwayAsWritten(c, s).rotation == [RotZ(a), RotX(a * 0.5)];
    assert a * 0.5 < tau / 4.0;
  }

  /// One tick of the corrected sway: the spawn rotation, then a turn about Z
  /// by the sway angle and half of it about X; scale and position are kept.
  function SwayTick(c: CoralBody, s: real): (r: CoralBody)
    requires -1.0 <= s <= 1.0
    ensures r.scale == c.scale && r.pos == c.pos && r.sway == c.sway && r.species == c.species
    ensures |r.rotation| == |c.sway.rest| + 2 && r.rotation[..|c.sway.rest|] == c.sway.rest
    ensures r.rotation[|c.sway.rest|..] == [RotZ(SwayAngle(s, c.sway.amplitude)), RotX(SwayAngle(s, c.sway.amplitude) * 0.5)]
  {
    var a := SwayAngle(s, c.sway.amplitude);
    c.(rotation := c.sway.rest + [RotZ(a), RotX(a * 0.5)])
  }

  /// A spawned sea fan keeps its upright quarter turn through any tick of
  /// the corrected sway, and any other species keeps its turn about Y.
  lemma SwayKeepsSpawnTilt(k: CoralSpecies, position: Vec3, d: Drawn, tau: real, s: real)
    requires -1.0 <= s <= 1.0
    ensures var r := SwayTick(SpawnCoral(k, position, d, tau), s);
            (k == Fan ==> r.rotation[0] == RotX(tau / 4.0)) &&
            (k != Fan ==> r.rotation[0] == RotY(d.turn * tau)) &&
            r.scale == Splat(d.scale)
  {
    var c := SpawnCoral(k, position, d, tau);
    assert SwayTick(c, s).rotation[0] == c.sway.rest[0];
  }

  /// The tick at elapsed time `t`.
  function SwayAt(c: CoralBody, t: real, sin: real -> real): CoralBody
    requires IsWave(sin)
  {
    Sample(sin, t + c.sway.phase);
    SwayTick(c, sin(t + c.sway.phase))
  }

  function SwayStep(t: real, sin: real -> real): CoralBody -> CoralBody
    requires IsWave(sin)
  {
    c => SwayAt(c, t, sin)
  }

  /// `sway_coral` with the corrected rotation: every coral of the query, in
  /// place.
  method SwayCoral(corals: array<CoralBody>, t: real, sin: real -> real)
    requires IsWave(sin)
    modifies corals
    ensures corals[..] == MapFirst(old(corals[..]), corals.Length, SwayStep(t, sin))
  {
    ghost var data := corals[..];
    ghost var step := SwayStep(t, sin);
    var i := 0;
    while i < corals.Length
      invariant 0 <= i <= corals.Length
      invariant corals[..] == MapFirst(data, i, step) + data[i..]
    {
      MapFirstNext(data, i, step);
      corals[i] := SwayAt(corals[i], t, sin);
      i := i + 1;
    }
    assert data[i..] == [];
  }

  /// After a tick, coral `k` has the scale, position and species it had.
  lemma SwayKeepsScale(data: seq<CoralBody>, t: real, sin: real -> real, k: nat)
    requires IsWave(sin) && k < |data|
    ensures var r := MapFirst(data, |data|, SwayStep(t, sin))[k];
            r.scale == data[k].scale && r.pos == data[k].pos && r.species == data[k].species
  {
    MapFirstAt(data, |data|, SwayStep(t, sin), k);
  }
}

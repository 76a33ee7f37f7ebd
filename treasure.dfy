// The ocean scene's hidden treasure: the chest, the ring of gold particles
// floating about it and the coins scattered around it, the pulsing glow
// above it, and their animations. Terrain height, random draws, sines and
// cosines are inputs.

module Treasure {
  import opened Vectors
  import opened Sequences

  /// The chest stands half a unit above the seafloor at (25, -20).
  function ChestPosition(terrainY: real): (p: Vec3)
    ensures p.x == 25.0 && p.z == -20.0 && p.y == terrainY + 0.5
  {
    Vec3(25.0, terrainY + 0.5, -20.0)
  }

  // ---------------------------------------------------------------------------
  // Glow
  // ---------------------------------------------------------------------------

  /// The glow sphere: 1.5 above the chest, and its scale.
  datatype GlowBody = GlowBody(pos: Vec3, scale: Vec3)

  function SpawnGlow(chest: Vec3): (g: GlowBody)
    ensures g.pos == Vec3(chest.x, chest.y + 1.5, chest.z) && g.scale == One
  {
    GlowBody(Add(chest, Scale(UnitY, 1.5)), One)
  }

  /// The glow's scale for a sine sample: uniform, in [0.8, 1.2], and 1 when
  /// the sample is 0.
  function GlowScale(s: real): (r: Vec3)
    requires -1.0 <= s <= 1.0
    ensures r.x == r.y == r.z
    ensures 0.8 <= r.x <= 1.2
    ensures s == 0.0 ==> r == One
  {
    Splat(s * 0.2 + 1.0)
  }

  /// The glow's scale at elapsed time `t`.
  function GlowAt(t: real, sin: real -> real): (r: Vec3)
    requires IsWave(sin)
    ensures r.x == r.y == r.z && 0.8 <= r.x <= 1.2
  {
    Sample(sin, t * 2.0);
    GlowScale(sin(t * 2.0))
  }

  /// `animate_treasure_glow`: every glow gets the same scale, from the time
  /// alone; positions are untouched.
  method AnimateTreasureGlow(glows: array<GlowBody>, t: real, sin: real -> real)
    requires IsWave(sin)
    modifies glows
    ensures forall k :: 0 <= k < glows.Length ==>
              glows[k].pos == old(glows[k].pos) && glows[k].scale == GlowAt(t, sin)
  {
    var pulse := GlowAt(t, sin);
    var i := 0;
    while i < glows.Length
      invariant 0 <= i <= glows.Length
      invariant forall k :: 0 <= k < i ==> glows[k].pos == old(glows[k].pos) && glows[k].scale == pulse
      invariant forall k :: i <= k < glows.Length ==> glows[k] == old(glows[k])
    {
      glows[i] := glows[i].(scale := pulse);
      i := i + 1;
    }
  }

  // ---------------------------------------------------------------------------
  // Gold particles
  // ---------------------------------------------------------------------------

  /// The `GoldParticle` component and the particle entity: its translation,
  /// scale, and its turn about Y so far.
  datatype GoldParticle = GoldParticle(basePos: Vec3, phase: real)
  datatype GoldBody = GoldBody(pos: Vec3, scale: Vec3, yaw: real, particle: GoldParticle)

  /// Cosine and sine together: a point on the unit circle at every angle.
  ghost predicate OnCircle(cos: real -> real, sin: real -> real, u: real) {
    cos(u) * cos(u) + sin(u) * sin(u) == 1.0
  }

  ghost predicate IsCircle(cos: real -> real, sin: real -> real) {
    forall u {:trigger OnCircle(cos, sin, u)} :: OnCircle(cos, sin, u)
  }

  /// The draws for one particle, each in [0, 1).
  datatype ParticleDraw = ParticleDraw(radius: real, height: real, scale: real, phase: real)

  predicate ParticleDrawValid(d: ParticleDraw) {
    0.0 <= d.radius < 1.0 && 0.0 <= d.height < 1.0 && 0.0 <= d.scale < 1.0 && 0.0 <= d.phase < 1.0
  }

  /// A point (c, s) of the unit circle scaled by a radius in [2, 3.5) lies
  /// at a squared distance in [4, 12.25) from the centre.
  lemma RingSquare(c: real, s: real, radius: real)
    requires c * c + s * s == 1.0 && 2.0 <= radius < 3.5
    ensures 4.0 <= (c * radius) * (c * radius) + (s * radius) * (s * radius) < 12.25
  {
    assert (c * radius) * (c * radius) + (s * radius) * (s * radius) == (c * c + s * s) * (radius * radius);
    MulBelow(radius, 2.0, radius);
    assert (3.5 - radius) * radius > 0.0;
    assert radius * radius < 3.5 * radius;
  }

  /// A particle at the point (c, s) of the unit circle: at a horizontal
  /// distance in [2, 3.5) from the chest and 1 to 3 above it, resting at its
  /// base position with no turn yet.
  function SpawnGoldParticle(chest: Vec3, c: real, s: real, d: ParticleDraw, tau: real): (r: GoldBody)
    requires c * c + s * s == 1.0 && ParticleDrawValid(d)
    ensures r.pos == r.particle.basePos && r.yaw == 0.0
    ensures chest.y + 1.0 <= r.pos.y < chest.y + 3.0
    ensures var dx, dz := r.pos.x - chest.x, r.pos.z - chest.z;
            4.0 <= dx * dx + dz * dz < 12.25
    ensures 0.3 <= r.scale.x < 0.7 && r.scale == Splat(r.scale.x)
  {
    var radius := 2.0 + d.radius * 1.5;
    var p := Add(chest, Vec3(c * radius, 1.0 + d.height * 2.0, s * radius));
    RingSquare(c, s, radius);
    assert p.x - chest.x == c * radius && p.z - chest.z == s * radius;
    GoldBody(p, Splat(0.3 + d.scale * 0.4), 0.0, GoldParticle(p, d.phase * tau))
  }

  /// Particle `i` of the ring, at angle i·tau/12.
  function RingParticle(chest: Vec3, i: nat, d: ParticleDraw, cos: real -> real, sin: real -> real, tau: real): GoldBody
    requires IsCircle(cos, sin) && ParticleDrawValid(d)
  {
    var angle := i as real / 12.0 * tau;
    assert OnCircle(cos, sin, angle);
    SpawnGoldParticle(chest, cos(angle), sin(angle), d, tau)
  }

  /// The twelve particles of `spawn_treasure`: particle `i` at angle
  /// i·tau/12.
  method SpawnGoldParticles(chest: Vec3, draws: seq<ParticleDraw>, cos: real -> real, sin: real -> real, tau: real)
    returns (ps: seq<GoldBody>)
    requires IsCircle(cos, sin)
    requires |draws| == 12 && forall i :: 0 <= i < 12 ==> ParticleDrawValid(draws[i])
    ensures |ps| == 12
    ensures forall i :: 0 <= i < 12 ==> ps[i] == RingParticle(chest, i, draws[i], cos, sin, tau)
  {
    ps := [];
    var i := 0;
    while i < 12
      invariant 0 <= i <= 12 && |ps| == i
      invariant forall k :: 0 <= k < i ==> ps[k] == RingParticle(chest, k, draws[k], cos, sin, tau)
    {
      ps := ps + [RingParticle(chest, i, draws[i], cos, sin, tau)];
      i := i + 1;
    }
  }

  /// One tick for one particle with samples `sy`, `sz` (sines) and `cx` (a
  /// cosine): it floats within 0.3, 0.5 and 0.3 of its base position and
  /// turns by exactly 0.01 about Y, whatever the frame time.
  function GoldTick(b: GoldBody, cx: real, sy: real, sz: real): (r: GoldBody)
    requires -1.0 <= cx <= 1.0 && -1.0 <= sy <= 1.0 && -1.0 <= sz <= 1.0
    ensures r.particle == b.particle && r.scale == b.scale
    ensures r.yaw == b.yaw + 0.01
    ensures var base := b.particle.basePos;
            -0.3 <= r.pos.x - base.x <= 0.3 && -0.5 <= r.pos.y - base.y <= 0.5 && -0.3 <= r.pos.z - base.z <= 0.3
  {
    var base := b.particle.basePos;
    GoldBody(Add(base, Vec3(cx * 0.3, sy * 0.5, sz * 0.3)), b.scale, b.yaw + 0.01, b.particle)
  }

  /// The tick at elapsed time `t`.
  function GoldAt(b: GoldBody, t: real, sin: real -> real, cos: real -> real): GoldBody
    requires IsWave(sin) && IsWave(cos)
  {
    var ph := b.particle.phase;
    Sample(cos, t * 0.7 + ph);
    Sample(sin, t * 1.5 + ph);
    Sample(sin, t * 0.9 + ph * 1.3);
    GoldTick(b, cos(t * 0.7 + ph), sin(t * 1.5 + ph), sin(t * 0.9 + ph * 1.3))
  }

  function GoldStep(t: real, sin: real -> real, cos: real -> real): GoldBody -> GoldBody
    requires IsWave(sin) && IsWave(cos)
  {
    b => GoldAt(b, t, sin, cos)
  }

  /// `animate_gold_particles`: every particle of the query, in place.
  method AnimateGoldParticles(ps: array<GoldBody>, t: real, sin: real -> real, cos: real -> real)
    requires IsWave(sin) && IsWave(cos)
    modifies ps
    ensures ps[..] == MapFirst(old(ps[..]), ps.Length, GoldStep(t, sin, cos))
  {
    ghost var data := ps[..];
    ghost var step := GoldStep(t, sin, cos);
    var i := 0;
    while i < ps.Length
      invariant 0 <= i <= ps.Length
      invariant ps[..] == MapFirst(data, i, step) + data[i..]
    {
      MapFirstNext(data, i, step);
      ps[i] := GoldAt(ps[i], t, sin, cos);
      i := i + 1;
    }
    assert data[i..] == [];
  }

  /// A particle after ticks at the elapsed times `ts`.
  function GoldAfter(b: GoldBody, ts: seq<real>, sin: real -> real, cos: real -> real): GoldBody
    requires IsWave(sin) && IsWave(cos)
  {
    if |ts| == 0 then b else GoldAt(GoldAfter(b, ts[..|ts| - 1], sin, cos), ts[|ts| - 1], sin, cos)
  }

  /// After n ticks a particle has turned by 0.01·n, however far apart the
  /// ticks were, and it never strays from its base by more than the float
  /// offsets.
  lemma {:induction false} GoldTurnsPerTick(b: GoldBody, ts: seq<real>, sin: real -> real, cos: real -> real)
    requires IsWave(sin) && IsWave(cos)
    ensures GoldAfter(b, ts, sin, cos).yaw == b.yaw + 0.01 * |ts| as real
    ensures GoldAfter(b, ts, sin, cos).particle == b.particle
    ensures |ts| > 0 ==>
              var r, base := GoldAfter(b, ts, sin, cos), b.particle.basePos;
              -0.3 <= r.pos.x - base.x <= 0.3 && -0.5 <= r.pos.y - base.y <= 0.5 && -0.3 <= r.pos.z - base.z <= 0.3
  {
    if |ts| > 0 {
      GoldTurnsPerTick(b, ts[..|ts| - 1], sin, cos);
    }
  }

  // ---------------------------------------------------------------------------
  // Coins
  // ---------------------------------------------------------------------------

  /// A coin entity: its translation and its Euler angles about X, Y and Z.
  datatype Coin = Coin(pos: Vec3, rx: real, ry: real, rz: real)

  /// The draws for one coin, each in [0, 1).
  datatype CoinDraw = CoinDraw(x: real, z: real, ax: real, ay: real, az: real)

  predicate CoinDrawValid(d: CoinDraw) {
    0.0 <= d.x < 1.0 && 0.0 <= d.z < 1.0 && 0.0 <= d.ax < 1.0 && 0.0 <= d.ay < 1.0 && 0.0 <= d.az < 1.0
  }

  /// A coin within 2 of the chest in x and z, lying 0.2 above the seafloor
  /// there, tilted by less than a quarter turn about X and Z.
  function SpawnCoin(chest: Vec3, d: CoinDraw, terrain: (real, real) -> real, tau: real): (c: Coin)
    requires CoinDrawValid(d) && 0.0 < tau
    ensures chest.x - 2.0 <= c.pos.x < chest.x + 2.0 && chest.z - 2.0 <= c.pos.z < chest.z + 2.0
    ensures c.pos.y == terrain(c.pos.x, c.pos.z) + 0.2
    ensures 0.0 <= c.rx < tau / 4.0 && 0.0 <= c.ry < tau && 0.0 <= c.rz < tau / 4.0
  {
    var x, z := chest.x + (d.x - 0.5) * 4.0, chest.z + (d.z - 0.5) * 4.0;
    Coin(Vec3(x, terrain(x, z) + 0.2, z), Spread(d.ax, tau / 4.0), Spread(d.ay, tau), Spread(d.az, tau / 4.0))
  }

  /// `spawn_gold_coins`: twenty coins around the chest.
  method SpawnGoldCoins(chest: Vec3, draws: seq<CoinDraw>, terrain: (real, real) -> real, tau: real)
    returns (coins: seq<Coin>)
    requires 0.0 < tau
    requires |draws| == 20 && forall i :: 0 <= i < 20 ==> CoinDrawValid(draws[i])
    ensures |coins| == 20
    ensures forall i :: 0 <= i < 20 ==> coins[i] == SpawnCoin(chest, draws[i], terrain, tau)
  {
    coins := [];
    var i := 0;
    while i < 20
      invariant 0 <= i <= 20 && |coins| == i
      invariant forall k :: 0 <= k < i ==> coins[k] == SpawnCoin(chest, draws[k], terrain, tau)
    {
      coins := coins + [SpawnCoin(chest, draws[i], terrain, tau)];
      i := i + 1;
    }
  }
}

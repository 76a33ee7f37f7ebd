// The platformer's collectible gems: one gem of value 10 per level
// position, floating and turning in place; a gem within reach of the player
// is collected, adds its value to the game state and bursts into eight
// short-lived particles that shrink away over their one-second timer.

module Collectibles {
  import opened Vectors
  import opened Sequences
  import opened Level
  import opened Movement

  const CollectibleRadius: real := 0.3
  const CollectionDistance: real := 1.0
  const ParticleLifetimeSecs: real := 1.0
  const GemValue: nat := 10

  /// `FloatingAnimation`.
  datatype FloatingAnimation = FloatingAnimation(baseY: real, amplitude: real, frequency: real, phase: real)

  /// A gem entity: its number (the one in its name "Gem n"), its
  /// `Collectible` value, its translation, how far it has turned about Y,
  /// its floating animation and its `RotatingAnimation` speed.
  datatype Gem = Gem(number: nat, value: nat, position: Vec3, turned: real, floating: FloatingAnimation, rotationSpeed: real)

  // ---------------------------------------------------------------------------
  // spawn_collectibles
  // ---------------------------------------------------------------------------

  /// `spawn_collectibles`: gem `i` at position `i`, worth 10, floating
  /// about its spawn height with amplitude 0.3, frequency 2 and phase
  /// 0.5·i, turning at 1.5 radians per second.
  method SpawnCollectibles(positions: seq<Vec3>) returns (gems: seq<Gem>)
    ensures |gems| == |positions|
    ensures forall i :: 0 <= i < |gems| ==>
              gems[i].number == i + 1 && gems[i].value == 10 && gems[i].position == positions[i] &&
              gems[i].turned == 0.0 && gems[i].rotationSpeed == 1.5 &&
              gems[i].floating == FloatingAnimation(positions[i].y, 0.3, 2.0, i as real * 0.5)
  {
    gems := [];
    var i := 0;
    while i < |positions|
      invariant 0 <= i <= |positions| && |gems| == i
      invariant forall k :: 0 <= k < i ==>
                  gems[k].number == k + 1 && gems[k].value == 10 && gems[k].position == positions[k] &&
                  gems[k].turned == 0.0 && gems[k].rotationSpeed == 1.5 &&
                  gems[k].floating == FloatingAnimation(positions[k].y, 0.3, 2.0, k as real * 0.5)
    {
      var position := positions[i];
      var gemNum := i + 1;
      gems := gems + [Gem(gemNum, GemValue, position, 0.0, FloatingAnimation(position.y, 0.3, 2.0, i as real * 0.5), 1.5)];
      i := i + 1;
    }
  }

  /// The summed value of some gems.
  function TotalValue(gems: seq<Gem>): (r: nat)
    ensures gems == [] ==> r == 0
  {
    if gems == [] then 0 else TotalValue(gems[..|gems| - 1]) + gems[|gems| - 1].value
  }

  /// Gems all worth 10 are worth 10 times their number.
  lemma {:induction false} TotalOfTens(gems: seq<Gem>)
    requires forall i :: 0 <= i < |gems| ==> gems[i].value == 10
    ensures TotalValue(gems) == 10 * |gems|
    decreases |gems|
  {
    if gems != [] {
      TotalOfTens(gems[..|gems| - 1]);
    }
  }

  /// The default level's gems are worth 320 together.
  lemma DefaultLevelWorth(gems: seq<Gem>)
    requires |gems| == |Flatten(Map(LevelSections, SectionCollectibles))|
    requires forall i :: 0 <= i < |gems| ==> gems[i].value == 10
    ensures TotalValue(gems) == 320
  {
    DefaultLevelTotals();
    TotalOfTens(gems);
  }

  // ---------------------------------------------------------------------------
  // animate_collectibles
  // ---------------------------------------------------------------------------

  /// One tick of `animate_collectibles` for a sample `s` of
  /// sin(t·frequency + phase): the gem floats to its base height plus
  /// `s` times the amplitude and turns by its speed times the tick.
  function FloatTick(g: Gem, s: real, dt: real): (r: Gem)
    requires -1.0 <= s <= 1.0
    ensures r.position.x == g.position.x && r.position.z == g.position.z
    ensures r.turned == g.turned + g.rotationSpeed * dt
    ensures 0.0 <= g.floating.amplitude ==>
              g.floating.baseY - g.floating.amplitude <= r.position.y <= g.floating.baseY + g.floating.amplitude
    ensures r.(position := g.position, turned := g.turned) == g
  {
    var a := g.floating.amplitude;
    MulBound(s, a);
    g.(position := g.position.(y := g.floating.baseY + s * a), turned := g.turned + g.rotationSpeed * dt)
  }

  function FloatAt(g: Gem, t: real, dt: real, sin: real -> real): Gem
    requires IsWave(sin)
  {
    Sample(sin, t * g.floating.frequency + g.floating.phase);
    FloatTick(g, sin(t * g.floating.frequency + g.floating.phase), dt)
  }

  function FloatStep(t: real, dt: real, sin: real -> real): Gem -> Gem
    requires IsWave(sin)
  {
    g => FloatAt(g, t, dt, sin)
  }

  /// `animate_collectibles` over every gem, in place.
  method AnimateCollectibles(gems: array<Gem>, t: real, dt: real, sin: real -> real)
    requires IsWave(sin)
    modifies gems
    ensures gems[..] == MapFirst(old(gems[..]), gems.Length, FloatStep(t, dt, sin))
  {
    ghost var data := gems[..];
    ghost var step := FloatStep(t, dt, sin);
    var i := 0;
    while i < gems.Length
      invariant 0 <= i <= gems.Length
      invariant gems[..] == MapFirst(data, i, step) + data[i..]
    {
      MapFirstNext(data, i, step);
      gems[i] := FloatAt(gems[i], t, dt, sin);
      i := i + 1;
    }
    assert data[i..] == [];
  }

  /// A gem of the default level never floats down into the platform it was
  /// placed on: its lowest point stays at least 0.15 above the top face.
  lemma GemClearsPlatform(i: nat, j: nat, g: Gem, s: real, dt: real)
    requires i < |LevelSections| && j < |LevelSections[i].collectiblePositions|
    requires -1.0 <= s <= 1.0
    requires g.floating == FloatingAnimation(LevelSections[i].collectiblePositions[j].y, 0.3, 2.0, g.floating.phase)
    ensures var p := LevelSections[i].platforms[Supports[i][j]];
              FloatTick(g, s, dt).position.y - CollectibleRadius >= p.position.y + p.size.y / 2.0 + 0.15
  {
    CollectiblesOnPlatforms(i, j);
  }

  // ---------------------------------------------------------------------------
  // Collection particles
  // ---------------------------------------------------------------------------

  /// A Bevy `Timer` in once mode: the elapsed time never passes the
  /// duration, and the timer has finished once it reaches it.
  datatype Timer = Timer(elapsed: real, duration: real)

  function TickTimer(t: Timer, dt: real): (r: Timer)
    ensures r.duration == t.duration
    ensures r.elapsed == (if t.elapsed + dt < t.duration then t.elapsed + dt else t.duration)
  {
    if t.elapsed + dt < t.duration then t.(elapsed := t.elapsed + dt) else t.(elapsed := t.duration)
  }

  predicate Finished(t: Timer) {
    t.elapsed >= t.duration
  }

  /// The elapsed fraction of the duration; a zero-length timer counts as
  /// complete.
  function Fraction(t: Timer): (r: real)
    ensures 0.0 < t.duration && 0.0 <= t.elapsed < t.duration ==> 0.0 <= r < 1.0
  {
    if t.duration == 0.0 then 1.0
    else
      assert 0.0 < t.duration && 0.0 <= t.elapsed < t.duration ==> 0.0 <= t.elapsed / t.duration < 1.0 by {
        if 0.0 < t.duration && 0.0 <= t.elapsed < t.duration {
          RatioBelowOne(t.elapsed, t.duration);
        }
      }
      t.elapsed / t.duration
  }

  /// `CollectionParticle` with its translation and its uniform scale.
  datatype Particle = Particle(position: Vec3, scale: real, lifetime: Timer, initialVelocity: Vec3)

  /// The cosine and sine of each particle's angle i·π/4: eight points of
  /// the unit circle.
  predicate UnitDirections(directions: seq<(real, real)>) {
    |directions| == 8 &&
    forall i :: 0 <= i < 8 ==> directions[i].0 * directions[i].0 + directions[i].1 * directions[i].1 == 1.0
  }

  /// One particle of a burst at `position` for the direction (c, s): it
  /// starts a tenth of its offset (c, 0.5, s)·0.5 away and flies at twice
  /// the offset, so outward at unit speed across the ground and 0.5 up.
  function BurstParticle(position: Vec3, d: (real, real)): (r: Particle)
    requires d.0 * d.0 + d.1 * d.1 == 1.0
    ensures r.lifetime == Timer(0.0, 1.0) && r.scale == 1.0
    ensures r.initialVelocity == Vec3(d.0, 0.5, d.1)
    ensures r.initialVelocity.x * r.initialVelocity.x + r.initialVelocity.z * r.initialVelocity.z == 1.0
    ensures r.position == Add(position, Scale(r.initialVelocity, 0.05))
  {
    var offset := Scale(Vec3(d.0, 0.5, d.1), 0.5);
    Particle(Add(position, Scale(offset, 0.1)), 1.0, Timer(0.0, ParticleLifetimeSecs), Scale(offset, 2.0))
  }

  /// The eight particles of a burst at `position`, in angle order.
  function Burst(position: Vec3, directions: seq<(real, real)>): (r: seq<Particle>)
    requires UnitDirections(directions)
    ensures |r| == 8
    ensures forall i :: 0 <= i < 8 ==> r[i] == BurstParticle(position, directions[i])
  {
    seq(8, i requires 0 <= i < 8 => BurstParticle(position, directions[i]))
  }

  /// The burst of particles where a gem was.
  function BurstAt(directions: seq<(real, real)>): Gem -> seq<Particle>
    requires UnitDirections(directions)
  {
    (g: Gem) => Burst(g.position, directions)
  }

  /// `spawn_collection_effect` at `position`: the particles are spawned one
  /// by one, in angle order.
  method SpawnCollectionEffect(position: Vec3, directions: seq<(real, real)>) returns (ps: seq<Particle>)
    requires UnitDirections(directions)
    ensures ps == Burst(position, directions)
  {
    ps := [];
    var i := 0;
    while i < 8
      invariant 0 <= i <= 8 && |ps| == i
      invariant forall k :: 0 <= k < i ==> ps[k] == BurstParticle(position, directions[k])
    {
      var (c, s) := directions[i];
      var offset := Scale(Vec3(c, 0.5, s), 0.5);
      ps := ps + [Particle(Add(position, Scale(offset, 0.1)), 1.0, Timer(0.0, ParticleLifetimeSecs), Scale(offset, 2.0))];
      i := i + 1;
    }
  }

  /// Whether a particle survives a tick of `dt`.
  predicate Survives(p: Particle, dt: real) {
    !Finished(TickTimer(p.lifetime, dt))
  }

  /// One tick of `animate_collection_particles` for a surviving particle:
  /// it moves by its velocity under gravity and shrinks to one minus its
  /// timer's fraction.
  function ParticleTick(p: Particle, dt: real): (r: Particle)
    ensures r.lifetime == TickTimer(p.lifetime, dt) && r.initialVelocity == p.initialVelocity
    ensures r.scale == 1.0 - Fraction(r.lifetime)
    ensures 0.0 < p.lifetime.duration && 0.0 <= p.lifetime.elapsed && 0.0 <= dt && Survives(p, dt) ==>
              0.0 < r.scale <= 1.0
  {
    var lifetime := TickTimer(p.lifetime, dt);
    var progress := lifetime.elapsed;
    var velocity := Add(p.initialVelocity, Scale(Vec3(0.0, -5.0, 0.0), progress));
    Particle(Add(p.position, Scale(velocity, dt)), 1.0 - Fraction(lifetime), lifetime, p.initialVelocity)
  }

  function SurvivesTick(dt: real): Particle -> bool {
    p => Survives(p, dt)
  }

  function Advance(dt: real): Particle -> Particle {
    p => ParticleTick(p, dt)
  }

  /// `animate_collection_particles`: the particles whose timers finish are
  /// despawned, the others advance, in order.
  method AnimateCollectionParticles(ps: seq<Particle>, dt: real) returns (rest: seq<Particle>)
    ensures rest == Map(Filter(ps, SurvivesTick(dt)), Advance(dt))
  {
    rest := [];
    var i := 0;
    while i < |ps|
      invariant 0 <= i <= |ps|
      invariant rest == Map(Filter(ps[..i], SurvivesTick(dt)), Advance(dt))
    {
      FilterPrefixNext(ps, SurvivesTick(dt), i);
      var p := ps[i];
      var lifetime := TickTimer(p.lifetime, dt);
      assert SurvivesTick(dt)(p) == !Finished(lifetime);
      if !Finished(lifetime) {
        MapSnoc(Filter(ps[..i], SurvivesTick(dt)), p, Advance(dt));
        var progress := lifetime.elapsed;
        var velocity := Add(p.initialVelocity, Scale(Vec3(0.0, -5.0, 0.0), progress));
        var moved := Particle(Add(p.position, Scale(velocity, dt)), 1.0 - Fraction(lifetime), lifetime, p.initialVelocity);
        assert moved == Advance(dt)(p);
        rest := rest + [moved];
      } else {
        assert Filter(ps[..i], SurvivesTick(dt)) + [] == Filter(ps[..i], SurvivesTick(dt));
      }
      i := i + 1;
    }
    assert ps[..i] == ps;
  }

  /// A particle's timer runs out after one second in all: once the elapsed
  /// time and the tick reach the lifetime, the particle is despawned.
  lemma ParticleExpires(p: Particle, dt: real)
    requires p.lifetime.duration == ParticleLifetimeSecs && p.lifetime.elapsed + dt >= 1.0
    ensures !Survives(p, dt)
  {
  }

  // ---------------------------------------------------------------------------
  // handle_collectible_pickup
  // ---------------------------------------------------------------------------

  /// A gem within reach of the player at `player`.
  predicate InReach(g: Gem, player: Vec3, len: Vec3 -> real)
    requires IsLength(len)
  {
    Distance(player, g.position, len) < CollectionDistance
  }

  function Reached(player: Vec3, len: Vec3 -> real): Gem -> bool
    requires IsLength(len)
  {
    g => InReach(g, player, len)
  }

  function Missed(player: Vec3, len: Vec3 -> real): Gem -> bool
    requires IsLength(len)
  {
    Not(Reached(player, len))
  }

  /// Splitting gems by a test into those that pass and those that fail
  /// keeps their total.
  lemma {:induction false} TotalSplits(gems: seq<Gem>, p: Gem -> bool)
    ensures TotalValue(gems) == TotalValue(Filter(gems, p)) + TotalValue(Filter(gems, Not(p)))
    decreases |gems|
  {
    if gems != [] {
      var last := gems[|gems| - 1];
      var init := gems[..|gems| - 1];
      TotalSplits(init, p);
      SplitNext(gems, p, |gems| - 1);
      assert gems[..|gems|] == gems;
      if p(last) {
        TotalAppend(Filter(init, p), last);
      } else {
        TotalAppend(Filter(init, Not(p)), last);
      }
    }
  }

  lemma TotalAppend(gems: seq<Gem>, g: Gem)
    ensures TotalValue(gems + [g]) == TotalValue(gems) + g.value
  {
    assert (gems + [g])[..|gems|] == gems;
  }

  /// `handle_collectible_pickup`: every gem within reach adds its value to
  /// the score, bursts into particles and is despawned; the others stay.
  /// The score plus the value of the gems left is conserved.
  method HandleCollectiblePickup(state: GameState, player: Vec3, gems: seq<Gem>, len: Vec3 -> real, directions: seq<(real, real)>)
      returns (remaining: seq<Gem>, particles: seq<Particle>)
    requires IsLength(len) && UnitDirections(directions)
    modifies state
    ensures remaining == Filter(gems, Missed(player, len))
    ensures state.gemsCollected == old(state.gemsCollected) + TotalValue(Filter(gems, Reached(player, len)))
    ensures state.gemsCollected + TotalValue(remaining) == old(state.gemsCollected) + TotalValue(gems)
    ensures particles == Flatten(Map(Filter(gems, Reached(player, len)), BurstAt(directions)))
    ensures |particles| == 8 * |Filter(gems, Reached(player, len))|
    ensures state.currentCheckpoint == old(state.currentCheckpoint)
  {
    remaining := [];
    particles := [];
    var i := 0;
    while i < |gems|
      invariant 0 <= i <= |gems|
      invariant remaining == Filter(gems[..i], Missed(player, len))
      invariant state.gemsCollected == old(state.gemsCollected) + TotalValue(Filter(gems[..i], Reached(player, len)))
      invariant particles == Flatten(Map(Filter(gems[..i], Reached(player, len)), BurstAt(directions)))
      invariant |particles| == 8 * |Filter(gems[..i], Reached(player, len))|
      invariant state.currentCheckpoint == old(state.currentCheckpoint)
    {
      SplitNext(gems, Reached(player, len), i);
      var g := gems[i];
      var distance := Distance(player, g.position, len);
      assert Reached(player, len)(g) == (distance < CollectionDistance);
      if distance < CollectionDistance {
        TotalAppend(Filter(gems[..i], Reached(player, len)), g);
        state.gemsCollected := state.gemsCollected + g.value;
        var burst := SpawnCollectionEffect(g.position, directions);
        BurstsNext(Filter(gems[..i], Reached(player, len)), g, directions);
        particles := particles + burst;
      } else {
        remaining := remaining + [g];
      }
      i := i + 1;
    }
    assert gems[..i] == gems;
    TotalSplits(gems, Reached(player, len));
  }

  /// One more gem picked up adds its burst after the earlier ones.
  lemma BurstsNext(picked: seq<Gem>, g: Gem, directions: seq<(real, real)>)
    requires UnitDirections(directions)
    ensures Flatten(Map(picked + [g], BurstAt(directions))) ==
            Flatten(Map(picked, BurstAt(directions))) + Burst(g.position, directions)
    ensures |Flatten(Map(picked, BurstAt(directions)))| == 8 * |picked|
  {
    var s := picked + [g];
    assert s[..|picked|] == picked && s[..|picked| + 1] == s;
    FlattenMapNext(s, BurstAt(directions), |picked|);
    BurstsLength(picked, directions);
  }

  lemma {:induction false} BurstsLength(picked: seq<Gem>, directions: seq<(real, real)>)
    requires UnitDirections(directions)
    ensures |Flatten(Map(picked, BurstAt(directions)))| == 8 * |picked|
    decreases |picked|
  {
    if picked != [] {
      var n := |picked| - 1;
      BurstsLength(picked[..n], directions);
      FlattenMapNext(picked, BurstAt(directions), n);
      assert picked[..n + 1] == picked;
    }
  }

  /// What a test keeps of gems all worth 10 is worth 10 each.
  lemma FilterOfTens(gems: seq<Gem>, p: Gem -> bool)
    requires forall i :: 0 <= i < |gems| ==> gems[i].value == 10
    ensures forall i :: 0 <= i < |Filter(gems, p)| ==> Filter(gems, p)[i].value == 10
  {
    var got := Filter(gems, p);
    forall i | 0 <= i < |got|
      ensures got[i].value == 10
    {
      FilterKeeps(gems, p, got[i]);
      var j :| 0 <= j < |gems| && gems[j] == got[i];
    }
  }

  /// With every gem worth 10, a score that is a multiple of 10 stays one.
  lemma ScoreInTens(score: nat, gems: seq<Gem>, player: Vec3, len: Vec3 -> real)
    requires IsLength(len) && score % 10 == 0
    requires forall i :: 0 <= i < |gems| ==> gems[i].value == 10
    ensures (score + TotalValue(Filter(gems, Reached(player, len)))) % 10 == 0
  {
    FilterOfTens(gems, Reached(player, len));
    TotalOfTens(Filter(gems, Reached(player, len)));
  }
}

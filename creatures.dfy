// The ocean scene's creatures: species-aware fish schooling, jellyfish
// bobbing, the sea turtle's circular patrol and the bubbles creatures emit.

module Creatures {
  import opened Vectors
  import opened Sequences

  // ---------------------------------------------------------------------------
  // Fish schools
  // ---------------------------------------------------------------------------

  /// A fish entity: its translation, its `Fish` velocity and its school.
  datatype Fish = Fish(pos: Vec3, vel: Vec3, school: nat)

  const PerceptionRadius: real := 8.0
  const AvoidanceRadius: real := 1.5
  const MaxSpeed: real := 5.0
  const MinSpeed: real := 2.0
  const TurnSpeed: real := 3.0
  /// Closer than this, another fish is treated as the fish itself.
  const SelfDistance: real := 0.01
  const BoundsCenter: Vec3 := Vec3(0.0, 3.0, 0.0)

  /// Fish of another school are only noticed at half the perception radius.
  function EffectivePerception(sameSchool: bool): (r: real)
    ensures sameSchool ==> r == PerceptionRadius
    ensures !sameSchool ==> r == PerceptionRadius * 0.5
    ensures AvoidanceRadius < r
  {
    if sameSchool then PerceptionRadius else PerceptionRadius * 0.5
  }

  /// The push away from a fish that is too close.
  function Away(me: Fish, other: Fish, len: Vec3 -> real): Vec3
    requires IsLength(len)
  {
    var d := Distance(me.pos, other.pos, len);
    Scale(NormalizeOrZero(Sub(me.pos, other.pos), len), 1.0 / if d < 0.1 then 0.1 else d)
  }

  /// One pass of the neighbour loop: `other` as seen by `me`.
  function Visit(acc: Sums, me: Fish, other: Fish, len: Vec3 -> real): (r: Sums)
    requires IsLength(len)
    ensures other.pos == me.pos ==> r == acc
    ensures other.school != me.school ==>
              r.alignment == acc.alignment && r.cohesion == acc.cohesion && r.count == acc.count
  {
    var same := other.school == me.school;
    var d := Distance(me.pos, other.pos, len);
    if SelfDistance < d < EffectivePerception(same) then
      Sums(if d < AvoidanceRadius then Add(acc.separation, Away(me, other, len)) else acc.separation,
           if same then Add(acc.alignment, other.vel) else acc.alignment,
           if same then Add(acc.cohesion, other.pos) else acc.cohesion,
           if same then acc.count + 1 else acc.count)
    else acc
  }

  /// The accumulators after scanning `data` front to back.
  function Gather(data: seq<Fish>, me: Fish, len: Vec3 -> real): Sums
    requires IsLength(len)
    decreases |data|
  {
    if data == [] then NoSums
    else Visit(Gather(data[..|data| - 1], me, len), me, data[|data| - 1], len)
  }

  /// Reference definitions of what the scan collects: the school mates in
  /// perception range, and the fish of any school in avoidance range.
  ghost predicate IsMate(me: Fish, other: Fish, len: Vec3 -> real)
    requires IsLength(len)
  {
    other.school == me.school && SelfDistance < Distance(me.pos, other.pos, len) < PerceptionRadius
  }

  ghost predicate Crowds(me: Fish, other: Fish, len: Vec3 -> real)
    requires IsLength(len)
  {
    SelfDistance < Distance(me.pos, other.pos, len) < AvoidanceRadius
  }

  ghost function Mates(data: seq<Fish>, me: Fish, len: Vec3 -> real): seq<Fish>
    requires IsLength(len)
    decreases |data|
  {
    if data == [] then []
    else
      var rest := Mates(data[..|data| - 1], me, len);
      if IsMate(me, data[|data| - 1], len) then rest + [data[|data| - 1]] else rest
  }

  ghost function Crowd(data: seq<Fish>, me: Fish, len: Vec3 -> real): seq<Fish>
    requires IsLength(len)
    decreases |data|
  {
    if data == [] then []
    else
      var rest := Crowd(data[..|data| - 1], me, len);
      if Crowds(me, data[|data| - 1], len) then rest + [data[|data| - 1]] else rest
  }

  ghost function SumPositions(s: seq<Fish>): Vec3
    decreases |s|
  {
    if s == [] then Zero else Add(SumPositions(s[..|s| - 1]), s[|s| - 1].pos)
  }

  ghost function SumVelocities(s: seq<Fish>): Vec3
    decreases |s|
  {
    if s == [] then Zero else Add(SumVelocities(s[..|s| - 1]), s[|s| - 1].vel)
  }

  ghost function SumAway(s: seq<Fish>, me: Fish, len: Vec3 -> real): Vec3
    requires IsLength(len)
    decreases |s|
  {
    if s == [] then Zero else Add(SumAway(s[..|s| - 1], me, len), Away(me, s[|s| - 1], len))
  }

  /// The scan counts exactly the school mates in range and sums their
  /// positions and velocities; separation sums over every close fish,
  /// whatever its school.
  lemma {:induction false} GatherMeaning(data: seq<Fish>, me: Fish, len: Vec3 -> real)
    requires IsLength(len)
    ensures Gather(data, me, len).count == |Mates(data, me, len)|
    ensures Gather(data, me, len).cohesion == SumPositions(Mates(data, me, len))
    ensures Gather(data, me, len).alignment == SumVelocities(Mates(data, me, len))
    ensures Gather(data, me, len).separation == SumAway(Crowd(data, me, len), me, len)
    decreases |data|
  {
    if data != [] {
      var init, last := data[..|data| - 1], data[|data| - 1];
      GatherMeaning(init, me, len);
      var m := Mates(init, me, len);
      var c := Crowd(init, me, len);
      if IsMate(me, last, len) {
        assert (m + [last])[..|m + [last]| - 1] == m;
      }
      if Crowds(me, last, len) {
        assert (c + [last])[..|c + [last]| - 1] == c;
        assert Distance(me.pos, last.pos, len) < EffectivePerception(last.school == me.school);
      }
    }
  }

  /// When no school mate is in range, cohesion and alignment stay zero.
  lemma NoMatesNoPull(data: seq<Fish>, me: Fish, len: Vec3 -> real)
    requires IsLength(len)
    ensures Gather(data, me, len).count == 0 ==>
              Gather(data, me, len).cohesion == Zero && Gather(data, me, len).alignment == Zero
  {
    GatherMeaning(data, me, len);
  }

  /// A fish of another school never changes cohesion, alignment or count.
  lemma {:induction false} OtherSchoolIgnored(data: seq<Fish>, me: Fish, stranger: Fish, len: Vec3 -> real)
    requires IsLength(len) && stranger.school != me.school
    ensures Mates(data + [stranger], me, len) == Mates(data, me, len)
    ensures Gather(data + [stranger], me, len).count == Gather(data, me, len).count
    ensures Gather(data + [stranger], me, len).cohesion == Gather(data, me, len).cohesion
    ensures Gather(data + [stranger], me, len).alignment == Gather(data, me, len).alignment
  {
    assert (data + [stranger])[..|data + [stranger]| - 1] == data;
  }

  /// Pull toward (0, 3, 0), push up under y = -2 and down over y = 12.
  function CenterPull(pos: Vec3): Vec3 { Scale(Sub(BoundsCenter, pos), 0.02) }

  function FloorAvoidance(pos: Vec3): (r: Vec3)
    ensures r != Zero <==> pos.y < -2.0
  {
    if pos.y < -2.0 then Scale(UnitY, 2.0) else Zero
  }

  function CeilingAvoidance(pos: Vec3): (r: Vec3)
    ensures r != Zero <==> pos.y > 12.0
  {
    if pos.y > 12.0 then Scale(UnitY, -2.0) else Zero
  }

  /// Floor and ceiling avoidance never both push in one tick.
  lemma AvoidanceExclusive(pos: Vec3)
    ensures FloorAvoidance(pos) == Zero || CeilingAvoidance(pos) == Zero
  {
  }

  /// The combined steering target of a fish with averaged neighbour sums `s`.
  function TargetVelocity(me: Fish, s: Sums): Vec3 {
    Add(Add(Add(Add(Add(Add(me.vel, Scale(s.separation, 2.0)), Scale(s.alignment, 1.0)),
                    Scale(s.cohesion, 0.8)), CenterPull(me.pos)),
            FloorAvoidance(me.pos)), CeilingAvoidance(me.pos))
  }

  /// The new state of fish `me` after one tick, reading its neighbours
  /// from the snapshot `data`.
  function Steer(data: seq<Fish>, me: Fish, dt: real, len: Vec3 -> real): (r: Fish)
    requires IsLength(len)
    ensures r.school == me.school
    ensures r.pos == Add(me.pos, Scale(r.vel, dt))
    ensures r.vel == Zero || MinSpeed <= len(r.vel) <= MaxSpeed
  {
    var s := Average(Gather(data, me, len), me.pos);
    var target := TargetVelocity(me, s);
    var v := Lerp(me.vel, Scale(NormalizeOrZero(target, len), MaxSpeed), dt * TurnSpeed);
    var w := ClampLength(v, MinSpeed, MaxSpeed, len);
    Fish(Add(me.pos, Scale(w, dt)), w, me.school)
  }

  /// The steering of every fish from the snapshot `data`.
  function Steering(data: seq<Fish>, dt: real, len: Vec3 -> real): Fish -> Fish
    requires IsLength(len)
  {
    me => Steer(data, me, dt, len)
  }

  /// One tick of the whole school.
  function Step(data: seq<Fish>, dt: real, len: Vec3 -> real): (r: seq<Fish>)
    requires IsLength(len)
    ensures |r| == |data|
  {
    MapFirst(data, |data|, Steering(data, dt, len))
  }

  /// The neighbour loop of `fish_boids` for one fish.
  method ScanNeighbours(data: seq<Fish>, me: Fish, len: Vec3 -> real) returns (s: Sums)
    requires IsLength(len)
    ensures s == Gather(data, me, len)
  {
    var separation, alignment, cohesion, count := Zero, Zero, Zero, 0;
    var j := 0;
    while j < |data|
      invariant 0 <= j <= |data|
      invariant Sums(separation, alignment, cohesion, count) == Gather(data[..j], me, len)
    {
      var other := data[j];
      var same := other.school == me.school;
      var perception := if same then PerceptionRadius else PerceptionRadius * 0.5;
      var dist := Distance(me.pos, other.pos, len);
      if SelfDistance < dist < perception {
        if same {
          cohesion := Add(cohesion, other.pos);
          alignment := Add(alignment, other.vel);
        }
        if dist < AvoidanceRadius {
          separation := Add(separation, Away(me, other, len));
        }
        if same {
          count := count + 1;
        }
      }
      assert data[..j + 1][..j] == data[..j];
      j := j + 1;
    }
    assert data[..j] == data;
    s := Sums(separation, alignment, cohesion, count);
  }

  /// The body of `fish_boids` for one fish: scan, average, steer, clamp, move.
  method SteerFish(data: seq<Fish>, me: Fish, dt: real, len: Vec3 -> real) returns (r: Fish)
    requires IsLength(len)
    ensures r == Steer(data, me, dt, len)
  {
    var s := ScanNeighbours(data, me, len);
    var separation, alignment, cohesion, count := s.separation, s.alignment, s.cohesion, s.count;
    if count > 0 {
      cohesion := Sub(Scale(cohesion, 1.0 / count as real), me.pos);
      alignment := Scale(alignment, 1.0 / count as real);
    }
    assert Sums(separation, alignment, cohesion, count) == Average(s, me.pos);
    var target := TargetVelocity(me, Sums(separation, alignment, cohesion, count));
    var velocity := Lerp(me.vel, Scale(NormalizeOrZero(target, len), MaxSpeed), dt * TurnSpeed);
    ghost var blended := velocity;
    var speed := len(velocity);
    if speed < MinSpeed {
      velocity := Scale(NormalizeOrZero(velocity, len), MinSpeed);
    } else if speed > MaxSpeed {
      velocity := Scale(NormalizeOrZero(velocity, len), MaxSpeed);
    }
    assert velocity == ClampLength(blended, MinSpeed, MaxSpeed, len);
    r := Fish(Add(me.pos, Scale(velocity, dt)), velocity, me.school);
  }

  /// `fish_boids`: snapshot every fish, then update each one in place.
  method FishBoids(fish: array<Fish>, dt: real, len: Vec3 -> real)
    requires IsLength(len)
    modifies fish
    ensures fish[..] == Step(old(fish[..]), dt, len)
  {
    var data := fish[..];
    ghost var steer := Steering(data, dt, len);
    var i := 0;
    while i < fish.Length
      invariant 0 <= i <= fish.Length
      invariant fish[..] == MapFirst(data, i, steer) + data[i..]
    {
      MapFirstNext(data, i, steer);
      var f := SteerFish(data, fish[i], dt, len);
      fish[i] := f;
      i := i + 1;
    }
    assert data[i..] == [];
  }

  /// After a tick every fish has moved by its new velocity times `dt`, kept
  /// its school, and is either still or swimming at a speed in [2, 5].
  lemma StepInvariants(data: seq<Fish>, dt: real, len: Vec3 -> real, k: nat)
    requires IsLength(len) && k < |data|
    ensures Step(data, dt, len)[k].school == data[k].school
    ensures Step(data, dt, len)[k].pos == Add(data[k].pos, Scale(Step(data, dt, len)[k].vel, dt))
    ensures var v := Step(data, dt, len)[k].vel; v == Zero || MinSpeed <= len(v) <= MaxSpeed
  {
    MapFirstAt(data, |data|, Steering(data, dt, len), k);
  }

  // ---------------------------------------------------------------------------
  // Jellyfish
  // ---------------------------------------------------------------------------

  /// A jellyfish entity: translation, scale and its `Jellyfish` component.
  datatype Jellyfish = Jellyfish(baseY: real, phase: real, pulseSpeed: real)
  datatype JellyBody = JellyBody(pos: Vec3, scale: Vec3, jelly: Jellyfish)

  /// The bell contraction factor for a sine sample `s`.
  function Pulse(s: real): (r: real)
    requires -1.0 <= s <= 1.0
    ensures 0.9 <= r <= 1.1
    ensures s == -1.0 ==> r == 0.9
    ensures s == 1.0 ==> r == 1.1
  {
    (s * 0.5 + 0.5) * 0.2 + 0.9
  }

  /// One tick of `animate_jellyfish` for one jellyfish, given the samples
  /// `bob` of the bobbing sine, `beat` of the pulsing sine, and `dx`, `dz`
  /// of the drift sine and cosine.
  function JellyTick(b: JellyBody, bob: real, beat: real, dx: real, dz: real): (r: JellyBody)
    requires -1.0 <= bob <= 1.0 && -1.0 <= beat <= 1.0 && -1.0 <= dx <= 1.0 && -1.0 <= dz <= 1.0
    ensures r.jelly == b.jelly
    ensures b.jelly.baseY - 0.5 <= r.pos.y <= b.jelly.baseY + 0.5
    ensures bob == 0.0 ==> r.pos.y == b.jelly.baseY
    ensures 0.9 <= r.scale.x <= 1.1 && r.scale.z == r.scale.x
    ensures r.scale.x * r.scale.y == 0.6
    ensures -0.002 <= r.pos.x - b.pos.x <= 0.002 && -0.002 <= r.pos.z - b.pos.z <= 0.002
  {
    var pos, j := b.pos, b.jelly;
    var p := Pulse(beat);
    assert (0.6 / p) * p == 0.6;
    JellyBody(Vec3(pos.x + dx * 0.002, j.baseY + bob * 0.5, pos.z + dz * 0.002), Vec3(p, 0.6 / p, p), j)
  }

  /// Height and bell shape depend only on the samples and the component,
  /// not on where the jellyfish was or how it was scaled.
  lemma JellyShapeFromTimeOnly(a: JellyBody, b: JellyBody, bob: real, beat: real, dx: real, dz: real)
    requires -1.0 <= bob <= 1.0 && -1.0 <= beat <= 1.0 && -1.0 <= dx <= 1.0 && -1.0 <= dz <= 1.0
    requires a.jelly == b.jelly
    ensures JellyTick(a, bob, beat, dx, dz).pos.y == JellyTick(b, bob, beat, dx, dz).pos.y
    ensures JellyTick(a, bob, beat, dx, dz).scale == JellyTick(b, bob, beat, dx, dz).scale
  {
  }

  /// The tick at elapsed time `t`, sampling the waves where the source does.
  function JellyAt(b: JellyBody, t: real, sin: real -> real, cos: real -> real): JellyBody
    requires IsWave(sin) && IsWave(cos)
  {
    var j := b.jelly;
    Sample(sin, t * j.pulseSpeed + j.phase);
    Sample(sin, t * j.pulseSpeed * 2.0 + j.phase);
    Sample(sin, t * 0.1 + j.phase);
    Sample(cos, t * 0.15 + j.phase);
    JellyTick(b, sin(t * j.pulseSpeed + j.phase), sin(t * j.pulseSpeed * 2.0 + j.phase),
              sin(t * 0.1 + j.phase), cos(t * 0.15 + j.phase))
  }

  function JellyStep(t: real, sin: real -> real, cos: real -> real): JellyBody -> JellyBody
    requires IsWave(sin) && IsWave(cos)
  {
    b => JellyAt(b, t, sin, cos)
  }

  /// `animate_jellyfish`: every jellyfish of the query, in place.
  method AnimateJellyfish(bodies: array<JellyBody>, t: real, sin: real -> real, cos: real -> real)
    requires IsWave(sin) && IsWave(cos)
    modifies bodies
    ensures bodies[..] == MapFirst(old(bodies[..]), bodies.Length, JellyStep(t, sin, cos))
  {
    ghost var data := bodies[..];
    ghost var step := JellyStep(t, sin, cos);
    var i := 0;
    while i < bodies.Length
      invariant 0 <= i <= bodies.Length
      invariant bodies[..] == MapFirst(data, i, step) + data[i..]
    {
      MapFirstNext(data, i, step);
      bodies[i] := JellyAt(bodies[i], t, sin, cos);
      i := i + 1;
    }
    assert data[i..] == [];
  }

  // ---------------------------------------------------------------------------
  // Sea turtle
  // ---------------------------------------------------------------------------

  /// The `Turtle` component and the turtle entity with its translation.
  datatype Turtle = Turtle(center: Vec3, radius: real, angle: real, speed: real)
  datatype TurtleBody = TurtleBody(pos: Vec3, turtle: Turtle)

  /// The spawned turtle: patrolling a radius-20 circle about (0, 5, 0) at
  /// speed 0.3, starting from (0, 5, 15) at angle 0.
  const SpawnedTurtle: TurtleBody :=
    TurtleBody(Vec3(0.0, 5.0, 15.0), Turtle(Vec3(0.0, 5.0, 0.0), 20.0, 0.0, 0.3))

  /// The point on the patrol path for samples `c` = cos(angle),
  /// `s` = sin(angle) and `s2` = sin(2·angle): on the circle's bounding
  /// square, undulating up and down by at most 2.
  function PatrolTarget(tu: Turtle, c: real, s: real, s2: real): (r: Vec3)
    requires -1.0 <= c <= 1.0 && -1.0 <= s <= 1.0 && -1.0 <= s2 <= 1.0
    ensures tu.center.y - 2.0 <= r.y <= tu.center.y + 2.0
    ensures 0.0 <= tu.radius ==>
              tu.center.x - tu.radius <= r.x <= tu.center.x + tu.radius &&
              tu.center.z - tu.radius <= r.z <= tu.center.z + tu.radius
  {
    var center, radius := tu.center, tu.radius;
    MulBound(c, radius);
    MulBound(s, radius);
    Vec3(center.x + c * radius, center.y + s2 * 2.0, center.z + s * radius)
  }

  /// The turtle component after its angle advanced by `speed·dt`.
  function Advanced(tu: Turtle, dt: real): (r: Turtle)
    ensures r.center == tu.center && r.radius == tu.radius && r.speed == tu.speed
    ensures r.angle - tu.angle == tu.speed * dt
  {
    tu.(angle := tu.angle + tu.speed * dt)
  }

  /// One tick of `patrol_turtle`, given the target for the advanced angle:
  /// swim toward it at five times the angular speed.
  function TurtleTick(b: TurtleBody, dt: real, target: Vec3, len: Vec3 -> real): (r: TurtleBody)
    requires IsLength(len)
    ensures r.turtle == Advanced(b.turtle, dt)
    ensures target == b.pos ==> r.pos == b.pos
  {
    var pos, speed := b.pos, b.turtle.speed;
    var step := speed * 5.0 * dt;
    var d := Sub(target, pos);
    Moved(pos, d, step, len);
    assert d == Zero <==> target == pos;
    TurtleBody(Add(pos, Scale(NormalizeOrZero(d, len), step)), Advanced(b.turtle, dt))
  }

  /// Off its target, the turtle moves straight toward it by exactly
  /// `speed·5·dt` (for a non-negative step).
  lemma TurtleMovesTowardTarget(b: TurtleBody, dt: real, target: Vec3, len: Vec3 -> real)
    requires IsLength(len) && target != b.pos
    ensures 0.0 < len(Sub(target, b.pos))
    ensures TurtleTick(b, dt, target, len).pos ==
              Add(b.pos, Scale(Sub(target, b.pos), b.turtle.speed * 5.0 * dt / len(Sub(target, b.pos))))
    ensures 0.0 <= b.turtle.speed * 5.0 * dt ==>
              len(Sub(TurtleTick(b, dt, target, len).pos, b.pos)) == b.turtle.speed * 5.0 * dt
  {
    var pos, speed := b.pos, b.turtle.speed;
    var step := speed * 5.0 * dt;
    var d := Sub(target, pos);
    assert d != Zero;
    Moved(pos, d, step, len);
    assert TurtleTick(b, dt, target, len).pos == Add(pos, Scale(NormalizeOrZero(d, len), step));
  }

  /// The tick, sampling the waves at the advanced angle as the source does.
  function TurtleAt(b: TurtleBody, dt: real, sin: real -> real, cos: real -> real, len: Vec3 -> real): TurtleBody
    requires IsWave(sin) && IsWave(cos) && IsLength(len)
  {
    var a := Advanced(b.turtle, dt).angle;
    Sample(cos, a);
    Sample(sin, a);
    Sample(sin, a * 2.0);
    TurtleTick(b, dt, PatrolTarget(Advanced(b.turtle, dt), cos(a), sin(a), sin(a * 2.0)), len)
  }

  function TurtleStep(dt: real, sin: real -> real, cos: real -> real, len: Vec3 -> real): TurtleBody -> TurtleBody
    requires IsWave(sin) && IsWave(cos) && IsLength(len)
  {
    b => TurtleAt(b, dt, sin, cos, len)
  }

  /// `patrol_turtle` over every turtle of the query, in place.
  method PatrolTurtle(bodies: array<TurtleBody>, dt: real, sin: real -> real, cos: real -> real, len: Vec3 -> real)
    requires IsWave(sin) && IsWave(cos) && IsLength(len)
    modifies bodies
    ensures bodies[..] == MapFirst(old(bodies[..]), bodies.Length, TurtleStep(dt, sin, cos, len))
  {
    ghost var data := bodies[..];
    ghost var step := TurtleStep(dt, sin, cos, len);
    var i := 0;
    while i < bodies.Length
      invariant 0 <= i <= bodies.Length
      invariant bodies[..] == MapFirst(data, i, step) + data[i..]
    {
      MapFirstNext(data, i, step);
      bodies[i] := TurtleAt(bodies[i], dt, sin, cos, len);
      i := i + 1;
    }
    assert data[i..] == [];
  }

  // ---------------------------------------------------------------------------
  // Creature bubbles
  // ---------------------------------------------------------------------------

  /// A bubble entity: translation, scale and its `CreatureBubble` component.
  datatype Bubble = Bubble(pos: Vec3, scale: Vec3, vel: Vec3, lifetime: real, maxLifetime: real)

  /// `spawn_bubble` at `position` with size `size`; `r1`..`r4` are the four
  /// random draws in the order the source makes them.
  function SpawnBubble(position: Vec3, size: real, r1: real, r2: real, r3: real, r4: real): (r: Bubble)
    requires 0.0 <= r1 < 1.0 && 0.0 <= r2 < 1.0 && 0.0 <= r3 < 1.0 && 0.0 <= r4 < 1.0
    ensures r.pos == position && r.scale == Splat(size) && r.lifetime == 0.0
    ensures -0.25 <= r.vel.x < 0.25 && 1.5 <= r.vel.y < 2.5 && -0.25 <= r.vel.z < 0.25
    ensures 2.0 <= r.maxLifetime < 4.0
  {
    Bubble(position, Splat(size), Vec3((r1 - 0.5) * 0.5, 1.5 + r2 * 1.0, (r3 - 0.5) * 0.5), 0.0, 2.0 + r4 * 2.0)
  }

  /// Whether the bubble is despawned in this tick (after its lifetime grew).
  predicate Expired(b: Bubble) {
    b.lifetime >= b.maxLifetime
  }

  /// The shrink factor applied to a live bubble: never above 1, and above
  /// 0.99 while the bubble is within its lifetime.
  function Fade(lifetime: real, maxLifetime: real): (r: real)
    requires maxLifetime != 0.0
    ensures r <= 1.0
    ensures 0.0 <= lifetime < maxLifetime ==> 0.99 < r
  {
    var ratio := lifetime / maxLifetime;
    var fade := 1.0 - ratio * ratio;
    assert 0.0 <= ratio * ratio;
    if 0.0 <= lifetime < maxLifetime then
      RatioBelowOne(lifetime, maxLifetime);
      0.99 + fade * 0.01
    else 0.99 + fade * 0.01
  }

  /// One tick of `animate_creature_bubbles` for one bubble, given the wobble
  /// samples `wx` and `wz`. The lifetime always grows by `dt`; an expired
  /// bubble is left otherwise as it was.
  function BubbleTick(b: Bubble, dt: real, wx: real, wz: real): (r: Bubble)
    requires -1.0 <= wx <= 1.0 && -1.0 <= wz <= 1.0 && b.maxLifetime != 0.0
    ensures r.lifetime == b.lifetime + dt && r.maxLifetime == b.maxLifetime
    ensures Expired(r) ==> r == b.(lifetime := b.lifetime + dt)
    ensures !Expired(r) ==>
              r.vel == Vec3(b.vel.x * 0.98, b.vel.y, b.vel.z * 0.98) &&
              r.pos.y == b.pos.y + b.vel.y * dt &&
              -0.01 <= r.pos.x - (b.pos.x + b.vel.x * dt) <= 0.01 &&
              -0.01 <= r.pos.z - (b.pos.z + b.vel.z * dt) <= 0.01
    ensures 0.0 <= b.scale.x ==> r.scale.x <= b.scale.x
    ensures !Expired(r) ==> r.scale == Splat(r.scale.x)
    ensures 0.0 <= b.scale.x && !Expired(r) && 0.0 <= r.lifetime ==> 0.99 * b.scale.x <= r.scale.x
  {
    var pos, vel, scale, maxLife := b.pos, b.vel, b.scale, b.maxLifetime;
    var life := b.lifetime + dt;
    if life >= maxLife then b.(lifetime := life)
    else
      var moved := Add(pos, Scale(vel, dt));
      var x, f := scale.x, Fade(life, maxLife);
      MulBelow(x, f, 1.0);
      MulBelow(x, 0.99, f);
      Bubble(Vec3(moved.x + wx * 0.01, moved.y, moved.z + wz * 0.01), Splat(x * f),
             Vec3(vel.x * 0.98, vel.y, vel.z * 0.98), life, maxLife)
  }

  /// The tick at elapsed time `t`, sampling the wobble where the source does.
  function BubbleAt(b: Bubble, t: real, dt: real, sin: real -> real, cos: real -> real): Bubble
    requires IsWave(sin) && IsWave(cos) && b.maxLifetime != 0.0
  {
    var life := b.lifetime + dt;
    Sample(sin, t * 3.0 + life);
    Sample(cos, t * 2.5 + life * 1.3);
    BubbleTick(b, dt, sin(t * 3.0 + life), cos(t * 2.5 + life * 1.3))
  }

  /// The tick of any bubble. A bubble whose lifetime bound is zero only
  /// ages: once its lifetime is non-negative it is expired, as in the source.
  function BubbleNext(b: Bubble, t: real, dt: real, sin: real -> real, cos: real -> real): (r: Bubble)
    requires IsWave(sin) && IsWave(cos)
    ensures r.lifetime == b.lifetime + dt && r.maxLifetime == b.maxLifetime
    ensures Expired(r) ==> r == b.(lifetime := b.lifetime + dt)
  {
    if b.maxLifetime != 0.0 then BubbleAt(b, t, dt, sin, cos) else b.(lifetime := b.lifetime + dt)
  }

  /// The tick of every bubble.
  function BubbleStep(t: real, dt: real, sin: real -> real, cos: real -> real): Bubble -> Bubble
    requires IsWave(sin) && IsWave(cos)
  {
    (b: Bubble) => BubbleNext(b, t, dt, sin, cos)
  }

  /// `animate_creature_bubbles` over every bubble of the query, in place;
  /// `gone[k]` says whether bubble `k` is despawned.
  method AnimateCreatureBubbles(bubbles: array<Bubble>, t: real, dt: real, sin: real -> real, cos: real -> real)
    returns (gone: seq<bool>)
    requires IsWave(sin) && IsWave(cos)
    modifies bubbles
    ensures bubbles[..] == MapFirst(old(bubbles[..]), bubbles.Length, BubbleStep(t, dt, sin, cos))
    ensures gone == Marks(bubbles[..], Expired)
  {
    ghost var data := bubbles[..];
    ghost var step := BubbleStep(t, dt, sin, cos);
    gone := [];
    var i := 0;
    while i < bubbles.Length
      invariant 0 <= i <= bubbles.Length
      invariant bubbles[..] == MapFirst(data, i, step) + data[i..]
      invariant gone == Marks(MapFirst(data, i, step), Expired)
    {
      MapFirstNext(data, i, step);
      MarksNext(data, i, step, Expired);
      var b := bubbles[i];
      var next := BubbleNext(b, t, dt, sin, cos);
      bubbles[i] := next;
      gone := gone + [Expired(next)];
      i := i + 1;
    }
    assert data[i..] == [];
  }
}

// The alien planet's sky rays: a single flock of boids with cohesion,
// alignment, short-range separation and a pull toward the world origin.

module Fauna {
  import opened Vectors
  import opened Sequences

  /// A sky ray entity: its translation and its `Boid` velocity.
  datatype SkyRay = SkyRay(pos: Vec3, vel: Vec3)

  const PerceptionRadius: real := 10.0
  const AvoidanceRadius: real := 2.0
  const MaxSpeed: real := 8.0
  const MinSpeed: real := 3.0
  const TurnSpeed: real := 2.0
  const SpawnSpeed: real := 5.0
  const FlockSize: nat := 50

  /// The push away from a neighbour at distance `d > 0`: minus the unit
  /// vector toward it, divided by the distance.
  function Repel(me: SkyRay, other: SkyRay, d: real, len: Vec3 -> real): Vec3
    requires IsLength(len) && d != 0.0
  {
    Scale(NormalizeOrZero(Sub(other.pos, me.pos), len), -1.0 / d)
  }

  /// One pass of the neighbour loop: `other` as seen by `me`. There is no
  /// species filter; the ray itself is skipped because its distance is 0.
  function Visit(acc: Sums, me: SkyRay, other: SkyRay, len: Vec3 -> real): (r: Sums)
    requires IsLength(len)
    ensures other.pos == me.pos ==> r == acc
  {
    var d := Distance(me.pos, other.pos, len);
    if 0.0 < d < PerceptionRadius then
      Sums(if d < AvoidanceRadius then Add(acc.separation, Repel(me, other, d, len)) else acc.separation,
           Add(acc.alignment, other.vel), Add(acc.cohesion, other.pos), acc.count + 1)
    else acc
  }

  /// The accumulators after scanning `data` front to back.
  function Gather(data: seq<SkyRay>, me: SkyRay, len: Vec3 -> real): Sums
    requires IsLength(len)
    decreases |data|
  {
    if data == [] then NoSums
    else Visit(Gather(data[..|data| - 1], me, len), me, data[|data| - 1], len)
  }

  /// Reference definitions: the neighbours in perception range, and those of
  /// them close enough to repel.
  ghost predicate IsNeighbour(me: SkyRay, other: SkyRay, len: Vec3 -> real)
    requires IsLength(len)
  {
    0.0 < Distance(me.pos, other.pos, len) < PerceptionRadius
  }

  ghost predicate Crowds(me: SkyRay, other: SkyRay, len: Vec3 -> real)
    requires IsLength(len)
  {
    0.0 < Distance(me.pos, other.pos, len) < AvoidanceRadius
  }

  ghost function Neighbours(data: seq<SkyRay>, me: SkyRay, len: Vec3 -> real): seq<SkyRay>
    requires IsLength(len)
    decreases |data|
  {
    if data == [] then []
    else
      var rest := Neighbours(data[..|data| - 1], me, len);
      if IsNeighbour(me, data[|data| - 1], len) then rest + [data[|data| - 1]] else rest
  }

  ghost function Crowd(data: seq<SkyRay>, me: SkyRay, len: Vec3 -> real): seq<SkyRay>
    requires IsLength(len)
    decreases |data|
  {
    if data == [] then []
    else
      var rest := Crowd(data[..|data| - 1], me, len);
      if Crowds(me, data[|data| - 1], len) then rest + [data[|data| - 1]] else rest
  }

  ghost function SumPositions(s: seq<SkyRay>): Vec3
    decreases |s|
  {
    if s == [] then Zero else Add(SumPositions(s[..|s| - 1]), s[|s| - 1].pos)
  }

  ghost function SumVelocities(s: seq<SkyRay>): Vec3
    decreases |s|
  {
    if s == [] then Zero else Add(SumVelocities(s[..|s| - 1]), s[|s| - 1].vel)
  }

  ghost function SumRepel(s: seq<SkyRay>, me: SkyRay, len: Vec3 -> real): Vec3
    requires IsLength(len)
    decreases |s|
  {
    if s == [] then Zero
    else
      var other := s[|s| - 1];
      var d := Distance(me.pos, other.pos, len);
      Add(SumRepel(s[..|s| - 1], me, len), if d == 0.0 then Zero else Repel(me, other, d, len))
  }

  /// The scan counts exactly the rays in perception range, of any kind, and
  /// sums their positions and velocities; separation sums over the rays
  /// closer than the avoidance radius.
  lemma {:induction false} GatherMeaning(data: seq<SkyRay>, me: SkyRay, len: Vec3 -> real)
    requires IsLength(len)
    ensures Gather(data, me, len).count == |Neighbours(data, me, len)|
    ensures Gather(data, me, len).cohesion == SumPositions(Neighbours(data, me, len))
    ensures Gather(data, me, len).alignment == SumVelocities(Neighbours(data, me, len))
    ensures Gather(data, me, len).separation == SumRepel(Crowd(data, me, len), me, len)
    decreases |data|
  {
    if data != [] {
      var init, last := data[..|data| - 1], data[|data| - 1];
      GatherMeaning(init, me, len);
      var m := Neighbours(init, me, len);
      var c := Crowd(init, me, len);
      if IsNeighbour(me, last, len) {
        assert (m + [last])[..|m + [last]| - 1] == m;
      }
      if Crowds(me, last, len) {
        assert (c + [last])[..|c + [last]| - 1] == c;
      }
    }
  }

  /// Any ray in perception range counts, whatever it is.
  lemma {:induction false} EveryNeighbourCounts(data: seq<SkyRay>, me: SkyRay, other: SkyRay, len: Vec3 -> real)
    requires IsLength(len) && 0.0 < Distance(me.pos, other.pos, len) < PerceptionRadius
    ensures Gather(data + [other], me, len).count == Gather(data, me, len).count + 1
    ensures Gather(data + [other], me, len).cohesion == Add(Gather(data, me, len).cohesion, other.pos)
    ensures Gather(data + [other], me, len).alignment == Add(Gather(data, me, len).alignment, other.vel)
  {
    assert (data + [other])[..|data + [other]| - 1] == data;
  }

  /// With no neighbour in range, cohesion and alignment are zero.
  lemma NoNeighboursNoPull(data: seq<SkyRay>, me: SkyRay, len: Vec3 -> real)
    requires IsLength(len)
    ensures Neighbours(data, me, len) == [] ==>
              Average(Gather(data, me, len), me.pos).cohesion == Zero &&
              Average(Gather(data, me, len), me.pos).alignment == Zero
  {
    GatherMeaning(data, me, len);
  }

  /// The combined steering target: own velocity, 1.5 times separation,
  /// alignment, cohesion and a pull of 0.05 times the offset to the origin.
  function TargetVelocity(me: SkyRay, s: Sums): Vec3 {
    Add(Add(Add(Add(me.vel, Scale(s.separation, 1.5)), Scale(s.alignment, 1.0)), Scale(s.cohesion, 1.0)),
        Scale(me.pos, -0.05))
  }

  /// The target of ray `me` in the snapshot `data`.
  function TargetOf(data: seq<SkyRay>, me: SkyRay, len: Vec3 -> real): Vec3
    requires IsLength(len)
  {
    TargetVelocity(me, Average(Gather(data, me, len), me.pos))
  }

  /// The velocity turned a fraction `dt·2` toward the target at full speed.
  function Blended(data: seq<SkyRay>, me: SkyRay, dt: real, len: Vec3 -> real): Vec3
    requires IsLength(len)
  {
    Lerp(me.vel, Scale(NormalizeOrZero(TargetOf(data, me, len), len), MaxSpeed), dt * TurnSpeed)
  }

  /// `normalize` is only defined off zero: the steering target and the
  /// blended velocity must both be non-zero for the tick to be defined.
  predicate Defined(data: seq<SkyRay>, me: SkyRay, dt: real, len: Vec3 -> real)
    requires IsLength(len)
  {
    TargetOf(data, me, len) != Zero && Blended(data, me, dt, len) != Zero
  }

  /// The new state of ray `me` after one tick, reading its neighbours from
  /// the snapshot `data`: speed ends in [3, 8] and the ray moves by its new
  /// velocity times `dt`.
  function Steer(data: seq<SkyRay>, me: SkyRay, dt: real, len: Vec3 -> real): (r: SkyRay)
    requires IsLength(len) && Defined(data, me, dt, len)
    ensures r.pos == Add(me.pos, Scale(r.vel, dt))
    ensures MinSpeed <= len(r.vel) <= MaxSpeed
    ensures MinSpeed <= len(Blended(data, me, dt, len)) <= MaxSpeed ==> r.vel == Blended(data, me, dt, len)
  {
    var w := ClampLength(Blended(data, me, dt, len), MinSpeed, MaxSpeed, len);
    SkyRay(Add(me.pos, Scale(w, dt)), w)
  }

  /// The update applied to each ray of the snapshot `data`; a ray whose
  /// tick is undefined is left as it is (the source would produce NaN).
  function Steering(data: seq<SkyRay>, dt: real, len: Vec3 -> real): SkyRay -> SkyRay
    requires IsLength(len)
  {
    me => if Defined(data, me, dt, len) then Steer(data, me, dt, len) else me
  }

  /// Every ray of `data` has a defined tick.
  predicate AllDefined(data: seq<SkyRay>, dt: real, len: Vec3 -> real)
    requires IsLength(len)
  {
    forall k :: 0 <= k < |data| ==> Defined(data, data[k], dt, len)
  }

  /// The neighbour loop of `boid_simulation` for one ray.
  method ScanNeighbours(data: seq<SkyRay>, me: SkyRay, len: Vec3 -> real) returns (s: Sums)
    requires IsLength(len)
    ensures s == Gather(data, me, len)
  {
    var separation, alignment, cohesion, count := Zero, Zero, Zero, 0;
    var j := 0;
    while j < |data|
      invariant 0 <= j <= |data|
      invariant Sums(separation, alignment, cohesion, count) == Gather(data[..j], me, len)
    {
      var other := data[j];
      var dist := Distance(me.pos, other.pos, len);
      if 0.0 < dist < PerceptionRadius {
        cohesion := Add(cohesion, other.pos);
        alignment := Add(alignment, other.vel);
        if dist < AvoidanceRadius {
          separation := Add(separation, Scale(NormalizeOrZero(Sub(other.pos, me.pos), len), -1.0 / dist));
        }
        count := count + 1;
      }
      assert data[..j + 1][..j] == data[..j];
      j := j + 1;
    }
    assert data[..j] == data;
    s := Sums(separation, alignment, cohesion, count);
  }

  /// The body of `boid_simulation` for one ray: scan, average, steer, clamp, move.
  method SteerRay(data: seq<SkyRay>, me: SkyRay, dt: real, len: Vec3 -> real) returns (r: SkyRay)
    requires IsLength(len) && Defined(data, me, dt, len)
    ensures r == Steer(data, me, dt, len)
  {
    var s := ScanNeighbours(data, me, len);
    var separation, alignment, cohesion, count := s.separation, s.alignment, s.cohesion, s.count;
    if count > 0 {
      cohesion := Sub(Scale(cohesion, 1.0 / count as real), me.pos);
      alignment := Scale(alignment, 1.0 / count as real);
    }
    assert Sums(separation, alignment, cohesion, count) == Average(s, me.pos);
    var target := TargetVelocity(me, Sums(separation, alignment, cohesion, count));
    var velocity := Lerp(me.vel, Scale(NormalizeOrZero(target, len), MaxSpeed), dt * TurnSpeed);
    ghost var blended := velocity;
    var speed := len(velocity);
    if speed < MinSpeed {
      velocity := Scale(NormalizeOrZero(velocity, len), MinSpeed);
    } else if speed > MaxSpeed {
      velocity := Scale(NormalizeOrZero(velocity, len), MaxSpeed);
    }
    assert velocity == ClampLength(blended, MinSpeed, MaxSpeed, len);
    r := SkyRay(Add(me.pos, Scale(velocity, dt)), velocity);
  }

  /// The update of ray `i` of the snapshot.
  method TickRay(data: seq<SkyRay>, i: nat, dt: real, len: Vec3 -> real) returns (r: SkyRay)
    requires IsLength(len) && AllDefined(data, dt, len) && i < |data|
    ensures r == Steering(data, dt, len)(data[i])
  {
    r := SteerRay(data, data[i], dt, len);
  }

  /// `boid_simulation`: snapshot every ray, then update each one in place.
  method BoidSimulation(rays: array<SkyRay>, dt: real, len: Vec3 -> real)
    requires IsLength(len) && AllDefined(rays[..], dt, len)
    modifies rays
    ensures rays[..] == MapFirst(old(rays[..]), rays.Length, Steering(old(rays[..]), dt, len))
  {
    var data := rays[..];
    ghost var steer := Steering(data, dt, len);
    var i := 0;
    while i < rays.Length
      invariant 0 <= i <= rays.Length
      invariant rays[..] == MapFirst(data, i, steer) + data[i..]
    {
      MapFirstNext(data, i, steer);
      rays[i] := TickRay(data, i, dt, len);
      i := i + 1;
    }
    assert data[i..] == [];
  }

  /// After a tick with every ray defined, each ray has moved by its new
  /// velocity times `dt` and flies at a speed in [3, 8].
  lemma StepInvariants(data: seq<SkyRay>, dt: real, len: Vec3 -> real, k: nat)
    requires IsLength(len) && AllDefined(data, dt, len) && k < |data|
    ensures var r := MapFirst(data, |data|, Steering(data, dt, len))[k];
              r.pos == Add(data[k].pos, Scale(r.vel, dt)) && MinSpeed <= len(r.vel) <= MaxSpeed
  {
    MapFirstAt(data, |data|, Steering(data, dt, len), k);
    assert Defined(data, data[k], dt, len);
  }

  /// The random draws for one spawned ray, each in [0, 1).
  datatype Draw = Draw(px: real, py: real, pz: real, vx: real, vy: real, vz: real)

  predicate ValidDraw(d: Draw) {
    0.0 <= d.px < 1.0 && 0.0 <= d.py < 1.0 && 0.0 <= d.pz < 1.0 &&
    0.0 <= d.vx < 1.0 && 0.0 <= d.vy < 1.0 && 0.0 <= d.vz < 1.0 &&
    Vec3(d.vx - 0.5, d.vy - 0.5, d.vz - 0.5) != Zero
  }

  /// One ray of `spawn_fauna`: somewhere in a 50 by 20 by 50 box above the
  /// ground, flying in a random direction at speed 5.
  function SpawnRay(d: Draw, len: Vec3 -> real): (r: SkyRay)
    requires IsLength(len) && ValidDraw(d)
    ensures -25.0 <= r.pos.x < 25.0 && 10.0 <= r.pos.y < 30.0 && -25.0 <= r.pos.z < 25.0
    ensures len(r.vel) == SpawnSpeed
  {
    var dir := Vec3(d.vx - 0.5, d.vy - 0.5, d.vz - 0.5);
    Resized(dir, SpawnSpeed, len);
    SkyRay(Vec3((d.px - 0.5) * 50.0, 10.0 + d.py * 20.0, (d.pz - 0.5) * 50.0),
           Scale(NormalizeOrZero(dir, len), SpawnSpeed))
  }

  /// `spawn_fauna`: fifty rays, one per draw.
  function SpawnFauna(draws: seq<Draw>, len: Vec3 -> real): (r: seq<SkyRay>)
    requires IsLength(len) && |draws| == FlockSize && forall k :: 0 <= k < |draws| ==> ValidDraw(draws[k])
    ensures |r| == FlockSize
    ensures forall k :: 0 <= k < |r| ==> r[k] == SpawnRay(draws[k], len)
  {
    seq(|draws|, k requires 0 <= k < |draws| => SpawnRay(draws[k], len))
  }

  /// Every spawned ray starts inside the clamp's speed band, so the first
  /// tick's clamp only changes it through the blend.
  lemma SpawnedSpeedInBand(draws: seq<Draw>, len: Vec3 -> real, k: nat)
    requires IsLength(len) && |draws| == FlockSize && forall j :: 0 <= j < |draws| ==> ValidDraw(draws[j])
    requires k < FlockSize
    ensures MinSpeed <= len(SpawnFauna(draws, len)[k].vel) <= MaxSpeed
  {
    var r := SpawnFauna(draws, len)[k];
    assert r == SpawnRay(draws[k], len);
  }
}

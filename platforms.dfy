// The platformer's moving platforms: each ping-pongs between two positions
// by reversing its direction on arrival and setting its kinematic velocity.

module Platforms {
  import opened Vectors
  import opened Sequences

  /// Within this distance a platform has arrived at its target.
  const ArrivalThreshold: real := 0.1

  /// The `MovingPlatform` component; `direction` is 1 going start to end
  /// and -1 going back.
  datatype MovingPlatform = MovingPlatform(startPos: Vec3, endPos: Vec3, speed: real, direction: real)

  /// A platform entity: its translation, its component and its
  /// `LinearVelocity`.
  datatype PlatformBody = PlatformBody(pos: Vec3, platform: MovingPlatform, velocity: Vec3)

  /// The direction is one of the two values the source ever gives it.
  predicate UnitDirection(p: MovingPlatform) {
    p.direction == 1.0 || p.direction == -1.0
  }

  /// The position the platform is heading for.
  function Target(p: MovingPlatform): (r: Vec3)
    ensures p.direction > 0.0 ==> r == p.endPos
    ensures p.direction <= 0.0 ==> r == p.startPos
  {
    if p.direction > 0.0 then p.endPos else p.startPos
  }

  /// One tick of `animate_moving_platforms` for one platform. Normalising
  /// the travel vector needs the two end positions to differ.
  function PlatformTick(b: PlatformBody, len: Vec3 -> real): (r: PlatformBody)
    requires IsLength(len) && b.platform.startPos != b.platform.endPos
    ensures r.pos == b.pos
    ensures r.platform == b.platform.(direction := r.platform.direction)
    ensures Distance(b.pos, Target(b.platform), len) < ArrivalThreshold ==>
              r.platform.direction == -b.platform.direction
    ensures Distance(b.pos, Target(b.platform), len) >= ArrivalThreshold ==>
              r.platform.direction == b.platform.direction
    ensures UnitDirection(b.platform) ==> UnitDirection(r.platform)
    ensures 0.0 <= b.platform.speed ==> len(r.velocity) == b.platform.speed
    ensures r.platform.direction > 0.0 ==>
              r.velocity == Scale(NormalizeOrZero(Sub(b.platform.endPos, b.platform.startPos), len), b.platform.speed)
    ensures r.platform.direction <= 0.0 ==>
              r.velocity == Scale(NormalizeOrZero(Sub(b.platform.startPos, b.platform.endPos), len), b.platform.speed)
  {
    var p := b.platform;
    var distance := Distance(b.pos, Target(p), len);
    var q := if distance < ArrivalThreshold then p.(direction := p.direction * -1.0) else p;
    var travel := if q.direction > 0.0 then Sub(p.endPos, p.startPos) else Sub(p.startPos, p.endPos);
    assert travel != Zero;
    ScaledUnitLength(travel, p.speed, len);
    PlatformBody(b.pos, q, Scale(NormalizeOrZero(travel, len), p.speed))
  }

  /// The tick of every platform; one whose end positions coincide (which
  /// the source would normalise to NaN) is left as it is.
  function PlatformStep(len: Vec3 -> real): PlatformBody -> PlatformBody
    requires IsLength(len)
  {
    (b: PlatformBody) => if b.platform.startPos != b.platform.endPos then PlatformTick(b, len) else b
  }

  /// The loop body of `animate_moving_platforms` for one platform: reverse
  /// on arrival, then set the velocity toward the new target.
  method MovePlatform(b: PlatformBody, len: Vec3 -> real) returns (r: PlatformBody)
    requires IsLength(len) && b.platform.startPos != b.platform.endPos
    ensures r == PlatformTick(b, len)
  {
    var platform := b.platform;
    var currentPos := b.pos;
    var targetPos := if platform.direction > 0.0 then platform.endPos else platform.startPos;
    var distanceToTarget := Distance(currentPos, targetPos, len);
    if distanceToTarget < ArrivalThreshold {
      platform := platform.(direction := platform.direction * -1.0);
    }
    var moveDirection := if platform.direction > 0.0 then NormalizeOrZero(Sub(platform.endPos, platform.startPos), len)
                         else NormalizeOrZero(Sub(platform.startPos, platform.endPos), len);
    r := PlatformBody(b.pos, platform, Scale(moveDirection, platform.speed));
  }

  /// `animate_moving_platforms` over every platform of the query, in place.
  method AnimateMovingPlatforms(bodies: array<PlatformBody>, len: Vec3 -> real)
    requires IsLength(len)
    requires forall k :: 0 <= k < bodies.Length ==> bodies[k].platform.startPos != bodies[k].platform.endPos
    modifies bodies
    ensures bodies[..] == MapFirst(old(bodies[..]), bodies.Length, PlatformStep(len))
  {
    ghost var data := bodies[..];
    ghost var step := PlatformStep(len);
    var i := 0;
    while i < bodies.Length
      invariant 0 <= i <= bodies.Length
      invariant bodies[..] == MapFirst(data, i, step) + data[i..]
    {
      MapFirstNext(data, i, step);
      bodies[i] := MovePlatform(bodies[i], len);
      i := i + 1;
    }
    assert data[i..] == [];
  }

  /// Over a tick, every platform keeps its translation, its end positions
  /// and its speed, and a direction of ±1 stays ±1.
  lemma StepKeeps(data: seq<PlatformBody>, len: Vec3 -> real, k: nat)
    requires IsLength(len) && k < |data|
    ensures var r := MapFirst(data, |data|, PlatformStep(len))[k];
              r.pos == data[k].pos &&
              r.platform.startPos == data[k].platform.startPos &&
              r.platform.endPos == data[k].platform.endPos &&
              r.platform.speed == data[k].platform.speed &&
              (UnitDirection(data[k].platform) ==> UnitDirection(r.platform))
  {
    MapFirstAt(data, |data|, PlatformStep(len), k);
  }

  /// Ticking a platform any number of times keeps its direction at ±1.
  function Ticks(b: PlatformBody, n: nat, len: Vec3 -> real): (r: PlatformBody)
    requires IsLength(len) && b.platform.startPos != b.platform.endPos
    ensures r.platform.startPos == b.platform.startPos && r.platform.endPos == b.platform.endPos
    decreases n
  {
    if n == 0 then b else Ticks(PlatformTick(b, len), n - 1, len)
  }

  lemma {:induction false} TicksKeepUnitDirection(b: PlatformBody, n: nat, len: Vec3 -> real)
    requires IsLength(len) && b.platform.startPos != b.platform.endPos && UnitDirection(b.platform)
    ensures UnitDirection(Ticks(b, n, len).platform)
    decreases n
  {
    if n > 0 {
      TicksKeepUnitDirection(PlatformTick(b, len), n - 1, len);
    }
  }

  /// The three platforms of `spawn_moving_platforms`, each at its start
  /// position, heading for its end, with zero initial velocity.
  const SpawnedPlatforms: seq<PlatformBody> := [
    PlatformBody(Vec3(12.0, 8.0, -12.0), MovingPlatform(Vec3(12.0, 8.0, -12.0), Vec3(20.0, 8.0, -12.0), 2.0, 1.0), Zero),
    PlatformBody(Vec3(-6.0, 4.0, -12.0), MovingPlatform(Vec3(-6.0, 4.0, -12.0), Vec3(-6.0, 12.0, -12.0), 1.5, 1.0), Zero),
    PlatformBody(Vec3(0.0, 6.0, -24.0), MovingPlatform(Vec3(0.0, 6.0, -24.0), Vec3(8.0, 10.0, -28.0), 1.8, 1.0), Zero)
  ]

  /// Every spawned platform starts at its start position with distinct end
  /// positions, a positive speed and direction 1.
  lemma SpawnedPlatformsWellFormed(k: nat)
    requires k < |SpawnedPlatforms|
    ensures var b := SpawnedPlatforms[k];
              b.pos == b.platform.startPos && b.platform.startPos != b.platform.endPos &&
              0.0 < b.platform.speed && b.platform.direction == 1.0
  {
  }
}

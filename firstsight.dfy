// The first-person controller shared by the scenes: mouse look with a
// clamped pitch, WASD movement relative to the camera with a sprint key and
// a jump, the camera following the player at its camera height, and the
// controller bundle's shapes. The physics character controller is outside
// the model: the movement system's output is the walk and jump command it
// hands over.

module FirstSight {
  import opened Vectors
  import opened Sequences

  const DefaultPlayerHeight: real := 1.0
  const DefaultPlayerRadius: real := 0.5
  const LookSensitivity: real := 0.002
  const JumpHeight: real := 4.0
  const BaseSpeed: real := 10.0
  const SprintMultiplier: real := 1.5
  const PitchLimit: real := 1.5

  /// `f32::clamp` for `lo <= hi`.
  function Clamp(x: real, lo: real, hi: real): (r: real)
    requires lo <= hi
    ensures lo <= r <= hi
    ensures lo <= x <= hi ==> r == x
    ensures x < lo ==> r == lo
    ensures x > hi ==> r == hi
  {
    if x < lo then lo else if x > hi then hi else x
  }

  // ---------------------------------------------------------------------------
  // Looking
  // ---------------------------------------------------------------------------

  /// The `PlayerCamera` component together with the camera's translation.
  class PlayerCamera {
    var yaw: real
    var pitch: real
    var translation: Vec3

    /// The default camera: looking straight ahead, at the origin.
    constructor()
      ensures yaw == 0.0 && pitch == 0.0 && translation == Zero
    {
      yaw := 0.0;
      pitch := 0.0;
      translation := Zero;
    }

    /// The camera's objects invariant: the pitch lies within ±1.5.
    predicate PitchInRange()
      reads this
    {
      -PitchLimit <= pitch <= PitchLimit
    }

    /// `update_camera_looking_at` for a mouse motion (dx, dy); a camera
    /// with `LookDisabled` is not matched by the system and is untouched.
    method UpdateLookingAt(dx: real, dy: real, lookDisabled: bool)
      modifies this
      ensures lookDisabled ==> yaw == old(yaw) && pitch == old(pitch)
      ensures !lookDisabled ==> yaw == old(yaw) - dx * 0.002 && yaw == LookedYaw(old(yaw), dx)
      ensures !lookDisabled ==> pitch == Clamp(old(pitch) - dy * 0.002, -1.5, 1.5) && pitch == LookedPitch(old(pitch), dy)
      ensures !lookDisabled || old(PitchInRange()) ==> PitchInRange()
      ensures translation == old(translation)
    {
      if !lookDisabled {
        yaw := yaw - dx * LookSensitivity;
        pitch := pitch - dy * LookSensitivity;
        pitch := Clamp(pitch, -PitchLimit, PitchLimit);
      }
    }

    /// `update_camera_position`: the camera sits the camera height above
    /// the player.
    method UpdatePosition(playerTranslation: Vec3, cameraHeight: real)
      modifies this
      ensures translation == Vec3(playerTranslation.x, playerTranslation.y + cameraHeight, playerTranslation.z)
      ensures yaw == old(yaw) && pitch == old(pitch)
    {
      translation := Add(playerTranslation, Vec3(0.0, cameraHeight, 0.0));
    }
  }

  /// The pitch after a look update for a motion `dy` from pitch `p`.
  function LookedPitch(p: real, dy: real): real {
    Clamp(p - dy * LookSensitivity, -PitchLimit, PitchLimit)
  }

  /// Whatever the mouse does, the pitch ends within ±1.5, a motion that
  /// stays within the limits is applied exactly, and a large one pins the
  /// pitch at the limit.
  lemma PitchClamped(p: real, dy: real)
    ensures -1.5 <= LookedPitch(p, dy) <= 1.5
    ensures -1.5 <= p - dy * 0.002 <= 1.5 ==> LookedPitch(p, dy) == p - dy * 0.002
    ensures p - dy * 0.002 > 1.5 ==> LookedPitch(p, dy) == 1.5
  {
  }

  /// The yaw after a look update for a motion `dx` from yaw `y`.
  function LookedYaw(y: real, dx: real): real {
    y - dx * LookSensitivity
  }

  /// Unlike the pitch, the yaw is never clamped: from any yaw, one mouse
  /// motion turns the camera to any target yaw, and the motion that does
  /// it is unique.
  lemma YawReachesAnyTarget(yaw: real, target: real)
    ensures exists dx :: LookedYaw(yaw, dx) == target
    ensures forall dx, dx' :: LookedYaw(yaw, dx) == target && LookedYaw(yaw, dx') == target ==> dx == dx'
  {
    assert LookedYaw(yaw, (yaw - target) / LookSensitivity) == target;
  }

  // ---------------------------------------------------------------------------
  // Moving
  // ---------------------------------------------------------------------------

  /// The keys the movement system reads.
  datatype Keys = Keys(w: bool, a: bool, s: bool, d: bool, shift: bool, space: bool)

  /// The contribution of two opposite keys along `v`: `v` or its reverse
  /// when one of them is held, nothing when both or neither are.
  function Along(v: Vec3, plus: bool, minus: bool): Vec3 {
    if plus == minus then Zero else if plus then v else Scale(v, -1.0)
  }

  /// The facing the keys ask for, along the flattened forward and right
  /// directions.
  function Facing(k: Keys, forward: Vec3, right: Vec3): Vec3 {
    Add(Along(forward, k.w, k.s), Along(right, k.d, k.a))
  }

  /// Opposite keys cancel: W with S adds no forward component and A with D
  /// no sideways component.
  lemma OppositeKeysCancel(k: Keys, forward: Vec3, right: Vec3)
    ensures Facing(k.(w := true, s := true), forward, right) == Facing(k.(w := false, s := false), forward, right)
    ensures Facing(k.(a := true, d := true), forward, right) == Facing(k.(a := false, d := false), forward, right)
    ensures !k.w && !k.a && !k.s && !k.d ==> Facing(k, forward, right) == Zero
  {
  }

  /// 15 with the left shift held, 10 otherwise.
  function SpeedFor(k: Keys): (r: real)
    ensures k.shift ==> r == 15.0
    ensures !k.shift ==> r == 10.0
  {
    if k.shift then BaseSpeed * SprintMultiplier else BaseSpeed
  }

  /// A direction with its vertical component dropped, made unit length (or
  /// zero when it was vertical).
  function Flattened(v: Vec3, len: Vec3 -> real): (r: Vec3)
    requires IsLength(len)
    ensures r.y == 0.0
  {
    var n := NormalizeOrZero(Vec3(v.x, 0.0, v.z), len);
    assert n == Zero || n == Scale(Vec3(v.x, 0.0, v.z), 1.0 / len(Vec3(v.x, 0.0, v.z)));
    n
  }

  /// The facing `handle_movement` accumulates from the held keys: forward
  /// for W, back for S, left for A and right for D.
  method KeyFacing(k: Keys, forward: Vec3, right: Vec3) returns (facing: Vec3)
    ensures facing == Facing(k, forward, right)
  {
    facing := Zero;
    if k.w {
      facing := Add(facing, forward);
    }
    if k.s {
      facing := Sub(facing, forward);
    }
    assert facing == Along(forward, k.w, k.s);
    ghost var ahead := facing;
    if k.a {
      facing := Sub(facing, right);
    }
    if k.d {
      facing := Add(facing, right);
    }
    assert facing == Add(ahead, Along(right, k.d, k.a));
  }

  /// The walk velocity for a facing: the facing made unit length (or zero)
  /// and scaled to the speed.
  function Walk(facing: Vec3, speed: real, len: Vec3 -> real): Vec3
    requires IsLength(len)
  {
    Scale(NormalizeOrZero(facing, len), speed)
  }

  /// The walk velocity `handle_movement` computes: the camera's forward and
  /// right flattened, the facing the keys ask for along them, made unit
  /// length and scaled to the key speed.
  method WalkVelocity(k: Keys, cameraForward: Vec3, cameraRight: Vec3, len: Vec3 -> real) returns (velocity: Vec3)
    requires IsLength(len)
    ensures velocity == Walk(Facing(k, Flattened(cameraForward, len), Flattened(cameraRight, len)), SpeedFor(k), len)
  {
    var forward := Flattened(cameraForward, len);
    var right := Flattened(cameraRight, len);
    var facing := KeyFacing(k, forward, right);
    var speed := if k.shift then BaseSpeed * SprintMultiplier else BaseSpeed;
    velocity := Scale(NormalizeOrZero(facing, len), speed);
  }

  /// The command the movement system hands to the character controller:
  /// the walk basis and, when requested, a jump of the given height.
  datatype Command = Command(desiredVelocity: Vec3, floatHeight: real, jump: Option<real>)

  /// `handle_movement` for the player controller: the walk basis from the
  /// keys and the camera, floating half a unit above the camera height, and
  /// a jump of 4 while the space bar is held.
  method HandleMovement(k: Keys, cameraForward: Vec3, cameraRight: Vec3, cameraHeight: real,
                        len: Vec3 -> real)
    returns (cmd: Command)
    requires IsLength(len)
    ensures var forward, right := Flattened(cameraForward, len), Flattened(cameraRight, len);
            cmd.desiredVelocity == Walk(Facing(k, forward, right), SpeedFor(k), len)
    ensures cmd.floatHeight == cameraHeight + 0.5
    ensures cmd.jump == (if k.space then Some(4.0) else None)
  {
    var velocity := WalkVelocity(k, cameraForward, cameraRight, len);
    var jump := if k.space then Some(JumpHeight) else None;
    cmd := Command(velocity, cameraHeight + 0.5, jump);
  }

  /// The system's query: a player with `MovementDisabled` is not matched
  /// and gets no command.
  method MovementSystem(k: Keys, cameraForward: Vec3, cameraRight: Vec3, cameraHeight: real,
                        movementDisabled: bool, len: Vec3 -> real)
    returns (cmd: Option<Command>)
    requires IsLength(len)
    ensures movementDisabled <==> cmd == None
    ensures cmd.Some? ==> cmd.value.floatHeight == cameraHeight + 0.5
    ensures cmd.Some? ==> cmd.value.jump == (if k.space then Some(4.0) else None)
    ensures cmd.Some? ==>
              cmd.value.desiredVelocity ==
              Walk(Facing(k, Flattened(cameraForward, len), Flattened(cameraRight, len)), SpeedFor(k), len)
  {
    if movementDisabled {
      return None;
    }
    var c := HandleMovement(k, cameraForward, cameraRight, cameraHeight, len);
    cmd := Some(c);
  }

  /// The walk velocity has exactly the key speed, 10 or 15, whenever the
  /// keys ask for a facing, and is zero when they cancel out.
  lemma DesiredSpeed(k: Keys, forward: Vec3, right: Vec3, len: Vec3 -> real)
    requires IsLength(len)
    ensures var f := Facing(k, forward, right);
            var v := Walk(f, SpeedFor(k), len);
            (f == Zero ==> v == Zero) && (f != Zero ==> len(v) == SpeedFor(k))
  {
    Resized(Facing(k, forward, right), SpeedFor(k), len);
  }

  // ---------------------------------------------------------------------------
  // The controller bundle
  // ---------------------------------------------------------------------------

  /// A capsule (radius, height) or a cylinder (radius, height).
  datatype Shape = Capsule(radius: real, length: real) | Cylinder(cr: real, height: real)

  /// `PlayerControllerBundle`: the collider, the ground sensor and the
  /// camera height.
  datatype ControllerBundle = ControllerBundle(collider: Shape, sensor: Shape, cameraHeight: real)

  /// `PlayerControllerBundle::new(radius, height)`: a capsule collider, a
  /// flat sensor disc just inside it, and the height as camera height.
  function NewBundle(radius: real, height: real): (b: ControllerBundle)
    ensures b.collider == Capsule(radius, height)
    ensures b.sensor.Cylinder? && b.sensor.height == 0.0 && b.sensor.cr < radius && radius - b.sensor.cr == 0.01
    ensures b.cameraHeight == height
  {
    ControllerBundle(Capsule(radius, height), Cylinder(radius - 0.01, 0.0), height)
  }

  /// The default bundle: radius 0.5 and height 1, so the player's walk
  /// floats at 1.5.
  lemma DefaultBundle()
    ensures NewBundle(DefaultPlayerRadius, DefaultPlayerHeight) ==
            ControllerBundle(Capsule(0.5, 1.0), Cylinder(0.49, 0.0), 1.0)
    ensures NewBundle(DefaultPlayerRadius, DefaultPlayerHeight).cameraHeight + 0.5 == 1.5
  {
  }
}

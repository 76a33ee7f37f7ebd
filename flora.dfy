// The alien planet's bubble bushes: a click toggles a bush's target scale
// between 1 and 2, and every frame each bush's scale moves a fraction
// dt·speed of the way toward its target.

module Flora {
  import opened Vectors

  /// The target a click sets: back to 1 from a grown target (x above 1.5),
  /// otherwise 2.
  function Toggled(target: Vec3): (r: Vec3)
    ensures r == One || r == Splat(2.0)
    ensures r == One <==> target.x > 1.5
  {
    if target.x > 1.5 then One else Splat(2.0)
  }

  /// Two clicks bring a bush back to the target it had, when that target is
  /// one a click can set.
  lemma ToggleTwice(target: Vec3)
    requires target == One || target == Splat(2.0)
    ensures Toggled(Toggled(target)) == target
  {
  }

  /// The target after `n` clicks on a freshly spawned bush.
  function TargetAfterClicks(n: nat): Vec3 {
    if n == 0 then One else Toggled(TargetAfterClicks(n - 1))
  }

  /// From the spawned target 1, clicks alternate 2, 1, 2, …: an odd number
  /// of clicks leaves the target at 2, an even number at 1.
  lemma {:induction false} ClicksAlternate(n: nat)
    ensures TargetAfterClicks(n) == (if n % 2 == 0 then One else Splat(2.0))
  {
    if n > 0 {
      ClicksAlternate(n - 1);
    }
  }

  /// One component of the scale moved a fraction `k` of the way toward the
  /// target: for `k` in [0, 1] it ends between where it was and the target,
  /// and the gap left is exactly (1 − k) of the gap before.
  lemma StepTowards(a: real, b: real, k: real)
    ensures b - (a + (b - a) * k) == (b - a) * (1.0 - k)
    ensures 0.0 <= k <= 1.0 && a <= b ==> a <= a + (b - a) * k <= b
    ensures 0.0 <= k <= 1.0 && b <= a ==> b <= a + (b - a) * k <= a
  {
    if 0.0 <= k <= 1.0 {
      MulBelow(b - a, 0.0, k);
      MulBelow(b - a, k, 1.0);
      MulBelow(a - b, 0.0, k);
      MulBelow(a - b, k, 1.0);
    }
  }

  /// Scale moved toward a target never overshoots for k in [0, 1], and a
  /// bush already at its target stays there.
  lemma NoOvershoot(scale: Vec3, target: Vec3, k: real)
    requires 0.0 <= k <= 1.0
    ensures var r := Lerp(scale, target, k);
            (scale.x <= target.x ==> scale.x <= r.x <= target.x) && (target.x <= scale.x ==> target.x <= r.x <= scale.x) &&
            (scale.y <= target.y ==> scale.y <= r.y <= target.y) && (target.y <= scale.y ==> target.y <= r.y <= scale.y) &&
            (scale.z <= target.z ==> scale.z <= r.z <= target.z) && (target.z <= scale.z ==> target.z <= r.z <= scale.z)
    ensures Lerp(target, target, k) == target
  {
    LerpParts(scale, target, k);
    StepTowards(scale.x, target.x, k);
    StepTowards(scale.y, target.y, k);
    StepTowards(scale.z, target.z, k);
  }

  lemma LerpParts(a: Vec3, b: Vec3, k: real)
    ensures Lerp(a, b, k).x == a.x + (b.x - a.x) * k
    ensures Lerp(a, b, k).y == a.y + (b.y - a.y) * k
    ensures Lerp(a, b, k).z == a.z + (b.z - a.z) * k
  {
    assert Sub(b, a) == Vec3(b.x - a.x, b.y - a.y, b.z - a.z);
  }

  /// A scale with every component in [1, 2], as a spawned bush's is.
  predicate InBand(v: Vec3) {
    1.0 <= v.x <= 2.0 && 1.0 <= v.y <= 2.0 && 1.0 <= v.z <= 2.0
  }

  /// With targets only ever 1 or 2 and frames with dt·speed in [0, 1], a
  /// bush's scale stays within [1, 2] in every component.
  lemma FrameKeepsBand(scale: Vec3, target: Vec3, k: real)
    requires 0.0 <= k <= 1.0 && (target == One || target == Splat(2.0)) && InBand(scale)
    ensures InBand(Lerp(scale, target, k))
  {
    ComponentInBand(scale.x, target.x, k);
    ComponentInBand(scale.y, target.y, k);
    ComponentInBand(scale.z, target.z, k);
  }

  /// One component moved toward a target in [1, 2] stays in [1, 2].
  lemma ComponentInBand(a: real, b: real, k: real)
    requires 0.0 <= k <= 1.0 && 1.0 <= a <= 2.0 && 1.0 <= b <= 2.0
    ensures 1.0 <= a + (b - a) * k <= 2.0
  {
    var g := b - a;
    assert g * k + g * (1.0 - k) == g;
    if a <= b {
      NonNegative(g, k);
      NonNegative(g, 1.0 - k);
    } else {
      NonNegative(-g, k);
      NonNegative(-g, 1.0 - k);
    }
  }

  lemma NonNegative(x: real, y: real)
    requires 0.0 <= x && 0.0 <= y
    ensures 0.0 <= x * y
  {
  }

  /// A bubble bush: its transform's scale and its `BushAnimation`.
  class Bush {
    var scale: Vec3
    var target: Vec3
    var speed: real

    /// A spawned bush: unit scale, unit target, speed 5.
    constructor()
      ensures scale == One && target == One && speed == 5.0
    {
      scale := One;
      target := One;
      speed := 5.0;
    }

    /// `on_bush_click` on this bush: only the target changes.
    method Click()
      modifies this
      ensures target == Toggled(old(target))
      ensures scale == old(scale) && speed == old(speed)
    {
      if target.x > 1.5 {
        target := One;
      } else {
        target := Splat(2.0);
      }
    }

    /// One frame of `animate_bushes` for this bush: the scale moves the
    /// fraction dt·speed of the way to the target.
    method Animate(dt: real)
      modifies this
      ensures scale == Lerp(old(scale), target, dt * speed)
      ensures target == old(target) && speed == old(speed)
    {
      scale := Lerp(scale, target, dt * speed);
    }
  }

  /// `on_bush_click`: a click on an entity without a `BushAnimation` changes
  /// nothing.
  method OnBushClick(clicked: Bush?)
    modifies clicked
    ensures clicked != null ==>
              clicked.target == Toggled(old(clicked.target)) &&
              clicked.scale == old(clicked.scale) && clicked.speed == old(clicked.speed)
  {
    if clicked != null {
      clicked.Click();
    }
  }

  /// Bush `b` after one frame, from the scale, target and speed it had.
  ghost predicate Animated(b: Bush, scale0: Vec3, target0: Vec3, speed0: real, dt: real)
    reads b
  {
    b.scale == Lerp(scale0, target0, dt * speed0) && b.target == target0 && b.speed == speed0
  }

  /// `animate_bushes`: every bush of the query, each by its own speed.
  method AnimateBushes(bushes: seq<Bush>, dt: real)
    requires forall i, j :: 0 <= i < j < |bushes| ==> bushes[i] != bushes[j]
    modifies set b | b in bushes
    ensures forall i :: 0 <= i < |bushes| ==>
              Animated(bushes[i], old(bushes[i].scale), old(bushes[i].target), old(bushes[i].speed), dt)
  {
    var n := 0;
    while n < |bushes|
      invariant 0 <= n <= |bushes|
      invariant forall i :: 0 <= i < n ==>
                  Animated(bushes[i], old(bushes[i].scale), old(bushes[i].target), old(bushes[i].speed), dt)
      invariant forall i :: n <= i < |bushes| ==> bushes[i].scale == old(bushes[i].scale)
      invariant forall i :: n <= i < |bushes| ==> bushes[i].target == old(bushes[i].target)
      invariant forall i :: n <= i < |bushes| ==> bushes[i].speed == old(bushes[i].speed)
    {
      bushes[n].Animate(dt);
      n := n + 1;
    }
  }
}

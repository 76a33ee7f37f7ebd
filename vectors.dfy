// Three-component vectors over the reals, as the scenes use Bevy's `Vec3`.
// Vector length is a function the caller supplies; the model asks of it only
// the laws of a norm that the scenes rely on: it is non-negative, zero exactly
// at the zero vector, and scaling by a non-negative factor scales it by that
// factor. Sines and cosines are caller-supplied too and only known to lie in
// [-1, 1].

module Vectors {

  datatype Vec3 = Vec3(x: real, y: real, z: real)

  const Zero: Vec3 := Vec3(0.0, 0.0, 0.0)
  const One: Vec3 := Vec3(1.0, 1.0, 1.0)
  const UnitY: Vec3 := Vec3(0.0, 1.0, 0.0)

  function Add(a: Vec3, b: Vec3): Vec3 { Vec3(a.x + b.x, a.y + b.y, a.z + b.z) }
  function Sub(a: Vec3, b: Vec3): Vec3 { Vec3(a.x - b.x, a.y - b.y, a.z - b.z) }
  function Scale(a: Vec3, k: real): Vec3 { Vec3(a.x * k, a.y * k, a.z * k) }
  function Splat(k: real): Vec3 { Vec3(k, k, k) }

  /// `a.lerp(b, t)`: the point a fraction `t` of the way from `a` to `b`;
  /// `t` is not clamped.
  function Lerp(a: Vec3, b: Vec3, t: real): Vec3 { Add(a, Scale(Sub(b, a), t)) }

  /// A sine or cosine: every sample lies in [-1, 1]. As with lengths, the
  /// bound is brought in one sample at a time, through `Sample`.
  ghost predicate WaveAt(f: real -> real, u: real) {
    -1.0 <= f(u) <= 1.0
  }

  ghost predicate IsWave(f: real -> real) {
    forall u {:trigger WaveAt(f, u)} :: WaveAt(f, u)
  }

  lemma Sample(f: real -> real, u: real)
    requires IsWave(f)
    ensures -1.0 <= f(u) <= 1.0
  {
    assert WaveAt(f, u);
  }

  /// The laws of a vector length that the scenes depend on, at one vector
  /// `a` and one factor `k`.
  ghost predicate LengthLaws(len: Vec3 -> real, a: Vec3, k: real) {
    0.0 <= len(a) && (len(a) == 0.0 <==> a == Zero) &&
    (0.0 <= k ==> len(Scale(a, k)) == k * len(a))
  }

  /// `len` obeys the laws everywhere. The laws are brought in one vector at
  /// a time, through the two lemmas below.
  ghost predicate IsLength(len: Vec3 -> real) {
    forall a, k {:trigger LengthLaws(len, a, k)} :: LengthLaws(len, a, k)
  }

  lemma LengthOf(len: Vec3 -> real, a: Vec3)
    requires IsLength(len)
    ensures 0.0 <= len(a)
    ensures len(a) == 0.0 <==> a == Zero
  {
    assert LengthLaws(len, a, 0.0);
  }

  lemma LengthOfScaled(len: Vec3 -> real, a: Vec3, k: real)
    requires IsLength(len) && 0.0 <= k
    ensures len(Scale(a, k)) == k * len(a)
  {
    assert LengthLaws(len, a, k);
  }

  /// `a.distance(b)` is the length of `a - b`.
  function Distance(a: Vec3, b: Vec3, len: Vec3 -> real): (r: real)
    requires IsLength(len)
    ensures 0.0 <= r
    ensures r == 0.0 <==> a == b
  {
    assert Sub(a, b) == Zero <==> a == b;
    LengthOf(len, Sub(a, b));
    len(Sub(a, b))
  }

  /// `normalize_or_zero`: the unit vector along `a`, or zero for the zero vector.
  function NormalizeOrZero(a: Vec3, len: Vec3 -> real): (r: Vec3)
    requires IsLength(len)
    ensures a == Zero ==> r == Zero
    ensures a != Zero ==> 0.0 < len(a)
    ensures a != Zero ==> len(r) == 1.0 && r == Scale(a, 1.0 / len(a))
  {
    LengthOf(len, a);
    if a == Zero then Zero
    else
      var l := len(a);
      LengthOfScaled(len, a, 1.0 / l);
      assert (1.0 / l) * l == 1.0;
      Scale(a, 1.0 / l)
  }

  /// `normalize_or_zero(a) * k` has length exactly `k` when `a` is not zero,
  /// and points the same way as `a`.
  lemma Resized(a: Vec3, k: real, len: Vec3 -> real)
    requires IsLength(len) && 0.0 <= k
    ensures a == Zero ==> Scale(NormalizeOrZero(a, len), k) == Zero
    ensures a != Zero ==> 0.0 < len(a)
    ensures a != Zero ==> len(Scale(NormalizeOrZero(a, len), k)) == k
    ensures a != Zero ==> Scale(NormalizeOrZero(a, len), k) == Scale(a, k / len(a))
  {
    LengthOf(len, a);
    if a == Zero { return; }
    var l := len(a);
    var u := NormalizeOrZero(a, len);
    LengthOf(len, a);
    LengthOfScaled(len, u, k);
    assert Scale(u, k) == Scale(a, (1.0 / l) * k);
    assert (1.0 / l) * k == k / l;
  }

  /// The same, stated for any factor: only non-negative ones are claimed.
  lemma ScaledUnitLength(a: Vec3, k: real, len: Vec3 -> real)
    requires IsLength(len) && a != Zero
    ensures 0.0 <= k ==> len(Scale(NormalizeOrZero(a, len), k)) == k
  {
    if 0.0 <= k {
      Resized(a, k, len);
    }
  }

  /// `f32::abs`.
  function Abs(x: real): (r: real)
    ensures 0.0 <= r && (r == x || r == -x)
  {
    if x < 0.0 then -x else x
  }

  /// A sample in [-1, 1] times a non-negative `k` lies in [-k, k].
  lemma MulBound(s: real, k: real)
    requires -1.0 <= s <= 1.0
    ensures 0.0 <= k ==> -k <= s * k <= k
  {
  }

  /// A value in [-m, m] times a non-negative `k` lies in [-m·k, m·k].
  lemma MulInBand(w: real, m: real, k: real)
    requires -m <= w <= m
    ensures 0.0 <= k ==> -(m * k) <= w * k <= m * k
  {
    if 0.0 <= k {
      assert (w + m) * k >= 0.0;
      assert (m - w) * k >= 0.0;
    }
  }

  /// Scaling a non-negative `x` by a smaller factor gives a smaller result.
  lemma MulBelow(x: real, a: real, b: real)
    ensures 0.0 <= x && a <= b ==> x * a <= x * b
  {
  }

  /// A draw `r` in [0, 1) spread over a positive span `k` lands in [0, k).
  /// Dividing by a non-zero factor and multiplying back restores a vector.
  lemma ScaleBack(a: Vec3, n: real)
    requires n != 0.0
    ensures Scale(Scale(a, 1.0 / n), n) == a
  {
    var inv := 1.0 / n;
    assert inv * n == 1.0;
    assert (a.x * inv) * n == a.x * (inv * n);
    assert (a.y * inv) * n == a.y * (inv * n);
    assert (a.z * inv) * n == a.z * (inv * n);
  }

  /// Scaling distributes over a difference.
  lemma ScaleSub(u: Vec3, p: Vec3, n: real)
    ensures Add(Scale(Sub(u, p), n), Scale(p, n)) == Scale(u, n)
  {
    assert (u.x - p.x) * n + p.x * n == u.x * n;
    assert (u.y - p.y) * n + p.y * n == u.y * n;
    assert (u.z - p.z) * n + p.z * n == u.z * n;
  }

  lemma ScaledDraw(r: real, k: real)
    requires 0.0 <= r < 1.0 && 0.0 < k
    ensures 0.0 <= r * k < k
  {
    assert (1.0 - r) * k > 0.0;
  }

  /// A draw `r` in [0, 1) spread over [0, span), as `rand::random() * span`.
  function Spread(r: real, span: real): (a: real)
    requires 0.0 <= r < 1.0 && 0.0 < span
    ensures 0.0 <= a < span
  {
    ScaledDraw(r, span);
    r * span
  }

  /// `0 <= a < b` gives a ratio in [0, 1) whose square is below 1.
  lemma RatioBelowOne(a: real, b: real)
    requires 0.0 <= a < b
    ensures 0.0 <= a / b < 1.0 && (a / b) * (a / b) < 1.0
  {
    var q := a / b;
    assert q * b == a;
    assert q < 1.0;
    assert q * q <= q;
  }

  /// Moving from `p` along `normalize_or_zero(d)` by `step`: no move when `d`
  /// is zero, otherwise a move by the vector `d` rescaled to length `step`
  /// (for a non-negative step).
  lemma Moved(p: Vec3, d: Vec3, step: real, len: Vec3 -> real)
    requires IsLength(len)
    ensures d == Zero ==> Add(p, Scale(NormalizeOrZero(d, len), step)) == p
    ensures d != Zero ==> 0.0 < len(d)
    ensures d != Zero ==> Add(p, Scale(NormalizeOrZero(d, len), step)) == Add(p, Scale(d, step / len(d)))
    ensures d != Zero && 0.0 <= step ==> len(Sub(Add(p, Scale(NormalizeOrZero(d, len), step)), p)) == step
  {
    LengthOf(len, d);
    if d != Zero {
      var u := NormalizeOrZero(d, len);
      assert Scale(u, step) == Scale(d, step / len(d));
      assert Sub(Add(p, Scale(u, step)), p) == Scale(u, step);
      if 0.0 <= step {
        Resized(d, step, len);
      }
    }
  }

  /// The speed clamp shared by both boid simulations: a zero vector stays
  /// zero; any other vector keeps its direction and ends with a length in
  /// [lo, hi], unchanged when it already was.
  function ClampLength(v: Vec3, lo: real, hi: real, len: Vec3 -> real): (r: Vec3)
    requires IsLength(len) && 0.0 < lo <= hi
    ensures v == Zero ==> r == Zero
    ensures v != Zero ==> 0.0 < len(v)
    ensures v != Zero ==> lo <= len(r) <= hi && r == Scale(v, len(r) / len(v))
    ensures lo <= len(v) <= hi ==> r == v
  {
    var speed := len(v);
    LengthOf(len, v);
    if speed < lo then
      Resized(v, lo, len);
      var r := Scale(NormalizeOrZero(v, len), lo);
      assert v == Zero ==> r == Zero;
      assert v != Zero ==> len(r) == lo && r == Scale(v, lo / len(v));
      r
    else if speed > hi then
      Resized(v, hi, len);
      var r := Scale(NormalizeOrZero(v, len), hi);
      assert v != Zero && len(r) == hi && r == Scale(v, hi / len(v));
      r
    else
      assert speed / speed == 1.0;
      assert v == Scale(v, 1.0);
      v
  }

  /// The accumulators of one boid's neighbour scan, shared by both boid
  /// simulations.
  datatype Sums = Sums(separation: Vec3, alignment: Vec3, cohesion: Vec3, count: nat)

  const NoSums: Sums := Sums(Zero, Zero, Zero, 0)

  /// `count > 0`: cohesion becomes the offset to the neighbours' mean
  /// position and alignment their mean velocity; otherwise both stay as they
  /// were.
  function Average(s: Sums, pos: Vec3): (r: Sums)
    ensures r.separation == s.separation && r.count == s.count
    ensures s.count > 0 ==> Add(Scale(r.cohesion, s.count as real), Scale(pos, s.count as real)) == s.cohesion
    ensures s.count > 0 ==> Scale(r.alignment, s.count as real) == s.alignment
    ensures s.count == 0 ==> r == s
  {
    if s.count > 0 then
      var n := s.count as real;
      ScaleBack(s.alignment, n);
      ScaleBack(s.cohesion, n);
      ScaleSub(Scale(s.cohesion, 1.0 / n), pos, n);
      Sums(s.separation, Scale(s.alignment, 1.0 / n), Sub(Scale(s.cohesion, 1.0 / n), pos), s.count)
    else s
  }
}

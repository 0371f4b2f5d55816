/** The rotation model of the wheel (src/models/wheel.ts): the angle, the launch
    speed drawn at random, and the per-frame deceleration step. */
module Rotation {

  /** Strictly positive reals. */
  type Positive = x: real | x > 0.0 witness 1.0

  /** The circle constant. The proofs use only that it is positive; the model does
      not fix the floating-point value of Math.PI. */
  const PI: Positive

  /** The settings record the application hands to the wheel. */
  datatype Settings = Settings(
    players: seq<string>,
    presents: seq<string>,
    colors: seq<string>,
    tickPerSector: int,
    minSpeed: real,
    randomSpeed: real,
    fontSize: real)

  /** The part of a wheel's state that launch, update and reset change. */
  datatype Motion = Motion(angle: real, initialSpeed: real, currentSpeed: real)

  /** The state of a new or reset wheel. */
  const Stopped := Motion(0.0, 0.0, 0.0)

  /** The guard of `update`: the wheel turns only while both speeds are positive. */
  predicate Spinning(m: Motion) {
    m.initialSpeed > 0.0 && m.currentSpeed > 0.0
  }

  /** The invariant every transition keeps: the current speed never exceeds the
      speed the wheel was launched with. */
  predicate Decelerating(m: Motion) {
    m.currentSpeed <= m.initialSpeed
  }

  /** Angle added by one effective update; it depends on the speeds only. */
  function Step(m: Motion): (d: real)
    requires Spinning(m)
    ensures d > 0.0
  {
    assert m.currentSpeed * PI > 0.0;
    (m.currentSpeed * PI) / (30.0 * m.initialSpeed)
  }

  /** The state after one call of `update(elapsed)`. */
  function Advance(m: Motion, elapsed: real): (n: Motion)
    ensures n == m <==> !Spinning(m)
    ensures n.angle >= m.angle && n.initialSpeed == m.initialSpeed
    ensures Spinning(m) ==> n.currentSpeed == m.currentSpeed - elapsed
    ensures Decelerating(m) && elapsed >= 0.0 ==> Decelerating(n)
  {
    if Spinning(m) then
      Motion(m.angle + Step(m), m.initialSpeed, m.currentSpeed - elapsed)
    else
      m
  }

  /** The launch speed drawn from a uniform sample `r` in [0, 1). */
  function LaunchSpeed(r: real, minSpeed: real, randomSpeed: real): (s: real)
    requires 0.0 <= r < 1.0
    ensures randomSpeed >= 0.0 ==> minSpeed <= s <= minSpeed + randomSpeed
    ensures randomSpeed > 0.0 ==> s < minSpeed + randomSpeed
    ensures randomSpeed == 0.0 ==> s == minSpeed
  {
    assert randomSpeed > 0.0 ==> r * randomSpeed < randomSpeed;
    assert randomSpeed >= 0.0 ==> r * randomSpeed >= 0.0;
    r * randomSpeed + minSpeed
  }

  /** Sum of a sequence of elapsed times. */
  function Sum(es: seq<real>): real {
    if es == [] then 0.0 else es[0] + Sum(es[1..])
  }

  /** All elapsed times are non-negative, as successive clock readings give. */
  predicate NonNegative(es: seq<real>) {
    forall i :: 0 <= i < |es| ==> es[i] >= 0.0
  }

  /** The state after one `update` per elapsed time, in order. */
  function RunAll(m: Motion, es: seq<real>): Motion
    decreases |es|
  {
    if es == [] then m else RunAll(Advance(m, es[0]), es[1..])
  }

  /** `k` frames of the same elapsed time `e`. */
  function Repeat(e: real, k: nat): seq<real>
  {
    seq(k, _ => e)
  }

  /** The least integer not below `x`. */
  function Ceil(x: real): int {
    -((-x).Floor)
  }

  /** One effective step turns the wheel by more than zero and at most PI/30,
      however much time elapsed. */
  lemma StepBounds(m: Motion, e1: real, e2: real)
    requires Spinning(m) && Decelerating(m)
    ensures 0.0 < Advance(m, e1).angle - m.angle <= PI / 30.0
    ensures Advance(m, e1).angle == Advance(m, e2).angle
  {
    var q := m.currentSpeed / m.initialSpeed;
    assert q <= 1.0;
    assert Step(m) == q * (PI / 30.0);
    assert q * (PI / 30.0) <= PI / 30.0;
  }

  /** A wheel that is not spinning never moves again, whatever time elapses;
      in particular a reset wheel stays at angle 0. */
  lemma {:induction false} RunAllIdle(m: Motion, es: seq<real>)
    requires !Spinning(m)
    ensures RunAll(m, es) == m
    decreases |es|
  {
    if es != [] {
      RunAllIdle(Advance(m, es[0]), es[1..]);
    }
  }

  /** With both speed settings at zero a launch gives speed 0, and the wheel
      never moves whatever time elapses. */
  lemma ZeroSpeedsNeverTurn(angle: real, r: real, es: seq<real>)
    requires 0.0 <= r < 1.0
    ensures var v := LaunchSpeed(r, 0.0, 0.0);
      RunAll(Motion(angle, v, v), es) == Motion(angle, 0.0, 0.0)
  {
    RunAllIdle(Motion(angle, 0.0, 0.0), es);
  }

  /** Frames never turn the wheel backwards, and keep the launch speed and the
      deceleration invariant. */
  lemma {:induction false} RunAllMonotone(m: Motion, es: seq<real>)
    requires NonNegative(es)
    ensures RunAll(m, es).angle >= m.angle
    ensures RunAll(m, es).initialSpeed == m.initialSpeed
    ensures Decelerating(m) ==> Decelerating(RunAll(m, es))
    decreases |es|
  {
    if es != [] {
      RunAllMonotone(Advance(m, es[0]), es[1..]);
    }
  }

  /** Additivity of the decay: after any sequence of non-negative elapsed times the
      wheel still turns exactly when it turned at the start and the times add up to
      less than its current speed, however the time is split between frames. */
  lemma {:induction false} RunAllSpinning(m: Motion, es: seq<real>)
    requires NonNegative(es)
    ensures Spinning(RunAll(m, es)) <==> Spinning(m) && Sum(es) < m.currentSpeed
    ensures Spinning(RunAll(m, es)) ==> RunAll(m, es).currentSpeed == m.currentSpeed - Sum(es)
    decreases |es|
  {
    if es == [] {
    } else if !Spinning(m) {
      RunAllIdle(m, es);
      SumNonNegative(es);
    } else {
      var n := Advance(m, es[0]);
      RunAllSpinning(n, es[1..]);
      SumNonNegative(es[1..]);
    }
  }

  lemma {:induction false} SumNonNegative(es: seq<real>)
    requires NonNegative(es)
    ensures Sum(es) >= 0.0
  {
    if es != [] {
      SumNonNegative(es[1..]);
    }
  }

  /** Once the elapsed times add up to the speed the wheel had, it has stopped
      and every further update is a no-op. */
  lemma StopsOnceElapsed(m: Motion, es: seq<real>, e: real)
    requires NonNegative(es) && Sum(es) >= m.currentSpeed
    ensures !Spinning(RunAll(m, es))
    ensures Advance(RunAll(m, es), e) == RunAll(m, es)
  {
    RunAllSpinning(m, es);
  }

  lemma {:induction false} SumRepeat(e: real, k: nat)
    ensures Sum(Repeat(e, k)) == k as real * e
  {
    if k > 0 {
      assert Repeat(e, k)[1..] == Repeat(e, k - 1);
      SumRepeat(e, k - 1);
    }
  }

  /** An integer lies below `Ceil(x)` exactly when it lies below `x`. */
  lemma CeilBound(x: real, k: int)
    ensures k < Ceil(x) <==> (k as real) < x
  {
    var f := (-x).Floor;
    assert f as real <= -x < f as real + 1.0;
  }

  lemma ScaleBelow(k: real, x: real, e: real)
    requires e > 0.0
    ensures k < x <==> k * e < x * e
  {
    if k < x {
      assert (x - k) * e > 0.0;
    } else {
      assert (k - x) * e >= 0.0;
    }
  }

  /** With every frame `e > 0` milliseconds long, the wheel launched at speed `S`
      still turns before frame `k` exactly when `k < ceil(S / e)`: exactly
      `ceil(S / e)` updates change the state, and the speed may end below zero. */
  lemma EffectiveUpdates(m: Motion, e: real, k: nat)
    requires e > 0.0 && Spinning(m)
    ensures Spinning(RunAll(m, Repeat(e, k))) <==> k < Ceil(m.currentSpeed / e)
  {
    var es := Repeat(e, k);
    RunAllSpinning(m, es);
    SumRepeat(e, k);
    FramesBeforeCeil(m.currentSpeed, e, k);
  }

  /** `k` frames of length `e` last less than `s` exactly when `k < ceil(s / e)`. */
  lemma FramesBeforeCeil(s: real, e: real, k: int)
    requires e > 0.0
    ensures k < Ceil(s / e) <==> k as real * e < s
  {
    var x := s / e;
    DivMul(s, e);
    CeilBound(x, k);
    ScaleBelow(k as real, x, e);
  }

  lemma DivMul(a: real, e: real)
    requires e > 0.0
    ensures (a / e) * e == a
  {
  }

  /** The rotating wheel: configuration, sector labels and motion. */
  class Wheel {
    var radius: real
    var values: seq<string>
    var minSpeed: real
    var randomSpeed: real
    var angle: real
    var initialSpeed: real
    var currentSpeed: real

    ghost function State(): Motion
      reads this
    {
      Motion(angle, initialSpeed, currentSpeed)
    }

    /** The deceleration invariant, and an angle that never went below its
        starting value 0. */
    ghost predicate Valid()
      reads this
    {
      Decelerating(State()) && angle >= 0.0
    }

    constructor ()
      ensures Valid() && State() == Stopped
      ensures radius == 150.0 && values == []
      ensures minSpeed == 10000.0 && randomSpeed == 10000.0
    {
      radius := 150.0;
      values := [];
      angle := 0.0;
      initialSpeed := 0.0;
      currentSpeed := 0.0;
      minSpeed := 10000.0;
      randomSpeed := 10000.0;
    }

    /** Puts the wheel back at rest at angle 0; configuration and labels stay. */
    method Reset()
      modifies this
      ensures Valid() && State() == Stopped
      ensures radius == old(radius) && values == old(values)
      ensures minSpeed == old(minSpeed) && randomSpeed == old(randomSpeed)
    {
      angle := 0.0;
      currentSpeed := 0.0;
      initialSpeed := 0.0;
    }

    /** Takes the launch speed bounds from the settings. */
    method SetSettings(s: Settings)
      modifies this
      ensures minSpeed == s.minSpeed && randomSpeed == s.randomSpeed
      ensures State() == old(State())
      ensures radius == old(radius) && values == old(values)
    {
      minSpeed := s.minSpeed;
      randomSpeed := s.randomSpeed;
    }

    /** Replaces the sector labels. */
    method SetValues(vs: seq<string>)
      modifies this
      ensures values == vs
      ensures State() == old(State())
      ensures radius == old(radius)
      ensures minSpeed == old(minSpeed) && randomSpeed == old(randomSpeed)
    {
      values := [];
      values := values + vs;
    }

    /** Starts (or restarts) the spin at a speed drawn from `r`, the sample of
        the random source; the angle is kept. */
    method Launch(r: real)
      requires 0.0 <= r < 1.0
      modifies this
      ensures Decelerating(State()) && (old(Valid()) ==> Valid())
      ensures initialSpeed == LaunchSpeed(r, minSpeed, randomSpeed)
      ensures currentSpeed == initialSpeed && angle == old(angle)
      ensures radius == old(radius) && values == old(values)
      ensures minSpeed == old(minSpeed) && randomSpeed == old(randomSpeed)
    {
      initialSpeed := r * randomSpeed + minSpeed;
      currentSpeed := initialSpeed;
    }

    /** One animation frame: `elapsed` milliseconds since the previous one. */
    method Update(elapsed: real)
      modifies this
      ensures State() == Advance(old(State()), elapsed)
      ensures old(Valid()) && elapsed >= 0.0 ==> Valid()
      ensures radius == old(radius) && values == old(values)
      ensures minSpeed == old(minSpeed) && randomSpeed == old(randomSpeed)
    {
      if initialSpeed > 0.0 && currentSpeed > 0.0 {
        var step := (currentSpeed * PI) / (30.0 * initialSpeed);
        angle := angle + step;
        currentSpeed := currentSpeed - elapsed;
      }
    }
  }
}

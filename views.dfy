/** The animation side of the main view (src/views/view.ts): each frame advances
    the wheel by the time elapsed since the previous frame, redraws it, and plays
    the tick sound when the tick under the fixed arrow has changed. The clock
    (performance.now) and the canvas size are parameters; the sound is the
    boolean a frame returns. */
module Views {
  import opened Rotation
  import opened Geometry
  import opened Canvas

  /** Where `a` falls between multiples of a positive width `t`. */
  lemma FloorBounds(a: real, t: real)
    requires t > 0.0
    ensures (a / t).Floor as real * t <= a < ((a / t).Floor + 1) as real * t
  {
    var x := a / t;
    var k := x.Floor;
    assert k as real <= x < (k + 1) as real;
    DivMul(a, t);
    assert x * t == a;
    ScaleBelow(x, (k + 1) as real, t);
    assert x * t < (k + 1) as real * t;
    ScaleBelow(k as real, x, t);
    assert k as real * t <= x * t;
    assert a < ((a / t).Floor + 1) as real * t;
  }

  /** The index of the tick boundary last passed by the arrow: the wheel's angle,
      measured from the arrow a quarter turn back, in units of one tick. For one
      tick per sector or more the arrow lies between boundary `k` and boundary
      `k + 1`. With no ticks per sector the tick width is infinite and the index
      is 0. */
  function TickIndex(angle: real, sectorAngle: real, tikPerSector: int): (k: int)
    requires sectorAngle > 0.0
    ensures tikPerSector == 0 ==> k == 0
    ensures tikPerSector >= 1 ==>
      k as real * (sectorAngle / tikPerSector as real) <= angle + PI / 2.0
    ensures tikPerSector >= 1 ==>
      angle + PI / 2.0 < (k + 1) as real * (sectorAngle / tikPerSector as real)
  {
    if tikPerSector == 0 then 0
    else if tikPerSector >= 1 then
      FloorBounds(angle + PI / 2.0, sectorAngle / tikPerSector as real);
      ((angle + PI / 2.0) / (sectorAngle / tikPerSector as real)).Floor
    else ((angle + PI / 2.0) / (sectorAngle / tikPerSector as real)).Floor
  }

  /** Whether a new reading `index` after the stored reading `last` plays the
      sound: -1 marks "no reading yet", and the first reading is silent. */
  function Sounds(last: int, index: int): (play: bool)
    ensures last == -1 ==> !play
    ensures index == last ==> !play
    ensures last != -1 && index != last ==> play
  {
    last != -1 && index != last
  }

  /** The number of sounds played over successive readings, starting from the
      stored reading `last`. Every reading becomes the stored one. */
  function SoundCount(last: int, indices: seq<int>): nat
    decreases |indices|
  {
    if indices == [] then 0
    else (if Sounds(last, indices[0]) then 1 else 0) + SoundCount(indices[0], indices[1..])
  }

  predicate NonDecreasing(xs: seq<int>) {
    forall i, j :: 0 <= i <= j < |xs| ==> xs[i] <= xs[j]
  }

  /** The elapsed times `refresh` hands to the wheel for frames at the clock
      readings `ts`, the previous reading being `start`. */
  function Gaps(start: real, ts: seq<real>): (es: seq<real>)
    ensures |es| == |ts|
    decreases |ts|
  {
    if ts == [] then [] else [ts[0] - start] + Gaps(ts[0], ts[1..])
  }

  /** The clock never runs backwards from `start` through `ts`. */
  predicate Ascending(start: real, ts: seq<real>) {
    (forall i :: 0 <= i < |ts| ==> start <= ts[i]) &&
    (forall i, j :: 0 <= i <= j < |ts| ==> ts[i] <= ts[j])
  }

  /** For one tick per sector or more, turning the wheel further never lowers
      the tick index. */
  lemma TickIndexMonotone(a1: real, a2: real, sectorAngle: real, tikPerSector: int)
    requires sectorAngle > 0.0 && tikPerSector >= 1 && a1 <= a2
    ensures TickIndex(a1, sectorAngle, tikPerSector) <= TickIndex(a2, sectorAngle, tikPerSector)
  {
    var t := sectorAngle / tikPerSector as real;
    var x1, x2 := (a1 + PI / 2.0) / t, (a2 + PI / 2.0) / t;
    DivMul(a1 + PI / 2.0, t);
    DivMul(a2 + PI / 2.0, t);
    ScaleBelow(x2, x1, t);
    assert x1 <= x2;
  }

  /** For one tick per sector or more, a wheel at a non-negative angle (every
      valid wheel: the angle starts at 0 and never decreases) has a non-negative
      tick index, so the "no reading yet" mark -1 is never read back. */
  lemma TickIndexNonNegative(angle: real, sectorAngle: real, tikPerSector: int)
    requires sectorAngle > 0.0 && tikPerSector >= 1 && angle >= 0.0
    ensures TickIndex(angle, sectorAngle, tikPerSector) >= 0
  {
    TickIndexMonotone(-(PI as real) / 2.0, angle, sectorAngle, tikPerSector);
    var t := sectorAngle / tikPerSector as real;
    assert (-(PI as real) / 2.0 + PI / 2.0) / t == 0.0;
  }

  /** The settings may store a negative tick density. With -1 ticks per sector,
      a single label (one sector of a full turn) and the wheel at rest at angle 0,
      the index read is -1 itself, so the reading is taken for "no reading yet"
      and the next one is silent whatever it is. */
  lemma SentinelRecurs()
    ensures TickIndex(0.0, SectorAngle(1), -1) == -1
    ensures !Sounds(TickIndex(0.0, SectorAngle(1), -1), 5)
  {
    var t := SectorAngle(1) / (-1) as real;
    assert t == -2.0 * PI;
    var x := (0.0 + PI / 2.0) / t;
    assert x * t == PI / 2.0;
    assert x * (-2.0 * PI) == PI / 2.0;
    assert (x + 0.25) * PI == 0.0;
    assert x == -0.25;
  }

  /** Over readings that never go down, from a stored reading that is not above
      the first, the sound plays at most once per boundary crossed: at most
      `last reading - stored reading` times, and never more than once a frame. */
  lemma {:induction false} SoundCountBound(last: int, indices: seq<int>)
    requires indices != [] && NonDecreasing(indices) && 0 <= last <= indices[0]
    ensures SoundCount(last, indices) <= indices[|indices| - 1] - last
    ensures SoundCount(last, indices) <= |indices|
    decreases |indices|
  {
    var rest := indices[1..];
    if rest != [] {
      assert NonDecreasing(rest) by {
        forall i, j | 0 <= i <= j < |rest| ensures rest[i] <= rest[j] {
          assert rest[i] == indices[i + 1] && rest[j] == indices[j + 1];
        }
      }
      assert indices[0] <= indices[1];
      SoundCountBound(indices[0], rest);
      assert rest[|rest| - 1] == indices[|indices| - 1];
    }
  }

  /** From a fresh detector, over readings that never go down and start at 0 or
      above, the first reading is silent and the rest play at most once per
      boundary crossed after it. */
  lemma SoundsAfterFirstReading(indices: seq<int>)
    requires indices != [] && NonDecreasing(indices) && indices[0] >= 0
    ensures SoundCount(-1, indices) == SoundCount(indices[0], indices[1..])
    ensures SoundCount(-1, indices) <= indices[|indices| - 1] - indices[0]
  {
    var rest := indices[1..];
    if rest != [] {
      assert NonDecreasing(rest) by {
        forall i, j | 0 <= i <= j < |rest| ensures rest[i] <= rest[j] {
          assert rest[i] == indices[i + 1] && rest[j] == indices[j + 1];
        }
      }
      assert indices[0] <= indices[1];
      SoundCountBound(indices[0], rest);
      assert rest[|rest| - 1] == indices[|indices| - 1];
    }
  }

  /** The elapsed times of successive frames add up to the clock time between
      the first reading and the last, and none is negative. */
  lemma {:induction false} GapsTelescope(start: real, ts: seq<real>)
    requires ts != [] && Ascending(start, ts)
    ensures Sum(Gaps(start, ts)) == ts[|ts| - 1] - start
    ensures NonNegative(Gaps(start, ts))
    decreases |ts|
  {
    var rest := ts[1..];
    if rest == [] {
      assert Gaps(start, ts) == [ts[0] - start];
      assert Sum([ts[0] - start]) == ts[0] - start + Sum([]);
    } else {
      assert Ascending(ts[0], rest) by {
        forall i | 0 <= i < |rest| ensures ts[0] <= rest[i] {
          assert rest[i] == ts[i + 1];
        }
        forall i, j | 0 <= i <= j < |rest| ensures rest[i] <= rest[j] {
          assert rest[i] == ts[i + 1] && rest[j] == ts[j + 1];
        }
      }
      GapsTelescope(ts[0], rest);
      assert rest[|rest| - 1] == ts[|ts| - 1];
      var es := Gaps(start, ts);
      assert es[1..] == Gaps(ts[0], rest);
      forall i | 0 <= i < |es| ensures es[i] >= 0.0 {
        if i > 0 {
          assert es[i] == Gaps(ts[0], rest)[i - 1];
        }
      }
    }
  }

  /** The spin lasts a fixed clock time, however the frames fall: a wheel
      launched at clock `start` is still turning after frames at the clock
      readings `ts` exactly when less time than its launch speed (in
      milliseconds) has passed since the launch. */
  lemma SpinDuration(m: Motion, start: real, ts: seq<real>)
    requires ts != [] && Ascending(start, ts) && Spinning(m)
    ensures Spinning(RunAll(m, Gaps(start, ts))) <==> ts[|ts| - 1] - start < m.currentSpeed
  {
    GapsTelescope(start, ts);
    RunAllSpinning(m, Gaps(start, ts));
  }

  /** The smaller of two reals. */
  function Min(a: real, b: real): (m: real)
    ensures m <= a && m <= b && (m == a || m == b)
  {
    if a < b then a else b
  }

  /** The main view, as far as the animation goes. The view is given the
      wheel it animates, or none; a view with a wheel stands for the view once
      the application has built its wheel. */
  class View {
    const wheel: DrawableWheel?
    /** Clock reading of the previous frame (or of the launch). */
    var lastUpdate: real
    /** Tick index of the previous reading, or -1 before the first reading. */
    var lastTick: int

    /** The objects a frame may change besides the view itself. */
    ghost function Parts(): set<object>
      reads this
    {
      if wheel == null then {} else {wheel, wheel.wheel}
    }

    ghost predicate Valid()
      reads this, Parts()
    {
      wheel != null ==> wheel.Valid()
    }

    /** The state at the end of the view's constructor: clock taken, no tick
        read yet. */
    constructor (wheel: DrawableWheel?, now: real)
      requires wheel != null ==> wheel.Valid()
      ensures this.wheel == wheel && Valid()
      ensures lastUpdate == now && lastTick == -1
    {
      this.wheel := wheel;
      lastUpdate := now;
      lastTick := -1;
    }

    /** `launch`: restarts the clock and launches the wheel with sample `r`.
        Without a wheel nothing happens. */
    method Launch(now: real, r: real)
      requires Valid() && 0.0 <= r < 1.0
      modifies this, Parts()
      ensures Valid() && lastTick == old(lastTick)
      ensures wheel == null ==> lastUpdate == old(lastUpdate)
      ensures wheel != null ==> lastUpdate == now
      ensures wheel != null ==>
        wheel.wheel.initialSpeed == LaunchSpeed(r, wheel.wheel.minSpeed, wheel.wheel.randomSpeed)
      ensures wheel != null ==>
        wheel.wheel.currentSpeed == wheel.wheel.initialSpeed && wheel.wheel.angle == old(wheel.wheel.angle)
      ensures wheel != null ==> unchanged(wheel) && wheel.wheel.values == old(wheel.wheel.values)
      ensures wheel != null ==> wheel.wheel.radius == old(wheel.wheel.radius)
      ensures wheel != null ==>
        wheel.wheel.minSpeed == old(wheel.wheel.minSpeed) && wheel.wheel.randomSpeed == old(wheel.wheel.randomSpeed)
    {
      if wheel != null {
        lastUpdate := now;
        wheel.wheel.Launch(r);
      }
    }

    /** `draw`: the wheel's radius follows the canvas size, then the wheel draws
        itself. */
    method DrawWheel(width: real, height: real) returns (frame: seq<Instr>)
      requires Valid()
      modifies Parts()
      ensures Valid()
      ensures wheel == null ==> frame == []
      ensures wheel != null ==>
        wheel.wheel.radius == Min(width, height) / 2.0 - 20.0 &&
        frame == Picture(SceneOf(wheel)) &&
        unchanged(wheel) && wheel.wheel.State() == old(wheel.wheel.State()) &&
        wheel.wheel.values == old(wheel.wheel.values)
      ensures wheel != null ==>
        wheel.wheel.minSpeed == old(wheel.wheel.minSpeed) && wheel.wheel.randomSpeed == old(wheel.wheel.randomSpeed)
    {
      frame := [];
      if wheel != null {
        wheel.wheel.radius := Min(width, height) / 2.0 - 20.0;
        frame := Draw(wheel);
      }
    }

    /** `manageAudioTik`: reads the tick index under the arrow, stores it, and
        plays the sound when it differs from the stored one, unless this is the
        first reading. */
    method ManageAudioTik() returns (play: bool)
      requires Valid()
      modifies this`lastTick
      ensures wheel == null ==> lastTick == old(lastTick) && !play
      ensures wheel != null ==>
        lastTick == TickIndex(wheel.wheel.angle, wheel.sectorAngle, wheel.tikPerSector) &&
        (play <==> Sounds(old(lastTick), lastTick))
      ensures wheel != null && wheel.tikPerSector >= 1 ==> lastTick >= 0
    {
      play := false;
      if wheel != null {
        var angle := wheel.wheel.angle + PI / 2.0;
        var newTick := 0;
        if wheel.tikPerSector != 0 {
          var tikAngle := wheel.sectorAngle / wheel.tikPerSector as real;
          newTick := (angle / tikAngle).Floor;
        }
        if lastTick != -1 {
          if newTick != lastTick {
            lastTick := newTick;
            play := true;
          }
        } else {
          lastTick := newTick;
        }
        if wheel.tikPerSector >= 1 {
          TickIndexNonNegative(wheel.wheel.angle, wheel.sectorAngle, wheel.tikPerSector);
        }
      }
    }

    /** `refresh`: one animation frame at clock reading `t` on a canvas of the
        given size. The wheel advances by the time since the previous frame, the
        frame is drawn, and the tick detector reads the new angle. */
    method Refresh(t: real, width: real, height: real) returns (frame: seq<Instr>, play: bool)
      requires Valid() && t >= lastUpdate
      modifies this, Parts()
      ensures Valid() && lastUpdate == t
      ensures wheel == null ==> frame == [] && !play && lastTick == old(lastTick)
      ensures wheel != null ==>
        wheel.wheel.State() == Advance(old(wheel.wheel.State()), t - old(lastUpdate)) &&
        wheel.wheel.radius == Min(width, height) / 2.0 - 20.0 &&
        frame == Picture(SceneOf(wheel)) &&
        lastTick == TickIndex(wheel.wheel.angle, wheel.sectorAngle, wheel.tikPerSector) &&
        (play <==> Sounds(old(lastTick), lastTick))
      ensures wheel != null && wheel.tikPerSector >= 1 ==> lastTick >= 0
      ensures wheel != null ==> unchanged(wheel) && wheel.wheel.values == old(wheel.wheel.values)
      ensures wheel != null ==>
        wheel.wheel.minSpeed == old(wheel.wheel.minSpeed) && wheel.wheel.randomSpeed == old(wheel.wheel.randomSpeed)
    {
      if wheel != null {
        wheel.wheel.Update(t - lastUpdate);
      }
      lastUpdate := t;
      frame := DrawWheel(width, height);
      play := ManageAudioTik();
    }
  }
}

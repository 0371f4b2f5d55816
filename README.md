# Wheel of fortune — rotation, sector geometry and tick detection

A Dafny model of the core of a browser "wheel of fortune". A wheel carries a
list of labels, one sector each. A launch gives it a random speed, and every
animation frame turns it by a step that shrinks as the speed decays. The
fixed arrow at the top plays a tick sound on each frame in which the tick
under it has changed: once per frame, however many tick boundaries that frame
crossed, and never on the first reading.

The model has four modules, one per source file:

- `Rotation` (`wheel.dfy`, for `src/models/wheel.ts`): the `Wheel` class.
  - It holds the radius, the labels, the two launch-speed settings and the
    motion state: angle, initial speed and current speed.
  - Its methods are proved against a pure specification: `Motion` is the
    state, `Advance` is one `update` call and `RunAll` is a run of frames.
  - `Math.random()` becomes a parameter `r` with `0 <= r < 1`.
- `Geometry` (`drawable_wheel.dfy`, for `src/models/drawable-wheel.ts`): the
  `DrawableWheel` class.
  - It adds the palette with its eight-colour default, the sector width, the
    tick density and the label font size.
  - In the source it extends `Wheel`. Here it holds a `Wheel` and forwards the
    `super` calls to it.
- `Canvas` (`canvas_wheel.dfy`, for `src/canvas/canvas-wheel.ts`): `draw` and
  `drawSector`.
  - Both are read-only methods. They return the frame as a list of abstract
    drawing instructions: background, save/restore, rotations, wedges, tick
    marks, labels, hub and arrow.
  - Each is proved equal to a pure description of the frame (`Picture`,
    `SectorBody`).
  - The contents of the frame are stated through views of that list: the fill
    colours, the labels, the number of tick marks and the total rotation.
- `Views` (`views.dfy`, for `src/views/view.ts`): the animation side of the
  main view.
  - `refresh` is one frame: update by the elapsed time, redraw, then read the
    tick.
  - `launch` restarts the clock and launches the wheel.
  - `manageAudioTik` is the tick detector. `-1` marks "no reading yet".
  - The clock (`performance.now()`) and the canvas size are parameters. The
    sound is the boolean a frame returns.

Angles and speeds are `real`. `PI` is an abstract positive constant: no proof
depends on its value.

The tick density is clamped to at least 1 only by the `tikPerSector` setter
(`src/models/drawable-wheel.ts:25`); `setSettings` stores the configured value
unchanged (`src/models/drawable-wheel.ts:51`). The model follows the code, so:

- `DrawableWheel.SetSettings` may leave the density at zero or below.
- With such a density no tick marks are drawn (`SectorsTicks`).
- The label is then drawn one and a half sectors on, not half a sector
  (`LabelPlacement`).
- The tick detector can read back its own "no reading yet" mark
  (`SentinelRecurs`).

## Model

| member | source | states |
|---|---|---|
| Rotation.Step | src/models/wheel.ts:100 | the angle step of a spinning wheel is strictly positive |
| Rotation.Advance | src/models/wheel.ts:96-106 | one update changes the state exactly when both speeds are positive; the angle never decreases and the initial speed is kept; a spinning wheel loses exactly the elapsed time from its current speed, with no clamp at zero; for a non-negative elapsed time, current speed <= initial speed is preserved |
| Rotation.LaunchSpeed | src/models/wheel.ts:88 | for a sample r in [0, 1), the launch speed lies in [minSpeed, minSpeed + randomSpeed], strictly below the upper end when randomSpeed > 0, and equals minSpeed when randomSpeed = 0 |
| Rotation.StepBounds | src/models/wheel.ts:98-104 | under the deceleration invariant, every effective step lies in (0, PI/30], and it does not depend on the elapsed time |
| Rotation.RunAllIdle | src/models/wheel.ts:98 | a wheel that is not spinning (a reset or new wheel in particular) is left unchanged by any sequence of updates |
| Rotation.ZeroSpeedsNeverTurn | src/models/wheel.ts:86-98 | with minSpeed = randomSpeed = 0, a launch gives speed 0 and the wheel never moves afterwards |
| Rotation.RunAllMonotone | src/models/wheel.ts:98-104 | over non-negative elapsed times, the angle never decreases, the initial speed is kept, and the deceleration invariant is preserved |
| Rotation.RunAllSpinning | src/models/wheel.ts:98-104 | after any frames with non-negative elapsed times, the wheel still spins if and only if it spun before and the times add up to less than its current speed; the speed is then reduced by exactly their sum |
| Rotation.StopsOnceElapsed | src/models/wheel.ts:98-104 | once the elapsed times reach the current speed, the wheel has stopped and every further update is a no-op |
| Rotation.EffectiveUpdates | src/models/wheel.ts:98-104 | with frames of constant length e > 0, a launched wheel still spins before frame k if and only if k < ceil(S/e); exactly ceil(S/e) updates change the state |
| Rotation.Wheel.constructor | src/models/wheel.ts:42-51 | a new wheel has angle and both speeds 0, no labels, radius 150 and both speed settings 10000 |
| Rotation.Wheel.Reset | src/models/wheel.ts:56-61 | angle and both speeds become 0; labels, radius and speed settings are unchanged |
| Rotation.Wheel.SetSettings | src/models/wheel.ts:67-71 | takes minSpeed and randomSpeed from the settings and changes nothing else |
| Rotation.Wheel.SetValues | src/models/wheel.ts:77-81 | the labels become exactly the given list; motion, radius and settings are unchanged |
| Rotation.Wheel.Launch | src/models/wheel.ts:86-90 | initial speed = r * randomSpeed + minSpeed (as LaunchSpeed) and current speed = initial speed; the angle is kept, so a relaunch mid-spin keeps the angle; establishes current speed <= initial speed and keeps the whole invariant (which also holds angle >= 0) |
| Rotation.Wheel.Update | src/models/wheel.ts:96-106 | the new motion state is Advance of the old one; the invariant (current speed <= initial speed, angle >= 0) is kept for a non-negative elapsed time; nothing else changes |
| Geometry.SectorAngle | src/models/drawable-wheel.ts:83-86 | the sector width is positive, times max(n, 1) it makes 2*PI, and it is 2*PI for zero or one label |
| Geometry.ClampTicks | src/models/drawable-wheel.ts:25 | the setter's value is at least 1, and it is the given value unless that is below 1 |
| Geometry.DrawableWheel.constructor | src/models/drawable-wheel.ts:30-40 | sector width 2*PI, font size 12, one tick per sector, the eight default colours in source order, and a new wheel in its initial state |
| Geometry.DrawableWheel.SetTikPerSector | src/models/drawable-wheel.ts:25 | stores max(v, 1) |
| Geometry.DrawableWheel.SetSettings | src/models/drawable-wheel.ts:46-53 | speed settings, palette (default or verbatim), font size and the tick density are taken from the settings; the density is stored unclamped; labels, sector width, radius and motion are unchanged |
| Geometry.DrawableWheel.SetValues | src/models/drawable-wheel.ts:59-64 | the labels become the given list and the sector width is recomputed from their count; nothing else changes |
| Geometry.DrawableWheel.SetSectorColors | src/models/drawable-wheel.ts:70-78 | an empty list, or one whose first entry is blank, gives exactly the default palette; any other list is taken verbatim, later blank entries included; the palette is never empty |
| Geometry.DrawableWheel.Prepare | src/models/drawable-wheel.ts:83-86 | the sector width becomes 2*PI divided by the label count, or by 1 when there are none |
| Canvas.StartOffset | src/canvas/canvas-wheel.ts:36 | the start rotation is PI (half a turn) for exactly one label and -PI/2 (sector 0 at the top) otherwise; it is positive exactly when there is one label |
| Canvas.TikAngle | src/canvas/canvas-wheel.ts:103 | for a density of at least 1 the tick angle times the density is the sector width, so the ticks split the sector evenly, and it is positive; for a density of 0 it is 0 and never used |
| Canvas.ColorIndex | src/canvas/canvas-wheel.ts:94-96 | the resolved index is in [0, len); sector 0 gets 0; a non-last sector i gets i mod len; with one colour every sector gets 0; with more than one sector and colour, the last sector never gets 0; every sector gets i mod len, except that a last sector whose i mod len is 0 gets exactly 1 |
| Canvas.AdjacentColorsDiffer | src/canvas/canvas-wheel.ts:94-96 | with at least three colours, neighbouring sectors never share a colour index, the last sector and sector 0 included |
| Canvas.TwoColorsThreeSectors | src/canvas/canvas-wheel.ts:94-96 | two colours over three sectors give indices [0, 1, 1] |
| Canvas.Ticks | src/canvas/canvas-wheel.ts:104-111 | the tick loop emits two instructions per tick, and none for a density of zero or below |
| Canvas.TicksViews | src/canvas/canvas-wheel.ts:104-111 | the tick loop draws max(density, 0) tick marks, and no wedge and no label |
| Canvas.TicksTurn | src/canvas/canvas-wheel.ts:103-111 | the tick loop turns back by max(density, 0) tick angles |
| Canvas.DrawSector | src/canvas/canvas-wheel.ts:82-118 | the sector's instructions are exactly SectorBody: the wedge in the resolved colour, the turn by one sector, the tick loop, the half-sector turn and the label at half the radius |
| Canvas.SectorBodyViews | src/canvas/canvas-wheel.ts:82-118 | one sector fills exactly one wedge, in its resolved colour, writes exactly its own label, and draws max(density, 0) tick marks |
| Canvas.SectorBlockViews | src/canvas/canvas-wheel.ts:42-47 | the save, the rotate by sectorAngle * i and the restore around a sector add no wedge, label or tick mark |
| Canvas.LabelPlacement | src/canvas/canvas-wheel.ts:90-117 | the label is the last thing a sector draws; it is drawn half a sector into the sector when the density is at least 1, and one and a half sectors on when it is not |
| Canvas.Draw | src/canvas/canvas-wheel.ts:26-60 | the frame is exactly Picture: the background, the turn by angle plus the start offset, the sectors 0..n-1 in order, each turned by sectorAngle * i, then the hub, the restore and the arrow |
| Canvas.SectorsFills | src/canvas/canvas-wheel.ts:40-48 | the first k passes of the sector loop fill the first k resolved colours, in order |
| Canvas.SectorsLabels | src/canvas/canvas-wheel.ts:40-48 | the first k passes of the sector loop write the first k labels, in order |
| Canvas.SectorsTicks | src/canvas/canvas-wheel.ts:40-48 | the first k passes of the sector loop draw k * max(density, 0) tick marks |
| Canvas.PictureContents | src/canvas/canvas-wheel.ts:26-60 | a frame fills one wedge per label in the resolved colours (none with no labels), writes every label once in order, and draws max(density, 0) tick marks per sector |
| Canvas.PictureFrame | src/canvas/canvas-wheel.ts:34-59 | the frame's first rotation is angle + PI for a single label and angle - PI/2 otherwise; it ends with the restore and then the arrow |
| Views.TickIndex | src/views/view.ts:241-244 | for a density of at least 1, the tick index k satisfies k * tick <= angle + PI/2 < (k + 1) * tick, where tick = sectorAngle / density; for a density of 0 (an infinite tick width) it is 0 |
| Views.Sounds | src/views/view.ts:246-257 | a reading plays the sound exactly when there was a previous reading (not -1) and the new index differs from it: the first reading and an unchanged reading are silent |
| Views.TickIndexMonotone | src/views/view.ts:241-244 | for a density of at least 1, turning the wheel further never lowers the tick index |
| Views.TickIndexNonNegative | src/views/view.ts:241-246 | with angle >= 0, sectorAngle > 0 and a density of at least 1, the index is >= 0, so the -1 mark is never read back |
| Views.SentinelRecurs | src/views/view.ts:241-257 | a density of -1 (possible through setSettings), one label and angle 0 give the index -1, which the detector takes for "no reading yet", so the next reading is silent |
| Views.SoundCountBound | src/views/view.ts:246-257 | over tick readings that never go down, the sound plays at most once per boundary crossed and at most once per frame, however many boundaries one frame crosses |
| Views.SoundsAfterFirstReading | src/views/view.ts:246-257 | from a fresh detector, the first reading is silent and the later ones play at most once per boundary crossed after it |
| Views.GapsTelescope | src/views/view.ts:200-202 | the elapsed times refresh hands to update are non-negative and add up to the clock time between the previous reading and the last frame |
| Views.SpinDuration | src/views/view.ts:198-202 | a wheel launched at clock `start` still spins after frames at any non-decreasing clock readings if and only if less than its launch speed, in milliseconds, has passed since the launch, whatever the frame rate |
| Views.View.constructor | src/views/view.ts:25-43 | the view starts with the clock reading taken and the tick mark at -1 |
| Views.View.Launch | src/views/view.ts:186-193 | with a wheel, the clock reading is reset to now and the wheel is launched with sample r from its unchanged speed settings, keeping its angle, radius and labels; without a wheel nothing changes |
| Views.View.DrawWheel | src/views/view.ts:214-230 | with a wheel, its radius becomes min(width, height)/2 - 20 and the frame is the wheel's Picture; motion, labels and speed settings are unchanged; without a wheel nothing is drawn |
| Views.View.ManageAudioTik | src/views/view.ts:235-259 | the stored reading becomes the tick index of the current angle, and the sound plays if and only if there was a previous reading and the index differs from it; for a density of at least 1 the stored reading is never -1 again; without a wheel nothing changes and no sound plays |
| Views.View.Refresh | src/views/view.ts:198-209 | the wheel advances by exactly t minus the previous clock reading; the clock reading becomes t; the frame is the wheel's Picture at the new radius; the tick detector reads the new angle as in ManageAudioTik; labels and speed settings are unchanged |

## Left out

- User interface: the DOM, the settings form and the buttons of `src/views/view.ts`. This is I/O.
- Pixels: fill styles, shadows, arc geometry, `measureText`, the shapes of the hub and the arrow, and the view's `clearRect` and translate to the canvas centre. Drawing is kept as abstract instructions.
- `resize`. The canvas size is a parameter of `Views.View.Refresh` and `Views.View.DrawWheel`.
- The `requestAnimationFrame` loop. `Views.View.Refresh` models one frame; the re-scheduling at `src/views/view.ts:208` is the caller's business.
- `performance.now()`, `Math.random()` and the audio `play()`. They are parameters and a returned boolean.
- The `refresh` call inside the view's constructor (`src/views/view.ts:36`). It runs before the clock reading is taken and before any wheel exists, so it has no effect on the model's state.
- Persistence, observers and wiring: `src/controllers/controller-wheel.ts`, `src/patterns/notifier.ts`, the two factories, `src/application/app.ts` and `src/models/settings.ts`. `Rotation.Settings` stands for the settings type.
- Floating point. Arithmetic is exact on `real`, and `PI` is only known to be positive. IEEE rounding, NaN and infinities are not modelled.
- Division by zero by the tick density: with a density of 0 the tick width is infinite in the source.
  - In `manageAudioTik`, `Math.floor(x / Infinity)` is 0, and `Views.TickIndex` returns that 0 directly.
  - In `drawSector` (`src/canvas/canvas-wheel.ts:103`), `Canvas.TikAngle` returns 0 instead of an infinite tick angle. The tick loop at `src/canvas/canvas-wheel.ts:104` does not run for a density of 0, so the value is never used and the frame is the same.
- Aliasing: `setValues(wheel.values)` and `setSectorColors(wheel.sectorColors)` truncate the shared array before copying it. The first gives an empty label list and the second the default palette. Labels and palettes are immutable sequences here, so this does not arise.
- The view's wheel: the source view reads `_controller.wheel` afresh each time, and it is absent until the application builds the wheel after the view (`src/application/app.ts:24-26`). `Views.View` is given its wheel (or none) once; a view with a wheel stands for the view after the wheel has been built.
- Inheritance: `DrawableWheel` extends `Wheel` in the source. Here it holds a `Wheel` (`wheel` field) and forwards the inherited calls to it.
- Canvas.Draw and Canvas.DrawSector require a non-empty palette, which every constructor and setter of the drawable wheel keeps. An empty palette, which the source never produces, is not modelled.
- Views.View.DrawWheel and Views.View.Refresh: a canvas narrower or lower than 40 pixels gives a negative radius (`src/views/view.ts:225`), and the canvas's `arc` then throws (`src/canvas/canvas-wheel.ts:71`, `:88`). The exception leaves `refresh` before the tick reading (`src/views/view.ts:206`) and before the next frame is scheduled (`:208`), so the animation stops. The model has no such error path: it returns a full frame and a tick reading for every canvas size.
- Views.View.Refresh requires the clock reading not to go back in time, as `performance.now()` guarantees.
- Rotation.Wheel.Launch and Views.View.Launch require the sample to lie in [0, 1), as `Math.random()` guarantees.

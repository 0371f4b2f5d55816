/** Sector geometry of a wheel that can be drawn (src/models/drawable-wheel.ts):
    the palette, the angular width of one sector, the tick density and the
    label font size. The drawable wheel is built around a rotating `Wheel`,
    whose settings and labels it forwards before updating its own fields. */
module Geometry {
  import opened Rotation

  /** The eight colours used when the settings supply none, in this order. */
  const DefaultColors: seq<string> :=
    ["#ff8181", "#81dcff", "#81ffa2", "#ffef81", "#ff81ea", "#a681ff", "#ffa74d", "#4be1b8"]

  /** The number the full turn is divided by: the label count, or 1 when there
      are no labels. */
  function Divisor(n: nat): (d: real)
    ensures d >= 1.0
    ensures n > 0 ==> d == n as real
  {
    if n != 0 then n as real else 1.0
  }

  /** Angular width of one sector of a wheel with `n` labels. */
  function SectorAngle(n: nat): (a: real)
    ensures a > 0.0
    ensures a * Divisor(n) == 2.0 * PI
    ensures n <= 1 ==> a == 2.0 * PI
  {
    2.0 * PI / Divisor(n)
  }

  /** The tick-density setter clamps up to one. */
  function ClampTicks(v: int): (t: int)
    ensures t >= 1
    ensures t == v || (v < 1 && t == 1)
  {
    if v > 1 then v else 1
  }

  class DrawableWheel {
    /** The rotating wheel this one extends. */
    const wheel: Wheel
    var sectorColors: seq<string>
    var sectorAngle: real
    var sectorFontSize: real
    var tikPerSector: int

    /** A palette to draw with, the deceleration invariant, and a sector width
        that matches the labels. The tick density has no invariant: the settings
        may set it to any integer. */
    ghost predicate Valid()
      reads this, wheel
    {
      && wheel.Valid()
      && |sectorColors| >= 1
      && sectorAngle == SectorAngle(|wheel.values|)
    }

    constructor ()
      ensures Valid() && fresh(wheel)
      ensures wheel.State() == Stopped && wheel.values == [] && wheel.radius == 150.0
      ensures wheel.minSpeed == 10000.0 && wheel.randomSpeed == 10000.0
      ensures sectorColors == DefaultColors
      ensures sectorAngle == 2.0 * PI && sectorFontSize == 12.0 && tikPerSector == 1
    {
      wheel := new Wheel();
      sectorColors := [];
      sectorAngle := 2.0 * PI;
      sectorFontSize := 12.0;
      tikPerSector := 1;
      new;
      SetSectorColors([]);
    }

    /** The tick-density setter: values below one are raised to one. */
    method SetTikPerSector(v: int)
      modifies this`tikPerSector
      ensures tikPerSector == ClampTicks(v)
    {
      tikPerSector := if v > 1 then v else 1;
    }

    /** Applies a settings record. The tick density is stored as given, without
        the clamp of `SetTikPerSector`, so it may be zero or negative. */
    method SetSettings(s: Settings)
      modifies this, wheel
      ensures old(Valid()) ==> Valid()
      ensures wheel.minSpeed == s.minSpeed && wheel.randomSpeed == s.randomSpeed
      ensures |s.colors| == 0 || s.colors[0] == "" ==> sectorColors == DefaultColors
      ensures |s.colors| > 0 && s.colors[0] != "" ==> sectorColors == s.colors
      ensures tikPerSector == s.tickPerSector && sectorFontSize == s.fontSize
      ensures wheel.State() == old(wheel.State())
      ensures wheel.values == old(wheel.values) && wheel.radius == old(wheel.radius)
      ensures sectorAngle == old(sectorAngle)
    {
      wheel.SetSettings(s);
      SetSectorColors(s.colors);
      tikPerSector := s.tickPerSector;
      sectorFontSize := s.fontSize;
    }

    /** Replaces the labels and recomputes the sector width. */
    method SetValues(vs: seq<string>)
      modifies this, wheel
      ensures old(Valid()) ==> Valid()
      ensures wheel.values == vs && sectorAngle == SectorAngle(|vs|)
      ensures wheel.State() == old(wheel.State()) && wheel.radius == old(wheel.radius)
      ensures wheel.minSpeed == old(wheel.minSpeed) && wheel.randomSpeed == old(wheel.randomSpeed)
      ensures sectorColors == old(sectorColors) && tikPerSector == old(tikPerSector)
      ensures sectorFontSize == old(sectorFontSize)
    {
      wheel.SetValues(vs);
      Prepare();
    }

    /** Replaces the palette; an empty list, or one whose first entry is blank,
        selects the default palette. */
    method SetSectorColors(colors: seq<string>)
      modifies this`sectorColors
      ensures |sectorColors| >= 1
      ensures |colors| == 0 || colors[0] == "" ==> sectorColors == DefaultColors
      ensures |colors| > 0 && colors[0] != "" ==> sectorColors == colors
    {
      sectorColors := [];
      if |colors| > 0 && colors[0] != "" {
        sectorColors := sectorColors + colors;
      } else {
        sectorColors := sectorColors + DefaultColors;
      }
    }

    /** Recomputes the sector width from the label count. */
    method Prepare()
      modifies this`sectorAngle
      ensures sectorAngle == SectorAngle(|wheel.values|)
    {
      sectorAngle := (PI * 2.0) / (if |wheel.values| != 0 then |wheel.values| as real else 1.0);
    }
  }
}

/** The frame the canvas wheel draws (src/canvas/canvas-wheel.ts), as an ordered
    list of abstract drawing instructions rather than pixels: a background disc,
    the wheel turned by its angle, one wedge per label with its tick marks and
    text, the hub, and the fixed indicator arrow. */
module Canvas {
  import opened Rotation
  import opened Geometry

  /** One drawing call of the canvas, or a fixed group of calls that always go
      together (a filled shape with its style). */
  datatype Instr =
    | Background(radius: real)                       // shadowed disc behind the wheel
    | Save                                           // push the transform
    | Restore                                        // pop the transform
    | Rotate(turn: real)                             // turn the transform
    | Wedge(radius: real, sweep: real, color: string) // sector path, filled and stroked
    | TickMark(distance: real)                       // small dot near the rim
    | Label(text: string, distance: real, fontSize: real)
    | Hub                                            // small disc over the centre
    | Arrow(radius: real)                            // indicator, outside the turned frame

  /** What drawing reads from the wheel. */
  datatype Scene = Scene(
    angle: real,
    radius: real,
    values: seq<string>,
    colors: seq<string>,
    sectorAngle: real,
    ticks: int,
    fontSize: real)

  function SceneOf(w: DrawableWheel): Scene
    reads w, w.wheel
  {
    Scene(w.wheel.angle, w.wheel.radius, w.wheel.values, w.sectorColors,
          w.sectorAngle, w.tikPerSector, w.sectorFontSize)
  }

  /** Rotation that brings sector 0 to its starting place: a lone sector is
      turned half a circle, otherwise sector 0 starts at the top. */
  function StartOffset(n: nat): (o: real)
    ensures o > 0.0 <==> n == 1
    ensures n == 1 ==> o == PI
    ensures n != 1 ==> o == -(PI as real) / 2.0
  {
    if n == 1 then PI else -(PI as real) / 2.0
  }

  /** The palette index of sector `i` of `n`, for a palette of `len` colours:
      the sectors cycle through the palette, except that the last sector never
      takes the first sector's colour when another one is available. */
  function ColorIndex(i: nat, n: nat, len: nat): (c: nat)
    requires len >= 1
    ensures c < len
    ensures i == 0 ==> c == 0
    ensures i + 1 != n ==> c == i % len
    ensures len == 1 ==> c == 0
    ensures 1 < n && 1 < len && i + 1 == n ==> c != 0
    ensures c == i % len || (i % len == 0 && c == 1)
  {
    var c := i % len;
    if i != 0 && i == n - 1 && c == 0 && len > 1 then c + 1 else c
  }

  /** Angle between two tick marks: the ticks split the sector evenly. With no
      ticks the value is never used. */
  function TikAngle(s: Scene): (t: real)
    ensures s.ticks == 0 ==> t == 0.0
    ensures s.ticks >= 1 ==> t * s.ticks as real == s.sectorAngle
    ensures s.ticks >= 1 && s.sectorAngle > 0.0 ==> t > 0.0
  {
    if s.ticks != 0 then s.sectorAngle / s.ticks as real else 0.0
  }

  /** `count` tick marks, each one tick angle further back. */
  function Ticks(count: int, tikAngle: real, radius: real): (r: seq<Instr>)
    ensures |r| == 2 * (if count > 0 then count else 0)
    decreases count
  {
    if count <= 0 then []
    else Ticks(count - 1, tikAngle, radius) + [Rotate(-tikAngle), TickMark(radius - 10.0)]
  }

  predicate Drawable(s: Scene) {
    |s.colors| >= 1
  }

  /** The colour sector `i` is filled with. */
  function SectorColor(s: Scene, i: nat): string
    requires Drawable(s)
  {
    s.colors[ColorIndex(i, |s.values|, |s.colors|)]
  }

  /** The filled wedge and the turn its path makes to close it. */
  function WedgePart(s: Scene, i: nat): seq<Instr>
    requires Drawable(s)
  {
    [Wedge(s.radius, s.sectorAngle, SectorColor(s, i)), Rotate(s.sectorAngle)]
  }

  /** The turn to mid-sector and the label text at half the radius. */
  function LabelPart(s: Scene, i: nat): seq<Instr>
    requires i < |s.values|
  {
    [Rotate(s.sectorAngle / 2.0), Label(s.values[i], s.radius / 2.0, s.fontSize)]
  }

  /** What `drawSector(i)` draws, in the sector's own frame. */
  function SectorBody(s: Scene, i: nat): seq<Instr>
    requires Drawable(s) && i < |s.values|
  {
    WedgePart(s, i) + Ticks(s.ticks, TikAngle(s), s.radius) + LabelPart(s, i)
  }

  /** `body` drawn in a frame turned by `x`, which is undone afterwards. */
  function Wrapped(x: real, body: seq<Instr>): seq<Instr> {
    [Save, Rotate(x)] + body + [Restore]
  }

  /** How far sector `i` is turned from sector 0. */
  function SectorStart(s: Scene, i: nat): real {
    s.sectorAngle * i as real
  }

  /** One pass of the sector loop of `draw`. */
  function SectorBlock(s: Scene, i: nat): seq<Instr>
    requires Drawable(s) && i < |s.values|
  {
    Wrapped(SectorStart(s, i), SectorBody(s, i))
  }

  /** The first `k` passes of the sector loop. */
  function Sectors(s: Scene, k: nat): seq<Instr>
    requires Drawable(s) && k <= |s.values|
  {
    if k == 0 then [] else Sectors(s, k - 1) + SectorBlock(s, k - 1)
  }

  function Opening(s: Scene): seq<Instr> {
    [Background(s.radius), Save, Rotate(s.angle + StartOffset(|s.values|))]
  }

  function Closing(s: Scene): seq<Instr> {
    [Hub, Restore, Arrow(s.radius)]
  }

  /** The whole frame `draw` produces. */
  function Picture(s: Scene): seq<Instr>
    requires Drawable(s)
  {
    Opening(s) + Sectors(s, |s.values|) + Closing(s)
  }

  /** Appending the next sector's block continues the frame. */
  lemma SectorsStep(s: Scene, k: nat, block: seq<Instr>)
    requires Drawable(s) && k < |s.values|
    requires block == Wrapped(SectorStart(s, k), SectorBody(s, k))
    ensures Opening(s) + Sectors(s, k + 1) == Opening(s) + Sectors(s, k) + block
  {
    assert Sectors(s, k + 1) == Sectors(s, k) + block;
  }

  /** `drawSector`: the wedge, its tick marks and its label. */
  method DrawSector(w: DrawableWheel, iSector: nat) returns (out: seq<Instr>)
    requires |w.sectorColors| >= 1 && iSector < |w.wheel.values|
    ensures out == SectorBody(SceneOf(w), iSector)
  {
    var iColor := iSector % |w.sectorColors|;
    if iSector != 0 && iSector == |w.wheel.values| - 1 && iColor == 0 && |w.sectorColors| > 1 {
      iColor := iColor + 1;
    }
    out := [Wedge(w.wheel.radius, w.sectorAngle, w.sectorColors[iColor]), Rotate(w.sectorAngle)];
    ghost var head := out;
    var tikAngle := if w.tikPerSector != 0 then w.sectorAngle / w.tikPerSector as real else 0.0;
    var iTik := 0;
    while iTik < w.tikPerSector
      invariant 0 <= iTik <= (if w.tikPerSector > 0 then w.tikPerSector else 0)
      invariant out == head + Ticks(iTik, tikAngle, w.wheel.radius)
    {
      out := out + [Rotate(-tikAngle), TickMark(w.wheel.radius - 10.0)];
      iTik := iTik + 1;
    }
    out := out + [Rotate(w.sectorAngle / 2.0), Label(w.wheel.values[iSector], w.wheel.radius / 2.0, w.sectorFontSize)];
    ghost var s := SceneOf(w);
    assert iColor == ColorIndex(iSector, |s.values|, |s.colors|);
    assert tikAngle == TikAngle(s);
    assert Ticks(iTik, tikAngle, w.wheel.radius) == Ticks(s.ticks, TikAngle(s), s.radius);
  }

  /** `draw`: the whole frame. */
  method Draw(w: DrawableWheel) returns (frame: seq<Instr>)
    requires |w.sectorColors| >= 1
    ensures frame == Picture(SceneOf(w))
  {
    ghost var s := SceneOf(w);
    frame := [Background(w.wheel.radius), Save];
    var startSectorOffset: real := if |w.wheel.values| == 1 then PI else -(PI as real) / 2.0;
    frame := frame + [Rotate(w.wheel.angle + startSectorOffset)];
    var iSector := 0;
    while iSector < |w.wheel.values|
      invariant 0 <= iSector <= |w.wheel.values|
      invariant frame == Opening(s) + Sectors(s, iSector)
    {
      var body := DrawSector(w, iSector);
      var block := [Save, Rotate(w.sectorAngle * iSector as real)] + body + [Restore];
      assert SectorStart(s, iSector) == w.sectorAngle * iSector as real;
      SectorsStep(s, iSector, block);
      frame := frame + block;
      iSector := iSector + 1;
    }
    frame := frame + [Hub, Restore, Arrow(w.wheel.radius)];
  }

  // Views of a frame used to state what it contains.

  /** The fill colours of the wedges, in drawing order. */
  function Fills(p: seq<Instr>): seq<string> {
    if p == [] then [] else (if p[0].Wedge? then [p[0].color] else []) + Fills(p[1..])
  }

  /** The label texts, in drawing order. */
  function Labels(p: seq<Instr>): seq<string> {
    if p == [] then [] else (if p[0].Label? then [p[0].text] else []) + Labels(p[1..])
  }

  /** The number of tick marks. */
  function TickCount(p: seq<Instr>): nat {
    if p == [] then 0 else (if p[0].TickMark? then 1 else 0) + TickCount(p[1..])
  }

  /** The total rotation of a list that has no Save or Restore in it. */
  function Turn(p: seq<Instr>): real {
    if p == [] then 0.0 else (if p[0].Rotate? then p[0].turn else 0.0) + Turn(p[1..])
  }

  lemma {:induction false} FillsAppend(a: seq<Instr>, b: seq<Instr>)
    ensures Fills(a + b) == Fills(a) + Fills(b)
  {
    if a == [] {
      assert a + b == b;
    } else {
      assert (a + b)[1..] == a[1..] + b;
      FillsAppend(a[1..], b);
    }
  }

  lemma {:induction false} LabelsAppend(a: seq<Instr>, b: seq<Instr>)
    ensures Labels(a + b) == Labels(a) + Labels(b)
  {
    if a == [] {
      assert a + b == b;
    } else {
      assert (a + b)[1..] == a[1..] + b;
      LabelsAppend(a[1..], b);
    }
  }

  lemma {:induction false} TickCountAppend(a: seq<Instr>, b: seq<Instr>)
    ensures TickCount(a + b) == TickCount(a) + TickCount(b)
  {
    if a == [] {
      assert a + b == b;
    } else {
      assert (a + b)[1..] == a[1..] + b;
      TickCountAppend(a[1..], b);
    }
  }

  lemma {:induction false} TurnAppend(a: seq<Instr>, b: seq<Instr>)
    ensures Turn(a + b) == Turn(a) + Turn(b)
  {
    if a == [] {
      assert a + b == b;
    } else {
      assert (a + b)[1..] == a[1..] + b;
      TurnAppend(a[1..], b);
    }
  }

  /** Every view of a concatenation is the concatenation (or sum) of the views. */
  lemma ViewsAppend(a: seq<Instr>, b: seq<Instr>)
    ensures Fills(a + b) == Fills(a) + Fills(b)
    ensures Labels(a + b) == Labels(a) + Labels(b)
    ensures TickCount(a + b) == TickCount(a) + TickCount(b)
    ensures Turn(a + b) == Turn(a) + Turn(b)
  {
    FillsAppend(a, b);
    LabelsAppend(a, b);
    TickCountAppend(a, b);
    TurnAppend(a, b);
  }

  /** The views of a one-instruction list. */
  lemma ViewsOne(x: Instr)
    ensures Fills([x]) == (if x.Wedge? then [x.color] else [])
    ensures Labels([x]) == (if x.Label? then [x.text] else [])
    ensures TickCount([x]) == (if x.TickMark? then 1 else 0)
    ensures Turn([x]) == (if x.Rotate? then x.turn else 0.0)
  {
    assert [x][1..] == [];
  }

  /** The views of a two-instruction list. */
  lemma ViewsPair(x: Instr, y: Instr)
    ensures Fills([x, y]) == Fills([x]) + Fills([y])
    ensures Labels([x, y]) == Labels([x]) + Labels([y])
    ensures TickCount([x, y]) == TickCount([x]) + TickCount([y])
    ensures Turn([x, y]) == Turn([x]) + Turn([y])
  {
    assert [x, y] == [x] + [y];
    ViewsAppend([x], [y]);
  }

  /** `count` tick marks: no wedge, no label, and `max(count, 0)` dots. */
  lemma {:induction false} TicksViews(count: int, t: real, r: real)
    ensures Fills(Ticks(count, t, r)) == [] && Labels(Ticks(count, t, r)) == []
    ensures TickCount(Ticks(count, t, r)) == (if count > 0 then count else 0)
    decreases count
  {
    if count > 0 {
      TicksViews(count - 1, t, r);
      ViewsPair(Rotate(-t), TickMark(r - 10.0));
      ViewsOne(Rotate(-t));
      ViewsOne(TickMark(r - 10.0));
      ViewsAppend(Ticks(count - 1, t, r), [Rotate(-t), TickMark(r - 10.0)]);
    }
  }

  /** `count` tick marks turn back by `max(count, 0)` tick angles. */
  lemma {:induction false} TicksTurn(count: int, t: real, r: real)
    ensures Turn(Ticks(count, t, r)) == -(if count > 0 then count else 0) as real * t
    decreases count
  {
    if count > 0 {
      TicksTurn(count - 1, t, r);
      ViewsPair(Rotate(-t), TickMark(r - 10.0));
      ViewsOne(Rotate(-t));
      ViewsOne(TickMark(r - 10.0));
      ViewsAppend(Ticks(count - 1, t, r), [Rotate(-t), TickMark(r - 10.0)]);
      assert -(count - 1) as real * t + -t == -count as real * t;
    }
  }

  lemma WedgePartViews(s: Scene, i: nat)
    requires Drawable(s)
    ensures Fills(WedgePart(s, i)) == [SectorColor(s, i)]
    ensures Labels(WedgePart(s, i)) == [] && TickCount(WedgePart(s, i)) == 0
    ensures Turn(WedgePart(s, i)) == s.sectorAngle
  {
    var wedge := Wedge(s.radius, s.sectorAngle, SectorColor(s, i));
    ViewsPair(wedge, Rotate(s.sectorAngle));
    ViewsOne(wedge);
    ViewsOne(Rotate(s.sectorAngle));
  }

  lemma LabelPartViews(s: Scene, i: nat)
    requires i < |s.values|
    ensures Fills(LabelPart(s, i)) == [] && TickCount(LabelPart(s, i)) == 0
    ensures Labels(LabelPart(s, i)) == [s.values[i]]
    ensures Turn(LabelPart(s, i)) == s.sectorAngle / 2.0
  {
    var caption := Label(s.values[i], s.radius / 2.0, s.fontSize);
    ViewsPair(Rotate(s.sectorAngle / 2.0), caption);
    ViewsOne(Rotate(s.sectorAngle / 2.0));
    ViewsOne(caption);
  }

  /** The sector body: one wedge in the sector's colour, its tick marks, its
      label, and the turns between them. */
  lemma SectorBodyViews(s: Scene, i: nat)
    requires Drawable(s) && i < |s.values|
    ensures Fills(SectorBody(s, i)) == [SectorColor(s, i)]
    ensures Labels(SectorBody(s, i)) == [s.values[i]]
    ensures TickCount(SectorBody(s, i)) == (if s.ticks > 0 then s.ticks else 0)
    ensures Turn(SectorBody(s, i)) ==
      s.sectorAngle + Turn(Ticks(s.ticks, TikAngle(s), s.radius)) + s.sectorAngle / 2.0
  {
    var t := Ticks(s.ticks, TikAngle(s), s.radius);
    WedgePartViews(s, i);
    LabelPartViews(s, i);
    TicksViews(s.ticks, TikAngle(s), s.radius);
    ViewsAppend(WedgePart(s, i), t);
    ViewsAppend(WedgePart(s, i) + t, LabelPart(s, i));
  }

  /** Saving, turning and restoring the transform around a list adds no wedge,
      label or tick mark. */
  lemma WrapViews(x: real, body: seq<Instr>)
    ensures Fills(Wrapped(x, body)) == Fills(body)
    ensures Labels(Wrapped(x, body)) == Labels(body)
    ensures TickCount(Wrapped(x, body)) == TickCount(body)
  {
    ViewsPair(Save, Rotate(x));
    ViewsOne(Save);
    ViewsOne(Rotate(x));
    ViewsOne(Restore);
    ViewsAppend([Save, Rotate(x)], body);
    ViewsAppend([Save, Rotate(x)] + body, [Restore]);
  }

  /** One sector draws one wedge in its resolved colour, its own label, and
      `max(ticks, 0)` tick marks. */
  lemma SectorBlockViews(s: Scene, i: nat)
    requires Drawable(s) && i < |s.values|
    ensures Fills(SectorBlock(s, i)) == [SectorColor(s, i)]
    ensures Labels(SectorBlock(s, i)) == [s.values[i]]
    ensures TickCount(SectorBlock(s, i)) == (if s.ticks > 0 then s.ticks else 0)
  {
    SectorBodyViews(s, i);
    WrapViews(SectorStart(s, i), SectorBody(s, i));
  }

  /** Within its sector, drawn in a frame turned by `sectorAngle * i`, the label
      is the last thing drawn, after a turn of half a sector when there is at
      least one tick per sector: the ticks turn back exactly the sector width the
      wedge path turned forward. With no tick marks it lands one and a half
      sectors on, in the middle of the next sector. */
  lemma LabelPlacement(s: Scene, i: nat)
    requires Drawable(s) && i < |s.values|
    ensures var body := SectorBody(s, i);
      body[|body| - 1] == Label(s.values[i], s.radius / 2.0, s.fontSize) &&
      Turn(body) == (if s.ticks >= 1 then s.sectorAngle / 2.0 else 3.0 * s.sectorAngle / 2.0)
  {
    SectorBodyViews(s, i);
    TicksTurn(s.ticks, TikAngle(s), s.radius);
    if s.ticks >= 1 {
      assert s.ticks as real * TikAngle(s) == s.sectorAngle;
    }
  }

  /** The colours of the first `k` sectors, in order. */
  function Palette(s: Scene, k: nat): seq<string>
    requires Drawable(s)
  {
    seq(k, i requires 0 <= i => SectorColor(s, i))
  }

  lemma PaletteStep(s: Scene, k: nat)
    requires Drawable(s) && k > 0
    ensures Palette(s, k) == Palette(s, k - 1) + [SectorColor(s, k - 1)]
  {
    assert Palette(s, k)[..k - 1] == Palette(s, k - 1);
  }

  /** The first `k` sectors fill the first `k` colours of the palette rule. */
  lemma {:induction false} SectorsFills(s: Scene, k: nat)
    requires Drawable(s) && k <= |s.values|
    ensures Fills(Sectors(s, k)) == Palette(s, k)
  {
    if k > 0 {
      SectorsFills(s, k - 1);
      SectorBlockViews(s, k - 1);
      ViewsAppend(Sectors(s, k - 1), SectorBlock(s, k - 1));
      PaletteStep(s, k);
    }
  }

  /** The first `k` sectors write the first `k` labels, in order. */
  lemma {:induction false} SectorsLabels(s: Scene, k: nat)
    requires Drawable(s) && k <= |s.values|
    ensures Labels(Sectors(s, k)) == s.values[..k]
  {
    if k > 0 {
      SectorsLabels(s, k - 1);
      SectorBlockViews(s, k - 1);
      ViewsAppend(Sectors(s, k - 1), SectorBlock(s, k - 1));
      assert s.values[..k] == s.values[..k - 1] + [s.values[k - 1]];
    }
  }

  /** The first `k` sectors draw `max(ticks, 0)` tick marks each. */
  lemma {:induction false} SectorsTicks(s: Scene, k: nat)
    requires Drawable(s) && k <= |s.values|
    ensures TickCount(Sectors(s, k)) == k * (if s.ticks > 0 then s.ticks else 0)
  {
    if k > 0 {
      SectorsTicks(s, k - 1);
      SectorBlockViews(s, k - 1);
      ViewsAppend(Sectors(s, k - 1), SectorBlock(s, k - 1));
      var per := if s.ticks > 0 then s.ticks else 0;
      assert (k - 1) * per + per == k * per;
    }
  }

  /** Three instructions, none a wedge, a label or a tick mark, add nothing to
      those views. */
  lemma PlainTriple(x: Instr, y: Instr, z: Instr)
    requires !x.Wedge? && !x.Label? && !x.TickMark?
    requires !y.Wedge? && !y.Label? && !y.TickMark?
    requires !z.Wedge? && !z.Label? && !z.TickMark?
    ensures Fills([x, y, z]) == [] && Labels([x, y, z]) == [] && TickCount([x, y, z]) == 0
  {
    assert [x, y, z] == [x, y] + [z];
    ViewsPair(x, y);
    ViewsOne(x);
    ViewsOne(y);
    ViewsOne(z);
    ViewsAppend([x, y], [z]);
  }

  /** Surrounding a list with lists that hold no wedge, label or tick mark
      leaves those views as they were. */
  lemma FramedViews(a: seq<Instr>, m: seq<Instr>, c: seq<Instr>)
    requires Fills(a) == [] && Labels(a) == [] && TickCount(a) == 0
    requires Fills(c) == [] && Labels(c) == [] && TickCount(c) == 0
    ensures Fills(a + m + c) == Fills(m)
    ensures Labels(a + m + c) == Labels(m)
    ensures TickCount(a + m + c) == TickCount(m)
  {
    ViewsAppend(a, m);
    ViewsAppend(a + m, c);
    assert [] + Fills(m) + [] == Fills(m);
    assert [] + Labels(m) + [] == Labels(m);
  }

  /** A frame fills one wedge per label, in label order, each with the colour
      the palette rule gives it (none at all when there are no labels); it
      writes every label once, in order; and it draws `max(ticks, 0)` tick
      marks per sector. */
  lemma PictureContents(s: Scene)
    requires Drawable(s)
    ensures Fills(Picture(s)) == Palette(s, |s.values|)
    ensures Labels(Picture(s)) == s.values
    ensures TickCount(Picture(s)) == |s.values| * (if s.ticks > 0 then s.ticks else 0)
  {
    var n := |s.values|;
    SectorsFills(s, n);
    SectorsLabels(s, n);
    SectorsTicks(s, n);
    PlainTriple(Background(s.radius), Save, Rotate(s.angle + StartOffset(n)));
    PlainTriple(Hub, Restore, Arrow(s.radius));
    FramedViews(Opening(s), Sectors(s, n), Closing(s));
    assert s.values[..n] == s.values;
  }

  /** The frame turns the wheel by its angle plus the start offset before the
      first sector, and draws the arrow last, after the turn is undone. */
  lemma PictureFrame(s: Scene)
    requires Drawable(s)
    ensures Picture(s)[2] == Rotate(s.angle + (if |s.values| == 1 then PI else -(PI as real) / 2.0))
    ensures var p := Picture(s); p[|p| - 2] == Restore && p[|p| - 1] == Arrow(s.radius)
  {
    var a := Opening(s) + Sectors(s, |s.values|);
    assert a[2] == Opening(s)[2];
    assert Picture(s) == a + Closing(s);
  }

  /** The palette index moves on by one from one sector to the next. */
  lemma NextIndexDiffers(i: nat, len: nat)
    requires len >= 2
    ensures (i + 1) % len != i % len
    ensures i % len == len - 1 ==> (i + 1) % len == 0
    ensures i % len < len - 1 ==> (i + 1) % len == i % len + 1
  {
    var q, r := i / len, i % len;
    assert i == q * len + r;
    if r < len - 1 {
      ModUnique(i + 1, len, q, r + 1);
    } else {
      ModUnique(i + 1, len, q + 1, 0);
    }
  }

  /** Euclidean division has a unique quotient and remainder. */
  lemma ModUnique(a: nat, len: nat, q: int, r: int)
    requires len >= 1 && 0 <= r < len && a == q * len + r
    ensures a % len == r
  {
    var q0, r0 := a / len, a % len;
    var d := q - q0;
    MulDistributes(q, q0, len);
    assert d * len == r0 - r;
    if d >= 1 {
      MulAtLeast(d, len);
    } else if d <= -1 {
      MulAtLeast(-d, len);
      MulDistributes(0, d, len);
    }
  }

  lemma MulDistributes(x: int, y: int, len: int)
    ensures (x - y) * len == x * len - y * len
  {
  }

  lemma MulAtLeast(d: int, len: int)
    requires d >= 1 && len >= 0
    ensures d * len >= len
  {
    assert d * len == (d - 1) * len + len;
  }

  /** With at least three colours, neighbouring sectors (the last one included,
      whose neighbour is sector 0) never share a colour index. */
  lemma AdjacentColorsDiffer(n: nat, len: nat, i: nat)
    requires len >= 3 && 2 <= n && i < n
    ensures ColorIndex(i, n, len) != ColorIndex((i + 1) % n, n, len)
  {
    if i + 1 < n {
      ModUnique(i + 1, n, 0, i + 1);
      NextIndexDiffers(i, len);
      if i + 1 == n - 1 && (i + 1) % len == 0 {
        assert ColorIndex(i + 1, n, len) == 1;
        assert ColorIndex(i, n, len) == len - 1;
      }
    } else {
      ModUnique(i + 1, n, 1, 0);
    }
  }

  /** Two colours over three sectors: the last sector is bumped from colour 0 to
      colour 1, so the last two sectors share a colour instead. */
  lemma TwoColorsThreeSectors()
    ensures [ColorIndex(0, 3, 2), ColorIndex(1, 3, 2), ColorIndex(2, 3, 2)] == [0, 1, 1]
  {
  }
}

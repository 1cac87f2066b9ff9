/** The compression of a waterfall display: while the panel is held horizontally, a strip at its top
    and its bottom is left out of the default display. */
module DisplayCompression {
  import opened DmTypes
  import opened Machine
  import opened ScreenState
  import opened DisplayObject

  /** The configured size in virtual pixels, and what the pixel ratio makes of it. */
  datatype Config = Config(enabled: bool, sizeInVp: nat, sizeInPx: nat)

  /** A display together with its compression status. */
  datatype Shape = Shape(d: Display, compressed: bool)

  function ShapeOf(d: AbstractDisplay): Shape
    reads d
  {
    Shape(d.View(), d.compressed)
  }

  /** Unsigned multiplication. */
  function Times(a: int, b: int): nat {
    UWrap32(a * b)
  }

  /** Whether a rotation holds a panel of this mode horizontally: landscape rotations are 90 and 270
      for a panel that is upright by default, 0 and 180 otherwise. */
  predicate IsHorizontal(m: Mode, r: Rotation) {
    if m.width < m.height then r == ROTATION_90 || r == ROTATION_270 else r == ROTATION_0 || r == ROTATION_180
  }

  predicate Applies(m: Mode, c: Config) {
    c.enabled && c.sizeInVp != 0 && !(c.sizeInPx >= m.height / 4 || c.sizeInPx >= m.width / 4)
  }

  function Compress(s: Shape, m: Mode, c: Config): Shape {
    if !Applies(m, c) then s
    else if IsHorizontal(m, s.d.rotation) then
      Shape(s.d.(offset := Point(0, c.sizeInPx),
                 height := UMinus(if m.height > m.width then m.width else m.height, Times(c.sizeInPx, 2))), true)
    else if !s.compressed then s
    else
      Shape(s.d.(offset := ORIGIN,
                 height := if m.height > m.width then m.height else m.width,
                 width := if m.height > m.width then m.width else m.height), false)
  }

  method ProcessDisplayCompression(d: AbstractDisplay, m: Mode, c: Config)
    modifies d`offsetX, d`offsetY, d`width, d`height, d`compressed
    ensures ShapeOf(d) == Compress(old(ShapeOf(d)), m, c)
  {
    if !c.enabled || c.sizeInVp == 0 {
      return;
    }
    if c.sizeInPx >= m.height / 4 || c.sizeInPx >= m.width / 4 {
      return;
    }
    var isDefaultRotationVertical := m.height > m.width;
    if IsHorizontal(m, d.rotation) {
      var offsetY := c.sizeInPx;
      var totalCompressedSize := Times(offsetY, 2);
      var displayHeightAfter :=
        if isDefaultRotationVertical then UMinus(m.width, totalCompressedSize) else UMinus(m.height, totalCompressedSize);
      d.offsetX := 0;
      d.offsetY := offsetY;
      d.height := displayHeightAfter;
      d.compressed := true;
    } else {
      if !d.compressed {
        return;
      }
      d.offsetX := 0;
      d.offsetY := 0;
      d.height := if isDefaultRotationVertical then m.height else m.width;
      d.width := if isDefaultRotationVertical then m.width else m.height;
      d.compressed := false;
    }
  }

  /** One rotation event of the default display. */
  function Turn(s: Shape, r: Rotation, m: Mode, c: Config): Shape {
    Compress(s.(d := Rotate(s.d, r)), m, c)
  }

  method ProcessDisplayRotationChange(d: AbstractDisplay, r: Rotation, m: Mode, c: Config)
    modifies d
    ensures ShapeOf(d) == Turn(old(ShapeOf(d)), r, m, c)
  {
    var _ := d.RequestRotation(r);
    ProcessDisplayCompression(d, m, c);
  }

  function Turns(s: Shape, rs: seq<Rotation>, m: Mode, c: Config): Shape
    decreases |rs|
  {
    if rs == [] then s else Turn(Turns(s, rs[..|rs| - 1], m, c), rs[|rs| - 1], m, c)
  }

  /** A display that covers the whole rotated panel, as the constructor leaves it. */
  predicate IsUpright(s: Shape, m: Mode) {
    && s.d.offset == ORIGIN && !s.compressed
    && s.d.width == RotatedWidth(m, s.d.rotation) && s.d.height == RotatedHeight(m, s.d.rotation)
  }

  /** The rectangle that is wanted for a rotation: the whole rotated panel, less a strip at the top and
      at the bottom when compression applies and the panel is held horizontally. */
  predicate IsWanted(s: Shape, m: Mode, c: Config) {
    if Applies(m, c) && IsHorizontal(m, s.d.rotation) then
      && s.compressed && s.d.offset == Point(0, c.sizeInPx)
      && s.d.width == RotatedWidth(m, s.d.rotation)
      && s.d.height == RotatedHeight(m, s.d.rotation) - 2 * c.sizeInPx
      && 2 * s.d.height > RotatedHeight(m, s.d.rotation)
    else IsUpright(s, m)
  }

  /** The 32-bit arithmetic neither wraps nor underflows, because the strip is less than a quarter. */
  lemma NoUnderflow(m: Mode, c: Config)
    requires IsPanel(m) && Applies(m, c)
    ensures Times(c.sizeInPx, 2) == 2 * c.sizeInPx
    ensures UMinus(m.width, Times(c.sizeInPx, 2)) == m.width - 2 * c.sizeInPx && 4 * c.sizeInPx < m.width
    ensures UMinus(m.height, Times(c.sizeInPx, 2)) == m.height - 2 * c.sizeInPx && 4 * c.sizeInPx < m.height
  {
  }

  /** Compression applies exactly if it is switched on, has a size, and the strip is less than a quarter of each side. */
  lemma AppliesExact(m: Mode, c: Config)
    ensures Applies(m, c) <==> c.enabled && c.sizeInVp > 0 && 4 * c.sizeInPx + 4 <= m.height && 4 * c.sizeInPx + 4 <= m.width
  {
  }

  /** A panel is held horizontally exactly if the turned panel is wider than tall, or is square and upright. */
  lemma HorizontalExact(m: Mode, r: Rotation)
    ensures IsHorizontal(m, r) <==>
              RotatedWidth(m, r) > RotatedHeight(m, r) || (m.width == m.height && Quarters(r) % 2 == 0)
  {
  }

  lemma TurnWanted(m: Mode, c: Config, s: Shape, r: Rotation)
    requires IsPanel(m) && (IsWanted(s, m, c) || IsUpright(s, m))
    ensures IsWanted(Turn(s, r, m, c), m, c) && Turn(s, r, m, c).d.rotation == r
  {
    if Applies(m, c) {
      NoUnderflow(m, c);
    }
  }

  /** Over any sequence of rotation events the rectangle depends on the last rotation alone, and lies
      inside the rotated panel with more than half of its height left. */
  lemma {:induction false} TurnsWanted(m: Mode, c: Config, s: Shape, rs: seq<Rotation>)
    requires IsPanel(m) && IsUpright(s, m) && rs != []
    ensures var t := Turns(s, rs, m, c);
            IsWanted(t, m, c) && t.d.rotation == rs[|rs| - 1]
  {
    var n := |rs| - 1;
    if n > 0 {
      TurnsWanted(m, c, s, rs[..n]);
    }
    TurnWanted(m, c, Turns(s, rs[..n], m, c), rs[n]);
  }

  /** Two histories that end in the same rotation leave the same display. */
  lemma SameEndSameDisplay(m: Mode, c: Config, s: Shape, rs1: seq<Rotation>, rs2: seq<Rotation>)
    requires IsPanel(m) && IsUpright(s, m) && rs1 != [] && rs2 != [] && rs1[|rs1| - 1] == rs2[|rs2| - 1]
    ensures Turns(s, rs1, m, c) == Turns(s, rs2, m, c)
  {
    TurnsWanted(m, c, s, rs1);
    TurnsWanted(m, c, s, rs2);
    TurnsKeep(m, c, s, rs1);
    TurnsKeep(m, c, s, rs2);
  }

  lemma {:induction false} TurnsKeep(m: Mode, c: Config, s: Shape, rs: seq<Rotation>)
    ensures var t := Turns(s, rs, m, c);
            t.d == s.d.(offset := t.d.offset, width := t.d.width, height := t.d.height, rotation := t.d.rotation)
  {
    if rs != [] {
      TurnsKeep(m, c, s, rs[..|rs| - 1]);
    }
  }
}

/** The cutout and waterfall rectangles of a display, and how they turn with the panel. */
module DisplayCutout {
  import opened DmTypes
  import opened Machine

  /** A position in 32-bit signed numbers, a size in 32-bit unsigned ones. */
  datatype Rect = Rect(x: int, y: int, width: nat, height: nat) {
    predicate IsTyped() { IsInt32(x) && IsInt32(y) && IsUInt32(width) && IsUInt32(height) }

    predicate Covers(p: Point) { x <= p.x < x + width && y <= p.y < y + height }

    predicate Inside(m: Mode) { 0 <= x && 0 <= y && x + width <= m.width && y + height <= m.height }

    /** The right and bottom edges are 32-bit numbers too, as they are for a box computed from a path. */
    predicate IsBox() { x + width <= INT32_MAX && y + height <= INT32_MAX }

    predicate IsEmpty() { width == 0 || height == 0 }
  }

  const UNINITIALIZED := Rect(0, 0, 0, 0)

  // ---------- The boundary check ----------

  predicate Rejects(m: Mode, r: Rect) {
    || r.x < 0 || r.y < 0
    || Wrap32(Wrap32(r.width) + r.x) > Wrap32(m.width)
    || Wrap32(Wrap32(r.height) + r.y) > Wrap32(m.height)
    || r.width > m.width || r.height > m.height
    || r == UNINITIALIZED
  }

  function Survivors(m: Mode, rects: seq<Rect>): seq<Rect> {
    if rects == [] then []
    else (if Rejects(m, rects[0]) then [] else [rects[0]]) + Survivors(m, rects[1..])
  }

  /** The vector is passed by reference and its elements are erased in place; kept is what it holds
      afterwards. */
  method CheckBoundingRectsBoundary(m: Mode, rects: seq<Rect>) returns (kept: seq<Rect>)
    ensures kept == Survivors(m, rects)
  {
    kept := rects;
    var i := 0;
    while i < |kept|
      invariant 0 <= i <= |kept|
      invariant kept[..i] + Survivors(m, kept[i..]) == Survivors(m, rects)
      decreases |kept| - i
    {
      assert kept[i..][1..] == kept[i + 1..];
      if Rejects(m, kept[i]) {
        var shorter := kept[..i] + kept[i + 1..];
        assert shorter[..i] == kept[..i] && shorter[i..] == kept[i + 1..];
        kept := shorter;
      } else {
        assert kept[..i + 1] == kept[..i] + [kept[i]];
        i := i + 1;
      }
    }
    assert kept[..i] == kept;
  }

  /** One axis of the check: past the largest 32-bit number the sum wraps and the check lets it through. */
  predicate AxisPasses(at: int, size: nat, limit: nat) {
    0 <= at && size <= limit && (at + size <= limit || at + size > INT32_MAX)
  }

  lemma AxisExact(at: int, size: nat, limit: nat)
    requires IsInt32(at) && IsUInt32(size) && limit <= INT32_MAX
    ensures (at >= 0 && size <= limit && Wrap32(Wrap32(size) + at) <= Wrap32(limit)) <==> AxisPasses(at, size, limit)
  {
    WrapExact(limit);
    WrapExact(size);
    if at >= 0 && size <= limit {
      WrapExact(size + at);
    }
  }

  /** What the check keeps is what lies in the panel, if and only if no edge leaves the 32-bit range. */
  lemma KeepsExact(m: Mode, r: Rect)
    requires IsPanel(m) && r.IsTyped()
    ensures !Rejects(m, r) <==>
              r != UNINITIALIZED && AxisPasses(r.x, r.width, m.width) && AxisPasses(r.y, r.height, m.height)
    ensures !Rejects(m, r) ==> (r.Inside(m) <==> r.IsBox())
    ensures r.IsBox() ==> (!Rejects(m, r) <==> r.Inside(m) && r != UNINITIALIZED)
  {
    AxisExact(r.x, r.width, m.width);
    AxisExact(r.y, r.height, m.height);
  }

  /** The check is a filter: a rectangle is kept as often as it was there if it is accepted, and not at
      all otherwise. */
  lemma {:induction false} SurvivorsCount(m: Mode, rects: seq<Rect>, r: Rect)
    ensures multiset(Survivors(m, rects))[r] == if Rejects(m, r) then 0 else multiset(rects)[r]
  {
    if rects != [] {
      SurvivorsCount(m, rects[1..], r);
      hide Rejects;
      assert rects == [rects[0]] + rects[1..];
    }
  }

  lemma SurvivorsCons(m: Mode, r: Rect, rest: seq<Rect>)
    ensures Survivors(m, [r] + rest) == (if Rejects(m, r) then [] else [r]) + Survivors(m, rest)
  {
    assert ([r] + rest)[1..] == rest;
    hide Rejects;
  }

  /** It keeps the order: what survives of two lists in a row is what survives of each, in a row. */
  lemma {:induction false} SurvivorsAppend(m: Mode, a: seq<Rect>, b: seq<Rect>)
    ensures Survivors(m, a + b) == Survivors(m, a) + Survivors(m, b)
  {
    if a == [] {
      assert a + b == b;
    } else {
      SurvivorsAppend(m, a[1..], b);
      SurvivorsCons(m, a[0], a[1..] + b);
      SurvivorsCons(m, a[0], a[1..]);
      hide Rejects, Survivors;
      assert [a[0]] + (a[1..] + b) == a + b;
      assert [a[0]] + a[1..] == a;
    }
  }

  // ---------- Turning ----------

  function Turned(r: Rotation, m: Mode): Mode {
    Mode(RotatedWidth(m, r), RotatedHeight(m, r))
  }

  /** Where a pixel of the panel is shown once the panel is turned. */
  function TurnPixel(r: Rotation, m: Mode, p: Point): Point {
    match r
    case ROTATION_0 => p
    case ROTATION_90 => Point(m.height - 1 - p.y, p.x)
    case ROTATION_180 => Point(m.width - 1 - p.x, m.height - 1 - p.y)
    case ROTATION_270 => Point(p.y, m.width - 1 - p.x)
  }

  /** The formulas of the source, in its mixed 32-bit arithmetic. */
  function TurnRect(r: Rotation, m: Mode, q: Rect): (t: Rect)
    ensures IsPanel(m) && q.Inside(m) ==>
              && t.width == (if IsVertical(r) then q.width else q.height)
              && t.height == (if IsVertical(r) then q.height else q.width)
              && t.x == (match r
                         case ROTATION_0 => q.x
                         case ROTATION_90 => m.height - (q.y + q.height)
                         case ROTATION_180 => m.width - (q.x + q.width)
                         case ROTATION_270 => q.y)
              && t.y == (match r
                         case ROTATION_0 => q.y
                         case ROTATION_90 => q.x
                         case ROTATION_180 => m.height - (q.y + q.height)
                         case ROTATION_270 => m.width - (q.x + q.width))
  {
    WrapExact(m.height - q.y - q.height);
    WrapExact(m.width - q.x - q.width);
    match r
    case ROTATION_0 => q
    case ROTATION_90 => Rect(Wrap32(m.height - q.y - q.height), q.x, q.height, q.width)
    case ROTATION_180 => Rect(Wrap32(m.width - q.x - q.width), Wrap32(m.height - q.y - q.height), q.width, q.height)
    case ROTATION_270 => Rect(q.y, Wrap32(m.width - q.x - q.width), q.height, q.width)
  }

  /** For a rectangle inside the panel nothing underflows: the turned rectangle lies in the turned panel
      and covers exactly the turned pixels. */
  lemma TurnExact(r: Rotation, m: Mode, q: Rect, p: Point)
    requires IsPanel(m) && q.Inside(m)
    ensures TurnRect(r, m, q).Inside(Turned(r, m))
    ensures q.Covers(p) <==> TurnRect(r, m, q).Covers(TurnPixel(r, m, p))
  {
    hide TurnRect;
  }

  function TurnAll(r: Rotation, m: Mode, rects: seq<Rect>): (t: seq<Rect>)
    ensures |t| == |rects| && forall i :: 0 <= i < |t| ==> t[i] == TurnRect(r, m, rects[i])
  {
    seq(|rects|, i requires 0 <= i < |rects| => TurnRect(r, m, rects[i]))
  }

  datatype WaterfallRects = WaterfallRects(left: Rect, top: Rect, right: Rect, bottom: Rect)
  const NO_WATERFALL := WaterfallRects(UNINITIALIZED, UNINITIALIZED, UNINITIALIZED, UNINITIALIZED)

  function CreateWaterfallRect(left: nat, top: nat, width: nat, height: nat): (r: Rect)
    ensures left <= INT32_MAX && top <= INT32_MAX && width != 0 && height != 0 ==> r == Rect(left, top, width, height)
    ensures width == 0 || height == 0 ==> r == UNINITIALIZED
  {
    WrapExact(left);
    WrapExact(top);
    if width == 0 || height == 0 then UNINITIALIZED else Rect(Wrap32(left), Wrap32(top), width, height)
  }

  /** CalcBuiltInDisplayWaterfallRectsByRotation. */
  function Waterfall(r: Rotation, m: Mode, left: nat, top: nat, right: nat, bottom: nat): WaterfallRects {
    match r
    case ROTATION_0 => WaterfallRects(
      CreateWaterfallRect(0, 0, left, m.height),
      CreateWaterfallRect(0, 0, m.width, top),
      CreateWaterfallRect(UMinus(m.width, right), 0, right, m.height),
      CreateWaterfallRect(0, UMinus(m.height, bottom), m.width, bottom))
    case ROTATION_90 => WaterfallRects(
      CreateWaterfallRect(0, 0, bottom, m.width),
      CreateWaterfallRect(0, 0, m.height, left),
      CreateWaterfallRect(UMinus(m.height, top), 0, top, m.width),
      CreateWaterfallRect(0, UMinus(m.width, right), m.height, right))
    case ROTATION_180 => WaterfallRects(
      CreateWaterfallRect(0, 0, right, m.height),
      CreateWaterfallRect(0, 0, bottom, m.width),
      CreateWaterfallRect(UMinus(m.width, left), 0, left, m.height),
      CreateWaterfallRect(0, UMinus(m.height, top), m.width, top))
    case ROTATION_270 => WaterfallRects(
      CreateWaterfallRect(0, 0, top, m.width),
      CreateWaterfallRect(0, 0, m.height, right),
      CreateWaterfallRect(UMinus(m.height, bottom), 0, bottom, m.width),
      CreateWaterfallRect(0, UMinus(m.width, left), m.height, left))
  }

  /** No edge takes more than half of the panel. */
  predicate Curved(m: Mode, left: nat, top: nat, right: nat, bottom: nat) {
    left <= m.width / 2 && right <= m.width / 2 && top <= m.height / 2 && bottom <= m.height / 2
  }

  function TurnEdge(r: Rotation, m: Mode, q: Rect): Rect {
    if q.IsEmpty() then UNINITIALIZED else TurnRect(r, m, q)
  }

  /** The edges that a rotation should show: those of the upright panel, turned and renamed. */
  function TurnEdges(r: Rotation, m: Mode, w: WaterfallRects): WaterfallRects {
    match r
    case ROTATION_0 => w
    case ROTATION_90 => WaterfallRects(TurnEdge(r, m, w.bottom), TurnEdge(r, m, w.left), TurnEdge(r, m, w.top), TurnEdge(r, m, w.right))
    case ROTATION_180 => WaterfallRects(TurnEdge(r, m, w.right), TurnEdge(r, m, w.bottom), TurnEdge(r, m, w.left), TurnEdge(r, m, w.top))
    case ROTATION_270 => WaterfallRects(TurnEdge(r, m, w.top), TurnEdge(r, m, w.right), TurnEdge(r, m, w.bottom), TurnEdge(r, m, w.left))
  }

  ghost predicate Apart(a: Rect, b: Rect) {
    forall p :: !(a.Covers(p) && b.Covers(p))
  }

  /** The upright edges lie in the panel, and opposite ones do not overlap. */
  lemma UprightEdges(m: Mode, left: nat, top: nat, right: nat, bottom: nat)
    requires IsPanel(m) && Curved(m, left, top, right, bottom)
    ensures var w := Waterfall(ROTATION_0, m, left, top, right, bottom);
            && w.left.Inside(m) && w.top.Inside(m) && w.right.Inside(m) && w.bottom.Inside(m)
            && Apart(w.left, w.right) && Apart(w.top, w.bottom)
  {
    hide TurnRect, CreateWaterfallRect, UMinus;
  }

  /** For rotations 90 and 270 the waterfall rectangles are exactly the turned upright ones; for 180 they
      are so if and only if the top rectangle, which is transposed, does not show it. */
  lemma WaterfallTurns(r: Rotation, m: Mode, left: nat, top: nat, right: nat, bottom: nat)
    requires IsPanel(m) && Curved(m, left, top, right, bottom)
    ensures var w := Waterfall(r, m, left, top, right, bottom);
            var t := TurnEdges(r, m, Waterfall(ROTATION_0, m, left, top, right, bottom));
            && (w == t <==> r != ROTATION_180 || bottom == m.width || bottom == 0 || m.width == 0)
            && w == t.(top := w.top)
  {
    hide TurnRect, CreateWaterfallRect, UMinus;
  }

  /** The turned edges lie in the turned panel and opposite ones do not overlap; for rotation 180 the
      transposed top edge stays in the panel if and only if the panel is high enough, and clear of the bottom
      edge if and only if it is higher by the bottom edge. */
  lemma WaterfallInside(r: Rotation, m: Mode, left: nat, top: nat, right: nat, bottom: nat)
    requires IsPanel(m) && Curved(m, left, top, right, bottom)
    ensures var w := Waterfall(r, m, left, top, right, bottom);
            var t := Turned(r, m);
            && w.left.Inside(t) && w.right.Inside(t) && w.bottom.Inside(t) && Apart(w.left, w.right)
            && (r != ROTATION_180 ==> w.top.Inside(t) && Apart(w.top, w.bottom))
            && (r == ROTATION_180 ==>
                  && (w.top.Inside(t) <==> w.top.IsEmpty() || (bottom <= m.width <= m.height))
                  && (Apart(w.top, w.bottom) <==>
                        w.top.IsEmpty() || w.bottom.IsEmpty() || m.width <= m.height - top))
  {
    hide TurnRect, CreateWaterfallRect, UMinus;
    var w := Waterfall(r, m, left, top, right, bottom);
    if r == ROTATION_180 && !w.top.IsEmpty() && !w.bottom.IsEmpty() && m.width > m.height - top {
      var p := Point(0, m.height - top);
      assert w.top.Covers(p) && w.bottom.Covers(p);
    }
  }

  // ---------- The controller ----------

  class DisplayCutoutController {
    var isWaterfallDisplay: bool
    var curvedScreenBoundary: seq<int>
    var boundingRects: map<DisplayId, seq<Rect>>
    var waterfallDisplayAreaRects: WaterfallRects

    constructor ()
      ensures !isWaterfallDisplay && curvedScreenBoundary == [] && boundingRects == map[]
      ensures waterfallDisplayAreaRects == NO_WATERFALL
    {
      isWaterfallDisplay := false;
      curvedScreenBoundary := [];
      boundingRects := map[];
      waterfallDisplayAreaRects := NO_WATERFALL;
    }

    ghost predicate Valid()
      reads this
    {
      curvedScreenBoundary == [] || |curvedScreenBoundary| >= 4
    }

    method SetCurvedScreenBoundary(boundary: seq<int>)
      modifies this`curvedScreenBoundary
      ensures Valid() && boundary <= curvedScreenBoundary
      ensures |curvedScreenBoundary| == if |boundary| < 4 then 4 else |boundary|
      ensures forall i :: |boundary| <= i < |curvedScreenBoundary| ==> curvedScreenBoundary[i] == 0
    {
      curvedScreenBoundary := boundary;
      while |curvedScreenBoundary| < 4
        invariant boundary <= curvedScreenBoundary
        invariant |curvedScreenBoundary| <= if |boundary| < 4 then 4 else |boundary|
        invariant forall i :: |boundary| <= i < |curvedScreenBoundary| ==> curvedScreenBoundary[i] == 0
        decreases 4 - |curvedScreenBoundary|
      {
        curvedScreenBoundary := curvedScreenBoundary + [0];
      }
    }

    /** SetCutoutSvgPath, for the bounding rectangle of the path. */
    method AddBoundingRect(id: DisplayId, r: Rect)
      modifies this`boundingRects
      ensures boundingRects ==
                old(boundingRects)[id := (if id in old(boundingRects) then old(boundingRects)[id] + [r] else [r])]
    {
      if id in boundingRects {
        boundingRects := boundingRects[id := boundingRects[id] + [r]];
      } else {
        boundingRects := boundingRects[id := [r]];
      }
    }

    /** Like CurrentRotation180 after it, this fills a copy of the vector it is given, and the copy is
        lost on return. */
    method CurrentRotation90(resultVec: seq<Rect>, rects: seq<Rect>, m: Mode) {
      var copy := resultVec;
      for i := 0 to |rects| {
        copy := copy + [TurnRect(ROTATION_90, m, rects[i])];
      }
    }

    method CurrentRotation180(resultVec: seq<Rect>, rects: seq<Rect>, m: Mode) {
      var copy := resultVec;
      for i := 0 to |rects| {
        copy := copy + [TurnRect(ROTATION_180, m, rects[i])];
      }
    }

    /** TransferBoundingRectsByRotation, called with an empty vector. */
    method TransferBoundingRectsByRotation(id: DisplayId, rotation: Option<Rotation>, modes: Option<Mode>)
      returns (rects: seq<Rect>)
      ensures rects == (if id in boundingRects then Transferred(boundingRects[id], rotation, modes) else [])
    {
      rects := [];
      if id !in boundingRects || boundingRects[id] == [] || rotation.None? {
        return;
      }
      var displayBoundingRects := boundingRects[id];
      if modes.Some? {
        displayBoundingRects := CheckBoundingRectsBoundary(modes.value, displayBoundingRects);
      }
      if rotation.value == ROTATION_0 {
        return displayBoundingRects;
      }
      if modes.None? {
        return;
      }
      if rotation.value == ROTATION_90 {
        CurrentRotation90(rects, displayBoundingRects, modes.value);
      } else if rotation.value == ROTATION_180 {
        CurrentRotation180(rects, displayBoundingRects, modes.value);
      } else {
        ghost var all := TurnAll(ROTATION_270, modes.value, displayBoundingRects);
        for i := 0 to |displayBoundingRects|
          invariant rects == all[..i]
        {
          rects := rects + [TurnRect(ROTATION_270, modes.value, displayBoundingRects[i])];
        }
        assert all[..|displayBoundingRects|] == all;
      }
    }

    method CalcBuiltInDisplayWaterfallRects(rotation: Rotation, modes: Option<Mode>)
      requires Valid()
      modifies this`waterfallDisplayAreaRects
      ensures waterfallDisplayAreaRects ==
                if isWaterfallDisplay && curvedScreenBoundary != [] && modes.Some?
                then WaterfallOf(rotation, modes.value, curvedScreenBoundary) else NO_WATERFALL
      ensures isWaterfallDisplay && curvedScreenBoundary != [] && modes.Some? && IsPanel(modes.value) ==>
                var m := modes.value;
                && (Plausible(m, curvedScreenBoundary) && m.width > 0 && m.height > 0 ==>
                      forall side :: 0 <= side < 4 ==>
                        (ShowsCurve(waterfallDisplayAreaRects, rotation, m, curvedScreenBoundary, side) <==>
                           !(rotation == ROTATION_180 && side == 1)
                           || curvedScreenBoundary[3] == 0 || curvedScreenBoundary[3] == m.width))
                && (!Plausible(m, curvedScreenBoundary) && (forall i :: 0 <= i < 4 ==> IsInt32(curvedScreenBoundary[i])) ==>
                      waterfallDisplayAreaRects == NO_WATERFALL)
    {
      hide Waterfall, ShowsCurve;
      if curvedScreenBoundary != [] && modes.Some? && IsPanel(modes.value) {
        Reported(rotation, modes.value, curvedScreenBoundary);
      }
      waterfallDisplayAreaRects := NO_WATERFALL;
      if !isWaterfallDisplay || curvedScreenBoundary == [] {
        return;
      }
      var left, top := UWrap32(curvedScreenBoundary[0]), UWrap32(curvedScreenBoundary[1]);
      var right, bottom := UWrap32(curvedScreenBoundary[2]), UWrap32(curvedScreenBoundary[3]);
      if left == 0 && top == 0 && right == 0 && bottom == 0 {
        return;
      }
      if modes.None? {
        return;
      }
      var m := modes.value;
      if left > m.width / 2 || right > m.width / 2 || top > m.height / 2 || bottom > m.height / 2 {
        return;
      }
      waterfallDisplayAreaRects := Waterfall(rotation, m, left, top, right, bottom);
    }
  }

  function Transferred(rects: seq<Rect>, rotation: Option<Rotation>, modes: Option<Mode>): seq<Rect> {
    if rotation.None? then []
    else if modes.None? then (if rotation.value == ROTATION_0 then rects else [])
    else match rotation.value
      case ROTATION_0 => Survivors(modes.value, rects)
      case ROTATION_270 => TurnAll(ROTATION_270, modes.value, Survivors(modes.value, rects))
      case _ => []
  }

  /** The cutouts reported are the turned ones for rotations 0 and 270; for 90 and 180 they are lost, so
      the report is right if and only if there was nothing to report. */
  lemma TransferredExact(rects: seq<Rect>, r: Rotation, m: Mode)
    ensures Transferred(rects, Some(r), Some(m)) == TurnAll(r, m, Survivors(m, rects))
            <==> r == ROTATION_0 || r == ROTATION_270 || Survivors(m, rects) == []
  {
    var s := Survivors(m, rects);
    assert TurnAll(ROTATION_0, m, s) == s;
    assert |TurnAll(r, m, s)| == |s|;
  }

  /** Without display info nothing is reported; without modes the list as it is, unchecked, for rotation 0 alone. */
  lemma TransferredBare(rects: seq<Rect>, r: Rotation, modes: Option<Mode>)
    ensures Transferred(rects, None, modes) == []
    ensures Transferred(rects, Some(r), None) == rects <==> r == ROTATION_0 || rects == []
    ensures r != ROTATION_0 ==> Transferred(rects, Some(r), None) == []
  {
  }

  /** Every reported cutout lies in the turned panel and covers exactly the turned pixels of the cutout it
      comes from. */
  lemma TransferredInside(rects: seq<Rect>, r: Rotation, m: Mode, j: nat, p: Point)
    requires IsPanel(m) && (forall i :: 0 <= i < |rects| ==> rects[i].IsTyped() && rects[i].IsBox())
    requires j < |Transferred(rects, Some(r), Some(m))|
    ensures j < |Survivors(m, rects)| && Survivors(m, rects)[j].Inside(m)
    ensures Transferred(rects, Some(r), Some(m))[j].Inside(Turned(r, m))
    ensures Survivors(m, rects)[j].Covers(p) <==> Transferred(rects, Some(r), Some(m))[j].Covers(TurnPixel(r, m, p))
  {
    TransferredExact(rects, r, m);
    var s := Survivors(m, rects);
    SurvivorsCount(m, rects, s[j]);
    assert s[j] in multiset(s);
    assert s[j] in multiset(rects);
    var i :| 0 <= i < |rects| && rects[i] == s[j];
    KeepsExact(m, s[j]);
    TurnExact(r, m, s[j], p);
  }

  function WaterfallOf(r: Rotation, m: Mode, boundary: seq<int>): WaterfallRects
    requires |boundary| >= 4
  {
    var left, top, right, bottom := UWrap32(boundary[0]), UWrap32(boundary[1]), UWrap32(boundary[2]), UWrap32(boundary[3]);
    if !Curved(m, left, top, right, bottom) || (left == 0 && top == 0 && right == 0 && bottom == 0) then NO_WATERFALL
    else Waterfall(r, m, left, top, right, bottom)
  }

  // ---------- What the waterfall rectangles show ----------

  /** The sides of the panel, clockwise from the left one, as the boundary lists them. */
  function Edge(w: WaterfallRects, side: nat): Rect {
    if side == 0 then w.left else if side == 1 then w.top else if side == 2 then w.right else w.bottom
  }

  /** The pixel of the upright panel lies on the curved part at that side. */
  predicate Near(m: Mode, boundary: seq<int>, side: nat, p: Point)
    requires |boundary| >= 4 && side < 4
  {
    if side == 0 then p.x < boundary[0]
    else if side == 1 then p.y < boundary[1]
    else if side == 2 then p.x >= m.width - boundary[2]
    else p.y >= m.height - boundary[3]
  }

  /** No curved part is negative or takes more than half of the panel. */
  predicate Plausible(m: Mode, boundary: seq<int>)
    requires |boundary| >= 4
  {
    && 0 <= boundary[0] <= m.width / 2 && 0 <= boundary[1] <= m.height / 2
    && 0 <= boundary[2] <= m.width / 2 && 0 <= boundary[3] <= m.height / 2
  }

  predicate OnPanel(m: Mode, p: Point) {
    0 <= p.x < m.width && 0 <= p.y < m.height
  }

  /** The rectangle at this side of the turned panel covers exactly the pixels of the curved part that is at that
      side now. */
  ghost predicate ShowsCurve(w: WaterfallRects, r: Rotation, m: Mode, boundary: seq<int>, side: nat)
    requires |boundary| >= 4 && side < 4
  {
    forall p :: OnPanel(m, p) ==>
      (Edge(w, side).Covers(TurnPixel(r, m, p)) <==> Near(m, boundary, (side + 4 - Quarters(r)) % 4, p))
  }

  lemma UprightCurve(m: Mode, boundary: seq<int>, side: nat, p: Point)
    requires IsPanel(m) && |boundary| >= 4 && Plausible(m, boundary) && side < 4 && OnPanel(m, p)
    ensures var w := Waterfall(ROTATION_0, m, boundary[0], boundary[1], boundary[2], boundary[3]);
            && Edge(w, side).Inside(m) && (Edge(w, side).Covers(p) <==> Near(m, boundary, side, p))
  {
    hide CreateWaterfallRect, UMinus;
  }

  lemma TurnedEdge(r: Rotation, m: Mode, w: WaterfallRects, side: nat, p: Point)
    requires IsPanel(m) && side < 4
    requires Edge(w, (side + 4 - Quarters(r)) % 4).Inside(m)
    ensures Edge(TurnEdges(r, m, w), side).Covers(TurnPixel(r, m, p)) <==> Edge(w, (side + 4 - Quarters(r)) % 4).Covers(p)
  {
    var q := Edge(w, (side + 4 - Quarters(r)) % 4);
    TurnExact(r, m, q, p);
    assert TurnRect(ROTATION_0, m, q) == q;
    hide TurnRect, TurnPixel;
  }

  /** A plausible boundary is shown at every side and for every rotation, except by the top rectangle for rotation
      180, which is transposed: that shows the curved part if and only if it is empty or square. */
  lemma CurvesShown(r: Rotation, m: Mode, boundary: seq<int>, side: nat)
    requires IsPanel(m) && m.width > 0 && m.height > 0 && |boundary| >= 4 && Plausible(m, boundary) && side < 4
    ensures ShowsCurve(WaterfallOf(r, m, boundary), r, m, boundary, side) <==>
              !(r == ROTATION_180 && side == 1) || boundary[3] == 0 || boundary[3] == m.width
  {
    hide Waterfall, TurnEdges, TurnPixel, TurnEdge;
    var left, top, right, bottom := boundary[0], boundary[1], boundary[2], boundary[3];
    var w := Waterfall(r, m, left, top, right, bottom);
    var upright := Waterfall(ROTATION_0, m, left, top, right, bottom);
    WaterfallTurns(r, m, left, top, right, bottom);
    SamePlausible(r, m, boundary);
    if r == ROTATION_180 && side == 1 && bottom != 0 && bottom != m.width {
      TransposedTop(m, boundary);
    } else {
      assert Edge(w, side) == Edge(TurnEdges(r, m, upright), side);
      forall p | OnPanel(m, p)
        ensures Edge(w, side).Covers(TurnPixel(r, m, p)) <==> Near(m, boundary, (side + 4 - Quarters(r)) % 4, p)
      {
        UprightCurve(m, boundary, (side + 4 - Quarters(r)) % 4, p);
        TurnedEdge(r, m, upright, side, p);
      }
    }
  }

  lemma SamePlausible(r: Rotation, m: Mode, boundary: seq<int>)
    requires IsPanel(m) && |boundary| >= 4 && Plausible(m, boundary)
    ensures WaterfallOf(r, m, boundary) == Waterfall(r, m, boundary[0], boundary[1], boundary[2], boundary[3])
  {
    NothingCurved(r, m);
    hide Waterfall;
  }

  /** A pixel of the bottom part that the transposed rectangle leaves out, or one that it adds. */
  lemma TransposedTop(m: Mode, boundary: seq<int>)
    requires IsPanel(m) && m.width > 0 && m.height > 0 && |boundary| >= 4 && Plausible(m, boundary)
    requires boundary[3] != 0 && boundary[3] != m.width
    ensures var w := Waterfall(ROTATION_180, m, boundary[0], boundary[1], boundary[2], boundary[3]);
            !ShowsCurve(w, ROTATION_180, m, boundary, 1)
  {
    var bottom := boundary[3];
    var y := if m.width > bottom then bottom else m.width;
    var p := Point(m.width - 1, m.height - 1 - y);
    var w := Waterfall(ROTATION_180, m, boundary[0], boundary[1], boundary[2], bottom);
    assert w.top == Rect(0, 0, bottom, m.width);
    hide Waterfall;
    assert OnPanel(m, p) && TurnPixel(ROTATION_180, m, p) == Point(0, y);
    assert Edge(w, 1).Covers(TurnPixel(ROTATION_180, m, p)) <==> m.width > bottom;
    assert Near(m, boundary, 3, p) <==> !(m.width > bottom);
    assert (1 + 4 - Quarters(ROTATION_180)) % 4 == 3;
  }

  lemma NothingCurved(r: Rotation, m: Mode)
    requires IsPanel(m)
    ensures Waterfall(r, m, 0, 0, 0, 0) == NO_WATERFALL
  {
  }

  lemma Reported(r: Rotation, m: Mode, boundary: seq<int>)
    requires IsPanel(m) && |boundary| >= 4
    ensures Plausible(m, boundary) && m.width > 0 && m.height > 0 ==>
              forall side :: 0 <= side < 4 ==>
                (ShowsCurve(WaterfallOf(r, m, boundary), r, m, boundary, side) <==>
                   !(r == ROTATION_180 && side == 1) || boundary[3] == 0 || boundary[3] == m.width)
    ensures !Plausible(m, boundary) && (forall i :: 0 <= i < 4 ==> IsInt32(boundary[i])) ==>
              WaterfallOf(r, m, boundary) == NO_WATERFALL
  {
    hide WaterfallOf, ShowsCurve, Plausible;
    if Plausible(m, boundary) && m.width > 0 && m.height > 0 {
      forall side | 0 <= side < 4
        ensures ShowsCurve(WaterfallOf(r, m, boundary), r, m, boundary, side) <==>
                  !(r == ROTATION_180 && side == 1) || boundary[3] == 0 || boundary[3] == m.width
      {
        CurvesShown(r, m, boundary, side);
      }
    } else if !Plausible(m, boundary) && (forall i :: 0 <= i < 4 ==> IsInt32(boundary[i])) {
      ImplausibleEmpty(r, m, boundary);
    }
  }

  /** A boundary with a negative entry, or one that takes more than half of the panel, gives no rectangle. */
  lemma ImplausibleEmpty(r: Rotation, m: Mode, boundary: seq<int>)
    requires IsPanel(m) && |boundary| >= 4 && (forall i :: 0 <= i < 4 ==> IsInt32(boundary[i])) && !Plausible(m, boundary)
    ensures WaterfallOf(r, m, boundary) == NO_WATERFALL
  {
  }
}

/** The client's conversions between global coordinates and coordinates relative to a display, in
    32-bit arithmetic. */
module Coordinates {
  import opened DmTypes
  import opened Machine

  datatype SourceMode = NONE | MAIN | MIRROR | EXTEND | ALONE

  datatype DisplayInfo = DisplayInfo(id: DisplayId, x: int, y: int, width: int, height: int, mode: SourceMode) {
    predicate Addressable() { mode.MAIN? || mode.EXTEND? }

    predicate IsTyped() { IsInt32(x) && IsInt32(y) && IsInt32(width) && IsInt32(height) }

    /** The point lies on the display, as a matter of exact arithmetic. */
    predicate Contains(p: Point) { x <= p.x < x + width && y <= p.y < y + height }

    /** The right and bottom edges can be written down in 32 bits. */
    predicate Fits() { x + width <= INT32_MAX + 1 && y + height <= INT32_MAX + 1 }
  }

  datatype Relative = Relative(id: DisplayId, position: Point)

  datatype Result<+T> = Ok(value: T) | Err(error: Error)
  datatype Error = ILLEGAL_PARAM

  predicate IsPoint32(p: Point) { IsInt32(p.x) && IsInt32(p.y) }

  type Displays = map<DisplayId, DisplayInfo>

  ghost predicate Typed(ds: Displays) {
    forall id :: id in ds ==> ds[id].id == id && ds[id].IsTyped()
  }

  // ---------- The guards ----------

  predicate IsInt32AddOverflow(a: int, b: int) {
    (b > 0 && a > INT32_MAX - b) || (b < 0 && a < INT32_MIN - b)
  }

  predicate IsInt32SubOverflow(a: int, b: int) {
    (b > 0 && a < INT32_MIN + b) || (b < 0 && a > INT32_MAX + b)
  }

  /** Each guard holds exactly when the 32-bit operation would overflow, and computes only bounds that
      fit in 32 bits themselves. */
  lemma GuardsExact(a: int, b: int)
    requires IsInt32(a) && IsInt32(b)
    ensures IsInt32AddOverflow(a, b) <==> !IsInt32(a + b)
    ensures IsInt32SubOverflow(a, b) <==> !IsInt32(a - b)
    ensures b > 0 ==> IsInt32(INT32_MAX - b) && IsInt32(INT32_MIN + b)
    ensures b < 0 ==> IsInt32(INT32_MIN - b) && IsInt32(INT32_MAX + b)
    ensures Wrap32(a + b) == a + b <==> !IsInt32AddOverflow(a, b)
    ensures Wrap32(a - b) == a - b <==> !IsInt32SubOverflow(a, b)
  {
    WrapExact(a + b);
    WrapExact(a - b);
  }

  // ---------- The conversions ----------

  /** IsTargetDisplay: the two subtractions are not guarded. */
  predicate IsTargetDisplay(d: DisplayInfo, p: Point) {
    var x := Wrap32(p.x - d.x);
    var y := Wrap32(p.y - d.y);
    !(x < 0 || y < 0 || x >= d.width || y >= d.height)
  }

  function RelativeToGlobal(ds: Displays, r: Relative): Result<Point> {
    if r.id !in ds || !ds[r.id].Addressable() then Err(ILLEGAL_PARAM)
    else
      var d := ds[r.id];
      if IsInt32AddOverflow(r.position.x, d.x) || IsInt32AddOverflow(r.position.y, d.y) then Err(ILLEGAL_PARAM)
      else Ok(Point(r.position.x + d.x, r.position.y + d.y))
  }

  function GlobalToRelativeWithId(ds: Displays, p: Point, id: DisplayId): Result<Relative> {
    if id !in ds then Ok(Relative(0, p))
    else
      var d := ds[id];
      if !d.Addressable() then Err(ILLEGAL_PARAM)
      else if IsInt32SubOverflow(p.x, d.x) || IsInt32SubOverflow(p.y, d.y) then Err(ILLEGAL_PARAM)
      else Ok(Relative(id, Point(p.x - d.x, p.y - d.y)))
  }

  predicate IsHit(ds: Displays, p: Point, id: DisplayId) {
    id in ds && ds[id].Addressable() && IsTargetDisplay(ds[id], p)
  }

  /** What ConvertGlobalCoordinateToRelative computes: the first hit in the order of the ids. */
  function Search(ds: Displays, p: Point, ids: seq<DisplayId>): Relative {
    if ids == [] then Relative(0, p)
    else if IsHit(ds, p, ids[0])
    then Relative(ds[ids[0]].id, Point(Wrap32(p.x - ds[ids[0]].x), Wrap32(p.y - ds[ids[0]].y)))
    else Search(ds, p, ids[1..])
  }

  method ConvertGlobalCoordinateToRelative(ds: Displays, p: Point, ids: seq<DisplayId>) returns (r: Relative)
    ensures r == Search(ds, p, ids)
  {
    var i := 0;
    while i < |ids|
      invariant 0 <= i <= |ids|
      invariant Search(ds, p, ids) == Search(ds, p, ids[i..])
    {
      var id := ids[i];
      i := i + 1;
      if id !in ds {
        continue;
      }
      var d := ds[id];
      if !d.mode.MAIN? && !d.mode.EXTEND? {
        continue;
      }
      if IsTargetDisplay(d, p) {
        return Relative(d.id, Point(Wrap32(p.x - d.x), Wrap32(p.y - d.y)));
      }
    }
    return Relative(0, p);
  }

  // ---------- Round trips ----------

  /** The conversions succeed exactly for a main or extend display and a result in 32 bits, which is then the position
      moved by that of the display; from a global point, an unknown display counts as display 0 at the origin. */
  lemma ConversionsExact(ds: Displays, r: Relative, p: Point, id: DisplayId)
    requires Typed(ds) && IsPoint32(r.position) && IsPoint32(p)
    ensures var g := RelativeToGlobal(ds, r);
            && (g.Ok? <==> r.id in ds && (ds[r.id].mode.MAIN? || ds[r.id].mode.EXTEND?)
                           && IsPoint32(Point(r.position.x + ds[r.id].x, r.position.y + ds[r.id].y)))
            && (g.Ok? ==> g.value == Point(ds[r.id].x + r.position.x, ds[r.id].y + r.position.y))
    ensures var l := GlobalToRelativeWithId(ds, p, id);
            && (id !in ds ==> l == Ok(Relative(0, p)))
            && (id in ds ==>
                  && (l.Ok? <==> (ds[id].mode.MAIN? || ds[id].mode.EXTEND?) && IsPoint32(Point(p.x - ds[id].x, p.y - ds[id].y)))
                  && (l.Ok? ==> l.value.id == id && l.value.position.x + ds[id].x == p.x && l.value.position.y + ds[id].y == p.y))
  {
    if r.id in ds {
      GuardsExact(r.position.x, ds[r.id].x);
      GuardsExact(r.position.y, ds[r.id].y);
    }
    if id in ds {
      GuardsExact(p.x, ds[id].x);
      GuardsExact(p.y, ds[id].y);
    }
  }

  /** Relative to global and back is the identity whenever the first conversion succeeds. */
  lemma RelativeRoundTrip(ds: Displays, r: Relative)
    requires Typed(ds) && IsPoint32(r.position) && RelativeToGlobal(ds, r).Ok?
    ensures IsPoint32(RelativeToGlobal(ds, r).value)
    ensures GlobalToRelativeWithId(ds, RelativeToGlobal(ds, r).value, r.id) == Ok(r)
  {
    var d := ds[r.id];
    GuardsExact(r.position.x, d.x);
    GuardsExact(r.position.y, d.y);
    GuardsExact(r.position.x + d.x, d.x);
    GuardsExact(r.position.y + d.y, d.y);
  }

  /** Global to relative and back is the identity whenever the display is known and the first succeeds. */
  lemma GlobalRoundTrip(ds: Displays, p: Point, id: DisplayId)
    requires Typed(ds) && IsPoint32(p) && id in ds && GlobalToRelativeWithId(ds, p, id).Ok?
    ensures RelativeToGlobal(ds, GlobalToRelativeWithId(ds, p, id).value) == Ok(p)
  {
    var d := ds[id];
    GuardsExact(p.x, d.x);
    GuardsExact(p.y, d.y);
    GuardsExact(p.x - d.x, d.x);
    GuardsExact(p.y - d.y, d.y);
  }

  // ---------- The search ----------

  /** One axis of IsTargetDisplay. */
  lemma AxisExact(p: int, x: int, w: int)
    requires IsInt32(p) && IsInt32(x) && IsInt32(w)
    ensures x <= p < x + w ==> Wrap32(p - x) == p - x
    ensures x + w <= INT32_MAX + 1 ==> (0 <= Wrap32(p - x) < w <==> x <= p < x + w)
    ensures 0 <= Wrap32(p - x) < w && !(x <= p < x + w) ==> p + TWO_32 < x + w
  {
    WrapExact(p - x);
  }

  /** The test of a display is exact for every point if and only if the far edges of the display fit in
      32 bits (or the display is empty): past them the unguarded subtraction wraps around. */
  lemma TargetExact(d: DisplayInfo)
    requires d.IsTyped()
    ensures (forall p :: IsPoint32(p) ==> (IsTargetDisplay(d, p) <==> d.Contains(p)))
            <==> d.Fits() || d.width <= 0 || d.height <= 0
  {
    forall p | IsPoint32(p) && (d.Fits() || d.width <= 0 || d.height <= 0)
      ensures IsTargetDisplay(d, p) <==> d.Contains(p)
    {
      AxisExact(p.x, d.x, d.width);
      AxisExact(p.y, d.y, d.height);
    }
    if !d.Fits() && d.width > 0 && d.height > 0 {
      var p := if d.x + d.width > INT32_MAX + 1 then Point(INT32_MIN, d.y) else Point(d.x, INT32_MIN);
      WrapExact(p.x - d.x);
      WrapExact(p.y - d.y);
      assert IsPoint32(p) && IsTargetDisplay(d, p) && !d.Contains(p);
    }
  }

  ghost predicate AllFit(ds: Displays) {
    Typed(ds) && forall id :: id in ds ==> ds[id].Fits()
  }

  lemma HitContains(ds: Displays, p: Point, id: DisplayId)
    requires AllFit(ds) && IsPoint32(p)
    ensures IsHit(ds, p, id) <==> id in ds && ds[id].Addressable() && ds[id].Contains(p)
    ensures IsHit(ds, p, id) ==> Wrap32(p.x - ds[id].x) == p.x - ds[id].x && Wrap32(p.y - ds[id].y) == p.y - ds[id].y
  {
    if id in ds {
      AxisExact(p.x, ds[id].x, ds[id].width);
      AxisExact(p.y, ds[id].y, ds[id].height);
    }
  }

  /** For a point on some main or extend display the search returns a listed display that contains it,
      with coordinates inside that display, and converting back gives the point; otherwise it returns
      display 0 with the point unchanged. */
  lemma {:induction false} SearchFinds(ds: Displays, p: Point, ids: seq<DisplayId>)
    requires AllFit(ds) && IsPoint32(p)
    ensures var r := Search(ds, p, ids);
            if exists id :: id in ids && id in ds && ds[id].Addressable() && ds[id].Contains(p) then
              && r.id in ids && r.id in ds && ds[r.id].Addressable() && ds[r.id].Contains(p)
              && 0 <= r.position.x < ds[r.id].width && 0 <= r.position.y < ds[r.id].height
              && RelativeToGlobal(ds, r) == Ok(p)
            else r == Relative(0, p)
  {
    if ids != [] {
      HitContains(ds, p, ids[0]);
      if IsHit(ds, p, ids[0]) {
        var d := ds[ids[0]];
        GuardsExact(p.x - d.x, d.x);
        GuardsExact(p.y - d.y, d.y);
      } else {
        SearchFinds(ds, p, ids[1..]);
        assert forall id :: id in ids <==> id == ids[0] || id in ids[1..];
      }
    }
  }

  /** The answer is the first listed display that contains the point. */
  lemma {:induction false} SearchFirst(ds: Displays, p: Point, ids: seq<DisplayId>, i: nat)
    requires AllFit(ds) && IsPoint32(p) && i < |ids|
    requires ids[i] in ds && ds[ids[i]].Addressable() && ds[ids[i]].Contains(p)
    requires forall j :: 0 <= j < i && ids[j] in ds && ds[ids[j]].Addressable() ==> !ds[ids[j]].Contains(p)
    ensures var d := ds[ids[i]]; Search(ds, p, ids) == Relative(ids[i], Point(p.x - d.x, p.y - d.y))
  {
    HitContains(ds, p, ids[0]);
    if i > 0 {
      SearchFirst(ds, p, ids[1..], i - 1);
    }
  }

  ghost predicate Disjoint(ds: Displays) {
    forall a, b, p: Point {:trigger ds[a].Contains(p), ds[b].Contains(p)} ::
      a in ds && b in ds && ds[a].Addressable() && ds[b].Addressable() && ds[a].Contains(p) && ds[b].Contains(p) ==> a == b
  }

  /** If no two addressable displays overlap, the answer does not depend on the order of the ids. */
  lemma SearchOrderFree(ds: Displays, p: Point, ids1: seq<DisplayId>, ids2: seq<DisplayId>)
    requires AllFit(ds) && IsPoint32(p) && Disjoint(ds)
    requires forall id :: id in ids1 <==> id in ids2
    ensures Search(ds, p, ids1) == Search(ds, p, ids2)
  {
    SearchFinds(ds, p, ids1);
    SearchFinds(ds, p, ids2);
    var r1, r2 := Search(ds, p, ids1), Search(ds, p, ids2);
    if id :| id in ids1 && id in ds && ds[id].Addressable() && ds[id].Contains(p) {
      assert id in ids2;
      assert r1.id == r2.id;
      GuardsExact(r1.position.x, ds[r1.id].x);
    }
  }
}

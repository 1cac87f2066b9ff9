/** The layout of an expand group: its children lie side by side from the left edge, without gap or
    overlap, each as wide as its mode in its rotation. */
module ExpandTiling {
  import opened DmTypes
  import opened ScreenState
  import opened ScreenInvariant
  import AgentOwnership
  import opened ScreenRuns
  import opened GroupChanges

  // ---------- Sums over permutations ----------

  /** The sum over a set, one element at a time. */
  ghost function SetWidths(screens: map<ScreenId, Screen>, s: set<ScreenId>): nat {
    if s == {} then 0
    else var m := Least(s); WidthOf(screens, m) + SetWidths(screens, s - {m})
  }

  lemma {:induction false} SetWidthsTake(screens: map<ScreenId, Screen>, s: set<ScreenId>, x: ScreenId)
    requires x in s
    ensures SetWidths(screens, s) == WidthOf(screens, x) + SetWidths(screens, s - {x})
    decreases |s|
  {
    var m := Least(s);
    if x != m {
      SetWidthsTake(screens, s - {m}, x);
      assert s - {m} - {x} == s - {x} - {m};
      assert IsLeast(s - {x}, m);
      assert Least(s - {x}) == m;
    }
  }

  ghost function Elements(order: seq<ScreenId>): set<ScreenId> {
    set x | x in order
  }

  lemma {:induction false} SumIsSet(screens: map<ScreenId, Screen>, order: seq<ScreenId>)
    requires Distinct(order)
    ensures SumWidths(screens, order) == SetWidths(screens, Elements(order))
  {
    if order == [] {
      assert Elements(order) == {};
    } else {
      var rest := order[1..];
      assert forall i :: 0 <= i < |rest| ==> rest[i] == order[i + 1];
      assert order[0] !in rest;
      assert order == [order[0]] + rest;
      assert Elements(order) - {order[0]} == Elements(rest);
      SumIsSet(screens, rest);
      SetWidthsTake(screens, Elements(order), order[0]);
    }
  }

  /** The total width does not depend on the order in which the children are visited. */
  lemma SumPermutes(screens: map<ScreenId, Screen>, a: seq<ScreenId>, b: seq<ScreenId>)
    requires Distinct(a) && Distinct(b) && Elements(a) == Elements(b)
    ensures SumWidths(screens, a) == SumWidths(screens, b)
  {
    SumIsSet(screens, a);
    SumIsSet(screens, b);
  }

  lemma {:induction false} SumAppend(screens: map<ScreenId, Screen>, a: seq<ScreenId>, x: ScreenId)
    ensures SumWidths(screens, a + [x]) == SumWidths(screens, a) + WidthOf(screens, x)
  {
    if a == [] {
      assert a + [x] == [x];
      assert SumWidths(screens, [x][1..]) == 0;
    } else {
      assert (a + [x])[1..] == a[1..] + [x];
      SumAppend(screens, a[1..], x);
    }
  }

  lemma {:induction false} SumSame(s1: map<ScreenId, Screen>, s2: map<ScreenId, Screen>, order: seq<ScreenId>)
    requires forall i :: 0 <= i < |order| ==> WidthOf(s1, order[i]) == WidthOf(s2, order[i])
    ensures SumWidths(s1, order) == SumWidths(s2, order)
  {
    if order != [] { SumSame(s1, s2, order[1..]); }
  }

  // ---------- The tiling ----------

  /** The children, in this left-to-right order, start where their left neighbours end. */
  ghost predicate TiledBy(st: State, g: ScreenId, order: seq<ScreenId>)
    requires g in st.groups
  {
    && Distinct(order) && Elements(order) == st.groups[g].children
    && (forall i :: 0 <= i < |order| ==>
          order[i] in st.screens && st.screens[order[i]].start == Point(SumWidths(st.screens, order[..i]), 0))
  }

  /** Neighbours touch and no two children overlap: what TiledBy means for two children. */
  lemma {:induction false} TilesDisjoint(st: State, g: ScreenId, order: seq<ScreenId>, i: nat, j: nat)
    requires g in st.groups && TiledBy(st, g, order) && i < j < |order|
    ensures st.screens[order[i]].start.x + WidthOf(st.screens, order[i]) <= st.screens[order[j]].start.x
    ensures j == i + 1 ==> st.screens[order[i]].start.x + WidthOf(st.screens, order[i]) == st.screens[order[j]].start.x
    decreases j
  {
    assert order[..j] == order[..j - 1] + [order[j - 1]];
    SumAppend(st.screens, order[..j - 1], order[j - 1]);
    if i < j - 1 { TilesDisjoint(st, g, order, i, j - 1); }
  }

  /** The tiling covers the whole span: a point left of the total width lies in exactly one child. */
  lemma {:induction false} TilesCover(st: State, g: ScreenId, order: seq<ScreenId>, x: int, n: nat) returns (i: nat)
    requires g in st.groups && TiledBy(st, g, order) && n <= |order| && 0 <= x < SumWidths(st.screens, order[..n])
    ensures i < n && st.screens[order[i]].start.x <= x < st.screens[order[i]].start.x + WidthOf(st.screens, order[i])
  {
    assert n > 0 by { assert order[..0] == []; }
    assert order[..n] == order[..n - 1] + [order[n - 1]];
    SumAppend(st.screens, order[..n - 1], order[n - 1]);
    if x < SumWidths(st.screens, order[..n - 1]) {
      i := TilesCover(st, g, order, x, n - 1);
    } else {
      i := n - 1;
    }
  }

  // ---------- Sorting by start point ----------

  ghost predicate SortedByX(st: State, order: seq<ScreenId>) {
    forall i, j :: 0 <= i < j < |order| ==> StartX(st, order[i]) <= StartX(st, order[j])
  }

  /** A rightmost child at the end keeps the order. */
  lemma AppendRightmost(st: State, order: seq<ScreenId>, id: ScreenId)
    requires SortedByX(st, order) && Distinct(order) && id !in Elements(order)
    requires forall x :: x in Elements(order) ==> StartX(st, x) <= StartX(st, id)
    ensures var r := order + [id];
            SortedByX(st, r) && Distinct(r) && Elements(r) == Elements(order) + {id}
  {
    forall i | 0 <= i < |order| ensures order[i] != id && StartX(st, order[i]) <= StartX(st, id) {
      assert order[i] in Elements(order);
    }
    assert Elements(order + [id]) == Elements(order) + {id};
    hide Elements, StartX;
  }

  lemma SortedParts(st: State, order: seq<ScreenId>)
    requires order != [] && SortedByX(st, order) && Distinct(order)
    ensures var n := |order| - 1;
            && SortedByX(st, order[..n]) && Distinct(order[..n])
            && order[n] !in Elements(order[..n]) && Elements(order) == Elements(order[..n]) + {order[n]}
            && forall x :: x in Elements(order) ==> StartX(st, x) <= StartX(st, order[n])
  {
    var n := |order| - 1;
    assert order == order[..n] + [order[n]];
    hide StartX;
  }

  lemma {:induction false} InsertSorts(st: State, sorted: seq<ScreenId>, id: ScreenId)
    requires SortedByX(st, sorted) && Distinct(sorted) && id !in Elements(sorted)
    ensures var r := InsertByX(st, sorted, id);
            SortedByX(st, r) && Distinct(r) && Elements(r) == Elements(sorted) + {id}
  {
    if sorted == [] {
      assert Elements(sorted) == {} && Elements([id]) == {id};
    } else {
      hide SortedByX, Distinct, Elements, StartX;
      var n := |sorted| - 1;
      var init, last := sorted[..n], sorted[n];
      SortedParts(st, sorted);
      if StartX(st, id) < StartX(st, last) {
        InsertSorts(st, init, id);
        AppendRightmost(st, InsertByX(st, init, id), last);
      } else {
        AppendRightmost(st, sorted, id);
      }
    }
  }

  lemma {:induction false} SortSorts(st: State, ids: seq<ScreenId>)
    requires Distinct(ids)
    ensures var r := SortByX(st, ids); SortedByX(st, r) && Distinct(r) && Elements(r) == Elements(ids)
  {
    if ids != [] {
      var n := |ids| - 1;
      assert ids == ids[..n] + [ids[n]];
      SortSorts(st, ids[..n]);
      assert ids[n] !in Elements(ids[..n]);
      InsertSorts(st, SortByX(st, ids[..n]), ids[n]);
      assert Elements(ids) == Elements(ids[..n]) + {ids[n]};
    }
  }

  /** The children in left-to-right order: all of them, each once. */
  lemma ChildrenSorted(st: State, g: ScreenId)
    requires g in st.groups
    ensures var order := ChildrenByX(st, g);
            SortedByX(st, order) && Distinct(order) && Elements(order) == st.groups[g].children
  {
    var asc := Ascending(st.groups[g].children);
    assert Elements(asc) == st.groups[g].children;
    SortSorts(st, asc);
  }

  lemma NoElements(a: seq<ScreenId>)
    ensures Elements(a) == {} ==> a == []
  {
    if a != [] {
      assert a[0] in Elements(a);
    }
  }

  /** With all start points different there is only one sorted order. */
  lemma {:induction false} SortUnique(st: State, a: seq<ScreenId>, b: seq<ScreenId>)
    requires SortedByX(st, a) && SortedByX(st, b) && Distinct(a) && Distinct(b) && Elements(a) == Elements(b)
    requires forall x, y :: x in a && y in a && x != y ==> StartX(st, x) != StartX(st, y)
    ensures a == b
  {
    if a == [] {
      assert Elements(a) == {};
      NoElements(b);
    } else {
      assert a[0] in Elements(b);
      assert b != [];
      assert b[0] in Elements(a);
      var i :| 0 <= i < |b| && b[i] == a[0];
      var j :| 0 <= j < |a| && a[j] == b[0];
      assert StartX(st, b[0]) == StartX(st, a[0]);
      assert a[0] == b[0];
      TailElements(a);
      TailElements(b);
      SortUnique(st, a[1..], b[1..]);
    }
  }

  lemma TailElements(a: seq<ScreenId>)
    requires a != [] && Distinct(a)
    ensures Distinct(a[1..]) && Elements(a[1..]) == Elements(a) - {a[0]}
  {
    assert forall i :: 0 <= i < |a[1..]| ==> a[1..][i] == a[i + 1];
    assert a == [a[0]] + a[1..];
    assert a[0] !in a[1..];
  }

  // ---------- The layout loop ----------

  /** What the layout needs of each child: a mode, a display node, and a start on the top edge. */
  ghost predicate Placeable(st: State, id: ScreenId) {
    id in st.screens && st.screens[id].mode.Some? && st.screens[id].hasNode && st.screens[id].start.y == 0
  }

  /** b is a with the screens of order started one after the other from x, and nothing else changed but
      displays. */
  ghost predicate LaidOut(a: State, b: State, order: seq<ScreenId>, x: int) {
    && b.screens.Keys == a.screens.Keys
    && b == a.(screens := b.screens, displays := b.displays)
    && (forall d :: d in a.screens && d !in order ==> b.screens[d] == a.screens[d])
    && (forall i :: 0 <= i < |order| ==>
          order[i] in a.screens
          && b.screens[order[i]] == a.screens[order[i]].(start := Point(x + SumWidths(a.screens, order[..i]), 0)))
  }

  lemma LayOutOneEffect(st: State, id: ScreenId, x: int)
    requires Placeable(st, id)
    ensures var (r, moved) := LayOutOne(st, id, x);
            && r == st.(screens := st.screens[id := st.screens[id].(start := Point(x, 0))], displays := r.displays)
            && (moved <==> st.callback && st.screens[id].start.x != x)
            && (st.screens[id].start.x == x ==> r == st)
  {
  }

  lemma PrefixTail(order: seq<ScreenId>, i: nat)
    requires 0 < i <= |order|
    ensures order[..i][1..] == order[1..][..i - 1]
  {
  }

  lemma LaidOutStep(st: State, s1: State, r: State, order: seq<ScreenId>, x: int)
    requires order != [] && Distinct(order) && order[0] in st.screens
    requires s1 == st.(screens := st.screens[order[0] := st.screens[order[0]].(start := Point(x, 0))], displays := s1.displays)
    requires LaidOut(s1, r, order[1..], x + WidthOf(st.screens, order[0]))
    ensures LaidOut(st, r, order, x)
  {
    var id, rest := order[0], order[1..];
    TailElements(order);
    assert id !in rest;
    assert order == [id] + rest;
    forall i | 0 <= i < |order|
      ensures order[i] in st.screens
      ensures r.screens[order[i]] == st.screens[order[i]].(start := Point(x + SumWidths(st.screens, order[..i]), 0))
    {
      if i == 0 {
        assert order[..0] == [];
      } else {
        PrefixTail(order, i);
        assert order[i] == rest[i - 1];
        SumSame(st.screens, s1.screens, rest[..i - 1]);
      }
    }
  }

  lemma {:induction false} LayOutEffect(st: State, order: seq<ScreenId>, x: int)
    requires Distinct(order) && forall i :: 0 <= i < |order| ==> Placeable(st, order[i])
    ensures LaidOut(st, LayOut(st, order, x).0, order, x)
    decreases |order|
  {
    if order != [] {
      var id, rest := order[0], order[1..];
      var s1 := LayOutOne(st, id, x).0;
      LayOutOneEffect(st, id, x);
      TailElements(order);
      assert forall i :: 0 <= i < |rest| ==> rest[i] == order[i + 1];
      hide LayOutOne, LaidOut;
      LayOutEffect(s1, rest, x + WidthOf(st.screens, id));
      LaidOutStep(st, s1, LayOut(st, order, x).0, order, x);
    }
  }

  /** Children that are where they belong are not touched, and no callback fires. */
  lemma {:induction false} LayOutFixed(st: State, order: seq<ScreenId>, x: int)
    requires forall i :: 0 <= i < |order| ==>
               Placeable(st, order[i]) && st.screens[order[i]].start.x == x + SumWidths(st.screens, order[..i])
    ensures LayOut(st, order, x) == (st, 0)
    decreases |order|
  {
    if order != [] {
      var rest := order[1..];
      assert order[..0] == [];
      assert st.screens[order[0]].start.x == x;
      forall i | 0 <= i < |rest|
        ensures Placeable(st, rest[i])
        ensures st.screens[rest[i]].start.x == x + WidthOf(st.screens, order[0]) + SumWidths(st.screens, rest[..i])
      {
        assert rest[i] == order[i + 1];
        assert order[..i + 1][0] == order[0] && order[..i + 1][1..] == rest[..i];
      }
      LayOutFixed(st, rest, x + WidthOf(st.screens, order[0]));
    }
  }

  lemma LaidOutTiles(a: State, b: State, g: ScreenId, order: seq<ScreenId>)
    requires g in a.groups && LaidOut(a, b, order, 0) && Distinct(order) && Elements(order) == a.groups[g].children
    ensures TiledBy(b, g, order)
    ensures forall i :: 0 <= i < |order| ==> WidthOf(b.screens, order[i]) == WidthOf(a.screens, order[i])
  {
    forall i | 0 <= i < |order| ensures SumWidths(b.screens, order[..i]) == SumWidths(a.screens, order[..i]) {
      forall j | 0 <= j < i ensures WidthOf(b.screens, order[..i][j]) == WidthOf(a.screens, order[..i][j]) {
        assert order[..i][j] == order[j];
      }
      SumSame(b.screens, a.screens, order[..i]);
    }
  }

  ghost predicate AllPlaceable(st: State, g: ScreenId)
    requires g in st.groups
  {
    forall c :: c in st.groups[g].children ==> Placeable(st, c)
  }

  lemma SumNat(screens: map<ScreenId, Screen>, order: seq<ScreenId>, i: nat, j: nat)
    requires i <= j <= |order|
    ensures SumWidths(screens, order[..i]) <= SumWidths(screens, order[..j])
    decreases j - i
  {
    if i < j {
      assert order[..i + 1] == order[..i] + [order[i]];
      SumAppend(screens, order[..i], order[i]);
      SumNat(screens, order, i + 1, j);
    }
  }

  /** Left of stays left of. */
  ghost predicate SidesKept(a: State, b: State, g: ScreenId)
    requires g in a.groups
  {
    forall x, y ::
      (x in a.groups[g].children && y in a.groups[g].children && StartX(a, x) < StartX(a, y)) ==> StartX(b, x) <= StartX(b, y)
  }

  lemma LaidOutSides(a: State, b: State, g: ScreenId, order: seq<ScreenId>)
    requires g in a.groups && LaidOut(a, b, order, 0) && SortedByX(a, order) && Elements(order) == a.groups[g].children
    ensures SidesKept(a, b, g)
  {
    forall x, y | x in a.groups[g].children && y in a.groups[g].children && StartX(a, x) < StartX(a, y)
      ensures StartX(b, x) <= StartX(b, y)
    {
      var i :| 0 <= i < |order| && order[i] == x;
      var j :| 0 <= j < |order| && order[j] == y;
      SumNat(a.screens, order, if i < j then i else j, if i < j then j else i);
    }
  }

  /** UpdateScreenGroupLayout of an expand group with at least two children: the children are tiled in
      the left-to-right order they had, so no two of them change sides. */
  lemma UpdateLayoutTiles(st: State, g: ScreenId)
    requires g in st.groups && st.groups[g].combination.SCREEN_EXPAND? && |st.groups[g].children| > 1
    requires AllPlaceable(st, g)
    ensures var r := UpdateLayout(st, g).0;
            && LaidOut(st, r, ChildrenByX(st, g), 0) && TiledBy(r, g, ChildrenByX(st, g)) && AllPlaceable(r, g)
            && SidesKept(st, r, g)
  {
    var order := ChildrenByX(st, g);
    ChildrenSorted(st, g);
    forall i | 0 <= i < |order| ensures Placeable(st, order[i]) {
      assert order[i] in Elements(order);
    }
    LayOutEffect(st, order, 0);
    var r := UpdateLayout(st, g).0;
    hide LayOut, ChildrenByX;
    LaidOutTiles(st, r, g, order);
    LaidOutSides(st, r, g, order);
    forall c | c in st.groups[g].children ensures Placeable(r, c) {
      var i :| 0 <= i < |order| && order[i] == c;
    }
  }

  /** If every child has a positive width, laying the group out again finds every child in place: the
      state does not change and no callback fires. */
  lemma SecondLayoutIdle(st: State, g: ScreenId)
    requires g in st.groups && st.groups[g].combination.SCREEN_EXPAND? && |st.groups[g].children| > 1
    requires AllPlaceable(st, g)
    requires forall c :: c in st.groups[g].children ==> WidthOf(st.screens, c) > 0
    ensures var r := UpdateLayout(st, g).0; g in r.groups && UpdateLayout(r, g) == (r, 0)
  {
    var order := ChildrenByX(st, g);
    var r := UpdateLayout(st, g).0;
    ChildrenSorted(st, g);
    UpdateLayoutTiles(st, g);
    LaidOutTiles(st, r, g, order);
    ChildrenSorted(r, g);
    hide ChildrenByX, LayOut;
    var again := ChildrenByX(r, g);
    forall i, j | 0 <= i < j < |order| ensures StartX(r, order[i]) < StartX(r, order[j]) {
      TilesDisjoint(r, g, order, i, j);
      assert order[i] in Elements(order);
    }
    forall x, y | x in order && y in order && x != y ensures StartX(r, x) != StartX(r, y) {
      var i :| 0 <= i < |order| && order[i] == x;
      var j :| 0 <= j < |order| && order[j] == y;
      assert i < j || j < i;
    }
    SortUnique(r, order, again);
    forall i | 0 <= i < |order| ensures Placeable(r, order[i]) {
      assert order[i] in Elements(order);
    }
    LayOutFixed(r, order, 0);
  }

  // ---------- Runs of connections and orientation changes ----------

  /** What every screen of such a run satisfies: it has a mode and never left a group. */
  ghost predicate Settling(st: State) {
    forall d :: d in st.screens ==>
      st.screens[d].lastGroupId == SCREEN_ID_INVALID && (!st.screens[d].IsGroup() ==> st.screens[d].mode.Some?)
  }

  ghost predicate GroupsTiled(st: State) {
    forall g :: g in st.groups ==>
      st.groups[g].combination.SCREEN_EXPAND? && AllPlaceable(st, g) && exists order :: TiledBy(st, g, order)
  }

  ghost predicate TileInv(st: State) {
    Inv(st) && Settling(st) && GroupsTiled(st)
  }

  /** The children keep start, node, mode and rotation. */
  ghost predicate ChildrenSame(a: State, b: State) {
    && b.groups == a.groups
    && (forall g, c :: g in a.groups && c in a.groups[g].children && c in a.screens ==>
          && c in b.screens && b.screens[c].start == a.screens[c].start && b.screens[c].hasNode == a.screens[c].hasNode
          && b.screens[c].mode == a.screens[c].mode && b.screens[c].rotation == a.screens[c].rotation)
  }

  lemma TiledSame(a: State, b: State, g: ScreenId, order: seq<ScreenId>)
    requires g in a.groups && ChildrenSame(a, b) && TiledBy(a, g, order)
    ensures TiledBy(b, g, order)
  {
    forall i | 0 <= i < |order|
      ensures order[i] in b.screens && b.screens[order[i]].start == Point(SumWidths(b.screens, order[..i]), 0)
    {
      assert order[i] in Elements(order);
      forall j | 0 <= j < i ensures WidthOf(b.screens, order[..i][j]) == WidthOf(a.screens, order[..i][j]) {
        assert order[j] in Elements(order);
      }
      SumSame(b.screens, a.screens, order[..i]);
    }
  }

  lemma ChildrenSameTiled(a: State, b: State)
    requires GroupsTiled(a) && ChildrenSame(a, b)
    ensures GroupsTiled(b)
  {
    forall g | g in b.groups ensures AllPlaceable(b, g) && exists order :: TiledBy(b, g, order) {
      assert AllPlaceable(a, g);
      var order :| TiledBy(a, g, order);
      TiledSame(a, b, g, order);
    }
  }

  lemma ExtendsTiled(a: State, b: State)
    requires TileInv(a) && Inv(b) && Extends(a, b.(displays := a.displays, displayCount := a.displayCount))
    ensures TileInv(b)
  {
    assert ChildrenSame(a, b);
    hide Inv;
    ChildrenSameTiled(a, b);
  }

  lemma OnlyGroup(st: State, g: ScreenId, order: seq<ScreenId>)
    requires Inv(st) && g in st.groups && st.groups[g].combination.SCREEN_EXPAND?
    requires AllPlaceable(st, g) && TiledBy(st, g, order)
    ensures GroupsTiled(st)
  {
    assert forall h :: h in st.groups ==> h == g;
  }

  /** The first child. */
  lemma FirstTiled(st: State, env: Env, id: ScreenId)
    requires Inv(st) && Settling(st) && st.groups == map[] && id in st.screens && env.expand
    requires st.screens[id].rsId !in env.noNode
    ensures var (r, g) := AddAsFirst(st, env, id);
            && Inv(r) && Settling(r) && g in r.groups && r.groups[g].combination.SCREEN_EXPAND?
            && AllPlaceable(r, g) && TiledBy(r, g, [id]) && !r.screens[id].IsGroup()
  {
    var (r, g) := AddAsFirst(st, env, id);
    AddAsFirstInv(st, env, id);
    assert ScreenOk(st, id);
    hide Inv, AddAsFirst;
    assert Elements([id]) == {id};
    assert [id][..0] == [];
  }

  /** The last tile may turn: no other tile starts to its right. */
  lemma LastTurns(st: State, r: State, g: ScreenId, order: seq<ScreenId>, id: ScreenId)
    requires g in st.groups && order != [] && order[|order| - 1] == id && TiledBy(st, g, order) && AllPlaceable(st, g)
    requires id in st.screens && id in r.screens && r == st.(screens := r.screens)
    requires r.screens == st.screens[id := st.screens[id].(rotation := r.screens[id].rotation,
                            orientation := r.screens[id].orientation, requested := r.screens[id].requested)]
    ensures TiledBy(r, g, order) && AllPlaceable(r, g)
  {
    forall i | 0 <= i < |order|
      ensures order[i] in r.screens && r.screens[order[i]].start == Point(SumWidths(r.screens, order[..i]), 0)
    {
      forall j | 0 <= j < i ensures WidthOf(r.screens, order[..i][j]) == WidthOf(st.screens, order[..i][j]) {
        assert order[j] != id;
      }
      SumSame(r.screens, st.screens, order[..i]);
    }
  }

  lemma BuiltInTurns(st: State, env: Env, rs: ScreenId, g: ScreenId, order: seq<ScreenId>, id: ScreenId)
    requires Inv(st) && Settling(st) && g in st.groups && st.groups[g].combination.SCREEN_EXPAND?
    requires order != [] && order[|order| - 1] == id && TiledBy(st, g, order) && AllPlaceable(st, g) && id in st.screens
    ensures TileInv(BuiltIn(st, env, rs, id)) && id in BuiltIn(st, env, rs, id).screens
  {
    var r := BuiltIn(st, env, rs, id);
    BuiltInShape(st, env, rs, id);
    ShapeInv(st, r);
    hide Inv, Redraws, SameShape, CalcRotation;
    assert r == st.(screens := r.screens);
    assert Settling(r);
    LastTurns(st, r, g, order, id);
    hide TiledBy, AllPlaceable, BuiltIn;
    OnlyGroup(r, g, order);
  }

  lemma ConnectDefaultTiled(st: State, env: Env)
    requires TileInv(st) && st.groups == map[] && env.expand && st.defaultRs !in env.noNode
    requires st.defaultRs != SCREEN_ID_INVALID && st.defaultRs !in st.ids.rs2Dms
    ensures TileInv(ConnectDefault(st, env))
  {
    InitScreenInv(st, env, st.defaultRs);
    var (s1, d) := InitScreen(st, env, st.defaultRs);
    assert s1.displays == st.displays && s1.displayCount == st.displayCount && s1.groups == st.groups;
    assert s1.(displays := st.displays, displayCount := st.displayCount) == s1;
    ExtendsTiled(st, s1);
    hide Inv, Extends, InitScreen, AddAsFirst, BuiltIn, TiledBy, AllPlaceable, GroupsTiled, Settling;
    if d != SCREEN_ID_INVALID {
      FirstTiled(s1, env, d);
      var (s2, g) := AddAsFirst(s1, env, d);
      BuiltInTurns(s2, env, st.defaultRs, g, [d], d);
      var s3 := BuiltIn(s2, env, st.defaultRs, d);
      BindTiled(s3, d);
    }
  }

  lemma BindTiled(st: State, d: ScreenId)
    requires TileInv(st) && d in st.screens
    ensures TileInv(Bind(st, d, d))
  {
    var r := Bind(st, d, d);
    BindShape(st, d, d);
    ShapeInv(st, r);
    hide Inv;
    assert r.screens == st.screens && r.groups == st.groups;
    assert ChildrenSame(st, r);
    ChildrenSameTiled(st, r);
  }

  /** If a lookup will connect the default screen as the first child, it can have a display node. */
  predicate DefaultPlaceable(st: State, env: Env) {
    st.groups == map[] && !Settled(st, env) ==> Learn(st, env).defaultRs !in env.noNode
  }

  lemma LookupTiled(st: State, env: Env)
    requires TileInv(st) && env.expand && DefaultPlaceable(st, env)
    ensures TileInv(GetDefault(st, env).0)
  {
    LookupInv(st, env);
    var s0 := Learn(st, env);
    LearnInv(st, env);
    hide Inv, Extends, ConnectDefault, Settling, GroupsTiled;
    SameDisplays(st, s0);
    ExtendsTiled(st, s0);
    if st.groups != map[] {
      SameDisplays(st, GetDefault(st, env).0);
      ExtendsTiled(st, GetDefault(st, env).0);
    } else if !Settled(st, env) {
      ConnectDefaultTiled(s0, env);
    }
  }

  lemma SameDisplays(a: State, b: State)
    requires Extends(a, b)
    ensures b.(displays := a.displays, displayCount := a.displayCount) == b
  {
  }

  lemma TouchTiled(st: State, env: Env, id: ScreenId)
    requires TileInv(st) && env.expand
    ensures TileInv(Touch(st, env, id))
  {
    hide Inv, GetDefault, Settling, GroupsTiled;
    if st.groups != map[] {
      LookupTiled(st, env);
    }
  }

  lemma OnConnectTiled(st: State, env: Env, id: ScreenId)
    requires TileInv(st) && id in st.screens
    ensures TileInv(OnConnect(st, env, id))
  {
    hide Inv, Settling, GroupsTiled, Extends, GetDefault, BindAlone, AddExpand;
    if st.screens[id].groupId in st.groups {
      OnConnectInv(st, env, id);
      ExtendsTiled(st, OnConnect(st, env, id));
    }
  }

  /** A new screen goes to the right end. */
  lemma AppendTile(st: State, env: Env, g: ScreenId, order: seq<ScreenId>, id: ScreenId)
    requires g in st.groups && TiledBy(st, g, order) && id in st.screens && id !in st.groups[g].children
    requires st.screens[id].rsId !in env.noNode
    ensures var r := PlaceChild(st, env, g, id, Point(SumWidths(st.screens, order), 0));
            TiledBy(r, g, order + [id])
  {
    var r := PlaceChild(st, env, g, id, Point(SumWidths(st.screens, order), 0));
    var next := order + [id];
    assert Elements(next) == Elements(order) + {id};
    assert id !in order by { assert id !in Elements(order); }
    forall i | 0 <= i < |next|
      ensures next[i] in r.screens && r.screens[next[i]].start == Point(SumWidths(r.screens, next[..i]), 0)
    {
      assert next[..i] == order[..i];
      forall j | 0 <= j < i ensures WidthOf(r.screens, order[..i][j]) == WidthOf(st.screens, order[..i][j]) {
        assert order[j] in order;
      }
      SumSame(r.screens, st.screens, order[..i]);
      if i == |order| { assert order[..i] == order; } else { assert order[i] in order; }
    }
  }

  /** A screen for which no display node can be made is not given its place: it starts at 0 like the first
      tile. That is a tiling if and only if it, or what was there, has no width. */
  lemma NodelessTiles(st: State, env: Env, g: ScreenId, order: seq<ScreenId>, id: ScreenId)
    requires g in st.groups && TiledBy(st, g, order) && id in st.screens && id !in st.groups[g].children
    requires st.screens[id].rsId in env.noNode && !st.screens[id].hasNode && st.screens[id].start == ORIGIN
    ensures var r := PlaceChild(st, env, g, id, Point(SumWidths(st.screens, order), 0));
            (exists next :: TiledBy(r, g, next)) <==>
              WidthOf(st.screens, id) == 0 || SumWidths(st.screens, order) == 0
  {
    hide TiledBy, JoinsAtOrigin, PlaceChild, SumWidths, WidthOf;
    var r := PlaceChild(st, env, g, id, Point(SumWidths(st.screens, order), 0));
    JoinsWithoutNode(st, env, g, order, id);
    if SumWidths(st.screens, order) == 0 {
      NodelessLast(st, r, g, order, id);
    } else if WidthOf(st.screens, id) == 0 {
      NodelessFirst(st, r, g, order, id);
    } else {
      forall next ensures !TiledBy(r, g, next) {
        if TiledBy(r, g, next) { NodelessOverlaps(st, r, g, order, next, id); }
      }
    }
  }

  lemma JoinsWithoutNode(st: State, env: Env, g: ScreenId, order: seq<ScreenId>, id: ScreenId)
    requires g in st.groups && TiledBy(st, g, order) && id in st.screens && id !in st.groups[g].children
    requires st.screens[id].rsId in env.noNode && !st.screens[id].hasNode && st.screens[id].start == ORIGIN
    ensures JoinsAtOrigin(st, PlaceChild(st, env, g, id, Point(SumWidths(st.screens, order), 0)), g, id)
    ensures id !in order
    ensures g in PlaceChild(st, env, g, id, Point(SumWidths(st.screens, order), 0)).groups
  {
    assert id !in Elements(order);
    hide TiledBy;
  }

  /** With two widths the first tile and the new child overlap. */
  lemma NodelessOverlaps(st: State, r: State, g: ScreenId, order: seq<ScreenId>, next: seq<ScreenId>, id: ScreenId)
    requires JoinsAtOrigin(st, r, g, id) && TiledBy(st, g, order) && id !in order && TiledBy(r, g, next)
    ensures SumWidths(st.screens, order) == 0 || WidthOf(st.screens, id) == 0
  {
    if SumWidths(st.screens, order) > 0 && WidthOf(st.screens, id) > 0 {
      assert order[..|order|] == order;
      var first := TilesCover(st, g, order, 0, |order|);
      var c := order[first];
      assert c in Elements(order) && c in Elements(next) && id in Elements(next);
      var i :| 0 <= i < |next| && next[i] == c;
      var j :| 0 <= j < |next| && next[j] == id;
      hide SumWidths;
      if i < j { TilesDisjoint(r, g, next, i, j); } else { TilesDisjoint(r, g, next, j, i); }
    }
  }

  /** r is st with a further child that starts at 0. */
  ghost predicate JoinsAtOrigin(st: State, r: State, g: ScreenId, id: ScreenId) {
    && g in st.groups && g in r.groups && r.groups[g].children == st.groups[g].children + {id}
    && id in r.screens && r.screens[id].start == ORIGIN
    && (forall x :: WidthOf(r.screens, x) == WidthOf(st.screens, x))
    && (forall x :: x in st.screens && x != id ==> x in r.screens && r.screens[x].start == st.screens[x].start)
  }

  lemma NodelessLast(st: State, r: State, g: ScreenId, order: seq<ScreenId>, id: ScreenId)
    requires JoinsAtOrigin(st, r, g, id) && TiledBy(st, g, order) && id !in order
    requires SumWidths(st.screens, order) == 0
    ensures TiledBy(r, g, order + [id])
  {
    var next := order + [id];
    assert Elements(next) == Elements(order) + {id};
    forall i | 0 <= i < |next|
      ensures next[i] in r.screens && r.screens[next[i]].start == Point(SumWidths(r.screens, next[..i]), 0)
    {
      assert next[..i] == order[..i];
      SumSame(r.screens, st.screens, order[..i]);
      if i == |order| { assert order[..i] == order; } else { assert order[i] in order; }
    }
  }

  lemma NodelessFirst(st: State, r: State, g: ScreenId, order: seq<ScreenId>, id: ScreenId)
    requires JoinsAtOrigin(st, r, g, id) && TiledBy(st, g, order) && id !in order
    requires WidthOf(st.screens, id) == 0
    ensures TiledBy(r, g, [id] + order)
  {
    var next := [id] + order;
    assert Elements(next) == Elements(order) + {id};
    forall i | 0 <= i < |next|
      ensures next[i] in r.screens && r.screens[next[i]].start == Point(SumWidths(r.screens, next[..i]), 0)
    {
      if i > 0 {
        assert next[..i][1..] == order[..i - 1];
        SumSame(r.screens, st.screens, order[..i - 1]);
        assert order[i - 1] in order;
      }
    }
  }

  lemma PlaceStays(st: State, env: Env, g: ScreenId, id: ScreenId, x: nat)
    requires Settling(st) && g in st.groups && Loose(st, id) && AllPlaceable(st, g)
    requires st.screens[id].rsId !in env.noNode
    ensures var r := PlaceChild(st, env, g, id, Point(x, 0));
            Settling(r) && AllPlaceable(r, g) && r.groups.Keys == st.groups.Keys
            && r.groups[g].combination == st.groups[g].combination
  {
  }

  lemma PlaceTiled(st: State, env: Env, g: ScreenId, order: seq<ScreenId>, id: ScreenId)
    requires TileInv(st) && g in st.groups && TiledBy(st, g, order) && Loose(st, id)
    requires st.screens[id].rsId !in env.noNode
    ensures var p := Point(SumWidths(st.screens, Ascending(st.groups[g].children)), 0);
            var r := PlaceChild(st, env, g, id, p);
            && Inv(r) && Settling(r) && r.groups.Keys == st.groups.Keys && r.groups[g].combination.SCREEN_EXPAND?
            && AllPlaceable(r, g) && TiledBy(r, g, order + [id])
  {
    assert st.groups[g].combination.SCREEN_EXPAND? && AllPlaceable(st, g);
    NotYetChild(st, g, id);
    AscendingTotal(st, g, order);
    var p := Point(SumWidths(st.screens, order), 0);
    hide Inv, TiledBy, GroupsTiled, Settling, AllPlaceable, PlaceChild, Loose;
    assert !st.screens[id].IsGroup() && id in st.screens && st.screens[id].groupId == SCREEN_ID_INVALID by { LooseFacts(st, id); }
    PlaceChildInv(st, env, g, id, p);
    AppendTile(st, env, g, order, id);
    PlaceStays(st, env, g, id, p.x);
  }

  lemma LooseFacts(st: State, id: ScreenId)
    requires Loose(st, id)
    ensures id in st.screens && !st.screens[id].IsGroup() && st.screens[id].groupId == SCREEN_ID_INVALID
  {
  }

  lemma NotYetChild(st: State, g: ScreenId, id: ScreenId)
    requires Inv(st) && g in st.groups && Loose(st, id)
    ensures id !in st.groups[g].children
  {
    assert GroupOk(st, g);
    NoInvalidGroup(st);
  }

  /** Summing in id order, as the source does, gives the right edge of the tiling. */
  lemma AscendingTotal(st: State, g: ScreenId, order: seq<ScreenId>)
    requires g in st.groups && TiledBy(st, g, order)
    ensures SumWidths(st.screens, Ascending(st.groups[g].children)) == SumWidths(st.screens, order)
  {
    var asc := Ascending(st.groups[g].children);
    assert Elements(asc) == Elements(order);
    SumPermutes(st.screens, asc, order);
  }

  lemma AddToGroupTiled(st: State, env: Env, id: ScreenId) returns (order: seq<ScreenId>)
    requires TileInv(st) && Loose(st, id) && env.expand && st.screens[id].rsId !in env.noNode
    ensures var (r, g) := AddToGroup(st, env, id);
            && Inv(r) && Settling(r)
            && (g == SCREEN_ID_INVALID ==> TileInv(r))
            && (g != SCREEN_ID_INVALID ==>
                  && g in r.groups && r.groups[g].combination.SCREEN_EXPAND? && AllPlaceable(r, g)
                  && order != [] && order[|order| - 1] == id && TiledBy(r, g, order) && id in r.screens)
  {
    order := [];
    NoInvalidGroup(st);
    hide Inv, Evolves, GetDefault, Extends, TiledBy, AllPlaceable, AddAsFirst, PlaceChild, Settling;
    LooseFacts(st, id);
    AddToGroupInv(st, env, id);
    if st.groups == map[] {
      FirstTiled(st, env, id);
      order := [id];
    } else {
      var (s1, d) := GetDefault(st, env);
      LookupTiled(st, env);
      LookupInv(st, env);
      LookupOthers(st, env, id);
      NoInvalidGroup(s1);
      if d in s1.screens && s1.screens[d].groupId in s1.groups {
        var g := s1.screens[d].groupId;
        assert Loose(s1, id);
        var before :| TiledBy(s1, g, before);
        PlaceTiled(s1, env, g, before, id);
        order := before + [id];
        var p := Point(SumWidths(s1.screens, Ascending(s1.groups[g].children)), 0);
        ExpandSource(s1, g);
        AddChildPlain(s1, env, g, id, p);
        hide AddChild, GroupsTiled;
      }
    }
  }

  lemma ExpandSource(st: State, g: ScreenId)
    requires GroupsTiled(st) && g in st.groups
    ensures st.groups[g].combination.SCREEN_EXPAND? && HasSource(st, g)
  {
  }

  lemma NothingReconnects(st: State, env: Env, rs: ScreenId)
    requires TileInv(st)
    ensures Reconnect(st, env, rs) == st
  {
    NoInvalidGroup(st);
    hide AddChild;
  }

  lemma NewIsLoose(st: State, env: Env, rs: ScreenId)
    requires rs != SCREEN_ID_INVALID
    ensures var (s1, d) := InitScreen(st, env, rs);
            d != SCREEN_ID_INVALID ==> Loose(s1, d) && s1.screens[d].rsId == rs
  {
  }

  lemma ConnectTiled(st: State, env: Env, rs: ScreenId)
    requires TileInv(st) && env.expand && (rs in st.ids.rs2Dms || rs !in env.noNode) && rs != SCREEN_ID_INVALID
    ensures TileInv(Connect(st, env, rs))
  {
    hide Inv, Extends, InitScreen, AddToGroup, BuiltIn, Touch, OnConnect, Settling, GroupsTiled, TiledBy, AllPlaceable, Loose,
         Reconnect;
    NoInvalidGroup(st);
    if rs in st.ids.rs2Dms {
      NothingReconnects(st, env, rs);
    } else {
      var (s1, d) := InitScreen(st, env, rs);
      InitScreenInv(st, env, rs);
      NewIsLoose(st, env, rs);
      SameDisplays(st, s1);
      ExtendsTiled(st, s1);
      if d != SCREEN_ID_INVALID {
        var order := AddToGroupTiled(s1, env, d);
        var (s2, g) := AddToGroup(s1, env, d);
        if g != SCREEN_ID_INVALID {
          BuiltInTurns(s2, env, rs, g, order, d);
          var s3 := BuiltIn(s2, env, rs, d);
          TouchTiled(s3, env, d);
          OnConnectTiled(Touch(s3, env, d), env, d);
        }
      }
    }
  }

  // ---------- Orientation changes ----------

  /** Only rotation and orientation of one screen, and displays, differ; screens may appear. */
  ghost predicate Turned(a: State, b: State, id: ScreenId) {
    && b.groups == a.groups
    && (forall d :: d in a.screens ==>
          d in b.screens
          && b.screens[d] == if d != id then a.screens[d]
                             else a.screens[d].(rotation := b.screens[d].rotation, orientation := b.screens[d].orientation,
                                                requested := b.screens[d].requested))
    && (forall d :: d in b.screens && d !in a.screens ==>
          b.screens[d].lastGroupId == SCREEN_ID_INVALID && b.screens[d].mode.Some?)
  }

  lemma TurnedTrans(a: State, b: State, c: State, id: ScreenId)
    requires Turned(a, b, id) && Turned(b, c, id)
    ensures Turned(a, c, id)
  {
  }

  lemma ExtendsTurned(a: State, b: State, id: ScreenId)
    requires Extends(a, b)
    ensures Turned(a, b, id)
  {
  }

  lemma TouchTurned(st: State, env: Env, id: ScreenId, x: ScreenId)
    requires Inv(st)
    ensures Turned(st, Touch(st, env, x), id)
  {
    hide Inv, GetDefault;
    if x in st.screens && st.screens[x].groupId in st.groups {
      LookupInv(st, env);
      hide Extends;
      ExtendsTurned(st, GetDefault(st, env).0, id);
    }
  }

  lemma UpdateDisplayTurned(st: State, id: ScreenId, x: ScreenId, f: Display -> Display)
    ensures Turned(st, UpdateDisplay(st, x, f), id)
  {
  }

  lemma SetRotationTurned(st: State, env: Env, id: ScreenId, r: Rotation)
    requires Inv(st)
    ensures Turned(st, SetRotation(st, env, id, r), id)
  {
    assert Turned(st, st, id);
    if id in st.screens && st.screens[id].rotation != r {
      var s0 := st.(screens := st.screens[id := st.screens[id].(rotation := r)]);
      TurnInv(st, id, st.screens[id].(rotation := r));
      assert Turned(st, s0, id);
      hide Inv, Evolves, Touch, UpdateDisplay, Turned;
      var s1 := Touch(s0, env, id);
      TouchTurned(s0, env, id, id);
      TurnedTrans(st, s0, s1, id);
      if s1.callback {
        var f := (d: Display) => Rotate(d, r);
        UpdateDisplayTurned(s1, id, id, f);
        TurnedTrans(st, s1, UpdateDisplay(s1, id, f), id);
      }
    }
  }

  lemma TurnedPlaceable(a: State, b: State, id: ScreenId)
    requires TileInv(a) && Turned(a, b, id)
    ensures Settling(b)
    ensures forall g :: g in b.groups ==> b.groups[g].combination.SCREEN_EXPAND? && AllPlaceable(b, g)
    ensures id !in a.screens || a.screens[id].groupId !in a.groups ==> GroupsTiled(b)
  {
    if id !in a.screens || a.screens[id].groupId !in a.groups {
      forall g, c | g in a.groups && c in a.groups[g].children && c in a.screens ensures c != id {
        assert GroupOk(a, g);
      }
      assert ChildrenSame(a, b);
      hide Inv;
      ChildrenSameTiled(a, b);
    }
  }

  /** A single child starts at the left edge whatever its rotation. */
  lemma SingleTiled(a: State, b: State, id: ScreenId, g: ScreenId)
    requires TileInv(a) && Turned(a, b, id) && Inv(b) && g in b.groups && |b.groups[g].children| <= 1
    ensures GroupsTiled(b)
  {
    TurnedPlaceable(a, b, id);
    var order :| TiledBy(a, g, order);
    assert |order| <= 1 by { DistinctCount(order); }
    forall i | 0 <= i < |order|
      ensures order[i] in b.screens && b.screens[order[i]].start == Point(SumWidths(b.screens, order[..i]), 0)
    {
      assert order[..i] == [];
      assert order[i] in Elements(order);
    }
    assert TiledBy(b, g, order);
    hide Inv, TiledBy;
    OnlyGroup(b, g, order);
  }

  lemma {:induction false} DistinctCount(order: seq<ScreenId>)
    requires Distinct(order)
    ensures |Elements(order)| == |order|
  {
    if order == [] {
      assert Elements(order) == {};
    } else {
      TailElements(order);
      DistinctCount(order[1..]);
      assert order[0] in Elements(order);
    }
  }

  /** The state in which SetOrientation lays the group out. */
  ghost function Oriented(st: State, env: Env, id: ScreenId, o: Orientation): State
    requires id in st.screens
  {
    var s1 := st.(screens := st.screens[id := st.screens[id].(requested := o)]);
    var s2 := SetRotation(s1, env, id, CalcRotation(s1.screens[id].mode, o));
    var s3 := if id in s2.screens
              then Touch(s2.(screens := s2.screens[id := s2.screens[id].(orientation := o)]), env, id) else s2;
    if s3.callback && id in s3.screens
    then UpdateDisplay(s3, id, (d: Display) => Rotate(d.(orientation := o), s3.screens[id].rotation))
    else s3
  }

  lemma WritesTurned(st: State, id: ScreenId, s: Screen)
    requires Inv(st) && id in st.screens
    requires s == st.screens[id].(rotation := s.rotation, orientation := s.orientation, requested := s.requested)
    ensures Turned(st, st.(screens := st.screens[id := s]), id) && Inv(st.(screens := st.screens[id := s]))
  {
    TurnInv(st, id, s);
  }

  lemma NotifyTurned(st: State, env: Env, id: ScreenId, o: Orientation)
    requires Inv(st) && id in st.screens
    ensures var s3 := Touch(st, env, id);
            var r := if s3.callback && id in s3.screens
                     then UpdateDisplay(s3, id, (d: Display) => Rotate(d.(orientation := o), s3.screens[id].rotation))
                     else s3;
            Turned(st, r, id) && Inv(r)
  {
    hide Inv, Evolves, UpdateDisplay, Touch, Turned, Extends, SameGrouping;
    var s3 := Touch(st, env, id);
    TouchTurned(st, env, id, id);
    TouchInv(st, env, id);
    if s3.callback && id in s3.screens {
      var f := (d: Display) => Rotate(d.(orientation := o), s3.screens[id].rotation);
      UpdateDisplayInv(s3, id, f);
      UpdateDisplayTurned(s3, id, id, f);
      TurnedTrans(st, s3, UpdateDisplay(s3, id, f), id);
    }
  }

  lemma OrientedTurned(st: State, env: Env, id: ScreenId, o: Orientation)
    requires Inv(st) && id in st.screens
    ensures Turned(st, Oriented(st, env, id, o), id) && Inv(Oriented(st, env, id, o))
  {
    hide Inv, Evolves, SetRotation, UpdateDisplay, Touch, Turned, CalcRotation;
    var s1 := st.(screens := st.screens[id := st.screens[id].(requested := o)]);
    WritesTurned(st, id, st.screens[id].(requested := o));
    var rot := CalcRotation(s1.screens[id].mode, o);
    var s2 := SetRotation(s1, env, id, rot);
    SetRotationInv(s1, env, id, rot);
    SetRotationTurned(s1, env, id, rot);
    TurnedTrans(st, s1, s2, id);
    TurnedKnows(s1, s2, id);
    var t2 := s2.(screens := s2.screens[id := s2.screens[id].(orientation := o)]);
    WritesTurned(s2, id, s2.screens[id].(orientation := o));
    TurnedTrans(st, s2, t2, id);
    NotifyTurned(t2, env, id, o);
    TurnedTrans(st, t2, Oriented(st, env, id, o), id);
  }

  lemma TurnedKnows(a: State, b: State, id: ScreenId)
    requires Turned(a, b, id) && id in a.screens
    ensures id in b.screens
  {
  }

  /** SetOrientation re-tiles the group of the screen from whatever the rotation did to it. */
  lemma SetOrientationTiled(st: State, env: Env, id: ScreenId, o: Orientation)
    requires TileInv(st)
    ensures TileInv(SetOrientation(st, env, id, o).0)
  {
    SetOrientationInv(st, env, id, o);
    if id in st.screens && !st.screens[id].IsGroup() {
      var s1 := st.(screens := st.screens[id := st.screens[id].(requested := o)]);
      if s1.screens[id].orientation == o {
        assert Turned(st, s1, id) && ChildrenSame(st, s1);
        hide Inv, Evolves;
        ChildrenSameTiled(st, s1);
      } else {
        var s4 := Oriented(st, env, id, o);
        OrientedTurned(st, env, id, o);
        TurnedPlaceable(st, s4, id);
        assert id in s4.screens && s4.screens[id].groupId == st.screens[id].groupId && s4.groups == st.groups;
        hide Inv, Evolves, Turned, SetRotation, UpdateDisplay, Touch, AllPlaceable, GroupsTiled, Settling, CalcRotation;
        var r := SetOrientation(st, env, id, o).0;
        if s4.screens[id].groupId in s4.groups {
          assert r == UpdateLayout(s4, s4.screens[id].groupId).0;
          RelayTiled(st, s4, env, id);
        } else {
          assert r == s4;
        }
      }
    } else {
      hide Inv, Evolves;
    }
  }

  lemma RelayTiled(st: State, s4: State, env: Env, id: ScreenId)
    requires TileInv(st) && Inv(s4) && Turned(st, s4, id) && Settling(s4) && id in s4.screens
    requires s4.screens[id].groupId in s4.groups
    requires forall g :: g in s4.groups ==> s4.groups[g].combination.SCREEN_EXPAND? && AllPlaceable(s4, g)
    ensures var r := UpdateLayout(s4, s4.screens[id].groupId).0; Settling(r) && GroupsTiled(r)
  {
    var g := s4.screens[id].groupId;
    if |s4.groups[g].children| <= 1 {
      hide Inv, LayOut, ChildrenByX;
      SingleTiled(st, s4, id, g);
    } else {
      UpdateLayoutTiles(s4, g);
      var r := UpdateLayout(s4, g).0;
      var order := ChildrenByX(s4, g);
      LayOutInv(s4, order, 0);
      hide Inv, Evolves, LayOut, ChildrenByX;
      assert Settling(r) by { LaidOutSettling(s4, r, order); }
      assert r.groups == s4.groups;
      OnlyGroup(r, g, order);
    }
  }

  lemma LaidOutSettling(a: State, b: State, order: seq<ScreenId>)
    requires Settling(a) && LaidOut(a, b, order, 0)
    ensures Settling(b)
  {
    forall d | d in b.screens
      ensures b.screens[d].lastGroupId == SCREEN_ID_INVALID && (!b.screens[d].IsGroup() ==> b.screens[d].mode.Some?)
    {
      if d in order {
        var i :| 0 <= i < |order| && order[i] == d;
      }
    }
  }

  // ---------- Every step, every run ----------

  lemma CreateVirtualTiled(st: State, env: Env, rs: ScreenId, mode: Mode, a: AgentId)
    requires Good(st) && TileInv(st) && env.expand && DefaultPlaceable(st, env)
    ensures TileInv(CreateVirtual(st, env, rs, mode, a).0)
  {
    var r := CreateVirtual(st, env, rs, mode, a).0;
    StepGood(st, env, OpCreateVirtual(rs, mode, a));
    assert Inv(r);
    if rs != SCREEN_ID_INVALID && rs !in st.ids.rs2Dms {
      var d := st.ids.count;
      var s0 := st.(ids := CreateId(st.ids, rs));
      AgentOwnership.NewIdInv(st, rs);
      assert ChildrenSame(st, s0);
      hide Inv, Good, GetDefault, Settling, GroupsTiled, ChildrenSame;
      ChildrenSameTiled(st, s0);
      assert Settling(s0) by { SameScreens(st, s0); }
      LookupTiled(s0, env);
      var s1 := GetDefault(s0, env).0;
      NotPlaced(st, s0, s1, env, d);
      var s2 := s1.(screens := s1.screens[d := NewScreen(rs, VIRTUAL, Some(mode))], agents := r.agents);
      assert r == s2;
      AddLoose(s1, r, d);
      ChildrenSameTiled(s1, r);
    }
  }

  lemma SameScreens(a: State, b: State)
    requires Settling(a) && b.screens == a.screens
    ensures Settling(b)
  {
  }

  lemma NotPlaced(st: State, s0: State, s1: State, env: Env, d: ScreenId)
    requires Inv(st) && d == st.ids.count && Inv(s0) && s0.screens == st.screens && s0.ids.count > d
    requires s1 == GetDefault(s0, env).0
    ensures d !in s1.screens && Inv(s1)
  {
    assert d in st.screens ==> ScreenOk(st, d);
    LookupInv(s0, env);
    hide GetDefault;
  }

  lemma AddLoose(a: State, b: State, d: ScreenId)
    requires Inv(a) && Settling(a) && d !in a.screens && d in b.screens && b.groups == a.groups
    requires b.screens == a.screens[d := b.screens[d]] && b.screens[d].lastGroupId == SCREEN_ID_INVALID
    requires b.screens[d].mode.Some?
    ensures Settling(b) && ChildrenSame(a, b)
  {
  }

  lemma {:induction false} ConnectEachTiled(st: State, env: Env, ids: seq<ScreenId>)
    requires TileInv(st)
    ensures TileInv(ConnectEach(st, env, ids))
    decreases |ids|
  {
    hide TileInv, OnConnect;
    if ids != [] {
      if ids[0] in st.screens { OnConnectTiled(st, env, ids[0]); }
      ConnectEachTiled(if ids[0] in st.screens then OnConnect(st, env, ids[0]) else st, env, ids[1..]);
    }
  }

  /** An operation of a tiling run: screens connect, virtual screens are created, the callback is
      registered, orientations are set, the default is asked for; new groups expand, and the screen that the
      operation connects can have a display node. */
  predicate TilingOp(st: State, env: Env, op: Op) {
    && env.expand && Admissible(op)
    && match op
       case OpConnect(rs) => rs in st.ids.rs2Dms || rs !in env.noNode
       case OpCreateVirtual(_, _, _) => DefaultPlaceable(st, env)
       case OpQueryDefault => DefaultPlaceable(st, env)
       case OpRegister => true
       case OpSetOrientation(_, _) => true
       case _ => false
  }

  lemma StepTiled(st: State, env: Env, op: Op)
    requires Good(st) && TileInv(st) && TilingOp(st, env, op)
    ensures TileInv(Step(st, env, op))
  {
    hide TileInv, Good, Connect, CreateVirtual, SetOrientation, GetDefault, RegisterCallback, DefaultPlaceable;
    match op
    case OpConnect(rs) => ConnectTiled(st, env, rs);
    case OpCreateVirtual(rs, mode, a) => CreateVirtualTiled(st, env, rs, mode, a);
    case OpSetOrientation(id, o) => SetOrientationTiled(st, env, id, o);
    case OpQueryDefault => LookupTiled(st, env);
    case OpRegister => RegisterTiled(st, env);
  }

  lemma RegisterTiled(st: State, env: Env)
    requires Good(st) && TileInv(st)
    ensures TileInv(RegisterCallback(st, env))
  {
    hide TileInv, Good, ConnectEach, Ascending;
    CallbackTiled(st);
    ConnectEachTiled(st.(callback := true), env, Ascending(st.screens.Keys));
  }

  lemma CallbackTiled(st: State)
    requires TileInv(st)
    ensures TileInv(st.(callback := true))
  {
    hide Inv, GroupsTiled;
    var s0 := st.(callback := true);
    ShapeInv(st, s0);
    assert ChildrenSame(st, s0);
    ChildrenSameTiled(st, s0);
  }

  /** From the start, through any sequence of connections and orientation changes, the children of the
      expand group tile the span from 0 to their total width. */
  lemma {:induction false} RunTiled(st: State, events: seq<Event>)
    requires Good(st) && TileInv(st)
    requires forall i :: 0 <= i < |events| ==> TilingOp(Run(st, events[..i]), events[i].env, events[i].op)
    ensures TileInv(Run(st, events))
    decreases |events|
  {
    hide Good, TileInv, Step, TilingOp;
    if events != [] {
      var s1 := Step(st, events[0].env, events[0].op);
      var rest := events[1..];
      assert Run(st, events[..0]) == st;
      assert TilingOp(st, events[0].env, events[0].op);
      TilingAdmissible(st, events[0]);
      StepGood(st, events[0].env, events[0].op);
      StepTiled(st, events[0].env, events[0].op);
      forall i | 0 <= i < |rest| ensures TilingOp(Run(s1, rest[..i]), rest[i].env, rest[i].op) {
        assert rest[i] == events[i + 1];
        assert events[..i + 1][0] == events[0] && events[..i + 1][1..] == rest[..i];
      }
      RunTiled(s1, rest);
    }
  }

  lemma TilingAdmissible(st: State, e: Event)
    requires TilingOp(st, e.env, e.op)
    ensures Admissible(e.op)
  {
  }

  lemma InitialTiled()
    ensures TileInv(INITIAL)
  {
  }
}

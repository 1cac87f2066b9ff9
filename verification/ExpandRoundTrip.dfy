/** MakeExpand followed by StopExpand of the same screens brings the displays back: the same display
    ids, bound to the same screens. */
module ExpandRoundTrip {
  import opened DmTypes
  import opened ScreenState
  import opened ScreenInvariant
  import opened AgentOwnership
  import opened ScreenRuns
  import opened GroupChanges
  import opened DefaultScreen
  import opened ExpandDisplays

  /** Display ids stay below the counter, and no two displays share a screen. */
  ghost predicate Bound(st: State) {
    && (forall k :: k in st.displays ==> k < st.displayCount)
    && (forall j, k :: j in st.displays && k in st.displays && st.displays[j].screenId == st.displays[k].screenId ==> j == k)
  }

  ghost predicate NoneFor(st: State, ids: seq<ScreenId>) {
    forall k :: k in st.displays ==> st.displays[k].screenId !in ids
  }

  // ---------- Taking out screens without display ----------

  lemma {:induction false} FirstNone(displays: map<DisplayId, Display>, id: ScreenId, from: nat, count: nat)
    requires forall k :: k in displays ==> displays[k].screenId != id
    ensures FirstDisplay(displays, id, from, count) == None
    decreases count - from
  {
    if from < count { FirstNone(displays, id, from + 1, count); }
  }

  lemma {:induction false} LastNone(displays: map<DisplayId, Display>, id: ScreenId, count: nat)
    requires forall k :: k in displays ==> displays[k].screenId != id
    ensures LastDisplay(displays, id, count) == None
  {
    if count > 0 { LastNone(displays, id, count - 1); }
  }

  /** Losing a screen that has no display changes offsets at most, in a mirror and in an expand group. */
  lemma QuietDisconnect(st: State, env: Env, id: ScreenId)
    requires Inv(st) && id in st.screens && NoDisplay(st, id) && st.screens[id].groupId in st.groups
    ensures Unbound(st, OnDisconnect(st, env, id), {})
  {
    hide Inv, Evolves, GetDefault, LastDisplay, FirstDisplay;
    LastNone(st.displays, id, st.displayCount);
    LookupInv(st, env);
    var s1 := GetDefault(st, env).0;
    FirstNone(st.displays, id, 0, st.displayCount);
    assert s1.displays == st.displays && s1.displayCount == st.displayCount;
    hide Extends;
  }

  lemma DropQuiet(st: State, env: Env, id: ScreenId)
    requires Inv(st) && id in st.screens && NoDisplay(st, id)
    ensures var s1 := if st.callback && InGroup(st, id) then OnDisconnect(st, env, id) else st;
            id in s1.screens && Unbound(st, RemoveFromGroup(s1, id).0, {})
  {
    if st.callback && InGroup(st, id) { QuietDisconnect(st, env, id); }
    hide OnDisconnect, Inv;
  }

  lemma UnboundNoDisplay(a: State, b: State)
    requires Unbound(a, b, {})
    ensures forall x :: NoDisplay(a, x) ==> NoDisplay(b, x)
    ensures Bound(a) ==> Bound(b)
  {
  }

  lemma QuietTrans(a: State, b: State, c: State)
    requires Unbound(a, b, {}) && Unbound(b, c, {})
    ensures Unbound(a, c, {})
  {
  }

  lemma {:induction false} TakeOutQuiet(st: State, env: Env, g: ScreenId, ids: seq<ScreenId>, at: seq<Point>, filter: bool)
    requires Inv(st) && Plain(st, ids) && |ids| == |at|
    requires forall i :: 0 <= i < |ids| ==> NoDisplay(st, ids[i])
    ensures Unbound(st, TakeOut(st, env, g, ids, at, filter).0, {})
    decreases |ids|
  {
    hide Inv, Evolves, NoDisplay, OnDisconnect, RemoveFromGroup;
    assert Unbound(st, st, {});
    if ids != [] {
      var s1 := TakeOutOne(st, env, g, ids[0], filter);
      assert Plain(st, [ids[0]]);
      TakeOutOneInv(st, env, g, ids[0], filter);
      DropQuiet(st, env, ids[0]);
      assert Unbound(st, s1, {});
      hide TakeOutOne, Unbound;
      UnboundNoDisplay(st, s1);
      EvolvesPlain(st, s1, ids[1..]);
      assert forall i :: 0 <= i < |ids[1..]| ==> ids[1..][i] == ids[i + 1];
      TakeOutQuiet(s1, env, g, ids[1..], at[1..], filter);
      QuietTrans(st, s1, TakeOut(s1, env, g, ids[1..], at[1..], filter).0);
    }
  }

  // ---------- Putting them in ----------

  /** b has all displays of a, and new ones only for the given screens. */
  ghost predicate Added(a: State, b: State, ids: set<ScreenId>) {
    && a.displayCount <= b.displayCount
    && (forall k :: k in a.displays ==> k in b.displays && b.displays[k] == a.displays[k])
    && (forall k :: k in b.displays && k !in a.displays ==> a.displayCount <= k && b.displays[k].screenId in ids)
  }

  lemma AddedTrans(a: State, b: State, c: State, i1: set<ScreenId>, i2: set<ScreenId>)
    requires Added(a, b, i1) && Added(b, c, i2)
    ensures Added(a, c, i1 + i2)
  {
  }

  lemma CreateAdds(a: State, st: State, id: ScreenId, m: Mode, p: Point)
    requires Bound(st) && NoDisplay(st, id) && id in st.screens
    requires a.displays == st.displays && a.displayCount == st.displayCount
    ensures Bound(CreateDisplay(st, id, m, p)) && Added(a, CreateDisplay(st, id, m, p), {id})
    ensures forall x :: x != id && NoDisplay(st, x) ==> NoDisplay(CreateDisplay(st, id, m, p), x)
  {
    var r := CreateDisplay(st, id, m, p);
    assert forall k :: k in r.displays ==> k == st.displayCount || (k in st.displays && r.displays[k] == st.displays[k]);
  }

  lemma SameAdds(a: State, b: State, id: ScreenId)
    requires Bound(a) && a.displays == b.displays && a.displayCount == b.displayCount
    ensures Bound(b) && Added(a, b, {id}) && forall x :: NoDisplay(a, x) ==> NoDisplay(b, x)
  {
  }

  lemma OnConnectAdds(st: State, env: Env, id: ScreenId)
    requires Inv(st) && Bound(st) && id in st.screens && NoDisplay(st, id) && st.screens[id].groupId in st.groups
    requires |st.groups[st.screens[id].groupId].children| != 1
    ensures var r := OnConnect(st, env, id);
            && Bound(r) && Added(st, r, {id}) && (forall x :: x != id && NoDisplay(st, x) ==> NoDisplay(r, x))
  {
    hide Inv, Evolves, GetDefault, Bound, Added, NoDisplay, FirstDisplay, CreateDisplay;
    LookupInv(st, env);
    var (s1, d) := GetDefault(st, env);
    assert s1.displays == st.displays && s1.displayCount == st.displayCount && s1.screens[id] == st.screens[id];
    SameAdds(st, st, id);
    SameAdds(st, s1, id);
    if s1.screens[id].mode.Some? { CreateAdds(st, s1, id, s1.screens[id].mode.value, s1.screens[id].start); }
    if d in s1.screens && s1.screens[d].mode.Some? { CreateAdds(st, s1, id, s1.screens[d].mode.value, s1.screens[id].start); }
  }

  lemma TwoChildren(s: set<ScreenId>, x: ScreenId, y: ScreenId)
    requires x in s && y in s && x != y
    ensures |s| != 1
  {
    assert {x, y} <= s;
    assert |{x, y}| == 2;
    assert |s - {x, y}| + 2 == |s|;
  }

  lemma PutInOneAdds(st: State, env: Env, g: ScreenId, t: Taken, anchor: ScreenId)
    requires Inv(st) && HasSource(st, g) && Loose(st, t.id) && Bound(st) && NoDisplay(st, t.id)
    requires anchor in st.groups[g].children && anchor != t.id
    ensures var r := PutInOne(st, env, g, t).0;
            && Bound(r) && Added(st, r, {t.id}) && (forall x :: x != t.id && NoDisplay(st, x) ==> NoDisplay(r, x))
  {
    var s1 := PlaceChild(st, env, g, t.id, t.at);
    AddChildPlain(st, env, g, t.id, t.at);
    AddChildInv(st, env, g, t.id, t.at);
    SameAdds(st, s1, t.id);
    TwoChildren(s1.groups[g].children, anchor, t.id);
    TouchInv(s1, env, t.id);
    var s2 := Touch(s1, env, t.id);
    hide Inv, Evolves, Touch, OnConnect, AddChild, Bound, Added, NoDisplay;
    assert s2.displays == s1.displays && s2.displayCount == s1.displayCount && s2.groups == s1.groups;
    assert s2.screens[t.id] == s1.screens[t.id];
    hide Extends, SameGrouping;
    SameAdds(st, s2, t.id);
    if s2.callback {
      OnConnectAdds(s2, env, t.id);
      AddedBase(st, s2, OnConnect(s2, env, t.id), t.id);
    }
  }

  lemma AddedBase(a: State, a2: State, b: State, id: ScreenId)
    requires Added(a2, b, {id}) && a2.displays == a.displays && a2.displayCount == a.displayCount
    ensures Added(a, b, {id})
  {
  }

  lemma {:induction false} PutInAdds(st: State, env: Env, g: ScreenId, taken: seq<Taken>, anchor: ScreenId)
    requires Inv(st) && HasSource(st, g) && AllLoose(st, taken) && DistinctTaken(taken) && Bound(st)
    requires anchor in st.groups[g].children && anchor !in IdsOf(taken)
    requires forall i :: 0 <= i < |taken| ==> NoDisplay(st, taken[i].id)
    ensures Bound(PutIn(st, env, g, taken).0) && Added(st, PutIn(st, env, g, taken).0, IdsOf(taken))
    decreases |taken|
  {
    hide Inv, Evolves, PutInOne, HasSource, Loose, Bound, Added, NoDisplay;
    if taken == [] {
      assert Added(st, st, IdsOf(taken)) by { AddedRefl(st, IdsOf(taken)); }
    } else {
      var s1 := PutInOne(st, env, g, taken[0]).0;
      var rest := taken[1..];
      IdsSplit(taken);
      assert Loose(st, taken[0].id);
      PutInOneEffect(st, env, g, taken[0]);
      LoosePlain(st, taken[0].id);
      PutInOneInv(st, env, g, taken[0]);
      PutInOneAdds(st, env, g, taken[0], anchor);
      HeadDistinct(taken);
      StayLoose(st, s1, env, g, taken);
      assert anchor in s1.groups[g].children;
      forall i | 0 <= i < |rest| ensures NoDisplay(s1, rest[i].id) {
        assert rest[i] == taken[i + 1];
      }
      PutInAdds(s1, env, g, rest, anchor);
      AddedTrans(st, s1, PutIn(s1, env, g, rest).0, {taken[0].id}, IdsOf(rest));
    }
  }

  lemma AddedRefl(st: State, ids: set<ScreenId>)
    ensures Added(st, st, ids)
  {
  }

  // ---------- Stopping ----------

  /** One stopped screen of an expand group that keeps another child: its display goes, with no other. */
  lemma StopOneUnbinds(st: State, env: Env, g: ScreenId, id: ScreenId, anchor: ScreenId)
    requires Inv(st) && Bound(st) && st.callback && g in st.groups && st.groups[g].combination.SCREEN_EXPAND?
    requires id in st.groups[g].children && anchor in st.groups[g].children && anchor != id
    ensures var r := StopOne(st, env, id, SCREEN_EXPAND);
            && Inv(r) && Unbound(st, r, {id}) && Bound(r) && r.callback
            && r.groups == st.groups[g := st.groups[g].(children := st.groups[g].children - {id})]
  {
    assert GroupOk(st, g);
    hide Inv, OnDisconnect, RemoveChild, Evolves, Bound, Unbound, GroupOk;
    var s1 := OnDisconnect(st, env, id);
    OnDisconnectInv(st, env, id);
    UnbindsOne(st, env, id);
    assert s1.groups == st.groups && s1.screens[id] == st.screens[id];
    RemoveOtherInv(s1, g, id);
    SameDisplaysUnbound(st, s1, RemoveChild(s1, g, id).0, {id});
  }

  lemma SameDisplaysUnbound(a: State, b: State, c: State, out: set<ScreenId>)
    requires Unbound(a, b, out) && Bound(b) && c.displays == b.displays && c.displayCount == b.displayCount
    ensures Unbound(a, c, out) && Bound(c)
  {
  }

  lemma UnbindsOne(st: State, env: Env, id: ScreenId)
    requires Inv(st) && Bound(st) && id in st.screens && st.screens[id].groupId in st.groups
    requires st.groups[st.screens[id].groupId].combination.SCREEN_EXPAND?
    ensures var r := OnDisconnect(st, env, id); Unbound(st, r, {id}) && Bound(r) && r.callback == st.callback
  {
    hide Inv, GetDefault, Evolves, LastDisplay;
    var mid := st.(displays := ZeroOthers(st.displays, id));
    ShapeInv(st, mid);
    LookupInv(mid, env);
    LastFinds(st.displays, id, st.displayCount);
    var s1 := GetDefault(mid, env).0;
    assert s1.displays == mid.displays && s1.displayCount == mid.displayCount && s1.callback == mid.callback;
    hide Extends;
  }

  lemma {:induction false} StopUnbinds(st: State, env: Env, g: ScreenId, ids: seq<ScreenId>, anchor: ScreenId)
    requires Inv(st) && Bound(st) && st.callback && g in st.groups && st.groups[g].combination.SCREEN_EXPAND?
    requires Distinct(ids) && anchor in st.groups[g].children && anchor !in ids
    requires forall i :: 0 <= i < |ids| ==> ids[i] in st.groups[g].children
    ensures var r := StopScreens(st, env, ids, SCREEN_EXPAND);
            var out := set x | x in ids;
            && Unbound(st, r, out)
            && r.groups == st.groups[g := st.groups[g].(children := st.groups[g].children - out)]
    decreases |ids|
  {
    hide Inv, StopOne, Bound, Unbound;
    var out := set x | x in ids;
    if ids == [] {
      assert out == {};
      assert st.groups[g].children - out == st.groups[g].children;
      assert Unbound(st, st, {}) by { UnboundRefl(st); }
    } else {
      var id, rest := ids[0], ids[1..];
      var s1 := StopOne(st, env, id, SCREEN_EXPAND);
      assert id in ids && anchor !in rest;
      StopOneUnbinds(st, env, g, id, anchor);
      forall i | 0 <= i < |rest| ensures rest[i] in s1.groups[g].children {
        assert rest[i] == ids[i + 1];
      }
      StopUnbinds(s1, env, g, rest, anchor);
      var out1 := set x | x in rest;
      assert out == {id} + out1;
      UnboundTrans(st, s1, StopScreens(s1, env, rest, SCREEN_EXPAND), {id}, out1);
      assert st.groups[g].children - {id} - out1 == st.groups[g].children - out;
    }
  }

  lemma UnboundRefl(st: State)
    ensures Unbound(st, st, {})
  {
  }

  // ---------- With the default mapped, no screen appears ----------

  ghost predicate Mapped(st: State) {
    st.defaultRs != SCREEN_ID_INVALID && st.defaultRs in st.ids.rs2Dms
  }

  lemma MappedStays(a: State, b: State)
    requires Mapped(a) && Evolves(a, b)
    ensures Mapped(b)
  {
  }

  lemma TakeOutOneIds(st: State, env: Env, g: ScreenId, id: ScreenId, filter: bool)
    requires Mapped(st)
    ensures TakeOutOne(st, env, g, id, filter).ids == st.ids
  {
    KnownLookup(st, env);
    KnownLookup(st.(displays := ZeroOthers(st.displays, id)), env);
    hide GetDefault, ZeroOthers, FirstDisplay, LastDisplay;
  }

  lemma {:induction false} TakeOutIds(st: State, env: Env, g: ScreenId, ids: seq<ScreenId>, at: seq<Point>, filter: bool)
    requires Inv(st) && Mapped(st) && Plain(st, ids) && |ids| == |at|
    ensures TakeOut(st, env, g, ids, at, filter).0.ids == st.ids
    decreases |ids|
  {
    hide Inv, Evolves, TakeOutOne, Mapped;
    if ids != [] {
      var s1 := TakeOutOne(st, env, g, ids[0], filter);
      assert Plain(st, [ids[0]]);
      TakeOutOneInv(st, env, g, ids[0], filter);
      TakeOutOneIds(st, env, g, ids[0], filter);
      MappedStays(st, s1);
      EvolvesPlain(st, s1, ids[1..]);
      TakeOutIds(s1, env, g, ids[1..], at[1..], filter);
    }
  }

  lemma PutInOneIds(st: State, env: Env, g: ScreenId, t: Taken)
    requires Mapped(st)
    ensures PutInOne(st, env, g, t).0.ids == st.ids && PutInOne(st, env, g, t).0.defaultRs == st.defaultRs
  {
    if t.id in st.screens && g in st.groups {
      KnownLookup(st, env);
      var s1 := AddChild(st, env, g, t.id, t.at).0;
      assert s1.ids == st.ids && s1.defaultRs == st.defaultRs;
      hide AddChild;
      KnownLookup(s1, env);
      hide GetDefault, FirstDisplay;
    }
  }

  lemma {:induction false} PutInIds(st: State, env: Env, g: ScreenId, taken: seq<Taken>)
    requires Mapped(st)
    ensures PutIn(st, env, g, taken).0.ids == st.ids
    decreases |taken|
  {
    hide PutInOne;
    if taken != [] {
      PutInOneIds(st, env, g, taken[0]);
      PutInIds(PutInOne(st, env, g, taken[0]).0, env, g, taken[1..]);
    }
  }

  lemma NoNewScreen(a: State, b: State)
    requires Inv(b) && Evolves(a, b) && b.ids == a.ids
    ensures forall d :: d in b.screens ==> d in a.screens
  {
    forall d | d in b.screens ensures d in a.screens {
      assert ScreenOk(b, d);
    }
  }

  // ---------- The round trip ----------

  /** The displays of a are still there, offsets aside, and every new one is for a listed screen. */
  ghost predicate Grown(a: State, b: State, ids: set<ScreenId>) {
    && a.displayCount <= b.displayCount
    && (forall k :: k in a.displays ==> k in b.displays && b.displays[k] == a.displays[k].(offset := b.displays[k].offset))
    && (forall k :: k in b.displays && k !in a.displays ==> a.displayCount <= k && b.displays[k].screenId in ids)
  }

  lemma QuietThenAdded(a: State, t1: State, t2: State, b: State, added: set<ScreenId>, ids: set<ScreenId>)
    requires Unbound(a, t1, {}) && Added(t2, b, added) && t2.displays == t1.displays && t2.displayCount == t1.displayCount
    requires added <= ids
    ensures Grown(a, b, ids)
  {
  }

  lemma TakenQuiet(st: State, t2: State, g: ScreenId, ids: seq<ScreenId>, filter: bool, taken: seq<Taken>)
    requires forall i :: 0 <= i < |ids| ==> NoDisplay(st, ids[i])
    requires forall x :: NoDisplay(st, x) ==> NoDisplay(t2, x)
    requires IdsOf(taken) == Movers(st, g, ids, filter)
    ensures forall i :: 0 <= i < |taken| ==> NoDisplay(t2, taken[i].id)
    ensures IdsOf(taken) <= Listed(ids)
  {
    hide NoDisplay;
    forall i | 0 <= i < |taken| ensures NoDisplay(t2, taken[i].id) {
      assert taken[i].id in IdsOf(taken);
      assert taken[i].id in ids;
      var k :| 0 <= k < |ids| && ids[k] == taken[i].id;
    }
  }

  /** MakeExpand on screens without display: the old displays stay, offsets aside, and every new one is
      bound to a listed screen. */
  lemma ExpandGrows(st: State, env: Env, d: ScreenId, all: seq<ScreenId>, points: seq<Point>)
    requires Inv(st) && Bound(st) && Mapped(st) && GetDefault(st, env) == (st, d)
    requires d in st.screens && st.screens[d].groupId in st.groups
    requires Distinct(all) && Plain(st, all) && d !in all && |points| == |all|
    requires forall i :: 0 <= i < |all| ==> NoDisplay(st, all[i])
    ensures var mid := MakeExpand(st, env, all, points).0;
            Inv(mid) && Evolves(st, mid) && Bound(mid) && mid.ids == st.ids && Grown(st, mid, Listed(all))
  {
    var g := st.screens[d].groupId;
    var filter := st.groups[g].combination.SCREEN_EXPAND?;
    GroupedDefault(st, d);
    assert HasAnchor(st, g, all);
    MakeExpandInv(st, env, all, points);
    var (t1, taken) := TakeOut(st, env, g, all, points, filter);
    TakeOutInv(st, env, g, all, points, filter);
    TakeOutEffect(st, env, g, all, points, filter);
    TakenOfIds(st, g, all, points, filter);
    TakeOutQuiet(st, env, g, all, points, filter);
    TakeOutIds(st, env, g, all, points, filter);
    assert d in t1.groups[g].children && d !in IdsOf(taken);
    var t2 := t1.(groups := t1.groups[g := t1.groups[g].(combination := SCREEN_EXPAND)]);
    MappedStays(st, t1);
    assert Mapped(t2);
    hide GetDefault, TakeOut, PutIn, TakenOf, Inv, Movers, Mapped;
    LeftLoose(st, t1, t2, g, all, filter, taken);
    CombineInv(t1, g, SCREEN_EXPAND);
    hide Evolves, LeavesOnly, HasAnchor, Plain, Distinct, AllLoose;
    ExpandTail(st, env, g, d, all, filter, t1, t2, taken);
  }

  lemma ExpandTail(st: State, env: Env, g: ScreenId, d: ScreenId, all: seq<ScreenId>, filter: bool,
                   t1: State, t2: State, taken: seq<Taken>)
    requires Bound(st) && Unbound(st, t1, {}) && Inv(t2) && Mapped(t2) && AllLoose(t2, taken) && DistinctTaken(taken)
    requires g in t1.groups && t2 == t1.(groups := t1.groups[g := t1.groups[g].(combination := SCREEN_EXPAND)])
    requires IdsOf(taken) == Movers(st, g, all, filter) && d in t1.groups[g].children && d !in IdsOf(taken)
    requires forall i :: 0 <= i < |all| ==> NoDisplay(st, all[i])
    ensures var mid := PutIn(t2, env, g, taken).0;
            Bound(mid) && mid.ids == t1.ids && Grown(st, mid, Listed(all))
  {
    UnboundNoDisplay(st, t1);
    assert Bound(t2) && (forall x :: NoDisplay(st, x) ==> NoDisplay(t2, x)) && HasSource(t2, g);
    hide Inv, NoDisplay, Unbound, Bound, Added, DistinctTaken, AllLoose, Mapped, PutIn, Movers, Grown;
    TakenQuiet(st, t2, g, all, filter, taken);
    PutInIds(t2, env, g, taken);
    PutInAdds(t2, env, g, taken, d);
    QuietThenAdded(st, t1, t2, PutIn(t2, env, g, taken).0, IdsOf(taken), Listed(all));
  }

  /** Stopping then removes exactly the new displays. */
  lemma GrownThenUnbound(a: State, mid: State, r: State, ids: set<ScreenId>, out: set<ScreenId>)
    requires Grown(a, mid, ids) && Unbound(mid, r, out) && ids <= out
    requires forall k :: k in a.displays ==> a.displays[k].screenId !in out
    ensures forall k :: k in r.displays <==> k in a.displays
    ensures forall k :: k in a.displays ==> r.displays[k] == a.displays[k].(offset := r.displays[k].offset)
  {
  }

  /** The list StopExpand works on is the list MakeExpand worked on. */
  lemma StopList(s1: State, mid: State, ids: seq<ScreenId>, d: ScreenId)
    requires Inv(s1) && Inv(mid) && Evolves(s1, mid) && mid.ids == s1.ids && d !in ids
    ensures forall x :: x in ValidIds(mid, ids) <==> x in Wanted(s1, ids, d)
    ensures Distinct(ValidIds(mid, ids)) && d !in ValidIds(mid, ids)
  {
    NoNewScreen(s1, mid);
    ValidIdsFilter(mid, ids);
    hide Inv, ValidIds;
  }

  /** MakeExpand(S) and then StopExpand(S), where no screen of S has a display and the default screen is
      not in S. The display map has the same ids afterwards, each display bound to the same screen and
      unchanged but for its offset; the group of the default screen is still there, expands, holds the
      default, and has lost exactly the valid screens of S. */
  lemma ExpandThenStop(st: State, env1: Env, env2: Env, ids: seq<ScreenId>, at: seq<Point>)
    requires Inv(st) && st.callback
    requires ServiceMakeExpand(st, env1, ids, at).1.Some?
    requires var (s1, d) := GetDefault(st, env1);
             Bound(s1) && d !in ids && forall i :: 0 <= i < |ids| ==> NoDisplay(s1, ids[i])
    ensures var (s1, d) := GetDefault(st, env1);
            var (mid, res) := ServiceMakeExpand(st, env1, ids, at);
            var r := ServiceStop(mid, env2, ids, SCREEN_EXPAND);
            var g := res.value;
            && (st.groups != map[] ==> s1.displays == st.displays)
            && (forall k :: k in r.displays <==> k in s1.displays)
            && (forall k :: k in s1.displays ==> r.displays[k] == s1.displays[k].(offset := r.displays[k].offset))
            && g in s1.groups && d in s1.groups[g].children
            && r.groups == s1.groups[g := s1.groups[g].(combination := SCREEN_EXPAND,
                                                        children := s1.groups[g].children - Wanted(s1, ids, d))]
            && d in r.groups[g].children
  {
    ServiceMakeExpandMoves(st, env1, ids, at);
    LookupMapped(st, env1);
    var (s1, d) := GetDefault(st, env1);
    LookupInv(st, env1);
    DefaultTwice(st, env1);
    assert s1.callback == st.callback;
    assert st.groups != map[] ==> s1.displays == st.displays;
    hide Inv, GetDefault, Evolves, Extends, Mapped, Bound, NoDisplay, MakeExpand, ValidIds, RemoveFirst, StopScreens, Plain,
         Distinct, PointsFor, FirstPoints, Expanded, Wanted;
    GroupedDefault(s1, d);
    ServiceList(s1, ids, d);
    var all := RemoveFirst(ValidIds(s1, ids), d);
    var points := PointsFor(all, FirstPoints(ids, at));
    assert GetDefault(s1, env1) == (s1, d);
    AllQuiet(s1, ids, all);
    ExpandGrows(s1, env1, d, all, points);
    var mid := MakeExpand(s1, env1, all, points).0;
    assert mid == ServiceMakeExpand(st, env1, ids, at).0;
    StopAfter(s1, mid, env1, env2, d, ids, at, all);
  }

  lemma LookupMapped(st: State, env: Env)
    requires Inv(st)
    ensures GetDefault(st, env).1 != SCREEN_ID_INVALID ==> Mapped(GetDefault(st, env).0)
  {
    if GetDefault(st, env).1 != SCREEN_ID_INVALID {
      LookupMapsBack(st, env);
      GetDefaultInv(st, env);
      hide GetDefault, Inv, Keeps, Extends;
    }
  }

  lemma AllQuiet(st: State, ids: seq<ScreenId>, all: seq<ScreenId>)
    requires forall k :: 0 <= k < |all| ==> all[k] in ids
    requires forall i :: 0 <= i < |ids| ==> NoDisplay(st, ids[i])
    ensures forall k :: 0 <= k < |all| ==> NoDisplay(st, all[k])
  {
    hide NoDisplay;
    forall k | 0 <= k < |all| ensures NoDisplay(st, all[k]) {
      var i :| 0 <= i < |ids| && ids[i] == all[k];
    }
  }

  lemma ListedSet(ids: seq<ScreenId>, s: set<ScreenId>)
    requires forall x :: x in ids <==> x in s
    ensures Listed(ids) == s
  {
    forall x | x in s ensures x in Listed(ids) {
      assert x in ids;
    }
    forall x | x in Listed(ids) ensures x in s {
      assert x in ids;
    }
  }

  lemma Elsewhere(st: State, ids: seq<ScreenId>)
    requires forall i :: 0 <= i < |ids| ==> NoDisplay(st, ids[i])
    ensures NoneFor(st, ids)
  {
    forall k, i | k in st.displays && 0 <= i < |ids| ensures st.displays[k].screenId != ids[i] {
      assert NoDisplay(st, ids[i]);
    }
  }

  /** StopExpand, in the state MakeExpand left. */
  lemma StopAfter(s1: State, mid: State, env1: Env, env2: Env, d: ScreenId, ids: seq<ScreenId>, at: seq<Point>,
                  all: seq<ScreenId>)
    requires |ids| == |at| && d in s1.screens && s1.screens[d].groupId in s1.groups && Inv(s1) && s1.callback
    requires Inv(mid) && Evolves(s1, mid) && Bound(mid) && mid.ids == s1.ids && Grown(s1, mid, Listed(all))
    requires Expanded(s1, mid, env1, d, ids, at) && d !in ids && d in s1.groups[s1.screens[d].groupId].children
    requires forall x :: x in all <==> x in Wanted(s1, ids, d)
    requires forall i :: 0 <= i < |ids| ==> NoDisplay(s1, ids[i])
    ensures var r := ServiceStop(mid, env2, ids, SCREEN_EXPAND);
            var g := s1.screens[d].groupId;
            && (forall k :: k in r.displays <==> k in s1.displays)
            && (forall k :: k in s1.displays ==> r.displays[k] == s1.displays[k].(offset := r.displays[k].offset))
            && r.groups == s1.groups[g := s1.groups[g].(combination := SCREEN_EXPAND,
                                                        children := s1.groups[g].children - Wanted(s1, ids, d))]
            && d in r.groups[g].children
  {
    var g := s1.screens[d].groupId;
    var list := ValidIds(mid, ids);
    StopList(s1, mid, ids, d);
    var out := set x | x in list;
    assert forall x :: x in out <==> x in list;
    assert out == Wanted(s1, ids, d);
    ListedSet(all, Wanted(s1, ids, d));
    EvolvesCallback(s1, mid);
    assert d !in Wanted(s1, ids, d);
    assert g in mid.groups && mid.groups[g].combination.SCREEN_EXPAND? && d in mid.groups[g].children;
    assert mid.groups[g].children - out == s1.groups[g].children - out;
    forall i | 0 <= i < |list| ensures list[i] in mid.groups[g].children {
      assert list[i] in list;
    }
    Elsewhere(s1, ids);
    hide Inv, Evolves, ValidIds, StopScreens, Wanted, Expanded, Bound, Grown, Unbound, NoDisplay;
    StopUnbinds(mid, env2, g, list, d);
    GrownThenUnbound(s1, mid, StopScreens(mid, env2, list, SCREEN_EXPAND), Listed(all), out);
  }
}

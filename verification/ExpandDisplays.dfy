/** The displays of a server that runs in expand mode: each is bound to a screen of the expand group,
    no two to the same screen, and each has the rotation and the rotated size of its screen. */
module ExpandDisplays {
  import opened DmTypes
  import opened ScreenState
  import opened ScreenInvariant
  import opened AgentOwnership
  import opened ScreenRuns
  import opened GroupChanges

  /** The display has the rotation of the screen, and its size is the active mode of the screen,
      swapped exactly when the rotation is 90 or 270. */
  predicate Fits(d: Display, s: Screen) {
    && s.mode.Some? && d.rotation == s.rotation
    && d.width == RotatedWidth(s.mode.value, s.rotation) && d.height == RotatedHeight(s.mode.value, s.rotation)
  }

  /** The screen is known and belongs to a group. */
  predicate Housed(st: State, id: ScreenId) {
    id in st.screens && !st.screens[id].IsGroup() && st.screens[id].groupId in st.groups
  }

  ghost predicate DispOk(st: State) {
    && (forall g :: g in st.groups ==> st.groups[g].combination.SCREEN_EXPAND?)
    && (forall k :: k in st.displays ==>
          && k < st.displayCount && Housed(st, st.displays[k].screenId)
          && (st.screens[st.displays[k].screenId].kind.REAL? ==>
                Fits(st.displays[k], st.screens[st.displays[k].screenId])))
    && (forall j, k :: j in st.displays && k in st.displays && st.displays[j].screenId == st.displays[k].screenId ==> j == k)
    && (!st.callback ==> st.displays == map[])
  }

  ghost predicate NoDisplay(st: State, id: ScreenId) {
    forall k :: k in st.displays ==> st.displays[k].screenId != id
  }

  /** Nothing that a display depends on has changed. */
  ghost predicate Homes(a: State, b: State) {
    && b.displays == a.displays && b.displayCount == a.displayCount && b.callback == a.callback
    && (forall g :: g in b.groups ==> b.groups[g].combination.SCREEN_EXPAND?)
    && (forall id :: Housed(a, id) ==>
          && Housed(b, id) && b.screens[id].kind == a.screens[id].kind && b.screens[id].mode == a.screens[id].mode
          && b.screens[id].rotation == a.screens[id].rotation)
  }

  lemma HomesOk(a: State, b: State)
    requires DispOk(a) && Homes(a, b)
    ensures DispOk(b)
    ensures forall id :: NoDisplay(a, id) ==> NoDisplay(b, id)
  {
  }

  /** A display for a screen that has none. */
  lemma CreateOk(st: State, id: ScreenId, m: Mode, p: Point)
    requires DispOk(st) && Housed(st, id) && NoDisplay(st, id) && st.callback
    requires st.screens[id].kind.REAL? ==> st.screens[id].mode == Some(m)
    ensures DispOk(CreateDisplay(st, id, m, p))
    ensures forall x :: x != id && NoDisplay(st, x) ==> NoDisplay(CreateDisplay(st, id, m, p), x)
  {
    var r := CreateDisplay(st, id, m, p);
    assert forall k :: k in r.displays ==> k == st.displayCount || (k in st.displays && r.displays[k] == st.displays[k]);
  }

  // ---------- Lookups ----------

  lemma ExtendsHomes(a: State, b: State)
    requires DispOk(a) && Extends(a, b)
    ensures Homes(a, b)
  {
  }

  /** With no group there is no display. */
  lemma NoGroupNoDisplay(st: State)
    requires DispOk(st) && st.groups == map[]
    ensures st.displays == map[]
  {
    if k :| k in st.displays {
      assert Housed(st, st.displays[k].screenId);
    }
  }

  lemma EmptyDispOk(st: State)
    requires st.displays == map[] && forall g :: g in st.groups ==> st.groups[g].combination.SCREEN_EXPAND?
    ensures DispOk(st) && forall id :: NoDisplay(st, id)
  {
  }

  /** The first child of a new expand group, before its display exists. */
  lemma FounderOk(st: State, env: Env, rs: ScreenId, d: ScreenId)
    requires Inv(st) && st.groups == map[] && st.displays == map[] && d in st.screens && env.expand
    ensures var s3 := BuiltIn(AddAsFirst(st, env, d).0, env, rs, d);
            && DispOk(s3) && Housed(s3, d) && NoDisplay(s3, d) && d in s3.screens
            && s3.callback == st.callback
  {
    AddAsFirstInv(st, env, d);
    assert ScreenOk(st, d);
    hide Inv, AddAsFirst, DispOk, CalcRotation;
    EmptyDispOk(BuiltIn(AddAsFirst(st, env, d).0, env, rs, d));
  }

  lemma ConnectDefaultOk(st: State, env: Env)
    requires Inv(st) && DispOk(st) && st.groups == map[] && env.expand
    requires st.defaultRs != SCREEN_ID_INVALID && st.defaultRs !in st.ids.rs2Dms
    ensures DispOk(ConnectDefault(st, env))
  {
    hide Inv, InitScreen, AddAsFirst, BuiltIn, Homes, DispOk, NoDisplay, Housed, CreateDisplay;
    NoGroupNoDisplay(st);
    InitScreenInv(st, env, st.defaultRs);
    var (s1, d) := InitScreen(st, env, st.defaultRs);
    ExtendsHomes(st, s1);
    HomesOk(st, s1);
    assert s1.groups == map[] && s1.displays == map[];
    hide Extends;
    if d != SCREEN_ID_INVALID {
      FounderOk(s1, env, st.defaultRs, d);
      var s3 := BuiltIn(AddAsFirst(s1, env, d).0, env, st.defaultRs, d);
      if s3.callback && s3.screens[d].mode.Some? {
        CreateOk(s3, d, s3.screens[d].mode.value, ORIGIN);
      }
    }
  }

  lemma LookupOk(st: State, env: Env)
    requires Inv(st) && DispOk(st) && env.expand
    ensures DispOk(GetDefault(st, env).0)
    ensures st.groups != map[] ==> Homes(st, GetDefault(st, env).0)
  {
    hide Inv, Evolves, DispOk, ConnectDefault, Homes, Extends;
    var s0 := Learn(st, env);
    LearnInv(st, env);
    ExtendsHomes(st, s0);
    HomesOk(st, s0);
    LookupInv(st, env);
    if st.groups != map[] {
      ExtendsHomes(st, GetDefault(st, env).0);
      HomesOk(st, GetDefault(st, env).0);
    } else if !Settled(st, env) {
      ConnectDefaultOk(s0, env);
    }
  }

  lemma TouchOk(st: State, env: Env, id: ScreenId)
    requires Inv(st) && DispOk(st) && env.expand
    ensures DispOk(Touch(st, env, id)) && Homes(st, Touch(st, env, id))
  {
    hide Inv, GetDefault;
    if id in st.screens && st.screens[id].groupId in st.groups {
      hide DispOk, Homes;
      LookupOk(st, env);
    }
  }

  // ---------- Joining the group ----------

  lemma PlaceHomes(st: State, env: Env, g: ScreenId, id: ScreenId, p: Point)
    requires DispOk(st) && g in st.groups && id in st.screens
    ensures Homes(st, PlaceChild(st, env, g, id, p))
  {
  }

  lemma StartHomes(st: State, id: ScreenId, p: Point)
    requires DispOk(st) && id in st.screens
    ensures Homes(st, st.(screens := st.screens[id := st.screens[id].(start := p)]))
  {
  }

  lemma AddChildOk(st: State, env: Env, g: ScreenId, id: ScreenId, p: Point)
    requires Inv(st) && DispOk(st) && g in st.groups && id in st.screens && !st.screens[id].IsGroup()
    ensures DispOk(AddChild(st, env, g, id, p).0) && Homes(st, AddChild(st, env, g, id, p).0)
  {
    assert NodeConfig(st, env, g, id) == st;
    hide Inv, NodeConfig;
    PlaceHomes(st, env, g, id, p);
    StartHomes(st, id, p);
    assert Homes(st, st);
    hide DispOk, Homes, PlaceChild;
    HomesOk(st, AddChild(st, env, g, id, p).0);
  }

  /** The first match is the only one. */
  lemma {:induction false} FirstFinds(displays: map<DisplayId, Display>, id: ScreenId, from: nat, count: nat)
    ensures FirstDisplay(displays, id, from, count) == None ==>
              forall k :: from <= k < count && k in displays ==> displays[k].screenId != id
    decreases count - from
  {
    if from < count && !(from in displays && displays[from].screenId == id) {
      FirstFinds(displays, id, from + 1, count);
    }
  }

  lemma {:induction false} LastFinds(displays: map<DisplayId, Display>, id: ScreenId, count: nat)
    ensures LastDisplay(displays, id, count) == None ==>
              forall k :: 0 <= k < count && k in displays ==> displays[k].screenId != id
  {
    if count > 0 && !(count - 1 in displays && displays[count - 1].screenId == id) {
      LastFinds(displays, id, count - 1);
    }
  }

  lemma HomesHoused(a: State, b: State, id: ScreenId)
    requires Homes(a, b) && Housed(a, id)
    ensures Housed(b, id) && b.screens[id].kind == a.screens[id].kind && b.screens[id].mode == a.screens[id].mode
    ensures b.callback == a.callback && (NoDisplay(a, id) ==> NoDisplay(b, id))
  {
  }

  /** The connect callback in expand mode gives the screen a display unless it has one; a group of one
      is bound without that check, so there the screen must not have one. */
  lemma OnConnectOk(st: State, env: Env, id: ScreenId)
    requires Inv(st) && DispOk(st) && env.expand && id in st.screens && st.callback
    requires st.screens[id].groupId in st.groups && |st.groups[st.screens[id].groupId].children| == 1 ==> NoDisplay(st, id)
    ensures DispOk(OnConnect(st, env, id))
    ensures forall x :: x != id && NoDisplay(st, x) ==> NoDisplay(OnConnect(st, env, id), x)
  {
    var g := st.screens[id].groupId;
    if g in st.groups {
      assert ScreenOk(st, id);
      assert Housed(st, id);
      assert st.groups[g].combination.SCREEN_EXPAND?;
      var (s1, d) := GetDefault(st, env);
      assert NoDisplay(st, id) <== FirstDisplay(st.displays, id, 0, st.displayCount) == None by {
        FirstFinds(st.displays, id, 0, st.displayCount);
      }
      LookupOk(st, env);
      HomesOk(st, s1);
      HomesHoused(st, s1, id);
      hide Inv, GetDefault, DispOk, Homes, NoDisplay, FirstDisplay, Housed;
      if NoDisplay(st, id) {
        var m := if s1.screens[id].mode.Some? then s1.screens[id].mode.value else Mode(0, 0);
        if s1.screens[id].mode.Some? {
          CreateOk(s1, id, m, ORIGIN);
          CreateOk(s1, id, m, s1.screens[id].start);
        }
        if s1.screens[id].kind.VIRTUAL? && d in s1.screens && s1.screens[d].mode.Some? {
          CreateOk(s1, id, s1.screens[d].mode.value, s1.screens[id].start);
        }
      }
    }
  }

  // ---------- Leaving the group ----------

  /** b has the displays of a except those of the given screens; offsets aside they are unchanged. */
  ghost predicate Unbound(a: State, b: State, out: set<ScreenId>) {
    && b.displayCount == a.displayCount
    && (forall k :: k in b.displays <==> k in a.displays && a.displays[k].screenId !in out)
    && (forall k :: k in b.displays ==> b.displays[k] == a.displays[k].(offset := b.displays[k].offset))
  }

  lemma UnboundOk(a: State, b: State, out: set<ScreenId>)
    requires DispOk(a) && Unbound(a, b, out) && b.screens == a.screens && b.groups == a.groups && b.callback == a.callback
    ensures DispOk(b) && forall x :: NoDisplay(a, x) || x in out ==> NoDisplay(b, x)
  {
  }

  lemma ZeroOk(st: State, id: ScreenId)
    requires DispOk(st)
    ensures DispOk(st.(displays := ZeroOthers(st.displays, id)))
    ensures Unbound(st, st.(displays := ZeroOthers(st.displays, id)), {})
    ensures forall k :: k in st.displays ==> ZeroOthers(st.displays, id)[k].screenId == st.displays[k].screenId
  {
    UnboundOk(st, st.(displays := ZeroOthers(st.displays, id)), {});
  }

  /** The last match is the only one, so erasing it leaves the screen without a display. */
  lemma EraseLast(st: State, id: ScreenId)
    requires DispOk(st)
    ensures var found := LastDisplay(st.displays, id, st.displayCount);
            && (found.Some? ==> Unbound(st, st.(displays := st.displays - {found.value}), {id}))
            && (found.None? ==> Unbound(st, st, {id}))
  {
    LastFinds(st.displays, id, st.displayCount);
  }

  lemma UnbindOk(st: State, env: Env, id: ScreenId)
    requires Inv(st) && DispOk(st) && env.expand && id in st.screens && st.screens[id].groupId in st.groups
    ensures var r := OnDisconnect(st, env, id);
            && DispOk(r) && NoDisplay(r, id) && Unbound(st, r, {id})
            && (forall x :: NoDisplay(st, x) ==> NoDisplay(r, x))
  {
    var mid := st.(displays := ZeroOthers(st.displays, id));
    ZeroOk(st, id);
    ShapeInv(st, mid);
    assert st.groups[st.screens[id].groupId].combination.SCREEN_EXPAND?;
    SameLast(st.displays, id, st.displayCount);
    EraseLast(mid, id);
    var found := LastDisplay(st.displays, id, st.displayCount);
    var s1 := GetDefault(mid, env).0;
    LookupOk(mid, env);
    HomesDisplays(mid, s1);
    hide Inv, GetDefault, DispOk, Homes, Unbound, NoDisplay, LastDisplay, ZeroOthers;
    if found.None? {
      UnboundOk(mid, mid, {id});
      UnboundTrans(st, mid, mid, {}, {id});
      UnboundNone(st, mid, id);
    } else {
      var r := s1.(displays := s1.displays - {found.value});
      UnboundBase(mid, mid.(displays := mid.displays - {found.value}), s1, r, {id});
      UnboundOk(s1, r, {id});
      UnboundTrans(st, mid, r, {}, {id});
      UnboundNone(st, r, id);
    }
  }

  lemma HomesDisplays(a: State, b: State)
    requires Homes(a, b)
    ensures b.displays == a.displays && b.displayCount == a.displayCount
  {
  }

  lemma UnboundBase(a: State, b: State, a1: State, b1: State, out: set<ScreenId>)
    requires Unbound(a, b, out) && a1.displays == a.displays && b1.displays == b.displays
    requires a1.displayCount == a.displayCount && b1.displayCount == b.displayCount
    ensures Unbound(a1, b1, out)
  {
  }

  lemma UnboundTrans(a: State, b: State, c: State, o1: set<ScreenId>, o2: set<ScreenId>)
    requires Unbound(a, b, o1) && Unbound(b, c, o2)
    ensures Unbound(a, c, o1 + o2)
  {
  }

  lemma UnboundNone(a: State, b: State, id: ScreenId)
    requires Unbound(a, b, {} + {id})
    ensures Unbound(a, b, {id}) && NoDisplay(b, id) && forall x :: NoDisplay(a, x) ==> NoDisplay(b, x)
  {
    assert {} + {id} == {id};
  }

  /** Zeroing offsets does not change which display is found. */
  lemma {:induction false} SameLast(displays: map<DisplayId, Display>, id: ScreenId, count: nat)
    ensures LastDisplay(ZeroOthers(displays, id), id, count) == LastDisplay(displays, id, count)
  {
    if count > 0 { SameLast(displays, id, count - 1); }
  }

  /** A screen without display may leave the group. */
  lemma LeaveOk(st: State, g: ScreenId, id: ScreenId)
    requires Inv(st) && DispOk(st) && g in st.groups && id in st.groups[g].children && NoDisplay(st, id) && id in st.screens
    ensures DispOk(RemoveChild(st, g, id).0) && Unbound(st, RemoveChild(st, g, id).0, {})
  {
    RemoveChildInv(st, g, id);
    var r := RemoveChild(st, g, id).0;
    assert GroupOk(st, g);
    forall k | k in st.displays ensures Housed(r, st.displays[k].screenId) {
      var x := st.displays[k].screenId;
      assert Housed(st, x) && x != id && st.screens[x].groupId == g;
      assert ScreenOk(st, x);
    }
    hide Inv, Evolves, RemoveChild;
  }

  /** The disconnect callback and the removal, together. */
  lemma DropOk(st: State, env: Env, id: ScreenId)
    requires Inv(st) && DispOk(st) && env.expand && id in st.screens && !st.screens[id].IsGroup()
    ensures var s1 := if st.callback && InGroup(st, id) then OnDisconnect(st, env, id) else st;
            && id in s1.screens
            && var r := RemoveFromGroup(s1, id).0;
               DispOk(r) && NoDisplay(r, id) && Unbound(st, r, {id}) && (forall x :: NoDisplay(st, x) ==> NoDisplay(r, x))
  {
    assert ScreenOk(st, id);
    var s1 := if st.callback && InGroup(st, id) then OnDisconnect(st, env, id) else st;
    DropInv(st, env, id);
    if InGroup(st, id) {
      if st.callback {
        UnbindOk(st, env, id);
      } else {
        assert NoDisplay(st, id) && Unbound(st, st, {id});
      }
      hide Inv, OnDisconnect, DispOk, Unbound, NoDisplay, RemoveChild, Evolves;
      var g := st.screens[id].groupId;
      LeaveOk(s1, g, id);
      var r := RemoveChild(s1, g, id).0;
      UnboundTrans(st, s1, r, {id}, {});
      UnboundId(st, r, id);
    } else {
      NotHoused(st, id);
      assert s1 == st && RemoveFromGroup(st, id).0 == st;
    }
  }

  lemma UnboundId(a: State, b: State, id: ScreenId)
    requires Unbound(a, b, {id} + {})
    ensures Unbound(a, b, {id}) && NoDisplay(b, id) && forall x :: NoDisplay(a, x) ==> NoDisplay(b, x)
  {
    assert {id} + {} == {id};
  }

  lemma NotHoused(st: State, id: ScreenId)
    requires DispOk(st) && !Housed(st, id)
    ensures NoDisplay(st, id) && Unbound(st, st, {id})
  {
  }

  // ---------- MakeExpand, StopExpand, RemoveVirtualScreenFromGroup ----------

  lemma TakeOutOneOk(st: State, env: Env, g: ScreenId, id: ScreenId, filter: bool)
    requires Inv(st) && DispOk(st) && env.expand && Plain(st, [id])
    ensures var r := TakeOutOne(st, env, g, id, filter);
            && DispOk(r) && (forall x :: NoDisplay(st, x) ==> NoDisplay(r, x))
            && (Moves(st, g, id, filter) ==> NoDisplay(r, id) && Unbound(st, r, {id}))
            && (!Moves(st, g, id, filter) ==> r == st)
  {
    assert id in [id];
    hide Inv, DispOk, NoDisplay, Unbound, OnDisconnect, RemoveFromGroup, Evolves;
    DropOk(st, env, id);
  }

  lemma {:induction false} TakeOutOk(st: State, env: Env, g: ScreenId, ids: seq<ScreenId>, at: seq<Point>, filter: bool)
    requires Inv(st) && DispOk(st) && env.expand && Plain(st, ids) && |ids| == |at|
    ensures var (r, taken) := TakeOut(st, env, g, ids, at, filter);
            && DispOk(r) && (forall x :: NoDisplay(st, x) ==> NoDisplay(r, x))
            && (forall i :: 0 <= i < |taken| ==> NoDisplay(r, taken[i].id))
    decreases |ids|
  {
    hide Inv, DispOk, NoDisplay, Unbound, TakeOutOne, Evolves, Moves;
    if ids != [] {
      var s1 := TakeOutOne(st, env, g, ids[0], filter);
      assert Plain(st, [ids[0]]);
      TakeOutOneOk(st, env, g, ids[0], filter);
      TakeOutOneInv(st, env, g, ids[0], filter);
      EvolvesPlain(st, s1, ids[1..]);
      TakeOutOk(s1, env, g, ids[1..], at[1..], filter);
    }
  }

  lemma PutInOneOk(st: State, env: Env, g: ScreenId, t: Taken)
    requires Inv(st) && DispOk(st) && env.expand && Plain(st, [t.id]) && NoDisplay(st, t.id)
    ensures var r := PutInOne(st, env, g, t).0;
            && DispOk(r) && (forall x :: x != t.id && NoDisplay(st, x) ==> NoDisplay(r, x))
  {
    assert t.id in [t.id];
    hide Inv, DispOk, NoDisplay, Evolves, Extends, AddChild, Touch, OnConnect, Homes, SameGrouping, Plain;
    if t.id in st.screens && g in st.groups {
      var (s1, added) := AddChild(st, env, g, t.id, t.at);
      AddChildOk(st, env, g, t.id, t.at);
      AddChildInv(st, env, g, t.id, t.at);
      HomesOk(st, s1);
      TouchOk(s1, env, t.id);
      TouchInv(s1, env, t.id);
      HomesOk(s1, Touch(s1, env, t.id));
      var s2 := if t.wasChild || added then Touch(s1, env, t.id) else s1;
      if s2.callback { OnConnectOk(s2, env, t.id); }
    }
  }

  lemma {:induction false} PutInOk(st: State, env: Env, g: ScreenId, taken: seq<Taken>)
    requires Inv(st) && DispOk(st) && env.expand && DistinctTaken(taken)
    requires forall i :: 0 <= i < |taken| ==> Plain(st, [taken[i].id]) && NoDisplay(st, taken[i].id)
    ensures DispOk(PutIn(st, env, g, taken).0)
    decreases |taken|
  {
    hide Inv, DispOk, NoDisplay, Plain, Evolves, PutInOne;
    if taken != [] {
      var s1 := PutInOne(st, env, g, taken[0]).0;
      var rest := taken[1..];
      PutInOneOk(st, env, g, taken[0]);
      PutInOneInv(st, env, g, taken[0]);
      forall i | 0 <= i < |rest| ensures Plain(s1, [rest[i].id]) && NoDisplay(s1, rest[i].id) {
        assert rest[i] == taken[i + 1];
        EvolvesPlain(st, s1, [rest[i].id]);
      }
      PutInOk(s1, env, g, rest);
    }
  }

  lemma ExpandingOk(st: State, g: ScreenId)
    requires DispOk(st) && g in st.groups
    ensures var r := st.(groups := st.groups[g := st.groups[g].(combination := SCREEN_EXPAND)]);
            r == st
  {
  }

  lemma ChangeOk(st: State, env: Env, g: ScreenId, ids: seq<ScreenId>, at: seq<Point>, filter: bool)
    requires Inv(st) && DispOk(st) && env.expand && Plain(st, ids) && |ids| == |at| && Distinct(ids) && HasAnchor(st, g, ids)
    ensures DispOk(ChangeScreenGroup(st, env, g, ids, at, filter, SCREEN_EXPAND).0)
  {
    var (s1, taken) := TakeOut(st, env, g, ids, at, filter);
    TakeOutInv(st, env, g, ids, at, filter);
    TakeOutOk(st, env, g, ids, at, filter);
    TakeOutEffect(st, env, g, ids, at, filter);
    TakenOfIds(st, g, ids, at, filter);
    hide Inv, DispOk, NoDisplay, TakeOut, TakenOf, PutIn, LeavesOnly, Movers, DistinctTaken;
    if g in s1.groups {
      ExpandingOk(s1, g);
      forall i | 0 <= i < |taken| ensures Plain(s1, [taken[i].id]) {
        EvolvesPlain(st, s1, ids);
      }
      PutInOk(s1, env, g, taken);
    }
  }

  lemma MakeExpandOk(st: State, env: Env, all: seq<ScreenId>, points: seq<Point>)
    requires Inv(st) && DispOk(st) && env.expand && Plain(st, all) && Distinct(all) && |points| == |all|
    requires GetDefault(st, env).1 !in all
    ensures DispOk(MakeExpand(st, env, all, points).0)
  {
    hide Inv, DispOk, GetDefault, ChangeScreenGroup, Plain, Homes, Extends, Distinct, Evolves;
    var (s1, d) := GetDefault(st, env);
    LookupOk(st, env);
    LookupInv(st, env);
    if d in s1.screens && s1.screens[d].groupId in s1.groups {
      var g := s1.screens[d].groupId;
      GroupedDefault(s1, d);
      EvolvesPlain(st, s1, all);
      assert HasAnchor(s1, g, all);
      ChangeOk(s1, env, g, all, points, s1.groups[g].combination.SCREEN_EXPAND?);
    }
  }

  lemma ServiceMakeExpandOk(st: State, env: Env, ids: seq<ScreenId>, at: seq<Point>)
    requires Inv(st) && DispOk(st) && env.expand
    ensures DispOk(ServiceMakeExpand(st, env, ids, at).0)
  {
    hide Inv, DispOk, GetDefault, MakeExpand, Plain, Homes, Distinct, ValidIds, RemoveFirst, PointsFor, FirstPoints, Wanted;
    var (s1, d) := GetDefault(st, env);
    LookupOk(st, env);
    DefaultTwice(st, env);
    ServiceList(s1, ids, d);
    var all := RemoveFirst(ValidIds(s1, ids), d);
    if |ids| == |at| && |PointsFor(all, FirstPoints(ids, at))| == |all| {
      MakeExpandOk(s1, env, all, PointsFor(all, FirstPoints(ids, at)));
    }
  }

  lemma StopOneOk(st: State, env: Env, id: ScreenId, combination: Combination)
    requires Inv(st) && DispOk(st) && env.expand && Plain(st, [id])
    ensures DispOk(StopOne(st, env, id, combination))
  {
    assert id in [id];
    if StopOne(st, env, id, combination) != st {
      StopOneIsRemoval(st, env, id, combination);
      hide Inv, DispOk, OnDisconnect, RemoveFromGroup, RemoveChild, NoDisplay, Unbound;
      DropOk(st, env, id);
    }
  }

  lemma {:induction false} StopOk(st: State, env: Env, ids: seq<ScreenId>, combination: Combination)
    requires Inv(st) && DispOk(st) && env.expand && Plain(st, ids)
    ensures DispOk(StopScreens(st, env, ids, combination))
    decreases |ids|
  {
    hide Inv, Evolves, StopOne, DispOk;
    if ids != [] {
      var s1 := StopOne(st, env, ids[0], combination);
      assert Plain(st, [ids[0]]);
      StopOneInv(st, env, ids[0], combination);
      StopOneOk(st, env, ids[0], combination);
      EvolvesPlain(st, s1, ids[1..]);
      StopOk(s1, env, ids[1..], combination);
    }
  }

  lemma {:induction false} RemoveVirtualOk(st: State, env: Env, ids: seq<ScreenId>)
    requires Inv(st) && DispOk(st) && env.expand
    ensures DispOk(RemoveVirtual(st, env, ids))
    decreases |ids|
  {
    hide Inv, Evolves, OnDisconnect, RemoveFromGroup, DispOk, NoDisplay, Unbound;
    if ids != [] {
      var s1 := RemoveVirtualOne(st, env, ids[0]);
      if s1 != st {
        DropInv(st, env, ids[0]);
        DropOk(st, env, ids[0]);
      }
      RemoveVirtualOk(s1, env, ids[1..]);
    }
  }

  // ---------- Connecting and disconnecting ----------

  lemma BuiltInHomes(st: State, env: Env, rs: ScreenId, id: ScreenId)
    requires DispOk(st) && id in st.screens && NoDisplay(st, id)
    ensures var r := BuiltIn(st, env, rs, id);
            DispOk(r) && NoDisplay(r, id) && r.groups == st.groups && r.callback == st.callback
  {
  }

  lemma AddToGroupOk(st: State, env: Env, id: ScreenId)
    requires Inv(st) && DispOk(st) && env.expand && id in st.screens && !st.screens[id].IsGroup() && NoDisplay(st, id)
    ensures var r := AddToGroup(st, env, id).0; DispOk(r) && NoDisplay(r, id)
  {
    hide Evolves, GetDefault, AddChild, Extends, DispOk, Homes, NoDisplay, AddAsFirst;
    if st.groups == map[] {
      NoGroupNoDisplay(st);
      AddAsFirstInv(st, env, id);
      hide Inv;
      EmptyDispOk(AddAsFirst(st, env, id).0);
    } else {
      hide Inv;
      var (s1, d) := GetDefault(st, env);
      LookupInv(st, env);
      LookupOthers(st, env, id);
      LookupOk(st, env);
      HomesOk(st, s1);
      if d in s1.screens && s1.screens[d].groupId in s1.groups {
        var g := s1.screens[d].groupId;
        var p := if s1.groups[g].combination.SCREEN_EXPAND?
                 then Point(SumWidths(s1.screens, Ascending(s1.groups[g].children)), 0) else ORIGIN;
        AddChildOk(s1, env, g, id, p);
        HomesOk(s1, AddChild(s1, env, g, id, p).0);
      }
    }
  }

  lemma ConnectOk(st: State, env: Env, rs: ScreenId)
    requires Inv(st) && DispOk(st) && env.expand && rs != SCREEN_ID_INVALID
    ensures DispOk(Connect(st, env, rs))
  {
    hide Inv, Evolves, InitScreen, AddToGroup, BuiltIn, Touch, OnConnect, AddChild, DispOk, NoDisplay, Homes;
    if rs in st.ids.rs2Dms {
      var d := st.ids.rs2Dms[rs];
      if d in st.screens && st.screens[d].lastGroupId in st.groups {
        MappedPlain(st, rs);
        AddChildOk(st, env, st.screens[d].lastGroupId, d, ORIGIN);
      }
    } else {
      var (s1, d) := InitScreen(st, env, rs);
      InitScreenInv(st, env, rs);
      ExtendsHomes(st, s1);
      HomesOk(st, s1);
      if d != SCREEN_ID_INVALID {
        assert NoDisplay(st, d) by { FreshNoDisplay(st, d); }
        var (s2, g) := AddToGroup(s1, env, d);
        AddToGroupInv(s1, env, d);
        AddToGroupOk(s1, env, d);
        BuiltInHomes(s2, env, rs, d);
        BuiltInShape(s2, env, rs, d);
        var s3 := BuiltIn(s2, env, rs, d);
        RedrawsInv(s2, s3, d);
        hide Extends, Redraws;
        TouchOk(s3, env, d);
        TouchInv(s3, env, d);
        HomesOk(s3, Touch(s3, env, d));
        if Touch(s3, env, d).callback { OnConnectOk(Touch(s3, env, d), env, d); }
      }
    }
  }

  lemma FreshNoDisplay(st: State, d: ScreenId)
    requires DispOk(st) && d !in st.screens
    ensures NoDisplay(st, d)
  {
  }

  lemma UnplugHomes(st: State, g: ScreenId, d: ScreenId)
    requires DispOk(st) && g in st.groups && d in st.screens
    ensures DispOk(RemoveDefaultScreen(st, g, d))
  {
    assert Homes(st, RemoveDefaultScreen(st, g, d));
  }

  /** A screen without display and its id are forgotten. */
  lemma ForgetOk(st: State, d: ScreenId)
    requires DispOk(st) && (d in st.screens ==> NoDisplay(st, d))
    ensures DispOk(st.(screens := st.screens - {d}))
  {
  }

  lemma IdsOkDisp(st: State, ids: Ids)
    requires DispOk(st)
    ensures DispOk(st.(ids := ids))
  {
  }

  lemma DisconnectOk(st: State, env: Env, rs: ScreenId)
    requires Inv(st) && DispOk(st) && env.expand
    ensures DispOk(Disconnect(st, env, rs))
  {
    if rs in st.ids.rs2Dms {
      var d := st.ids.rs2Dms[rs];
      if d !in st.screens {
        IdsOkDisp(st, DeleteId(st.ids, d));
      } else if st.callback && InGroup(st, d) && rs == st.defaultRs {
        hide Inv, DispOk;
        UnplugHomes(st, st.screens[d].groupId, d);
      } else {
        MappedPlain(st, rs);
        hide Inv, OnDisconnect, RemoveFromGroup, NoDisplay, Unbound, Evolves;
        var s1 := if st.callback && InGroup(st, d) then OnDisconnect(st, env, d) else st;
        DropOk(st, env, d);
        DropInv(st, env, d);
        var (s2, g) := RemoveFromGroup(s1, d);
        ForgetOk(s2, d);
        var s3 := s2.(screens := s2.screens - {d});
        assert Remirror(s3, env, g, d) == s3;
        hide Remirror, DispOk;
        IdsOkDisp(s3, DeleteId(s3.ids, d));
      }
    }
  }

  lemma DestroyOk(st: State, env: Env, id: ScreenId)
    requires Inv(st) && DispOk(st) && AgentsOk(st) && env.expand
    ensures DispOk(DestroyVirtual(st, env, id).0)
  {
    if !Refuses(st, id) {
      var s1 := st.(agents := Disown(st.agents, id));
      AgentsInv(st, s1.agents);
      var rs := RsOf(st.ids, id);
      assert DispOk(s1);
      hide Inv, Disown, Disconnect;
      DisconnectOk(s1, env, rs);
      var s2 := if rs != SCREEN_ID_INVALID && id in s1.screens then Disconnect(s1, env, rs) else s1;
      assert DispOk(s2);
      TailOk(s2, id);
    }
  }

  lemma TailOk(st: State, id: ScreenId)
    requires DispOk(st)
    ensures DispOk(st.(ids := DeleteId(st.ids, id)))
    ensures DispOk(st.(ids := DeleteId(st.ids, id), defaultRs := SCREEN_ID_INVALID))
  {
  }

  lemma {:induction false} RemoteDiedOk(st: State, env: Env, a: AgentId)
    requires Inv(st) && AgentsOk(st) && DispOk(st) && env.expand && OnRemoteDied(st, env, a).Some?
    ensures DispOk(OnRemoteDied(st, env, a).value)
    decreases |AgentList(st, a)|
  {
    if AgentList(st, a) != [] {
      hide Inv, AgentsOk, DestroyVirtual, DispOk;
      var id := AgentList(st, a)[0];
      DestroyOk(st, env, id);
      DestroyInv(st, env, id);
      RemoteDiedOk(DestroyVirtual(st, env, id).0, env, a);
    }
  }

  lemma CreateVirtualOk(st: State, env: Env, rs: ScreenId, mode: Mode, a: AgentId)
    requires Inv(st) && DispOk(st) && env.expand
    ensures DispOk(CreateVirtual(st, env, rs, mode, a).0)
  {
    if rs != SCREEN_ID_INVALID && rs !in st.ids.rs2Dms {
      var s0 := st.(ids := CreateId(st.ids, rs));
      NewIdInv(st, rs);
      IdsOkDisp(st, s0.ids);
      assert st.ids.count in st.screens ==> ScreenOk(st, st.ids.count);
      LookupInv(s0, env);
      var s1 := GetDefault(s0, env).0;
      assert st.ids.count !in s1.screens;
      LookupOk(s0, env);
      hide Inv, GetDefault, Evolves, Extends, Homes;
      NewScreenOk(s1, st.ids.count, NewScreen(rs, VIRTUAL, Some(mode)), s1.agents[a := AgentList(s1, a) + [st.ids.count]]);
    }
  }

  lemma NewScreenOk(st: State, d: ScreenId, s: Screen, agents: map<AgentId, seq<ScreenId>>)
    requires DispOk(st) && d !in st.screens
    ensures DispOk(st.(screens := st.screens[d := s], agents := agents))
  {
  }

  // ---------- Rotation and layout ----------

  lemma RotateFits(d: Display, s: Screen, r: Rotation)
    requires Fits(d, s)
    ensures Fits(Rotate(d, r), s.(rotation := r))
  {
  }

  lemma ResizeFits(d: Display, s: Screen, p: Point)
    requires Fits(d, s)
    ensures Resize(d, s.mode.value, p) == d.(offset := p)
  {
  }

  /** One display may change as long as it stays bound and fits. */
  lemma OneDisplayOk(st: State, k: DisplayId, d: Display)
    requires DispOk(st) && k in st.displays && d.screenId == st.displays[k].screenId
    requires st.screens[d.screenId].kind.REAL? ==> Fits(d, st.screens[d.screenId])
    ensures DispOk(st.(displays := st.displays[k := d]))
  {
  }

  /** The state with the screen turned and its display not yet: the display is found and follows. */
  lemma TurnOk(st: State, s1: State, id: ScreenId, r: Rotation)
    requires DispOk(st) && Housed(st, id) && st.callback
    requires s1.displays == st.displays && s1.displayCount == st.displayCount && s1.callback == st.callback
    requires s1.groups == st.groups && id in s1.screens && s1.screens[id] == st.screens[id].(rotation := r)
    requires forall d :: d in st.screens && d != id ==> d in s1.screens && s1.screens[d] == st.screens[d]
    ensures DispOk(UpdateDisplay(s1, id, (d: Display) => Rotate(d, r)))
  {
    var found := FirstDisplay(s1.displays, id, 0, s1.displayCount);
    FirstFinds(s1.displays, id, 0, s1.displayCount);
    forall x | Housed(st, x) ensures Housed(s1, x) {
    }
    if found.Some? && st.screens[id].kind.REAL? {
      RotateFits(st.displays[found.value], st.screens[id], r);
    }
    hide FirstDisplay, Rotate, Fits;
  }

  lemma UnhousedOk(st: State, env: Env, id: ScreenId, r: Rotation)
    requires Inv(st) && DispOk(st) && id in st.screens && !Housed(st, id)
    ensures var s0 := st.(screens := st.screens[id := st.screens[id].(rotation := r)]);
            Touch(s0, env, id) == s0 && DispOk(s0) && forall f :: UpdateDisplay(s0, id, f) == s0
  {
    var s0 := st.(screens := st.screens[id := st.screens[id].(rotation := r)]);
    assert ScreenOk(st, id);
    assert Touch(s0, env, id) == s0 && Homes(st, s0);
    HomesOk(st, s0);
  }

  lemma HousedRotation(st: State, env: Env, id: ScreenId, r: Rotation)
    requires Inv(st) && DispOk(st) && env.expand && Housed(st, id) && st.screens[id].rotation != r
    ensures DispOk(SetRotation(st, env, id, r))
  {
    var s0 := st.(screens := st.screens[id := st.screens[id].(rotation := r)]);
    TurnInv(st, id, st.screens[id].(rotation := r));
    TouchInv(s0, env, id);
    var s1 := Touch(s0, env, id);
    assert s0.groups != map[];
    hide Inv, Evolves, GetDefault;
    assert s1.displays == st.displays && s1.displayCount == st.displayCount && s1.callback == st.callback;
    hide Extends, Touch;
    if st.callback {
      hide DispOk, FirstDisplay, UpdateDisplay;
      TurnOk(st, s1, id, r);
    } else {
      EmptyDispOk(s1);
    }
  }

  lemma SetRotationOk(st: State, env: Env, id: ScreenId, r: Rotation)
    requires Inv(st) && DispOk(st) && env.expand
    ensures DispOk(SetRotation(st, env, id, r))
  {
    if id in st.screens && st.screens[id].rotation != r {
      if Housed(st, id) {
        HousedRotation(st, env, id, r);
      } else {
        UnhousedOk(st, env, id, r);
        hide Inv, DispOk, Touch, UpdateDisplay;
      }
    }
  }

  lemma LayOutOneOk(st: State, id: ScreenId, x: int)
    requires DispOk(st) && id in st.screens && st.screens[id].mode.Some?
    ensures DispOk(LayOutOne(st, id, x).0)
  {
    var s := st.screens[id];
    var s1 := if s.hasNode then st.(screens := st.screens[id := s.(start := Point(x, 0))]) else st;
    StartHomes(st, id, Point(x, 0));
    HomesOk(st, st.(screens := st.screens[id := s.(start := Point(x, 0))]));
    assert DispOk(s1);
    forall k | k in s1.displays && s1.displays[k].screenId == id && s.kind.REAL?
      ensures Resize(s1.displays[k], s.mode.value, s1.screens[id].start) == s1.displays[k].(offset := s1.screens[id].start)
    {
      ResizeFits(s1.displays[k], s1.screens[id], s1.screens[id].start);
    }
    hide Resize, Homes;
    if s1.callback { ResizeAllOk(s1, id); }
  }

  lemma ResizeAllOk(st: State, id: ScreenId)
    requires DispOk(st) && id in st.screens && st.screens[id].mode.Some?
    ensures DispOk(ResizeAll(st, id))
  {
    var r := ResizeAll(st, id);
    forall k | k in r.displays
      ensures r.displays[k].screenId == st.displays[k].screenId
      ensures st.screens[st.displays[k].screenId].kind.REAL? ==> Fits(r.displays[k], r.screens[st.displays[k].screenId])
    {
      var x := st.displays[k].screenId;
      if x == id && st.screens[x].kind.REAL? {
        ResizeFits(st.displays[k], st.screens[id], st.screens[id].start);
      }
    }
  }

  lemma {:induction false} LayOutOk(st: State, order: seq<ScreenId>, x: int)
    requires DispOk(st)
    ensures DispOk(LayOut(st, order, x).0)
    decreases |order|
  {
    hide DispOk, LayOutOne;
    if order != [] {
      if order[0] !in st.screens || st.screens[order[0]].mode.None? {
        LayOutOk(st, order[1..], x);
      } else {
        LayOutOneOk(st, order[0], x);
        LayOutOk(LayOutOne(st, order[0], x).0, order[1..], x + WidthOf(st.screens, order[0]));
      }
    }
  }

  /** The orientation callback: the display has followed the rotation already. */
  lemma OrientOk(st: State, id: ScreenId, o: Orientation)
    requires DispOk(st) && id in st.screens
    ensures DispOk(UpdateDisplay(st, id, (d: Display) => Rotate(d.(orientation := o), st.screens[id].rotation)))
  {
    var found := FirstDisplay(st.displays, id, 0, st.displayCount);
    if found.Some? {
      var d := st.displays[found.value];
      OneDisplayOk(st, found.value, Rotate(d.(orientation := o), st.screens[id].rotation));
    }
  }

  lemma OrientationHomes(st: State, id: ScreenId, s: Screen)
    requires DispOk(st) && id in st.screens
    requires s == st.screens[id].(orientation := s.orientation, requested := s.requested)
    ensures DispOk(st.(screens := st.screens[id := s]))
  {
    assert Homes(st, st.(screens := st.screens[id := s]));
  }

  lemma SetOrientationOk(st: State, env: Env, id: ScreenId, o: Orientation)
    requires Inv(st) && DispOk(st) && env.expand
    ensures DispOk(SetOrientation(st, env, id, o).0)
  {
    hide Inv, Evolves, DispOk, Touch, UpdateDisplay, SetRotation, LayOut, ChildrenByX, CalcRotation, Homes, Extends,
         SameGrouping;
    if id in st.screens && !st.screens[id].IsGroup() {
      var s1 := st.(screens := st.screens[id := st.screens[id].(requested := o)]);
      TurnInv(st, id, st.screens[id].(requested := o));
      OrientationHomes(st, id, st.screens[id].(requested := o));
      if s1.screens[id].orientation != o {
        var rot := CalcRotation(s1.screens[id].mode, o);
        var s2 := SetRotation(s1, env, id, rot);
        SetRotationInv(s1, env, id, rot);
        SetRotationOk(s1, env, id, rot);
        assert id in s2.screens by { EvolvesPlain(s1, s2, [id]); assert id in [id]; }
        var t2 := s2.(screens := s2.screens[id := s2.screens[id].(orientation := o)]);
        TurnInv(s2, id, s2.screens[id].(orientation := o));
        OrientationHomes(s2, id, s2.screens[id].(orientation := o));
        var s3 := Touch(t2, env, id);
        TouchOk(t2, env, id);
        var s4 := s3;
        if s3.callback && id in s3.screens {
          s4 := UpdateDisplay(s3, id, (d: Display) => Rotate(d.(orientation := o), s3.screens[id].rotation));
          OrientOk(s3, id, o);
        }
        if id in s4.screens && s4.screens[id].groupId in s4.groups {
          LayOutOk(s4, ChildrenByX(s4, s4.screens[id].groupId), 0);
        }
      }
    }
  }

  // ---------- Registration, every step, every run ----------

  lemma {:induction false} ConnectEachOk(st: State, env: Env, ids: seq<ScreenId>)
    requires Inv(st) && DispOk(st) && st.callback && env.expand && Distinct(ids)
    requires forall i :: 0 <= i < |ids| ==> NoDisplay(st, ids[i])
    ensures DispOk(ConnectEach(st, env, ids))
    decreases |ids|
  {
    hide Inv, Evolves, OnConnect, DispOk, NoDisplay, Extends, SameGrouping;
    if ids != [] {
      var s1 := if ids[0] in st.screens then OnConnect(st, env, ids[0]) else st;
      if ids[0] in st.screens {
        OnConnectInv(st, env, ids[0]);
        OnConnectOk(st, env, ids[0]);
        assert s1.callback by { EvolvesCallback(st, s1); }
      }
      assert forall i :: 0 <= i < |ids[1..]| ==> ids[1..][i] == ids[i + 1];
      ConnectEachOk(s1, env, ids[1..]);
    }
  }

  lemma EvolvesCallback(a: State, b: State)
    requires Evolves(a, b)
    ensures b.callback == a.callback
  {
  }

  lemma RegisterOk(st: State, env: Env)
    requires Inv(st) && DispOk(st) && !st.callback && env.expand
    ensures DispOk(RegisterCallback(st, env))
  {
    var s0 := st.(callback := true);
    ShapeInv(st, s0);
    EmptyDispOk(s0);
    AscendingDistinct(st.screens.Keys);
    hide Inv, DispOk, NoDisplay;
    ConnectEachOk(s0, env, Ascending(st.screens.Keys));
  }

  /** An operation of an expand-mode run: new groups expand, no mirror is made, no virtual screen is
      made the default, and the callback is registered once. */
  predicate ExpandOp(st: State, env: Env, op: Op) {
    env.expand && Admissible(op) && !op.OpMakeMirror? && !op.OpSetVirtualAsDefault? && (op.OpRegister? ==> !st.callback)
  }

  lemma StepDispOk(st: State, env: Env, op: Op)
    requires Good(st) && DispOk(st) && ExpandOp(st, env, op)
    ensures DispOk(Step(st, env, op))
  {
    hide Inv, Evolves, AgentsOk, DispOk, Homes, Connect, GetDefault, Disconnect, CreateVirtual, DestroyVirtual, OnRemoteDied,
         ServiceMakeMirror, ServiceMakeExpand, StopScreens, RemoveVirtual, SetRotation, SetOrientation,
         RegisterCallback, Unmatched, ValidIds;
    match op
    case OpConnect(rs) => ConnectOk(st, env, rs);
    case OpQueryDefault => LookupOk(st, env);
    case OpMakeExpand(ids, at) => ServiceMakeExpandOk(st, env, ids, at);
    case OpStop(ids, combination) =>
      ValidPlain(st, ids, 0);
      StopOk(st, env, ValidIds(st, ids), combination);
    case OpRemoveVirtual(ids) => RemoveVirtualOk(st, env, ids);
    case OpSetRotation(id, r) => SetRotationOk(st, env, id, r);
    case OpSetOrientation(id, o) => SetOrientationOk(st, env, id, o);
    case OpDisconnect(rs) => DisconnectOk(st, env, rs);
    case OpCreateVirtual(rs, mode, a) => CreateVirtualOk(st, env, rs, mode, a);
    case OpDestroyVirtual(id) => DestroyOk(st, env, id);
    case OpAgentDied(a) => if OnRemoteDied(st, env, a).Some? { RemoteDiedOk(st, env, a); }
    case OpRegister => RegisterOk(st, env);
  }

  /** On every expand-mode run each display is bound to a child of the expand group, no two displays
      share a screen, and the display of a real screen has its rotation and rotated size. */
  lemma {:induction false} RunDispOk(st: State, events: seq<Event>)
    requires Good(st) && DispOk(st)
    requires forall i :: 0 <= i < |events| ==> ExpandOp(Run(st, events[..i]), events[i].env, events[i].op)
    ensures DispOk(Run(st, events))
    decreases |events|
  {
    hide Good, DispOk, Step, ExpandOp;
    if events != [] {
      var s1 := Step(st, events[0].env, events[0].op);
      var rest := events[1..];
      assert Run(st, events[..0]) == st;
      assert Admissible(events[0].op) by { ExpandAdmissible(st, events[0].env, events[0].op); }
      StepGood(st, events[0].env, events[0].op);
      StepDispOk(st, events[0].env, events[0].op);
      forall i | 0 <= i < |rest| ensures ExpandOp(Run(s1, rest[..i]), rest[i].env, rest[i].op) {
        assert rest[i] == events[i + 1];
        assert events[..i + 1][0] == events[0] && events[..i + 1][1..] == rest[..i];
      }
      RunDispOk(s1, rest);
    }
  }

  lemma ExpandAdmissible(st: State, env: Env, op: Op)
    requires ExpandOp(st, env, op)
    ensures Admissible(op)
  {
  }
}

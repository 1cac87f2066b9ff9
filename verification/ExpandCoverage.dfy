/** Which children of an expand group have a display, over every run of an expanding server. */
module ExpandCoverage {
  import opened DmTypes
  import opened ScreenState
  import opened ScreenInvariant
  import opened AgentOwnership
  import opened ScreenRuns
  import opened GroupChanges
  import opened ExpandDisplays
  import opened DisplaySharing
  import MirrorSource
  import SharingSteps
  import SharingOps

  predicate Member(st: State, x: ScreenId) {
    exists g :: g in st.groups && x in st.groups[g].children
  }

  /** A real child of the group, with a mode, that no display is bound to. */
  ghost predicate Bare(st: State, x: ScreenId) {
    Member(st, x) && x in st.screens && st.screens[x].kind.REAL? && st.screens[x].mode.Some? && NoDisplay(st, x)
  }

  /** Once the callback is registered, at most one such child lacks a display. */
  ghost predicate Covered(st: State) {
    st.callback ==> forall x, y :: Bare(st, x) && Bare(st, y) ==> x == y
  }

  /** No screen has become bare. */
  ghost predicate Covers(a: State, b: State) {
    b.callback == a.callback && forall x :: Bare(b, x) ==> Bare(a, x)
  }

  lemma CoversTrans(a: State, b: State, c: State)
    requires Covers(a, b) && Covers(b, c)
    ensures Covers(a, c)
  {
    hide Bare;
  }

  lemma CoversCovered(a: State, b: State)
    requires Covers(a, b) && Covered(a)
    ensures Covered(b)
  {
    hide Bare;
  }

  lemma EvolvesCovers(a: State, b: State)
    requires Inv(a) && Evolves(a, b)
    requires forall x :: Member(b, x) ==> Member(a, x)
    requires forall x :: Member(b, x) && NoDisplay(b, x) ==> NoDisplay(a, x)
    ensures Covers(a, b)
  {
    forall x | Bare(b, x) ensures Bare(a, x) {
      MemberKnown(a, x);
    }
    hide Inv, NoDisplay;
  }

  lemma MemberKnown(st: State, x: ScreenId)
    requires Inv(st) && Member(st, x)
    ensures x in st.screens && !st.screens[x].IsGroup()
  {
    var g :| g in st.groups && x in st.groups[g].children;
    assert GroupOk(st, g);
  }

  /** Binding and membership as before. */
  lemma BindingCovers(a: State, b: State)
    requires Inv(a) && Evolves(a, b) && b.groups == a.groups && SharingOps.SameBinding(a, b)
    ensures Covers(a, b)
  {
    forall x | NoDisplay(b, x) ensures NoDisplay(a, x) {
    }
    hide NoDisplay, Inv, Evolves;
    EvolvesCovers(a, b);
  }

  lemma FewCovered(st: State)
    requires forall x, y :: Member(st, x) && Member(st, y) ==> x == y
    ensures Covered(st)
  {
    hide Member;
  }

  // ---------- Lookups ----------

  lemma LookupCovered(st: State, env: Env)
    requires Inv(st) && Covered(st)
    ensures Covered(GetDefault(st, env).0)
  {
    hide Inv, Evolves, Extends, GetDefault, Covered, Covers, Member;
    LookupInv(st, env);
    var s1 := GetDefault(st, env).0;
    if st.groups != map[] {
      ExtendsBinding(st, s1);
      BindingCovers(st, s1);
      CoversCovered(st, s1);
    } else {
      LookupFew(st, env);
      FewCovered(s1);
    }
  }

  lemma ExtendsBinding(a: State, b: State)
    requires Extends(a, b)
    ensures b.groups == a.groups && SharingOps.SameBinding(a, b)
  {
  }

  lemma LookupFew(st: State, env: Env)
    requires st.groups == map[]
    ensures var r := GetDefault(st, env).0; forall x, y :: Member(r, x) && Member(r, y) ==> x == y
  {
    hide CalcRotation, CreateId, DeleteId, NewDisplay;
    var s0 := Learn(st, env);
    if !Settled(st, env) { FoundFew(s0, env); }
    hide ConnectDefault;
  }

  lemma FoundFew(st: State, env: Env)
    requires st.groups == map[]
    ensures var r := ConnectDefault(st, env); forall x, y :: Member(r, x) && Member(r, y) ==> x == y
  {
    hide CalcRotation, CreateId, DeleteId, NewDisplay, WithNode;
  }

  // ---------- Joining ----------

  lemma DispNumbered(st: State)
    requires Inv(st) && DispOk(st)
    ensures Numbered(st) && Unshared(st.displays)
  {
    forall k | k in st.displays ensures st.displays[k].screenId < st.ids.count {
      assert Housed(st, st.displays[k].screenId);
      assert ScreenOk(st, st.displays[k].screenId);
    }
  }

  /** The connect callback takes no display away, and gives one to a real child that is not alone. */
  lemma OnConnectCovers(st: State, env: Env, id: ScreenId)
    requires Inv(st) && DispOk(st) && id in st.screens && st.screens[id].groupId in st.groups
    ensures var r := OnConnect(st, env, id);
            && Covers(st, r) && r.groups == st.groups
            && (|st.groups[st.screens[id].groupId].children| > 1 ==> !Bare(r, id))
  {
    var r := OnConnect(st, env, id);
    DispNumbered(st);
    OnConnectShares(st, env, id);
    OnConnectInv(st, env, id);
    OnConnectSelf(st, env, id);
    assert Evolves(st, r) && r.callback == st.callback && r.groups == st.groups;
    hide Inv, DispOk, Numbered, Unshared, OnConnect, Evolves, NoDisplay, Extends;
    EvolvesCovers(st, r);
  }

  lemma OnConnectSelf(st: State, env: Env, id: ScreenId)
    requires Inv(st) && DispOk(st) && id in st.screens && st.screens[id].groupId in st.groups
    ensures var r := OnConnect(st, env, id);
            && (NoDisplay(r, id) ==> NoDisplay(st, id)) && id in r.screens
            && (|st.groups[st.screens[id].groupId].children| > 1 && r.screens[id].kind.REAL? && r.screens[id].mode.Some? ==>
                  !NoDisplay(r, id))
  {
    assert st.groups[st.screens[id].groupId].combination.SCREEN_EXPAND?;
    AddExpandSelf(st, env, id);
    BindAloneSelf(st, env, id);
    hide AddExpand, BindAlone, Inv, DispOk, NoDisplay;
  }

  lemma BindAloneSelf(st: State, env: Env, id: ScreenId)
    requires Inv(st) && id in st.screens && st.groups != map[]
    ensures var r := BindAlone(st, env, id); (NoDisplay(r, id) ==> NoDisplay(st, id)) && id in r.screens
  {
    LookupInv(st, env);
    var s1 := GetDefault(st, env).0;
    assert s1.displays == st.displays && s1.screens[id] == st.screens[id];
    hide GetDefault, Inv, Extends, Evolves;
    if st.screens[id].mode.Some? {
      CreatedFor(s1, id, st.screens[id].mode.value, ORIGIN);
    }
    hide CreateDisplay;
  }

  lemma AddExpandSelf(st: State, env: Env, id: ScreenId)
    requires Inv(st) && DispOk(st) && id in st.screens && st.groups != map[]
    ensures var r := AddExpand(st, env, id);
            && (NoDisplay(r, id) ==> NoDisplay(st, id)) && id in r.screens
            && (r.screens[id].kind.REAL? && r.screens[id].mode.Some? ==> !NoDisplay(r, id))
  {
    var found := FirstDisplay(st.displays, id, 0, st.displayCount);
    BindExpandSelf(st, env, id);
    hide BindExpand, NoDisplay, Inv, DispOk, FirstDisplay;
    if found.Some? {
      BoundTo(st, found.value, id);
    }
  }

  lemma BindExpandSelf(st: State, env: Env, id: ScreenId)
    requires Inv(st) && id in st.screens && st.groups != map[]
    ensures var r := BindExpand(st, env, id);
            && (NoDisplay(r, id) ==> NoDisplay(st, id)) && id in r.screens
            && (r.screens[id].kind.REAL? && r.screens[id].mode.Some? ==> !NoDisplay(r, id))
  {
    LookupInv(st, env);
    var (s1, d) := GetDefault(st, env);
    assert s1.displays == st.displays && s1.screens[id] == st.screens[id];
    hide GetDefault, Inv, Extends, Evolves, CreateDisplay, NoDisplay;
    var m1 := if st.screens[id].mode.Some? then st.screens[id].mode.value else Mode(0, 0);
    var m2 := if d in s1.screens && s1.screens[d].mode.Some? then s1.screens[d].mode.value else Mode(0, 0);
    CreatedFor(s1, id, m1, s1.screens[id].start);
    CreatedFor(s1, id, m2, s1.screens[id].start);
    SameDisplays(st, s1, id);
  }

  lemma BoundTo(st: State, k: DisplayId, id: ScreenId)
    requires k in st.displays && st.displays[k].screenId == id
    ensures !NoDisplay(st, id)
  {
  }

  lemma SameDisplays(a: State, b: State, id: ScreenId)
    requires b.displays == a.displays
    ensures NoDisplay(b, id) <==> NoDisplay(a, id)
  {
  }

  lemma CreatedFor(st: State, id: ScreenId, m: Mode, p: Point)
    requires id in st.screens
    ensures !NoDisplay(CreateDisplay(st, id, m, p), id) && CreateDisplay(st, id, m, p).screens == st.screens
  {
    assert CreateDisplay(st, id, m, p).displays[st.displayCount].screenId == id;
  }

  // ---------- Leaving ----------

  /** The disconnect callback and the removal take only that screen away, and its display. */
  lemma DropCovers(st: State, env: Env, id: ScreenId)
    requires Inv(st) && DispOk(st) && env.expand && id in st.screens && !st.screens[id].IsGroup()
    ensures var s1 := if st.callback && InGroup(st, id) then OnDisconnect(st, env, id) else st;
            && id in s1.screens
            && var r := RemoveFromGroup(s1, id).0; Covers(st, r) && !Member(r, id)
  {
    DropOk(st, env, id);
    DropInv(st, env, id);
    var s1 := if st.callback && InGroup(st, id) then OnDisconnect(st, env, id) else st;
    var r := RemoveFromGroup(s1, id).0;
    DropMembers(s1, id);
    assert r.callback == st.callback && s1.groups == st.groups;
    hide RemoveFromGroup, OnDisconnect, Inv, DispOk, Evolves;
    forall x | Member(r, x) && NoDisplay(r, x) ensures NoDisplay(st, x) {
      UnboundKeeps(st, r, id, x);
    }
    hide NoDisplay, Unbound;
    EvolvesCovers(st, r);
  }

  lemma UnboundKeeps(a: State, b: State, id: ScreenId, x: ScreenId)
    requires Unbound(a, b, {id}) && x != id
    ensures NoDisplay(b, x) ==> NoDisplay(a, x)
  {
    if !NoDisplay(a, x) {
      var k :| k in a.displays && a.displays[k].screenId == x;
      assert k in b.displays && b.displays[k].screenId == x;
    }
  }

  lemma DropMembers(st: State, id: ScreenId)
    requires Inv(st) && id in st.screens && !st.screens[id].IsGroup()
    ensures var r := RemoveFromGroup(st, id).0;
            forall x :: Member(r, x) ==> Member(st, x) && x != id
  {
    assert ScreenOk(st, id);
    var g := st.screens[id].groupId;
    if g in st.groups {
      RemoveChildInv(st, g, id);
    } else {
      forall x | Member(st, x) ensures x != id {
        var h :| h in st.groups && x in st.groups[h].children;
        assert GroupOk(st, h);
      }
    }
    hide Inv;
  }

  lemma CoversRefl(st: State)
    ensures Covers(st, st)
  {
  }

  lemma {:induction false} StopCovers(st: State, env: Env, ids: seq<ScreenId>, combination: Combination)
    requires Inv(st) && DispOk(st) && env.expand && Plain(st, ids)
    ensures Covers(st, StopScreens(st, env, ids, combination))
    decreases |ids|
  {
    hide Inv, Evolves, StopOne, DispOk, Covers;
    CoversRefl(st);
    if ids != [] {
      var s1 := StopOne(st, env, ids[0], combination);
      assert Plain(st, [ids[0]]);
      StopOneInv(st, env, ids[0], combination);
      StopOneOk(st, env, ids[0], combination);
      StopOneCovers(st, env, ids[0], combination);
      EvolvesPlain(st, s1, ids[1..]);
      StopCovers(s1, env, ids[1..], combination);
      CoversTrans(st, s1, StopScreens(s1, env, ids[1..], combination));
    }
  }

  lemma StopOneCovers(st: State, env: Env, id: ScreenId, combination: Combination)
    requires Inv(st) && DispOk(st) && env.expand && Plain(st, [id])
    ensures Covers(st, StopOne(st, env, id, combination))
  {
    assert id in [id];
    CoversRefl(st);
    if StopOne(st, env, id, combination) != st {
      StopOneIsRemoval(st, env, id, combination);
      hide Inv, DispOk, OnDisconnect, RemoveFromGroup, StopOne, Covers;
      DropCovers(st, env, id);
    }
  }

  lemma {:induction false} RemoveVirtualCovers(st: State, env: Env, ids: seq<ScreenId>)
    requires Inv(st) && DispOk(st) && env.expand
    ensures Covers(st, RemoveVirtual(st, env, ids))
    decreases |ids|
  {
    hide Inv, Evolves, OnDisconnect, RemoveFromGroup, DispOk, Covers, NoDisplay, Unbound;
    CoversRefl(st);
    if ids != [] {
      var s1 := RemoveVirtualOne(st, env, ids[0]);
      if s1 != st {
        DropInv(st, env, ids[0]);
        DropOk(st, env, ids[0]);
        DropCovers(st, env, ids[0]);
      }
      RemoveVirtualCovers(s1, env, ids[1..]);
      CoversTrans(st, s1, RemoveVirtual(s1, env, ids[1..]));
    }
  }

  lemma TakeOutOneCovers(st: State, env: Env, g: ScreenId, id: ScreenId, filter: bool)
    requires Inv(st) && DispOk(st) && env.expand && Plain(st, [id])
    ensures Covers(st, TakeOutOne(st, env, g, id, filter))
  {
    assert id in [id];
    CoversRefl(st);
    hide Inv, DispOk, OnDisconnect, RemoveFromGroup, Covers;
    DropCovers(st, env, id);
  }

  lemma {:induction false} TakeOutCovers(st: State, env: Env, g: ScreenId, ids: seq<ScreenId>, at: seq<Point>, filter: bool)
    requires Inv(st) && DispOk(st) && env.expand && Plain(st, ids) && |ids| == |at|
    ensures Covers(st, TakeOut(st, env, g, ids, at, filter).0)
    decreases |ids|
  {
    hide Inv, DispOk, NoDisplay, Unbound, TakeOutOne, Evolves, Moves, Covers;
    CoversRefl(st);
    if ids != [] {
      var s1 := TakeOutOne(st, env, g, ids[0], filter);
      assert Plain(st, [ids[0]]);
      TakeOutOneOk(st, env, g, ids[0], filter);
      TakeOutOneInv(st, env, g, ids[0], filter);
      TakeOutOneCovers(st, env, g, ids[0], filter);
      EvolvesPlain(st, s1, ids[1..]);
      TakeOutCovers(s1, env, g, ids[1..], at[1..], filter);
      CoversTrans(st, s1, TakeOut(s1, env, g, ids[1..], at[1..], filter).0);
    }
  }

  // ---------- MakeExpand ----------

  /** A screen that joins a group with another child gets its display. */
  lemma PlaceCovers(st: State, env: Env, g: ScreenId, id: ScreenId, p: Point)
    requires Inv(st) && DispOk(st) && g in st.groups && Loose(st, id) && env.expand
    ensures var r := PlaceChild(st, env, g, id, p);
            && r.callback == st.callback && (forall x :: Bare(r, x) ==> x == id || Bare(st, x))
            && id in r.screens && r.screens[id].groupId == g && g in r.groups && |r.groups[g].children| > 1
  {
    assert GroupOk(st, g);
    assert id !in st.groups[g].children;
    var a := Pick(st.groups[g].children);
    var r := PlaceChild(st, env, g, id, p);
    assert {a, id} <= r.groups[g].children;
    SizeGrows({a, id}, r.groups[g].children);
    forall x | Member(r, x) && x != id ensures Member(st, x) {
    }
    hide Inv, DispOk, GroupOk;
  }

  lemma SizeGrows(a: set<ScreenId>, b: set<ScreenId>)
    requires a <= b
    ensures |a| <= |b|
  {
    assert b == a + (b - a);
  }

  lemma TouchCovers(st: State, env: Env, id: ScreenId)
    requires Inv(st)
    ensures Covers(st, Touch(st, env, id))
  {
    TouchInv(st, env, id);
    SharingOps.TouchBinding(st, env, id);
    MirrorSource.TouchGroups(st, env, id);
    hide Inv, Evolves, Touch, Covers, Extends;
    BindingCovers(st, Touch(st, env, id));
  }

  /** The joined screen is touched and called back: no screen but it can be bare, and it is not. */
  lemma JoinedCovers(st: State, env: Env, id: ScreenId)
    requires Inv(st) && DispOk(st) && env.expand && id in st.screens && st.callback && st.screens[id].groupId in st.groups
    requires |st.groups[st.screens[id].groupId].children| > 1
    ensures var s2 := Touch(st, env, id);
            id in s2.screens && var r := OnConnect(s2, env, id); Covers(st, r) && !Bare(r, id)
  {
    var s2 := Touch(st, env, id);
    TouchInv(st, env, id);
    TouchOk(st, env, id);
    TouchCovers(st, env, id);
    MirrorSource.TouchGroups(st, env, id);
    hide Inv, DispOk, Homes, Evolves, Touch, OnConnect, Covers, Bare, Extends;
    OnConnectCovers(s2, env, id);
    CoversTrans(st, s2, OnConnect(s2, env, id));
  }

  lemma PutInOneCovers(st: State, env: Env, g: ScreenId, t: Taken)
    requires Inv(st) && DispOk(st) && env.expand && st.callback && g in st.groups && Loose(st, t.id) && NoDisplay(st, t.id)
    ensures Covers(st, PutInOne(st, env, g, t).0)
  {
    assert st.groups[g].combination.SCREEN_EXPAND?;
    AddChildPlain(st, env, g, t.id, t.at);
    AddChildInv(st, env, g, t.id, t.at);
    AddChildOk(st, env, g, t.id, t.at);
    PlaceCovers(st, env, g, t.id, t.at);
    PutInOneIs(st, env, g, t);
    hide *;
    JoinedCovers(PlaceChild(st, env, g, t.id, t.at), env, t.id);
    PlacedCovers(st, PlaceChild(st, env, g, t.id, t.at), PutInOne(st, env, g, t).0, t.id);
  }

  lemma PlacedCovers(a: State, b: State, c: State, id: ScreenId)
    requires b.callback == a.callback && (forall x :: Bare(b, x) ==> x == id || Bare(a, x))
    requires Covers(b, c) && !Bare(c, id)
    ensures Covers(a, c)
  {
    hide Bare;
  }

  lemma PutInOneIs(st: State, env: Env, g: ScreenId, t: Taken)
    requires Inv(st) && st.callback && HasSource(st, g) && Loose(st, t.id)
    ensures var s1 := PlaceChild(st, env, g, t.id, t.at);
            PutInOne(st, env, g, t).0 == OnConnect(Touch(s1, env, t.id), env, t.id)
  {
    AddChildPlain(st, env, g, t.id, t.at);
    AddChildInv(st, env, g, t.id, t.at);
    var s1 := PlaceChild(st, env, g, t.id, t.at);
    assert s1.callback;
    hide Inv, Evolves, Touch, OnConnect, AddChild, PlaceChild;
    SharingOps.TouchBinding(s1, env, t.id);
  }

  lemma {:induction false} PutInCovers(st: State, env: Env, g: ScreenId, taken: seq<Taken>)
    requires Inv(st) && DispOk(st) && env.expand && st.callback && HasSource(st, g) && DistinctTaken(taken)
    requires forall i :: 0 <= i < |taken| ==> Loose(st, taken[i].id) && NoDisplay(st, taken[i].id)
    ensures Covers(st, PutIn(st, env, g, taken).0)
    decreases |taken|
  {
    hide Inv, DispOk, NoDisplay, Evolves, PutInOne, Covers, HasSource, Plain;
    CoversRefl(st);
    if taken != [] {
      var t := taken[0];
      var s1 := PutInOne(st, env, g, t).0;
      var rest := taken[1..];
      assert g in st.groups by { Sourced(st, g); }
      LoosePlain(st, t.id);
      PutInOneOk(st, env, g, t);
      PutInOneInv(st, env, g, t);
      PutInOneEffect(st, env, g, t);
      PutInOneCovers(st, env, g, t);
      forall i | 0 <= i < |rest| ensures Loose(s1, rest[i].id) && NoDisplay(s1, rest[i].id) {
        assert rest[i] == taken[i + 1];
        JoinsLoose(st, s1, env, g, t, rest[i].id);
      }
      assert s1.callback by { CoversCallback(st, s1); }
      PutInCovers(s1, env, g, rest);
      CoversTrans(st, s1, PutIn(s1, env, g, rest).0);
    }
  }

  lemma Sourced(st: State, g: ScreenId)
    requires HasSource(st, g)
    ensures g in st.groups
  {
  }

  lemma CoversCallback(a: State, b: State)
    requires Covers(a, b)
    ensures b.callback == a.callback
  {
  }

  lemma JoinsLoose(a: State, b: State, env: Env, g: ScreenId, t: Taken, x: ScreenId)
    requires JoinsOnly(a, b, env, g, [t]) && Loose(a, x) && x != t.id
    ensures Loose(b, x)
  {
    assert x !in IdsOf([t]);
  }

  lemma ChangeCovers(st: State, env: Env, g: ScreenId, ids: seq<ScreenId>, at: seq<Point>, filter: bool)
    requires Inv(st) && DispOk(st) && env.expand && Plain(st, ids) && |ids| == |at| && Distinct(ids) && HasAnchor(st, g, ids)
    requires st.callback
    ensures Covers(st, ChangeScreenGroup(st, env, g, ids, at, filter, SCREEN_EXPAND).0)
  {
    var (s1, taken) := TakeOut(st, env, g, ids, at, filter);
    TakeOutInv(st, env, g, ids, at, filter);
    TakeOutOk(st, env, g, ids, at, filter);
    TakeOutCovers(st, env, g, ids, at, filter);
    TakeOutEffect(st, env, g, ids, at, filter);
    TakenOfIds(st, g, ids, at, filter);
    TakenLoose(st, s1, g, Movers(st, g, ids, filter), taken);
    ExpandSource(s1, g);
    CoversCallback(st, s1);
    hide Inv, DispOk, NoDisplay, TakeOut, TakenOf, PutIn, LeavesOnly, Movers, DistinctTaken, Covers, Loose, HasSource, HasAnchor;
    ExpandingOk(s1, g);
    PutInCovers(s1, env, g, taken);
    CoversTrans(st, s1, PutIn(s1, env, g, taken).0);
  }

  lemma TakenLoose(a: State, b: State, g: ScreenId, out: set<ScreenId>, taken: seq<Taken>)
    requires Inv(a) && Inv(b) && Evolves(a, b) && LeavesOnly(a, b, g, out) && IdsOf(taken) == out
    requires forall id :: id in out ==> id in a.screens && !a.screens[id].IsGroup()
    ensures forall i :: 0 <= i < |taken| ==> Loose(b, taken[i].id)
    ensures g in b.groups
  {
    forall i | 0 <= i < |taken| ensures Loose(b, taken[i].id) {
      assert taken[i].id in IdsOf(taken);
    }
  }

  lemma ExpandSource(st: State, g: ScreenId)
    requires DispOk(st) && g in st.groups
    ensures HasSource(st, g)
  {
  }

  lemma MakeExpandCovered(st: State, env: Env, all: seq<ScreenId>, points: seq<Point>)
    requires Inv(st) && DispOk(st) && env.expand && Plain(st, all) && Distinct(all) && |points| == |all|
    requires GetDefault(st, env).1 !in all && st.callback && Covered(st)
    ensures Covered(MakeExpand(st, env, all, points).0)
  {
    hide Inv, DispOk, GetDefault, ChangeScreenGroup, Plain, Homes, Extends, Distinct, Evolves, Covered, Covers;
    var (s1, d) := GetDefault(st, env);
    LookupOk(st, env);
    LookupInv(st, env);
    LookupCovered(st, env);
    if d in s1.screens && s1.screens[d].groupId in s1.groups {
      var g := s1.screens[d].groupId;
      GroupedDefault(s1, d);
      EvolvesPlain(st, s1, all);
      EvolvesCallback(st, s1);
      assert HasAnchor(s1, g, all);
      var filter := s1.groups[g].combination.SCREEN_EXPAND?;
      ChangeCovers(s1, env, g, all, points, filter);
      CoversCovered(s1, ChangeScreenGroup(s1, env, g, all, points, filter, SCREEN_EXPAND).0);
    }
  }

  lemma ServiceMakeExpandCovered(st: State, env: Env, ids: seq<ScreenId>, at: seq<Point>)
    requires Inv(st) && DispOk(st) && env.expand && st.callback && Covered(st)
    ensures Covered(ServiceMakeExpand(st, env, ids, at).0)
  {
    hide Inv, DispOk, GetDefault, MakeExpand, Plain, Homes, Distinct, ValidIds, RemoveFirst, PointsFor, FirstPoints, Wanted,
         Covered, Evolves;
    var (s1, d) := GetDefault(st, env);
    LookupOk(st, env);
    LookupInv(st, env);
    LookupCovered(st, env);
    EvolvesCallback(st, s1);
    DefaultTwice(st, env);
    ServiceList(s1, ids, d);
    var all := RemoveFirst(ValidIds(s1, ids), d);
    if |ids| == |at| && |PointsFor(all, FirstPoints(ids, at))| == |all| {
      MakeExpandCovered(s1, env, all, PointsFor(all, FirstPoints(ids, at)));
    }
  }

  // ---------- Connecting ----------

  lemma NewJoins(st: State, env: Env, id: ScreenId)
    requires Inv(st) && st.groups != map[] && Loose(st, id)
    ensures var (r, g) := AddAsSuccedent(st, env, id);
            g != SCREEN_ID_INVALID ==>
              && r.callback == st.callback && (forall x :: Bare(r, x) ==> x == id || Bare(st, x))
              && id in r.screens && r.screens[id].groupId == g && g in r.groups && |r.groups[g].children| > 1
  {
    var (r, g) := AddAsSuccedent(st, env, id);
    SharingSteps.SucceedJoins(st, env, id);
    AddAsSuccedentInv(st, env, id);
    hide AddAsSuccedent, Inv, Evolves, KnownDefault;
    if g != SCREEN_ID_INVALID {
      var a := GroupMate(st, g, id);
      assert {a, id} <= r.groups[g].children;
      SizeGrows({a, id}, r.groups[g].children);
      OneGroupMembers(r, g);
      JoinedBare(st, r, env, id, g);
    }
  }

  lemma JoinedBare(a: State, b: State, env: Env, id: ScreenId, g: ScreenId)
    requires Inv(a) && SharingSteps.Joined(a, env, id, b, g)
    requires forall x :: Member(b, x) ==> x in b.groups[g].children
    ensures forall x :: Bare(b, x) ==> x == id || Bare(a, x)
  {
    hide KnownDefault;
    forall x | Bare(b, x) && x != id ensures Bare(a, x) {
      assert x in a.groups[g].children;
      MemberKnown(a, x);
      hide Inv;
    }
  }

  lemma GroupMate(st: State, g: ScreenId, id: ScreenId) returns (a: ScreenId)
    requires Inv(st) && g in st.groups && Loose(st, id)
    ensures a in st.groups[g].children && a != id
  {
    assert GroupOk(st, g);
    a := Pick(st.groups[g].children);
  }

  lemma OneGroupMembers(st: State, g: ScreenId)
    requires Inv(st) && g in st.groups
    ensures forall x :: Member(st, x) ==> x in st.groups[g].children
  {
  }

  lemma BuiltInCovers(st: State, env: Env, rs: ScreenId, id: ScreenId)
    requires id in st.screens
    ensures Covers(st, BuiltIn(st, env, rs, id))
  {
    hide CalcRotation;
  }

  lemma FirstFew(st: State, env: Env, id: ScreenId)
    requires st.groups == map[] && id in st.screens
    ensures var r := AddAsFirst(st, env, id).0; forall x, y :: Member(r, x) && Member(r, y) ==> x == y
  {
    hide WithNode, CreateId;
  }

  lemma FewSame(a: State, b: State)
    requires b.groups == a.groups && forall x, y :: Member(a, x) && Member(a, y) ==> x == y
    ensures Covered(b)
  {
    assert forall x :: Member(b, x) <==> Member(a, x);
    hide Member;
    FewCovered(b);
  }

  lemma BuiltKeeps(st: State, env: Env, rs: ScreenId, id: ScreenId)
    requires Inv(st) && DispOk(st) && id in st.screens && NoDisplay(st, id)
    ensures var r := BuiltIn(st, env, rs, id);
            && Inv(r) && DispOk(r) && Covers(st, r) && r.callback == st.callback && r.groups == st.groups
            && id in r.screens && r.screens[id].groupId == st.screens[id].groupId
  {
    BuiltInShape(st, env, rs, id);
    RedrawsInv(st, BuiltIn(st, env, rs, id), id);
    BuiltInHomes(st, env, rs, id);
    BuiltInCovers(st, env, rs, id);
    hide Inv, DispOk, NoDisplay, Covers, CalcRotation;
  }

  /** The first child is alone, and what follows does not change that. */
  lemma AddedFirst(st: State, env: Env, rs: ScreenId, id: ScreenId)
    requires Inv(st) && DispOk(st) && env.expand && st.groups == map[] && Loose(st, id) && NoDisplay(st, id)
    ensures var s3 := Touch(BuiltIn(AddAsFirst(st, env, id).0, env, rs, id), env, id);
            s3.callback == st.callback && Covered(OnConnect(s3, env, id)) && AddAsFirst(st, env, id).1 != SCREEN_ID_INVALID
  {
    hide DispOk, Evolves, BuiltIn, Touch, OnConnect, Covered, Covers, Member, NoDisplay, WithNode, Extends;
    var s2 := AddAsFirst(st, env, id).0;
    AddToGroupInv(st, env, id);
    AddToGroupOk(st, env, id);
    FirstFew(st, env, id);
    assert s2.callback == st.callback && s2.groups != map[];
    BuiltKeeps(s2, env, rs, id);
    var s3 := BuiltIn(s2, env, rs, id);
    hide AddAsFirst, Inv;
    TouchInv(s3, env, id);
    SharingOps.TouchBinding(s3, env, id);
    MirrorSource.TouchGroups(s3, env, id);
    OnConnectInv(Touch(s3, env, id), env, id);
    FewSame(s2, OnConnect(Touch(s3, env, id), env, id));
  }

  lemma AddedBehind(st: State, env: Env, rs: ScreenId, id: ScreenId)
    requires Inv(st) && DispOk(st) && env.expand && st.groups != map[] && Loose(st, id) && NoDisplay(st, id) && st.callback
    requires Covered(st) && AddAsSuccedent(st, env, id).1 != SCREEN_ID_INVALID
    ensures var s3 := Touch(BuiltIn(AddAsSuccedent(st, env, id).0, env, rs, id), env, id);
            s3.callback && Covered(OnConnect(s3, env, id))
  {
    hide DispOk, Evolves, BuiltIn, Touch, OnConnect, Covered, Covers, Member, NoDisplay, WithNode, Extends, Bare, Inv,
         AddAsSuccedent;
    var s2 := AddAsSuccedent(st, env, id).0;
    AddToGroupInv(st, env, id);
    AddToGroupOk(st, env, id);
    NewJoins(st, env, id);
    BuiltKeeps(s2, env, rs, id);
    var s3 := BuiltIn(s2, env, rs, id);
    SharingOps.TouchBinding(s3, env, id);
    JoinedCovers(s3, env, id);
    var r := OnConnect(Touch(s3, env, id), env, id);
    BuiltPlaced(st, s2, s3, id);
    PlacedCovers(st, s3, r, id);
    CoversCovered(st, r);
  }

  lemma BuiltPlaced(a: State, b: State, c: State, id: ScreenId)
    requires forall x :: Bare(b, x) ==> x == id || Bare(a, x)
    requires Covers(b, c)
    ensures forall x :: Bare(c, x) ==> x == id || Bare(a, x)
  {
    hide Bare;
  }

  lemma AddedRefused(st: State, env: Env, id: ScreenId)
    requires Inv(st) && Covered(st) && st.groups != map[] && id in st.screens
    requires AddAsSuccedent(st, env, id).1 == SCREEN_ID_INVALID
    ensures Covered(AddAsSuccedent(st, env, id).0)
  {
    LookupCovered(st, env);
    LookupInv(st, env);
    NoInvalidGroup(GetDefault(st, env).0);
    hide Inv, GetDefault, Covered, AddChild, Evolves;
  }

  lemma NewCovered(st: State, env: Env, rs: ScreenId)
    requires Inv(st) && DispOk(st) && env.expand && st.callback && Covered(st)
    requires rs != SCREEN_ID_INVALID && rs !in st.ids.rs2Dms
    ensures Covered(Connect(st, env, rs))
  {
    hide Inv, DispOk, Evolves, Extends, InitScreen, AddAsFirst, AddAsSuccedent, BuiltIn, Touch, OnConnect, Covered, Covers,
         NoDisplay, Homes, Bare, Member, Loose;
    var (s1, d) := InitScreen(st, env, rs);
    InitScreenInv(st, env, rs);
    ExtendsHomes(st, s1);
    HomesOk(st, s1);
    InitCovered(st, env, rs);
    if d != SCREEN_ID_INVALID {
      FreshNoDisplay(st, d);
      if s1.groups == map[] {
        AddedFirst(s1, env, rs, d);
      } else if AddAsSuccedent(s1, env, d).1 == SCREEN_ID_INVALID {
        AddedRefused(s1, env, d);
      } else {
        AddedBehind(s1, env, rs, d);
      }
    }
  }

  lemma InitCovered(st: State, env: Env, rs: ScreenId)
    requires Inv(st) && Covered(st) && rs != SCREEN_ID_INVALID && rs !in st.ids.rs2Dms
    ensures var (s1, d) := InitScreen(st, env, rs);
            && Covered(s1) && s1.callback == st.callback
            && (d != SCREEN_ID_INVALID ==> d !in st.screens && Loose(s1, d))
  {
    var (s1, d) := InitScreen(st, env, rs);
    InitScreenInv(st, env, rs);
    ExtendsBinding(st, s1);
    ExtendsKeeps(st, s1);
    KeepsEvolves(st, s1);
    assert st.ids.count in st.screens ==> ScreenOk(st, st.ids.count);
    hide Inv, Evolves, Extends, Keeps, Covered, Covers;
    BindingCovers(st, s1);
    CoversCovered(st, s1);
  }

  /** The default screen, outside the group it was last in, which still exists. */
  predicate Outside(st: State, d: ScreenId) {
    d in st.screens && st.screens[d].kind.REAL? && st.screens[d].mode.Some?
    && st.screens[d].lastGroupId in st.groups && d !in st.groups[st.screens[d].lastGroupId].children
  }

  /** Plugging in a default that has only left its group puts it back without a callback, while another child
      has no display either. */
  ghost predicate Slips(st: State, op: Op) {
    && op.OpConnect? && op.rs == st.defaultRs && op.rs in st.ids.rs2Dms && st.callback
    && Outside(st, st.ids.rs2Dms[op.rs]) && exists x :: Bare(st, x)
  }

  lemma ReconnectExact(st: State, env: Env, rs: ScreenId)
    requires Inv(st) && DispOk(st) && Covered(st) && rs != SCREEN_ID_INVALID && rs in st.ids.rs2Dms
    ensures Covered(Connect(st, env, rs)) <==> !Slips(st, OpConnect(rs))
  {
    var d := st.ids.rs2Dms[rs];
    if rs == st.defaultRs && d in st.screens && st.screens[d].lastGroupId in st.groups {
      MappedPlain(st, rs);
      var g := st.screens[d].lastGroupId;
      var r := AddChild(st, env, g, d, ORIGIN).0;
      if d in st.groups[g].children {
        AgainCovers(st, env, g, d);
        hide Inv, DispOk, AddChild, Bare, Covered;
        CoversCovered(st, r);
      } else {
        ExpandSource(st, g);
        OutsideLoose(st, g, d);
        AddChildPlain(st, env, g, d, ORIGIN);
        hide Inv, DispOk, AddChild;
        PutBack(st, env, g, d);
      }
    }
  }

  lemma OutsideLoose(st: State, g: ScreenId, d: ScreenId)
    requires Inv(st) && DispOk(st) && g in st.groups && d in st.screens && !st.screens[d].IsGroup() && d !in st.groups[g].children
    ensures Loose(st, d) && NoDisplay(st, d) && !Member(st, d)
  {
    assert ScreenOk(st, d);
    NotHoused(st, d) by { NoInvalidGroup(st); }
    hide DispOk, NoDisplay;
  }

  lemma AgainCovers(st: State, env: Env, g: ScreenId, d: ScreenId)
    requires Inv(st) && DispOk(st) && g in st.groups && d in st.groups[g].children
    ensures Covers(st, AddChild(st, env, g, d, ORIGIN).0)
  {
    AddChildOld(st, env, g, d, ORIGIN);
    assert NodeConfig(st, env, g, d) == st;
    hide AddChild, NodeConfig, Inv, DispOk;
    CoversRefl(st);
    var s := st.screens[d].(start := ORIGIN);
    forall x | Bare(st.(screens := st.screens[d := s]), x) ensures Bare(st, x) {
    }
  }

  lemma PutBack(st: State, env: Env, g: ScreenId, d: ScreenId)
    requires g in st.groups && d in st.screens && NoDisplay(st, d) && !Member(st, d) && Covered(st)
    ensures var s := st.screens[d];
            Covered(PlaceChild(st, env, g, d, ORIGIN)) <==>
              !(st.callback && s.kind.REAL? && s.mode.Some? && exists x :: Bare(st, x))
  {
    var r := PlaceChild(st, env, g, d, ORIGIN);
    assert d in r.groups[g].children;
    forall x ensures Bare(r, x) <==> Bare(st, x) || (x == d && st.screens[d].kind.REAL? && st.screens[d].mode.Some?) {
      PlacedMember(st, env, g, d, x);
      hide Member;
    }
    assert r.callback == st.callback && !Bare(st, d);
    hide PlaceChild, Bare;
    if x :| Bare(st, x) {
      assert x != d && Bare(r, x);
      assert st.screens[d].kind.REAL? && st.screens[d].mode.Some? ==> Bare(r, d);
    }
  }

  lemma PlacedMember(st: State, env: Env, g: ScreenId, d: ScreenId, x: ScreenId)
    requires g in st.groups && d in st.screens
    ensures Member(PlaceChild(st, env, g, d, ORIGIN), x) <==> Member(st, x) || x == d
  {
    var r := PlaceChild(st, env, g, d, ORIGIN);
    assert d in r.groups[g].children;
    if Member(st, x) {
      var h :| h in st.groups && x in st.groups[h].children;
      assert x in r.groups[h].children;
    }
  }

  // ---------- Disconnecting ----------

  lemma UnplugCovers(st: State, g: ScreenId, d: ScreenId)
    requires g in st.groups && d in st.screens
    ensures Covers(st, RemoveDefaultScreen(st, g, d))
  {
    var r := RemoveDefaultScreen(st, g, d);
    forall x | Member(r, x) ensures Member(st, x) {
      var h :| h in r.groups && x in r.groups[h].children;
      assert x in st.groups[h].children;
    }
    hide Member;
  }

  lemma ForgetCovers(st: State, d: ScreenId, ids: Ids)
    ensures Covers(st, st.(screens := st.screens - {d}, ids := ids))
    ensures Covers(st, st.(ids := ids))
  {
  }

  lemma DisconnectCovers(st: State, env: Env, rs: ScreenId)
    requires Inv(st) && DispOk(st) && env.expand
    ensures Covers(st, Disconnect(st, env, rs))
  {
    CoversRefl(st);
    if rs in st.ids.rs2Dms {
      var d := st.ids.rs2Dms[rs];
      if d !in st.screens {
        ForgetCovers(st, d, DeleteId(st.ids, d));
      } else if st.callback && InGroup(st, d) && rs == st.defaultRs {
        hide Inv, DispOk, Covers;
        UnplugCovers(st, st.screens[d].groupId, d);
      } else {
        MappedPlain(st, rs);
        hide Inv, OnDisconnect, RemoveFromGroup, NoDisplay, Unbound, Evolves, Covers;
        var s1 := if st.callback && InGroup(st, d) then OnDisconnect(st, env, d) else st;
        DropOk(st, env, d);
        DropCovers(st, env, d);
        var (s2, g) := RemoveFromGroup(s1, d);
        ForgetOk(s2, d);
        var s3 := s2.(screens := s2.screens - {d});
        assert Remirror(s3, env, g, d) == s3;
        hide Remirror, DispOk;
        ForgetCovers(s2, d, DeleteId(s3.ids, d));
        CoversTrans(st, s2, s3.(ids := DeleteId(s3.ids, d)));
      }
    }
  }

  lemma TailCovers(st: State, ids: Ids, rs: ScreenId, agents: map<AgentId, seq<ScreenId>>)
    ensures Covers(st, st.(ids := ids)) && Covers(st, st.(ids := ids, defaultRs := rs)) && Covers(st, st.(agents := agents))
  {
  }

  lemma DestroyCovers(st: State, env: Env, id: ScreenId)
    requires Inv(st) && DispOk(st) && AgentsOk(st) && env.expand
    ensures Covers(st, DestroyVirtual(st, env, id).0)
  {
    CoversRefl(st);
    if !Refuses(st, id) {
      var s1 := st.(agents := Disown(st.agents, id));
      AgentsInv(st, s1.agents);
      var rs := RsOf(st.ids, id);
      assert DispOk(s1);
      hide Inv, DispOk, Disown, Disconnect, Covers;
      DisconnectCovers(s1, env, rs);
      CoversRefl(s1);
      TailCovers(st, st.ids, rs, s1.agents);
      var s2 := if rs != SCREEN_ID_INVALID && id in s1.screens then Disconnect(s1, env, rs) else s1;
      var r := DestroyVirtual(st, env, id).0;
      TailCovers(s2, DeleteId(s2.ids, id), SCREEN_ID_INVALID, s2.agents);
      CoversTrans(st, s1, s2);
      CoversTrans(st, s2, r);
    }
  }

  lemma {:induction false} RemoteDiedCovers(st: State, env: Env, a: AgentId)
    requires Inv(st) && AgentsOk(st) && DispOk(st) && env.expand && OnRemoteDied(st, env, a).Some?
    ensures Covers(st, OnRemoteDied(st, env, a).value)
    decreases |AgentList(st, a)|
  {
    hide Inv, AgentsOk, DestroyVirtual, DispOk, Covers;
    if AgentList(st, a) != [] {
      var id := AgentList(st, a)[0];
      var s1 := DestroyVirtual(st, env, id).0;
      DestroyOk(st, env, id);
      DestroyInv(st, env, id);
      DestroyCovers(st, env, id);
      RemoteDiedCovers(s1, env, a);
      CoversTrans(st, s1, OnRemoteDied(s1, env, a).value);
    } else {
      TailCovers(st, st.ids, st.defaultRs, st.agents - {a});
    }
  }

  lemma CreateVirtualCovered(st: State, env: Env, rs: ScreenId, mode: Mode, a: AgentId)
    requires Inv(st) && Covered(st)
    ensures Covered(CreateVirtual(st, env, rs, mode, a).0)
  {
    if rs != SCREEN_ID_INVALID && rs !in st.ids.rs2Dms {
      var s0 := st.(ids := CreateId(st.ids, rs));
      NewIdInv(st, rs);
      ForgetCovers(st, 0, s0.ids);
      var s1 := GetDefault(s0, env).0;
      var d := st.ids.count;
      hide Inv, GetDefault, Covered, Covers, Bare;
      CoversCovered(st, s0);
      LookupCovered(s0, env);
      VirtualCovers(s1, d, NewScreen(rs, VIRTUAL, Some(mode)), s1.agents[a := AgentList(s1, a) + [d]]);
      CoversCovered(s1, CreateVirtual(st, env, rs, mode, a).0);
    }
  }

  lemma VirtualCovers(st: State, d: ScreenId, s: Screen, agents: map<AgentId, seq<ScreenId>>)
    requires s.kind.VIRTUAL?
    ensures Covers(st, st.(screens := st.screens[d := s], agents := agents))
  {
  }

  // ---------- Rotation ----------

  lemma SetRotationCovers(st: State, env: Env, id: ScreenId, r: Rotation)
    requires Inv(st)
    ensures Covers(st, SetRotation(st, env, id, r))
  {
    hide Inv, Evolves, SetRotation, Covers;
    SetRotationInv(st, env, id, r);
    SharingOps.SetRotationBinding(st, env, id, r);
    MirrorSource.SetRotationGroups(st, env, id, r);
    BindingCovers(st, SetRotation(st, env, id, r));
  }

  lemma SetOrientationCovers(st: State, env: Env, id: ScreenId, o: Orientation)
    requires Inv(st)
    ensures Covers(st, SetOrientation(st, env, id, o).0)
  {
    hide Inv, Evolves, SetOrientation, Covers;
    SetOrientationInv(st, env, id, o);
    SharingOps.SetOrientationBinding(st, env, id, o);
    MirrorSource.SetOrientationGroups(st, env, id, o);
    BindingCovers(st, SetOrientation(st, env, id, o).0);
  }

  // ---------- Registration, every step, every run ----------

  /** One turn of the registration, for a group with more than one child. */
  lemma TurnCovers(st: State, env: Env, g: ScreenId, id: ScreenId)
    requires Inv(st) && DispOk(st) && env.expand && st.callback && g in st.groups && |st.groups[g].children| > 1
    ensures var r := if id in st.screens then OnConnect(st, env, id) else st;
            Inv(r) && DispOk(r) && r.callback && r.groups == st.groups && Covers(st, r) && !Bare(r, id)
  {
    CoversRefl(st);
    if id in st.screens {
      if st.screens[id].groupId in st.groups {
        OnConnectOk(st, env, id);
        OnConnectCovers(st, env, id);
        OnConnectInv(st, env, id);
        hide Inv, DispOk, OnConnect, Bare, Evolves, Extends;
      } else {
        NotMember(st, id);
        assert OnConnect(st, env, id) == st;
        hide Inv, DispOk, OnConnect, Member;
      }
    }
  }

  lemma NotMember(st: State, id: ScreenId)
    requires Inv(st) && id in st.screens && st.screens[id].groupId !in st.groups
    ensures !Member(st, id)
  {
    forall h | h in st.groups ensures id !in st.groups[h].children {
      assert GroupOk(st, h);
    }
  }

  lemma {:induction false} ConnectEachCovers(st: State, env: Env, g: ScreenId, ids: seq<ScreenId>)
    requires Inv(st) && DispOk(st) && env.expand && st.callback && g in st.groups && |st.groups[g].children| > 1
    ensures var r := ConnectEach(st, env, ids);
            Covers(st, r) && r.groups == st.groups && forall i :: 0 <= i < |ids| ==> !Bare(r, ids[i])
    decreases |ids|
  {
    hide Inv, DispOk, OnConnect, Covers, Bare;
    CoversRefl(st);
    if ids != [] {
      var s1 := if ids[0] in st.screens then OnConnect(st, env, ids[0]) else st;
      var rest := ids[1..];
      TurnCovers(st, env, g, ids[0]);
      ConnectEachCovers(s1, env, g, rest);
      var r := ConnectEach(s1, env, rest);
      CoversTrans(st, s1, r);
      CoversAt(s1, r, ids[0]);
      assert forall i :: 0 < i < |ids| ==> ids[i] == rest[i - 1];
    }
  }

  lemma CoversAt(a: State, b: State, x: ScreenId)
    requires Covers(a, b) && !Bare(a, x)
    ensures !Bare(b, x)
  {
    hide Bare;
  }

  lemma {:induction false} ConnectEachGroups(st: State, env: Env, ids: seq<ScreenId>)
    requires Inv(st)
    ensures ConnectEach(st, env, ids).groups == st.groups
    decreases |ids|
  {
    hide Inv, OnConnect, Evolves, Extends;
    if ids != [] {
      if ids[0] in st.screens {
        OnConnectInv(st, env, ids[0]);
        NoGroupIdle(st, env, ids[0]);
        ConnectEachGroups(OnConnect(st, env, ids[0]), env, ids[1..]);
      } else {
        ConnectEachGroups(st, env, ids[1..]);
      }
    }
  }

  lemma NoGroupIdle(st: State, env: Env, id: ScreenId)
    requires id in st.screens
    ensures st.groups == map[] ==> OnConnect(st, env, id) == st
  {
  }

  lemma RegisterCovered(st: State, env: Env)
    requires Inv(st) && DispOk(st) && !st.callback && env.expand
    ensures Covered(RegisterCallback(st, env))
  {
    var s0 := st.(callback := true);
    ShapeInv(st, s0);
    EmptyDispOk(s0);
    var ids := Ascending(st.screens.Keys);
    var r := ConnectEach(s0, env, ids);
    ConnectEachGroups(s0, env, ids);
    hide Inv, DispOk, ConnectEach, Covers, Bare, Ascending;
    if g :| g in s0.groups && |s0.groups[g].children| > 1 {
      ConnectEachCovers(s0, env, g, ids);
      forall x ensures !Bare(r, x) {
        if Bare(s0, x) {
          BareKnown(s0, x);
          assert x in ids;
        } else {
          CoversAt(s0, r, x);
        }
      }
    } else {
      SmallFew(s0);
      FewSame(s0, r);
    }
  }

  lemma BareKnown(st: State, x: ScreenId)
    requires Bare(st, x)
    ensures x in st.screens
  {
  }

  lemma SmallFew(st: State)
    requires Inv(st) && forall g :: g in st.groups ==> |st.groups[g].children| <= 1
    ensures forall x, y :: Member(st, x) && Member(st, y) ==> x == y
  {
    forall x, y | Member(st, x) && Member(st, y) ensures x == y {
      var g :| g in st.groups && x in st.groups[g].children;
      OneGroupMembers(st, g);
      if x != y {
        SizeGrows({x, y}, st.groups[g].children);
      }
    }
  }

  /** An operation of an expand run keeps it so that at most one real child lacks a display, unless it slips. */
  lemma StepCovered(st: State, env: Env, op: Op)
    requires Good(st) && DispOk(st) && Covered(st) && ExpandOp(st, env, op)
    ensures Covered(Step(st, env, op)) <==> !Slips(st, op)
  {
    hide Inv, AgentsOk, DispOk, Covered, Covers, Bare, Connect, GetDefault, Disconnect, CreateVirtual, DestroyVirtual,
         OnRemoteDied, ServiceMakeMirror, ServiceMakeExpand, StopScreens, RemoveVirtual, SetRotation, SetOrientation,
         RegisterCallback, Unmatched, ValidIds, Evolves;
    match op
    case OpConnect(rs) => ConnectCovered(st, env, rs);
    case OpQueryDefault => LookupCovered(st, env);
    case OpMakeExpand(ids, at) =>
      if st.callback {
        ServiceMakeExpandCovered(st, env, ids, at);
      } else {
        GrowsUncalled(st, env, op);
      }
    case OpStop(ids, combination) =>
      ValidPlain(st, ids, 0);
      StopCovers(st, env, ValidIds(st, ids), combination);
      CoversCovered(st, Step(st, env, op));
    case OpRemoveVirtual(ids) =>
      RemoveVirtualCovers(st, env, ids);
      CoversCovered(st, Step(st, env, op));
    case OpSetRotation(id, r) =>
      SetRotationCovers(st, env, id, r);
      CoversCovered(st, Step(st, env, op));
    case OpSetOrientation(id, o) =>
      SetOrientationCovers(st, env, id, o);
      CoversCovered(st, Step(st, env, op));
    case OpDisconnect(rs) =>
      DisconnectCovers(st, env, rs);
      CoversCovered(st, Step(st, env, op));
    case OpCreateVirtual(rs, mode, a) => CreateVirtualCovered(st, env, rs, mode, a);
    case OpDestroyVirtual(id) =>
      DestroyCovers(st, env, id);
      CoversCovered(st, Step(st, env, op));
    case OpAgentDied(a) =>
      if OnRemoteDied(st, env, a).Some? {
        RemoteDiedCovers(st, env, a);
        CoversCovered(st, Step(st, env, op));
      }
    case OpRegister => RegisterCovered(st, env);
  }

  lemma GrowsUncalled(st: State, env: Env, op: Op)
    requires Inv(st) && Grows(op) && Admissible(op) && !st.callback
    ensures Covered(Step(st, env, op))
  {
    hide Inv, Evolves, Step;
    GrowsEvolves(st, env, op);
    EvolvesCallback(st, Step(st, env, op));
    hide Bare;
  }

  lemma ConnectCovered(st: State, env: Env, rs: ScreenId)
    requires Inv(st) && DispOk(st) && env.expand && Covered(st) && rs != SCREEN_ID_INVALID
    ensures Covered(Connect(st, env, rs)) <==> !Slips(st, OpConnect(rs))
  {
    hide Inv, DispOk, Covered, Bare, Connect;
    if rs in st.ids.rs2Dms {
      ReconnectExact(st, env, rs);
    } else if st.callback {
      NewCovered(st, env, rs);
    } else {
      GrowsUncalled(st, env, OpConnect(rs));
    }
  }

  /** On every expand run in which no operation so far slipped, at most one real child lacks a display once the
      callback is registered; and the first operation to slip ends that. */
  lemma {:induction false} RunCovered(st: State, events: seq<Event>, next: Event)
    requires Good(st) && DispOk(st) && Covered(st)
    requires forall i :: 0 <= i < |events| ==> ExpandOp(Run(st, events[..i]), events[i].env, events[i].op)
    requires forall i :: 0 <= i < |events| ==> !Slips(Run(st, events[..i]), events[i].op)
    requires ExpandOp(Run(st, events), next.env, next.op)
    ensures var last := Run(st, events);
            Covered(last) && (Covered(Step(last, next.env, next.op)) <==> !Slips(last, next.op))
    decreases |events|
  {
    hide Good, DispOk, Covered, Step, ExpandOp, Slips;
    if events == [] {
      StepCovered(st, next.env, next.op);
    } else {
      var s1 := Step(st, events[0].env, events[0].op);
      var rest := events[1..];
      assert Run(st, events[..0]) == st;
      ExpandAdmissible(st, events[0].env, events[0].op);
      StepGood(st, events[0].env, events[0].op);
      StepDispOk(st, events[0].env, events[0].op);
      StepCovered(st, events[0].env, events[0].op);
      forall i | 0 <= i < |rest|
        ensures ExpandOp(Run(s1, rest[..i]), rest[i].env, rest[i].op) && !Slips(Run(s1, rest[..i]), rest[i].op)
      {
        assert rest[i] == events[i + 1];
        assert events[..i + 1][0] == events[0] && events[..i + 1][1..] == rest[..i];
      }
      RunCovered(s1, rest, next);
    }
  }

  // ---------- A run from the start that slips ----------

  /** The default screen 0 and the screen 2, in a group that expands, before anyone is told. */
  ghost predicate Plugged(st: State, env: Env, other: ScreenId) {
    && st.defaultRs == env.defaultRs && env.defaultRs != SCREEN_ID_INVALID && other !in {env.defaultRs, SCREEN_ID_INVALID}
    && st.ids.rs2Dms == map[env.defaultRs := 0, other := 2] && st.screens.Keys == {0, 1, 2} && st.displays == map[]
    && st.screens[0].kind.REAL? && st.screens[0].mode.Some? && st.screens[2].kind.REAL? && st.screens[2].mode.Some?
    && st.screens[2].groupId == 1 && st.screens[1].IsGroup() && st.screens[1].groupId == SCREEN_ID_INVALID
  }

  ghost predicate PluggedFirst(st: State, env: Env) {
    && st.defaultRs == env.defaultRs && env.defaultRs != SCREEN_ID_INVALID && !st.callback && st.displays == map[]
    && st.ids.count == 2 && st.ids.rs2Dms == map[env.defaultRs := 0]
    && st.screens.Keys == {0, 1} && st.screens[0].kind.REAL? && st.screens[0].mode.Some? && st.screens[0].groupId == 1
    && st.screens[1].IsGroup() && st.screens[1].groupId == SCREEN_ID_INVALID
    && st.groups == map[1 := Group(SCREEN_EXPAND, 0, SCREEN_ID_INVALID, {0})]
  }

  lemma FirstPlugs(env: Env)
    requires env.defaultRs in env.modes && env.defaultRs != SCREEN_ID_INVALID && env.expand
    ensures PluggedFirst(Connect(INITIAL, env, env.defaultRs), env)
  {
    hide CalcRotation;
    var none: set<ScreenId> := {};
    assert none + {0} == {0};
    var st := Connect(INITIAL, env, env.defaultRs);
    assert st.groups.Keys == {1} && st.groups[1] == Group(SCREEN_EXPAND, 0, SCREEN_ID_INVALID, {0});
  }

  lemma SecondPlugs(st: State, env: Env, other: ScreenId)
    requires PluggedFirst(st, env) && other in env.modes && other !in {env.defaultRs, SCREEN_ID_INVALID}
    ensures var r := Connect(st, env, other);
            && Plugged(r, env, other) && !r.callback && r.screens[0].groupId == 1
            && r.groups == map[1 := Group(SCREEN_EXPAND, 0, SCREEN_ID_INVALID, {0, 2})]
  {
    hide CalcRotation, SumWidths, Ascending, OnConnect, AddToGroup;
    var s1 := InitScreen(st, env, other).0;
    assert s1.ids.rs2Dms == map[env.defaultRs := 0, other := 2] && s1.groups == st.groups;
    SecondEnters(s1, env, other);
    hide InitScreen;
    var s2 := AddToGroup(s1, env, 2).0;
    assert BuiltIn(s2, env, other, 2) == s2 && Touch(s2, env, 2) == s2;
  }

  lemma SecondEnters(st: State, env: Env, other: ScreenId)
    requires st.defaultRs == env.defaultRs && env.defaultRs != SCREEN_ID_INVALID
    requires other !in {env.defaultRs, SCREEN_ID_INVALID}
    requires st.ids.rs2Dms == map[env.defaultRs := 0, other := 2] && st.screens.Keys == {0, 1, 2} && st.displays == map[]
    requires st.screens[0].kind.REAL? && st.screens[0].mode.Some? && st.screens[0].groupId == 1
    requires st.screens[1].IsGroup() && st.screens[1].groupId == SCREEN_ID_INVALID
    requires st.screens[2].kind.REAL? && st.screens[2].mode.Some? && !st.callback
    requires st.groups == map[1 := Group(SCREEN_EXPAND, 0, SCREEN_ID_INVALID, {0})]
    ensures var (r, g) := AddToGroup(st, env, 2);
            && Plugged(r, env, other) && !r.callback && r.screens[0].groupId == 1 && g == 1
            && r.groups == map[1 := Group(SCREEN_EXPAND, 0, SCREEN_ID_INVALID, {0, 2})]
  {
    hide SumWidths, Ascending;
    assert GetDefault(st, env) == (st, 0);
    assert {0} + {2} == {0, 2};
    var p := Point(SumWidths(st.screens, Ascending({0})), 0);
    assert AddToGroup(st, env, 2) == (PlaceChild(st, env, 1, 2, p), 1);
  }

  lemma DefaultStops(st: State, env: Env, other: ScreenId)
    requires Plugged(st, env, other) && !st.callback && st.screens[0].groupId == 1
    requires st.groups == map[1 := Group(SCREEN_EXPAND, 0, SCREEN_ID_INVALID, {0, 2})]
    ensures var r := ServiceStop(st, env, [0], SCREEN_EXPAND);
            && Plugged(r, env, other) && !r.callback && r.screens[0].groupId == SCREEN_ID_INVALID
            && r.screens[0].lastGroupId == 1 && r.groups == map[1 := Group(SCREEN_EXPAND, 0, SCREEN_ID_INVALID, {2})]
  {
    assert [0][..0] == [] && ValidIds(st, []) == [] && ValidIds(st, [0]) == [0] && [0][1..] == [];
    hide ValidIds;
    assert {0, 2} - {0} == {2};
  }

  /** A screen that is alone and not the default gets no display. */
  lemma RegistersAlone(st: State, env: Env, other: ScreenId)
    requires Plugged(st, env, other) && !st.callback && st.screens[0].groupId == SCREEN_ID_INVALID
    requires st.groups == map[1 := Group(SCREEN_EXPAND, 0, SCREEN_ID_INVALID, {2})]
    ensures RegisterCallback(st, env) == st.(callback := true)
  {
    var s0 := st.(callback := true);
    var ids := Ascending(st.screens.Keys);
    forall x | x in st.screens ensures OnConnect(s0, env, x) == s0 {
    }
    hide OnConnect;
    AllIdle(s0, env, ids);
  }

  lemma {:induction false} AllIdle(st: State, env: Env, ids: seq<ScreenId>)
    requires forall x :: x in ids && x in st.screens ==> OnConnect(st, env, x) == st
    ensures ConnectEach(st, env, ids) == st
    decreases |ids|
  {
    hide OnConnect;
    if ids != [] {
      assert ids[0] in ids;
      AllIdle(st, env, ids[1..]);
    }
  }

  lemma SlipsNow(st: State, env: Env, other: ScreenId)
    requires Plugged(st, env, other) && st.callback && st.screens[0].lastGroupId == 1
    requires st.groups == map[1 := Group(SCREEN_EXPAND, 0, SCREEN_ID_INVALID, {2})]
    ensures Slips(st, OpConnect(env.defaultRs)) && Covered(st) && !Covered(Connect(st, env, env.defaultRs))
  {
    assert 2 in st.groups[1].children && Bare(st, 2);
    forall x | Member(st, x) ensures x == 2 {
    }
    var r := Connect(st, env, env.defaultRs);
    assert r == PlaceChild(st, env, 1, 0, ORIGIN);
    assert 0 in r.groups[1].children && 2 in r.groups[1].children;
    assert Bare(r, 0) && Bare(r, 2);
  }

  /** The default and another screen connect, the default is stopped, the callback is registered, and the default
      is plugged in: it is back in the group, and neither of the two has a display. */
  lemma SlippedRun(env: Env, other: ScreenId)
    requires env.defaultRs in env.modes && env.defaultRs != SCREEN_ID_INVALID && env.expand
    requires other in env.modes && other !in {env.defaultRs, SCREEN_ID_INVALID}
    ensures var st := Run(INITIAL, AllIn(env, [
                OpConnect(env.defaultRs), OpConnect(other), OpStop([0], SCREEN_EXPAND), OpRegister]));
            && Slips(st, OpConnect(env.defaultRs)) && Covered(st)
            && !Covered(Step(st, env, OpConnect(env.defaultRs)))
  {
    hide Run, AllIn, Plugged, PluggedFirst, Slips, Covered, Connect, ServiceStop, RegisterCallback;
    var rs := env.defaultRs;
    var ops := [OpConnect(rs), OpConnect(other), OpStop([0], SCREEN_EXPAND), OpRegister];
    var s1 := Connect(INITIAL, env, rs);
    var s2 := Connect(s1, env, other);
    var s3 := ServiceStop(s2, env, [0], SCREEN_EXPAND);
    var s4 := RegisterCallback(s3, env);
    InTurn(INITIAL, env, ops, 0);
    InTurn(s1, env, ops, 1);
    InTurn(s2, env, ops, 2);
    InTurn(s3, env, ops, 3);
    InTurn(s4, env, ops, 4);
    FirstPlugs(env);
    SecondPlugs(s1, env, other);
    DefaultStops(s2, env, other);
    RegistersAlone(s3, env, other);
    assert Plugged(s4, env, other) by { PluggedHears(s3, env, other); }
    SlipsNow(s4, env, other);
  }

  lemma PluggedHears(st: State, env: Env, other: ScreenId)
    requires Plugged(st, env, other)
    ensures Plugged(st.(callback := true), env, other)
  {
  }
}

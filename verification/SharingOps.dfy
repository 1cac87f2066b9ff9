/** Every operation of the server, and exactly when it leaves two displays on one screen. */
module SharingOps {
  import opened DmTypes
  import opened ScreenState
  import opened ScreenInvariant
  import opened AgentOwnership
  import opened ScreenRuns
  import opened GroupChanges
  import opened ExpandDisplays
  import opened DisplaySharing
  import opened SharingSteps

  // ---------- Operations that never share ----------

  /** The displays are the same but for sizes, places and orientations. */
  ghost predicate SameBinding(a: State, b: State) {
    && b.displayCount == a.displayCount && a.ids.count <= b.ids.count
    && (forall k :: k in b.displays <==> k in a.displays)
    && (forall k :: k in b.displays ==> b.displays[k].screenId == a.displays[k].screenId)
  }

  lemma BindingOutcome(a: State, b: State)
    requires Numbered(a) && SameBinding(a, b)
    ensures Outcome(a, b, false)
  {
  }

  lemma BindingTrans(a: State, b: State, c: State)
    requires SameBinding(a, b) && SameBinding(b, c)
    ensures SameBinding(a, c)
  {
  }

  lemma EqualBinding(a: State, b: State)
    requires b.displays == a.displays && b.displayCount == a.displayCount && a.ids.count <= b.ids.count
    ensures SameBinding(a, b)
  {
  }

  lemma TouchBinding(st: State, env: Env, id: ScreenId)
    requires Inv(st)
    ensures SameBinding(st, Touch(st, env, id)) && Touch(st, env, id).callback == st.callback
  {
    hide Inv, GetDefault, SameBinding;
    EqualBinding(st, st);
    if id in st.screens && st.screens[id].groupId in st.groups {
      LookupSame(st, env);
      EqualBinding(st, GetDefault(st, env).0);
    }
  }

  lemma UpdateBinding(st: State, id: ScreenId, f: Display -> Display)
    requires forall d: Display :: f(d).screenId == d.screenId
    ensures SameBinding(st, UpdateDisplay(st, id, f))
  {
  }

  lemma RotateKeeps(d: Display, r: Rotation)
    ensures Rotate(d, r).screenId == d.screenId
  {
  }

  lemma SetRotationBinding(st: State, env: Env, id: ScreenId, r: Rotation)
    requires Inv(st)
    ensures SameBinding(st, SetRotation(st, env, id, r))
  {
    hide Inv, SameBinding, Touch, UpdateDisplay;
    EqualBinding(st, st);
    if id in st.screens && st.screens[id].rotation != r {
      var s0 := st.(screens := st.screens[id := st.screens[id].(rotation := r)]);
      EqualBinding(st, s0);
      TurnInv(st, id, st.screens[id].(rotation := r));
      var s1 := Touch(s0, env, id);
      TouchBinding(s0, env, id);
      BindingTrans(st, s0, s1);
      forall d: Display ensures ((d: Display) => Rotate(d, r))(d).screenId == d.screenId { RotateKeeps(d, r); }
      UpdateBinding(s1, id, (d: Display) => Rotate(d, r));
      BindingTrans(st, s1, UpdateDisplay(s1, id, (d: Display) => Rotate(d, r)));
    }
  }

  lemma LayOutOneBinding(st: State, id: ScreenId, x: int)
    requires id in st.screens && st.screens[id].mode.Some?
    ensures SameBinding(st, LayOutOne(st, id, x).0)
  {
  }

  lemma {:induction false} LayOutBinding(st: State, order: seq<ScreenId>, x: int)
    ensures SameBinding(st, LayOut(st, order, x).0)
    decreases |order|
  {
    hide SameBinding, LayOutOne;
    EqualBinding(st, st);
    if order != [] {
      if order[0] !in st.screens || st.screens[order[0]].mode.None? {
        LayOutBinding(st, order[1..], x);
      } else {
        var s1 := LayOutOne(st, order[0], x).0;
        var x1 := x + WidthOf(st.screens, order[0]);
        LayOutOneBinding(st, order[0], x);
        LayOutBinding(s1, order[1..], x1);
        BindingTrans(st, s1, LayOut(s1, order[1..], x1).0);
      }
    }
  }

  lemma SetOrientationBinding(st: State, env: Env, id: ScreenId, o: Orientation)
    requires Inv(st)
    ensures SameBinding(st, SetOrientation(st, env, id, o).0)
  {
    hide Inv, Evolves, SameBinding, Touch, UpdateDisplay, SetRotation, LayOut, ChildrenByX, CalcRotation, Rotate;
    EqualBinding(st, st);
    if id in st.screens && !st.screens[id].IsGroup() {
      var s1 := st.(screens := st.screens[id := st.screens[id].(requested := o)]);
      TurnInv(st, id, st.screens[id].(requested := o));
      EqualBinding(st, s1);
      if s1.screens[id].orientation != o {
        var r := CalcRotation(s1.screens[id].mode, o);
        var s2 := SetRotation(s1, env, id, r);
        SetRotationBinding(s1, env, id, r);
        SetRotationInv(s1, env, id, r);
        BindingTrans(st, s1, s2);
        OrientedBinding(st, s2, env, id, o);
      }
    }
  }

  lemma OrientBinding(st: State, id: ScreenId, o: Orientation)
    requires id in st.screens
    ensures SameBinding(st, UpdateDisplay(st, id, (d: Display) => Rotate(d.(orientation := o), st.screens[id].rotation)))
  {
    forall d: Display ensures Rotate(d.(orientation := o), st.screens[id].rotation).screenId == d.screenId {
      RotateKeeps(d.(orientation := o), st.screens[id].rotation);
    }
    hide Rotate;
    UpdateBinding(st, id, (d: Display) => Rotate(d.(orientation := o), st.screens[id].rotation));
  }

  lemma OrientedBinding(st: State, s2: State, env: Env, id: ScreenId, o: Orientation)
    requires Inv(s2) && SameBinding(st, s2)
    ensures var s3 := if id in s2.screens
                      then Touch(s2.(screens := s2.screens[id := s2.screens[id].(orientation := o)]), env, id) else s2;
            var s4 := if s3.callback && id in s3.screens
                      then UpdateDisplay(s3, id, (d: Display) => Rotate(d.(orientation := o), s3.screens[id].rotation))
                      else s3;
            && SameBinding(st, s4)
            && (id in s4.screens && s4.screens[id].groupId in s4.groups ==>
                  SameBinding(st, UpdateLayout(s4, s4.screens[id].groupId).0))
  {
    hide Inv, Evolves, SameBinding, Touch, UpdateDisplay, LayOut, ChildrenByX;
    var s3 := s2;
    if id in s2.screens {
      var t := s2.(screens := s2.screens[id := s2.screens[id].(orientation := o)]);
      TurnInv(s2, id, s2.screens[id].(orientation := o));
      EqualBinding(s2, t);
      BindingTrans(st, s2, t);
      TouchBinding(t, env, id);
      s3 := Touch(t, env, id);
      BindingTrans(st, t, s3);
    }
    var s4 := s3;
    if s3.callback && id in s3.screens {
      OrientBinding(s3, id, o);
      s4 := UpdateDisplay(s3, id, (d: Display) => Rotate(d.(orientation := o), s3.screens[id].rotation));
      BindingTrans(st, s3, s4);
    }
    if id in s4.screens && s4.screens[id].groupId in s4.groups {
      var g := s4.screens[id].groupId;
      LayOutBinding(s4, ChildrenByX(s4, g), 0);
      BindingTrans(st, s4, UpdateLayout(s4, g).0);
    }
  }

  /** A lookup gives a display at most to the screen it connects. */
  lemma LookupShares(st: State, env: Env)
    requires Inv(st) && Numbered(st)
    ensures Outcome(st, GetDefault(st, env).0, false)
  {
    hide Inv, Unshared, ConnectDefault, Evolves;
    if st.groups != map[] {
      LookupSame(st, env);
      hide GetDefault;
      SameNumbered(st, GetDefault(st, env).0);
    } else {
      var s0 := Learn(st, env);
      SameNumbered(st, s0);
      if !Settled(st, env) {
        LearnInv(st, env);
        FounderShares(s0, env);
      }
    }
  }

  lemma FounderShares(st: State, env: Env)
    requires Inv(st) && Numbered(st) && st.groups == map[] && st.defaultRs != SCREEN_ID_INVALID && st.defaultRs !in st.ids.rs2Dms
    ensures Outcome(st, ConnectDefault(st, env), false)
  {
    hide Inv, Unshared, AddAsFirst, BuiltIn, Extends;
    var (s1, d) := InitScreen(st, env, st.defaultRs);
    InitScreenInv(st, env, st.defaultRs);
    SameNumbered(st, s1);
    if d != SCREEN_ID_INVALID {
      var s2 := AddAsFirst(s1, env, d).0;
      FoundAlone(s1, env, d);
      FoundKnown(s1, env, d);
      var s3 := BuiltIn(s2, env, st.defaultRs, d);
      BuiltInSame(s2, env, st.defaultRs, d);
      SameNumbered(st, s3);
      if s3.screens[d].mode.Some? {
        if Unshared(s3.displays) { CreateShares(s3, d, s3.screens[d].mode.value, ORIGIN); }
        MoreDisplays(s3, s3, d, s3.screens[d].mode.value, ORIGIN);
      }
    }
  }

  lemma BuiltInSame(st: State, env: Env, rs: ScreenId, id: ScreenId)
    requires id in st.screens
    ensures var r := BuiltIn(st, env, rs, id);
            && r.displays == st.displays && r.displayCount == st.displayCount && r.ids == st.ids && r.groups == st.groups
            && r.callback == st.callback && r.screens.Keys == st.screens.Keys && r.screens[id].mode == st.screens[id].mode
            && r.defaultRs == st.defaultRs
  {
    hide CalcRotation;
  }

  lemma ConnectShares(st: State, env: Env, rs: ScreenId)
    requires Inv(st) && Numbered(st) && rs != SCREEN_ID_INVALID
    ensures Outcome(st, Connect(st, env, rs), false)
  {
    hide Inv, Evolves, Extends, Unshared, Reconnect, AddToGroup, BuiltIn, Touch, OnConnect, KnownDefault, InitScreen;
    if rs in st.ids.rs2Dms {
      ReconnectSame(st, env, rs);
      SameNumbered(st, Reconnect(st, env, rs));
    } else {
      var (s1, d) := InitScreen(st, env, rs);
      InitScreenInv(st, env, rs);
      NewcomerBare(st, env, rs);
      SameNumbered(st, s1);
      if d != SCREEN_ID_INVALID {
        NewcomerShares(s1, env, rs, d);
        var (s2, g) := AddToGroup(s1, env, d);
        assert d in s2.screens;
        if g != SCREEN_ID_INVALID {
          var s3 := Touch(BuiltIn(s2, env, rs, d), env, d);
          BuiltInSame(s2, env, rs, d);
          assert d in s3.screens;
        }
      }
    }
  }

  lemma NewcomerBare(st: State, env: Env, rs: ScreenId)
    requires Numbered(st)
    ensures var (s1, d) := InitScreen(st, env, rs);
            && s1.displays == st.displays && s1.displayCount == st.displayCount && st.ids.count <= s1.ids.count
            && (d != SCREEN_ID_INVALID ==> NoDisplay(s1, d) && d in s1.screens && !s1.screens[d].IsGroup())
  {
  }

  lemma NewcomerShares(st: State, env: Env, rs: ScreenId, d: ScreenId)
    requires Inv(st) && Numbered(st) && d in st.screens && !st.screens[d].IsGroup() && NoDisplay(st, d)
    ensures var (s2, g) := AddToGroup(st, env, d);
            && Outcome(st, s2, false)
            && (g != SCREEN_ID_INVALID && d in s2.screens ==>
                  var s3 := Touch(BuiltIn(s2, env, rs, d), env, d);
                  Outcome(st, s3, false)
                  && (d in s3.screens ==> Outcome(st, OnConnect(s3, env, d), false)))
  {
    hide Inv, Evolves, Extends, Unshared, AddToGroup, BuiltIn, Touch, OnConnect, KnownDefault, OnlyChild;
    var (s2, g) := AddToGroup(st, env, d);
    JoinAlone(st, env, d);
    AddToGroupInv(st, env, d);
    EvolvesCount(st, s2);
    SameNumbered(st, s2);
    if g != SCREEN_ID_INVALID && d in s2.screens {
      var s := BuiltIn(s2, env, rs, d);
      BuiltInSame(s2, env, rs, d);
      BuiltInShape(s2, env, rs, d);
      RedrawsInv(s2, s, d);
      var s3 := Touch(s, env, d);
      TouchInv(s, env, d);
      ExtendsAt(s, s3, d);
      EqualDisplays(st, s3, d);
      if Unshared(s3.displays) { OnConnectShares(s3, env, d); }
      OnConnectRetains(s3, env, d);
    }
  }

  lemma ReconnectSame(st: State, env: Env, rs: ScreenId)
    requires Inv(st)
    ensures var r := Reconnect(st, env, rs);
            r.displays == st.displays && r.displayCount == st.displayCount && st.ids.count <= r.ids.count
  {
    if rs in st.ids.rs2Dms && st.ids.rs2Dms[rs] in st.screens && st.screens[st.ids.rs2Dms[rs]].lastGroupId in st.groups {
      var d := st.ids.rs2Dms[rs];
      MappedPlain(st, rs);
      hide Inv, Evolves, AddChild;
      AddChildAlone(st, env, st.screens[d].lastGroupId, d, ORIGIN);
      AddChildInv(st, env, st.screens[d].lastGroupId, d, ORIGIN);
      EvolvesCount(st, AddChild(st, env, st.screens[d].lastGroupId, d, ORIGIN).0);
    }
  }

  lemma CreateVirtualShares(st: State, env: Env, rs: ScreenId, mode: Mode, a: AgentId)
    requires Inv(st) && Numbered(st)
    ensures Outcome(st, CreateVirtual(st, env, rs, mode, a).0, false)
  {
    hide Inv, Unshared, GetDefault;
    if rs != SCREEN_ID_INVALID && rs !in st.ids.rs2Dms {
      var s0 := st.(ids := CreateId(st.ids, rs));
      NewIdInv(st, rs);
      SameNumbered(st, s0);
      LookupShares(s0, env);
      SameNumbered(GetDefault(s0, env).0, CreateVirtual(st, env, rs, mode, a).0);
    }
  }

  // ---------- StopMirror, StopExpand and RemoveVirtualScreenFromGroup ----------

  /** The only group, if any, is of this combination and has this source. */
  ghost predicate GroupIs(st: State, combination: Combination, source: ScreenId) {
    forall g :: g in st.groups ==> st.groups[g].combination == combination && st.groups[g].mirrorId == source
  }

  function Stoppable(ids: seq<ScreenId>, combination: Combination, source: ScreenId): seq<ScreenId> {
    if combination.SCREEN_MIRROR? then Without(ids, source) else ids
  }

  lemma UngroupedLeave(st: State, env: Env, x: ScreenId)
    requires x in st.screens && st.screens[x].groupId !in st.groups
    ensures Leave(st, env, x) == st
  {
  }

  lemma StopOneLeaves(st: State, env: Env, x: ScreenId, combination: Combination, source: ScreenId)
    requires Inv(st) && x in st.screens && !st.screens[x].IsGroup() && GroupIs(st, combination, source)
    ensures StopOne(st, env, x, combination) ==
              if combination.SCREEN_MIRROR? && x == source then st else Leave(st, env, x)
  {
    hide Inv, Evolves, OnDisconnect, RemoveChild;
    if st.screens[x].groupId in st.groups {
      DropInv(st, env, x);
    } else {
      UngroupedLeave(st, env, x);
    }
  }

  lemma LeaveGroupIs(st: State, env: Env, x: ScreenId, combination: Combination, source: ScreenId)
    requires Inv(st) && x in st.screens && !st.screens[x].IsGroup() && GroupIs(st, combination, source)
    ensures GroupIs(Leave(st, env, x), combination, source)
  {
    hide Inv, Evolves, Leave;
    LeaveShape(st, env, x);
  }

  lemma {:induction false} WithoutPlain(st: State, ids: seq<ScreenId>, d: ScreenId)
    requires Plain(st, ids)
    ensures Plain(st, Without(ids, d))
  {
    WithoutIn(ids, d);
  }

  lemma {:induction false} StopScreensLeave(st: State, env: Env, ids: seq<ScreenId>, combination: Combination, source: ScreenId)
    requires Inv(st) && Plain(st, ids) && GroupIs(st, combination, source)
    ensures StopScreens(st, env, ids, combination) == LeaveAll(st, env, Stoppable(ids, combination, source))
    decreases |ids|
  {
    hide Inv, Evolves, StopOne, Leave, Plain, GroupIs;
    if ids != [] {
      var x := ids[0];
      PlainParts(st, ids);
      StopOneLeaves(st, env, x, combination, source);
      LeaveShape(st, env, x);
      LeaveGroupIs(st, env, x, combination, source);
      var s1 := StopOne(st, env, x, combination);
      EvolvesPlain(st, Leave(st, env, x), ids[1..]);
      StopScreensLeave(s1, env, ids[1..], combination, source);
    }
  }

  lemma {:induction false} StopOther(st: State, env: Env, ids: seq<ScreenId>, combination: Combination)
    requires forall g :: g in st.groups ==> st.groups[g].combination != combination
    ensures StopScreens(st, env, ids, combination) == st
    decreases |ids|
  {
    if ids != [] { StopOther(st, env, ids[1..], combination); }
  }

  /** The listed screens but the source of the default's group. */
  function StopList(st: State, env: Env, ids: seq<ScreenId>): seq<ScreenId> {
    if Receives(st, env)
    then Without(ValidIds(st, ids), st.groups[st.screens[KnownDefault(st, env)].groupId].mirrorId)
    else []
  }

  ghost predicate StopPiles(st: State, env: Env, ids: seq<ScreenId>, combination: Combination) {
    combination.SCREEN_MIRROR? && st.callback && Piles(st, env, Before(StopList(st, env, ids), KnownDefault(st, env)))
  }

  lemma StopShares(st: State, env: Env, ids: seq<ScreenId>, combination: Combination)
    requires Inv(st) && Numbered(st)
    ensures Outcome(st, ServiceStop(st, env, ids, combination), StopPiles(st, env, ids, combination))
  {
    hide Inv, Evolves, StopScreens, Unshared, KnownDefault, Receives, Piles, ValidIds, Plain, LeaveAll;
    var all := ValidIds(st, ids);
    ValidPlain(st, ids, SCREEN_ID_INVALID);
    var leavers := Before(StopList(st, env, ids), KnownDefault(st, env));
    if Piles(st, env, leavers) { PilesNeeds(st, env, leavers); }
    if st.groups == map[] {
      StopOther(st, env, all, combination);
    } else {
      var g := Pick(st.groups.Keys);
      OnlyOneGroup(st, g);
      if st.groups[g].combination != combination {
        StopOther(st, env, all, combination);
      } else {
        var source := st.groups[g].mirrorId;
        var out := Stoppable(all, combination, source);
        StopScreensLeave(st, env, all, combination, source);
        WithoutPlain(st, all, source);
        LeaveAllInv(st, env, out);
        if Unshared(st.displays) && st.callback {
          LeaveAllShares(st, env, out);
          StopMeans(st, env, ids, combination, source, g);
        }
      }
    }
  }

  lemma StopMeans(st: State, env: Env, ids: seq<ScreenId>, combination: Combination, source: ScreenId, g: ScreenId)
    requires Inv(st) && st.callback && g in st.groups && st.groups[g].combination == combination && st.groups[g].mirrorId == source
    ensures Piles(st, env, Before(Stoppable(ValidIds(st, ids), combination, source), KnownDefault(st, env))) <==>
              StopPiles(st, env, ids, combination)
  {
    hide Inv, KnownDefault, ValidIds;
    var d := KnownDefault(st, env);
    var leavers := Before(Stoppable(ValidIds(st, ids), combination, source), d);
    if Receives(st, env) {
      ReceivesMirror(st, env);
      OnlyOneGroup(st, g);
    }
    hide Receives, Piles;
    if Piles(st, env, leavers) { PilesNeeds(st, env, leavers); }
  }

  predicate IsVirtual(st: State, x: ScreenId) {
    x in st.screens && st.screens[x].kind.VIRTUAL?
  }

  function Virtuals(st: State, ids: seq<ScreenId>): seq<ScreenId> {
    if ids == [] then []
    else if IsVirtual(st, ids[0]) then [ids[0]] + Virtuals(st, ids[1..])
    else Virtuals(st, ids[1..])
  }

  lemma {:induction false} VirtualsSame(a: State, b: State, ids: seq<ScreenId>)
    requires Evolves(a, b)
    ensures Virtuals(b, ids) == Virtuals(a, ids) && Plain(a, Virtuals(a, ids))
  {
    if ids != [] {
      assert IsVirtual(a, ids[0]) <==> IsVirtual(b, ids[0]);
      hide IsVirtual;
      VirtualsSame(a, b, ids[1..]);
    }
  }

  lemma RemoveOneLeaves(st: State, env: Env, x: ScreenId)
    requires Inv(st)
    ensures RemoveVirtualOne(st, env, x) == if IsVirtual(st, x) then Leave(st, env, x) else st
  {
    if IsVirtual(st, x) && !InGroup(st, x) {
      assert ScreenOk(st, x);
      NoInvalidGroup(st);
      UngroupedLeave(st, env, x);
    }
    hide Inv, OnDisconnect, RemoveFromGroup;
  }

  lemma {:induction false} RemoveVirtualLeaves(st: State, env: Env, ids: seq<ScreenId>)
    requires Inv(st)
    ensures RemoveVirtual(st, env, ids) == LeaveAll(st, env, Virtuals(st, ids))
    decreases |ids|
  {
    hide Inv, Evolves, RemoveVirtualOne, Leave;
    if ids != [] {
      RemoveOneLeaves(st, env, ids[0]);
      if IsVirtual(st, ids[0]) {
        LeaveShape(st, env, ids[0]);
        VirtualsSame(st, Leave(st, env, ids[0]), ids[1..]);
        RemoveVirtualLeaves(Leave(st, env, ids[0]), env, ids[1..]);
      } else {
        RemoveVirtualLeaves(st, env, ids[1..]);
      }
    }
  }

  ghost predicate RemovePiles(st: State, env: Env, ids: seq<ScreenId>) {
    st.callback && Piles(st, env, Before(Virtuals(st, ids), KnownDefault(st, env)))
  }

  lemma RemoveShares(st: State, env: Env, ids: seq<ScreenId>)
    requires Inv(st) && Numbered(st)
    ensures Outcome(st, RemoveVirtual(st, env, ids), RemovePiles(st, env, ids))
  {
    hide Inv, Evolves, RemoveVirtual, Unshared, KnownDefault, Piles, Plain, LeaveAll, Virtuals;
    EvolvesRefl(st);
    VirtualsSame(st, st, ids);
    RemoveVirtualLeaves(st, env, ids);
    LeaveAllInv(st, env, Virtuals(st, ids));
    if Unshared(st.displays) && st.callback {
      LeaveAllShares(st, env, Virtuals(st, ids));
    }
  }

  // ---------- MakeMirror and MakeExpand of the service ----------

  ghost predicate MirrorsShare(st: State, env: Env, id: ScreenId, ids: seq<ScreenId>) {
    var all := RemoveFirst(ValidIds(st, ids), id);
    && id in st.screens && st.screens[id].kind.REAL? && all != []
    && (Founds(st, env, id) || MirrorPiles(st, env, id, all))
  }

  lemma ServiceMirrorShares(st: State, env: Env, id: ScreenId, ids: seq<ScreenId>)
    requires Inv(st) && Numbered(st)
    ensures Outcome(st, ServiceMakeMirror(st, env, id, ids).0, MirrorsShare(st, env, id, ids))
  {
    hide Inv, MakeMirror, Unshared, Founds, MirrorPiles, ValidIds, RemoveFirst, Plain, Distinct, Wanted;
    var all := RemoveFirst(ValidIds(st, ids), id);
    ServiceList(st, ids, id);
    if id in st.screens && all != [] {
      MakeMirrorShares(st, env, id, all);
    }
  }

  ghost predicate ExpandPiles(st: State, env: Env, ids: seq<ScreenId>, at: seq<Point>) {
    var d := KnownDefault(st, env);
    ids != [] && |ids| == |at| && st.callback && Piles(st, env, Before(RemoveFirst(ValidIds(st, ids), d), d))
  }

  /** MakeExpand, once the default is looked up: the movers leave a mirror group before they extend it. */
  lemma MakeExpandShares(s1: State, env: Env, d: ScreenId, all: seq<ScreenId>, points: seq<Point>)
    requires Inv(s1) && Numbered(s1) && GetDefault(s1, env).1 == d && Plain(s1, all) && d !in all && |points| == |all|
    requires d != SCREEN_ID_INVALID ==> GetDefault(s1, env).0 == s1
    requires SCREEN_ID_INVALID !in GetDefault(s1, env).0.screens
    ensures Outcome(s1, MakeExpand(s1, env, all, points).0, s1.callback && Piles(s1, env, Before(all, KnownDefault(s1, env))))
  {
    hide Inv, Evolves, GetDefault, ChangeScreenGroup, Plain, Unshared, KnownDefault, Receives, Piles, TakeOut, LeaveAll;
    var t := GetDefault(s1, env).0;
    LookupShares(s1, env);
    var leavers := Before(all, KnownDefault(s1, env));
    if Piles(s1, env, leavers) {
      PilesNeeds(s1, env, leavers);
      ReceiverFound(s1, env);
      ReceivesKnown(s1, env);
    }
    if d in t.screens && t.screens[d].groupId in t.groups {
      var g := s1.screens[d].groupId;
      var filter := s1.groups[g].combination.SCREEN_EXPAND?;
      GroupedDefault(s1, d);
      ChangeShares(s1, env, g, all, points, filter, SCREEN_EXPAND, d);
      LeaveAllInv(s1, env, all);
      if Unshared(s1.displays) && s1.callback { LeaveAllShares(s1, env, all); }
    }
  }

  lemma ServiceExpandShares(st: State, env: Env, ids: seq<ScreenId>, at: seq<Point>)
    requires Inv(st) && Numbered(st)
    ensures Outcome(st, ServiceMakeExpand(st, env, ids, at).0, ExpandPiles(st, env, ids, at))
  {
    hide Inv, Evolves, GetDefault, MakeExpand, Unshared, KnownDefault, Receives, Piles, ValidIds, RemoveFirst, Plain,
         Distinct, Wanted, Extends;
    var (s1, d) := GetDefault(st, env);
    LookupShares(st, env);
    LookupInv(st, env);
    DefaultTwice(st, env);
    CallbackStays(st, s1);
    var all := RemoveFirst(ValidIds(s1, ids), d);
    ServiceList(s1, ids, d);
    var k := KnownDefault(st, env);
    var leavers := Before(RemoveFirst(ValidIds(st, ids), k), k);
    if Piles(st, env, leavers) { PilesNeeds(st, env, leavers); }
    if ids != [] && |ids| == |at| {
      if all == [] {
        ExpandMeans(st, env, ids, s1, d);
        NobodyPiles(s1, env);
      } else {
        ExpandPoints(s1, env, ids, at, d, all);
        var points := PointsFor(all, FirstPoints(ids, at));
        MakeExpandShares(s1, env, d, all, points);
        ExpandMeans(st, env, ids, s1, d);
        OutcomeAfter(st, s1, ServiceMakeExpand(st, env, ids, at).0, ExpandPiles(st, env, ids, at));
      }
    }
  }

  lemma CallbackStays(a: State, b: State)
    requires Evolves(a, b)
    ensures b.callback == a.callback
  {
  }

  lemma OutcomeAfter(a: State, b: State, c: State, shared: bool)
    requires Outcome(a, b, false) && Outcome(b, c, shared)
    ensures Outcome(a, c, shared)
  {
  }

  lemma ExpandPoints(s1: State, env: Env, ids: seq<ScreenId>, at: seq<Point>, d: ScreenId, all: seq<ScreenId>)
    requires |ids| == |at| && all == RemoveFirst(ValidIds(s1, ids), d)
    ensures |PointsFor(all, FirstPoints(ids, at))| == |all|
  {
    hide ValidIds, RemoveFirst, Plain, Distinct, Wanted;
    ServiceList(s1, ids, d);
    PointsForAll(all, FirstPoints(ids, at));
  }

  lemma LearnedOnly(st: State, env: Env)
    requires Inv(st) && KnownDefault(st, env) in st.screens
    ensures GetDefault(st, env).0 == Learn(st, env) && KnownDefault(Learn(st, env), env) == KnownDefault(st, env)
  {
    NoInvalid(st);
  }

  lemma {:induction false} SameValid(a: State, b: State, ids: seq<ScreenId>)
    requires b.screens == a.screens
    ensures ValidIds(b, ids) == ValidIds(a, ids)
  {
    if ids != [] { SameValid(a, b, ids[..|ids| - 1]); }
  }

  /** Without a group a lookup makes at most one, of the default alone. */
  lemma FoundedAlone(st: State, env: Env)
    requires Inv(st) && st.groups == map[]
    ensures var (s1, d) := GetDefault(st, env);
            forall g :: g in s1.groups ==> s1.groups[g].children == {d}
  {
    hide Evolves, AddAsFirst, BuiltIn, Bind, Extends, InitScreen;
    var s0 := Learn(st, env);
    if !Settled(st, env) {
      LearnInv(st, env);
      var (s1, x) := InitScreen(s0, env, s0.defaultRs);
      InitScreenInv(s0, env, s0.defaultRs);
      InitMaps(s0, env, s0.defaultRs);
      if x != SCREEN_ID_INVALID {
        var s2 := AddAsFirst(s1, env, x).0;
        FoundKnown(s1, env, x);
        FoundMaps(s1, env, x);
        var s3 := BuiltIn(s2, env, s0.defaultRs, x);
        BuiltInSame(s2, env, s0.defaultRs, x);
        BindSame(s3, x);
      }
    }
  }

  lemma InitMaps(st: State, env: Env, rs: ScreenId)
    requires rs != SCREEN_ID_INVALID
    ensures var (s1, d) := InitScreen(st, env, rs);
            && s1.groups == st.groups && s1.defaultRs == st.defaultRs
            && (d != SCREEN_ID_INVALID ==> DmsOf(s1.ids, rs) == d)
  {
  }

  lemma FoundMaps(st: State, env: Env, id: ScreenId)
    requires id in st.screens
    ensures var r := AddAsFirst(st, env, id).0; r.ids.rs2Dms == st.ids.rs2Dms && r.defaultRs == st.defaultRs
  {
  }

  lemma BindSame(st: State, d: ScreenId)
    requires d in st.screens
    ensures var r := Bind(st, d, d); r.ids == st.ids && r.groups == st.groups && r.defaultRs == st.defaultRs
  {
  }

  lemma AlonePiles(st: State, env: Env, d: ScreenId, leavers: set<ScreenId>)
    requires d !in leavers && forall g :: g in st.groups ==> st.groups[g].children == {d}
    ensures !Piles(st, env, leavers)
  {
    hide Receives, KnownDefault, NoDisplay;
  }

  /** With a default to receive, the lookup has only learned it; without one nothing piles up. */
  lemma ExpandMeans(st: State, env: Env, ids: seq<ScreenId>, s1: State, d: ScreenId)
    requires Inv(st) && Inv(s1) && (s1, d) == GetDefault(st, env) && Plain(s1, RemoveFirst(ValidIds(s1, ids), d))
    requires d !in RemoveFirst(ValidIds(s1, ids), d) && (st.groups != map[] ==> Extends(st, s1))
    ensures var k := KnownDefault(st, env);
            Piles(s1, env, Before(RemoveFirst(ValidIds(s1, ids), d), KnownDefault(s1, env))) <==>
              Piles(st, env, Before(RemoveFirst(ValidIds(st, ids), k), k))
  {
    hide Inv, Evolves, Extends, GetDefault, ValidIds, RemoveFirst, Piles, KnownDefault, Receives;
    var all := RemoveFirst(ValidIds(s1, ids), d);
    var k, e := KnownDefault(st, env), KnownDefault(s1, env);
    var here, there := Before(all, e), Before(RemoveFirst(ValidIds(st, ids), k), k);
    if Piles(st, env, there) { PilesNeeds(st, env, there); }
    if Piles(s1, env, here) { PilesNeeds(s1, env, here); }
    if st.groups == map[] {
      FoundedAlone(st, env);
      AlonePiles(s1, env, d, here);
    } else if Receives(st, env) {
      ReceivesKnown(st, env);
      LearnedOnly(st, env);
      SameValid(st, s1, ids);
      ReceiverFound(st, env);
      BeforePlain(s1, all, e);
      ExtendsPiles(st, s1, env, here);
    } else {
      ExtendsPiles(st, s1, env, {});
    }
  }

  // ---------- Registering and choosing a default ----------

  /** The default is the only child, has a mode, and has a display. */
  ghost predicate RegisterDoubles(st: State, env: Env) {
    var d := KnownDefault(st, env);
    d in st.screens && OnlyChild(st, d) && st.screens[d].mode.Some? && !NoDisplay(st, d)
  }

  lemma {:induction false} ConnectEachNumbered(st: State, env: Env, ids: seq<ScreenId>)
    requires Inv(st) && Numbered(st)
    ensures Numbered(ConnectEach(st, env, ids))
    decreases |ids|
  {
    hide Inv, Evolves, Extends, SameGrouping, OnConnect, Unshared, Numbered;
    if ids != [] {
      if ids[0] in st.screens {
        OnConnectInv(st, env, ids[0]);
        OnConnectRetains(st, env, ids[0]);
      }
      ConnectEachNumbered(if ids[0] in st.screens then OnConnect(st, env, ids[0]) else st, env, ids[1..]);
    }
  }

  lemma RegisterOutcome(st: State, env: Env)
    requires Inv(st) && Numbered(st)
    ensures Outcome(st, RegisterCallback(st, env), RegisterDoubles(st, env))
  {
    hide Inv, Unshared, ConnectEach, KnownDefault, NoDisplay, OnlyChild;
    var s0 := st.(callback := true);
    ShapeInv(st, s0);
    SameNumbered(st, s0);
    ConnectEachNumbered(s0, env, Ascending(st.screens.Keys));
    if Unshared(st.displays) { RegisterShares(st, env); }
  }

  ghost predicate ChosenDoubles(st: State, env: Env, id: ScreenId) {
    && st.callback && RsOf(st.ids, id) != SCREEN_ID_INVALID && id in st.screens
    && !st.screens[id].kind.REAL? && st.screens[id].mode.Some? && !NoDisplay(st, id)
    && (st.groups == map[] || (OnlyChild(st, id) && KnownDefault(st, env) == id))
  }

  lemma SetVirtualOutcome(st: State, env: Env, id: ScreenId)
    requires Inv(st) && Numbered(st)
    ensures Outcome(st, SetVirtualAsDefault(st, env, id).0, ChosenDoubles(st, env, id))
  {
    hide Inv, Evolves, Extends, SameGrouping, AddToGroup, Touch, OnConnect, Unshared, NoDisplay, Disown, KnownDefault, OnlyChild;
    if Unshared(st.displays) { SetVirtualShares(st, env, id); }
    var rs := RsOf(st.ids, id);
    if rs != SCREEN_ID_INVALID && id in st.screens && !st.screens[id].kind.REAL? {
      var (s1, g) := AddToGroup(st, env, id);
      IsOrdinary(st, id);
      JoinAlone(st, env, id);
      AddToGroupInv(st, env, id);
      EvolvesCount(st, s1);
      SameNumbered(st, s1);
      var s2 := Touch(s1, env, id);
      TouchInv(s1, env, id);
      TouchBinding(s1, env, id);
      if g != SCREEN_ID_INVALID {
        ExtendsAt(s1, s2, id);
        SameNumbered(s1, s2);
        var s3 := s2.(defaultRs := rs, agents := Disown(s2.agents, id));
        ShapeInv(s2, s3);
        SameNumbered(s2, s3);
        OnConnectRetains(s3, env, id);
      }
    }
  }

  // ---------- Destroying ----------

  ghost predicate DestroyPiles(st: State, env: Env, id: ScreenId) {
    !Refuses(st, id) && id in st.screens && UnplugPiles(st, env, RsOf(st.ids, id))
  }

  lemma AgentsPiles(st: State, env: Env, agents: map<AgentId, seq<ScreenId>>, rs: ScreenId)
    ensures UnplugPiles(st.(agents := agents), env, rs) <==> UnplugPiles(st, env, rs)
  {
    var r := st.(agents := agents);
    SameKnown(st, r, env);
    hide KnownDefault;
    assert forall y :: NoDisplay(r, y) <==> NoDisplay(st, y);
    assert Receives(r, env) <==> Receives(st, env);
    hide NoDisplay, Receives;
    if rs in st.ids.rs2Dms && st.ids.rs2Dms[rs] in st.screens {
      assert Goers(r, env, st.ids.rs2Dms[rs]) == Goers(st, env, st.ids.rs2Dms[rs]);
    }
    hide Goers;
    assert forall y :: Gives(r, y) <==> Gives(st, y);
  }

  lemma DestroyShares(st: State, env: Env, id: ScreenId)
    requires Inv(st) && Numbered(st)
    ensures Outcome(st, DestroyVirtual(st, env, id).0, DestroyPiles(st, env, id))
    ensures Unshared(st.displays) && DestroyPiles(st, env, id) ==> Doubled(DestroyVirtual(st, env, id).0, KnownDefault(st, env))
  {
    hide Inv, Unshared, Disconnect, Disown, UnplugPiles, Doubled, KnownDefault;
    var rs := RsOf(st.ids, id);
    if !Refuses(st, id) {
      var s1 := st.(agents := Disown(st.agents, id));
      AgentsInv(st, s1.agents);
      SameNumbered(st, s1);
      AgentsPiles(st, env, s1.agents, rs);
      InvalidUnmapped(st, env);
      if rs != SCREEN_ID_INVALID && id in st.screens {
        DisconnectShares(s1, env, rs);
        SameNumbered(Disconnect(s1, env, rs), DestroyVirtual(st, env, id).0);
        SameDoubled(Disconnect(s1, env, rs), DestroyVirtual(st, env, id).0, KnownDefault(st, env));
        SameKnown(st, s1, env);
      } else {
        SameNumbered(st, DestroyVirtual(st, env, id).0);
      }
    }
  }

  lemma InvalidUnmapped(st: State, env: Env)
    requires Inv(st)
    ensures !UnplugPiles(st, env, SCREEN_ID_INVALID)
  {
    hide Piles, Goers;
  }
}

/** What a screen keeps outside and inside its group, over every run: one without a display node starts at the origin,
    and a child remembers no other group than its own. */
module ScreenMemory {
  import opened DmTypes
  import opened ScreenState
  import opened ScreenInvariant
  import opened AgentOwnership
  import opened ScreenRuns
  import opened GroupChanges

  /** Without a node at the origin; and in a group, remembering that or none. */
  predicate Tidy(s: Screen) {
    && (!s.hasNode ==> s.start == ORIGIN)
    && (s.groupId != SCREEN_ID_INVALID ==> s.lastGroupId == SCREEN_ID_INVALID || s.lastGroupId == s.groupId)
  }

  ghost predicate AllTidy(st: State) {
    forall x :: x in st.screens ==> Tidy(st.screens[x])
  }

  lemma SameTidy(a: State, b: State)
    requires AllTidy(a) && b.screens == a.screens
    ensures AllTidy(b)
  {
  }

  // ---------- Lookups and callbacks ----------

  lemma FirstTidy(st: State, env: Env, id: ScreenId)
    requires AllTidy(st) && id in st.screens && st.screens[id].groupId == SCREEN_ID_INVALID
    ensures AllTidy(AddAsFirst(st, env, id).0) && id in AddAsFirst(st, env, id).0.screens
  {
  }

  lemma BuiltInTidy(st: State, env: Env, rs: ScreenId, id: ScreenId)
    requires AllTidy(st) && id in st.screens
    ensures AllTidy(BuiltIn(st, env, rs, id)) && id in BuiltIn(st, env, rs, id).screens
  {
    hide CalcRotation;
  }

  lemma InitTidy(st: State, env: Env, rs: ScreenId)
    requires AllTidy(st)
    ensures var (s1, d) := InitScreen(st, env, rs);
            AllTidy(s1) && (d != SCREEN_ID_INVALID ==> d in s1.screens && s1.screens[d].groupId == SCREEN_ID_INVALID)
  {
  }

  lemma LookupTidy(st: State, env: Env)
    requires AllTidy(st)
    ensures AllTidy(GetDefault(st, env).0)
  {
    hide InitScreen, AddAsFirst, BuiltIn, AllTidy;
    var s0 := Learn(st, env);
    SameTidy(st, s0);
    if !Settled(st, env) {
      InitTidy(s0, env, s0.defaultRs);
      var (s1, d) := InitScreen(s0, env, s0.defaultRs);
      if d != SCREEN_ID_INVALID && s1.groups == map[] {
        FirstTidy(s1, env, d);
        var s2 := AddAsFirst(s1, env, d).0;
        BuiltInTidy(s2, env, s0.defaultRs, d);
        var s3 := BuiltIn(s2, env, s0.defaultRs, d);
        hide BuiltIn;
        assert Bind(s3, d, d).screens == s3.screens;
        SameTidy(s3, Bind(s3, d, d));
      }
    }
  }

  lemma TouchTidy(st: State, env: Env, id: ScreenId)
    requires AllTidy(st)
    ensures AllTidy(Touch(st, env, id))
  {
    LookupTidy(st, env);
    hide GetDefault, AllTidy;
  }

  lemma OnConnectTidy(st: State, env: Env, id: ScreenId)
    requires AllTidy(st) && id in st.screens
    ensures AllTidy(OnConnect(st, env, id))
  {
    hide GetDefault, FirstDisplay, AllTidy;
    LookupTidy(st, env);
    var s1 := GetDefault(st, env).0;
    var r := OnConnect(st, env, id);
    assert r.screens == st.screens || r.screens == s1.screens;
    hide OnConnect;
    if r.screens == st.screens { SameTidy(st, r); } else { SameTidy(s1, r); }
  }

  lemma OnDisconnectTidy(st: State, env: Env, id: ScreenId)
    requires AllTidy(st) && id in st.screens
    ensures AllTidy(OnDisconnect(st, env, id))
  {
    hide GetDefault, FirstDisplay, LastDisplay, ZeroOthers, AllTidy;
    var zeroed := st.(displays := ZeroOthers(st.displays, id));
    SameTidy(st, zeroed);
    LookupTidy(st, env);
    LookupTidy(zeroed, env);
    var s1, s2 := GetDefault(st, env).0, GetDefault(zeroed, env).0;
    var r := OnDisconnect(st, env, id);
    assert r.screens == st.screens || r.screens == s1.screens || r.screens == s2.screens;
    hide OnDisconnect;
    if r.screens == st.screens { SameTidy(st, r); }
    else if r.screens == s1.screens { SameTidy(s1, r); }
    else { SameTidy(s2, r); }
  }

  // ---------- Joining and leaving ----------

  lemma NodeConfigTidy(st: State, env: Env, g: ScreenId, id: ScreenId)
    requires AllTidy(st) && g in st.groups
    ensures AllTidy(NodeConfig(st, env, g, id))
  {
    hide GetDefault, AllTidy;
    LookupTidy(st, env);
    var r := NodeConfig(st, env, g, id);
    if r.screens == st.screens { SameTidy(st, r); } else { SameTidy(GetDefault(st, env).0, r); }
  }

  lemma PlaceTidy(st: State, env: Env, g: ScreenId, id: ScreenId, p: Point)
    requires AllTidy(st) && g in st.groups && id in st.screens && st.screens[id].groupId == SCREEN_ID_INVALID
    ensures AllTidy(PlaceChild(st, env, g, id, p))
  {
  }

  lemma RenewTidy(st: State, id: ScreenId, p: Point)
    requires AllTidy(st) && id in st.screens && st.screens[id].hasNode
    ensures AllTidy(st.(screens := st.screens[id := st.screens[id].(start := p)]))
  {
  }

  lemma AddChildTidy(st: State, env: Env, g: ScreenId, id: ScreenId, p: Point)
    requires Inv(st) && AllTidy(st) && g in st.groups && id in st.screens && !st.screens[id].IsGroup()
    ensures AllTidy(AddChild(st, env, g, id, p).0)
  {
    NodeConfigTidy(st, env, g, id);
    NodeConfigInv(st, env, g, id);
    if id in st.groups[g].children {
      AddChildOld(st, env, g, id, p);
      hide Inv, AddChild, NodeConfig, AllTidy, Extends, Evolves;
      if Reconnects(st, g, id) { RenewTidy(NodeConfig(st, env, g, id), id, p); }
    } else {
      OutsideLoose(st, g, id);
      AddChildNew(st, env, g, id, p);
      hide Inv, AddChild, NodeConfig, AllTidy, Extends, Evolves, PlaceChild;
      PlaceTidy(NodeConfig(st, env, g, id), env, g, id, p);
    }
  }

  lemma OutsideLoose(st: State, g: ScreenId, id: ScreenId)
    requires Inv(st) && g in st.groups && id in st.screens && !st.screens[id].IsGroup() && id !in st.groups[g].children
    ensures st.screens[id].groupId == SCREEN_ID_INVALID
  {
    assert ScreenOk(st, id);
  }

  lemma AddToGroupTidy(st: State, env: Env, id: ScreenId)
    requires Inv(st) && AllTidy(st) && id in st.screens && !st.screens[id].IsGroup()
    ensures AllTidy(AddToGroup(st, env, id).0)
  {
    if st.groups == map[] {
      UngroupedLoose(st, id);
      hide AddAsFirst, Inv, AllTidy;
      FirstTidy(st, env, id);
    } else {
      hide Inv, AllTidy, GetDefault, AddChild, SumWidths, Ascending;
      LookupTidy(st, env);
      LookupInv(st, env);
      var (s1, d) := GetDefault(st, env);
      if d in s1.screens && s1.screens[d].groupId in s1.groups {
        var g := s1.screens[d].groupId;
        var p := if s1.groups[g].combination.SCREEN_EXPAND?
                 then Point(SumWidths(s1.screens, Ascending(s1.groups[g].children)), 0) else ORIGIN;
        AddChildTidy(s1, env, g, id, p);
      }
    }
  }

  lemma UngroupedLoose(st: State, id: ScreenId)
    requires Inv(st) && id in st.screens && !st.screens[id].IsGroup() && st.groups == map[]
    ensures st.screens[id].groupId == SCREEN_ID_INVALID
  {
    assert ScreenOk(st, id);
  }

  lemma RemoveTidy(st: State, g: ScreenId, id: ScreenId)
    requires AllTidy(st) && g in st.groups && id in st.screens
    ensures AllTidy(RemoveChild(st, g, id).0)
  {
  }

  lemma RemoveFromGroupTidy(st: State, id: ScreenId)
    requires AllTidy(st) && id in st.screens
    ensures AllTidy(RemoveFromGroup(st, id).0)
  {
    hide AllTidy, RemoveChild;
    if st.screens[id].groupId in st.groups { RemoveTidy(st, st.screens[id].groupId, id); }
  }

  /** The disconnect callback and the removal, together. */
  lemma DropTidy(st: State, env: Env, id: ScreenId)
    requires AllTidy(st) && id in st.screens
    ensures var s1 := if st.callback && InGroup(st, id) then OnDisconnect(st, env, id) else st;
            AllTidy(s1) && id in s1.screens && AllTidy(RemoveFromGroup(s1, id).0)
            && forall g :: g in s1.groups ==> AllTidy(RemoveChild(s1, g, id).0)
  {
    hide AllTidy, OnDisconnect, RemoveFromGroup, RemoveChild;
    OnDisconnectTidy(st, env, id);
    var s1 := if st.callback && InGroup(st, id) then OnDisconnect(st, env, id) else st;
    RemoveFromGroupTidy(s1, id);
    forall g | g in s1.groups ensures AllTidy(RemoveChild(s1, g, id).0) { RemoveTidy(s1, g, id); }
  }

  lemma {:induction false} TakeOutTidy(st: State, env: Env, g: ScreenId, ids: seq<ScreenId>, at: seq<Point>, filter: bool)
    requires AllTidy(st) && |ids| == |at|
    ensures AllTidy(TakeOut(st, env, g, ids, at, filter).0)
    decreases |ids|
  {
    hide AllTidy, OnDisconnect, RemoveFromGroup;
    if ids != [] {
      if ids[0] in st.screens { DropTidy(st, env, ids[0]); }
      assert AllTidy(TakeOutOne(st, env, g, ids[0], filter));
      hide TakeOutOne;
      TakeOutTidy(TakeOutOne(st, env, g, ids[0], filter), env, g, ids[1..], at[1..], filter);
    }
  }

  lemma PutInOneTidy(st: State, env: Env, g: ScreenId, t: Taken)
    requires Inv(st) && AllTidy(st) && Plain(st, [t.id])
    ensures AllTidy(PutInOne(st, env, g, t).0)
  {
    assert t.id in [t.id];
    hide Inv, AllTidy, AddChild, Touch, OnConnect, Plain;
    if g in st.groups && t.id in st.screens {
      AddChildTidy(st, env, g, t.id, t.at);
      var s1 := AddChild(st, env, g, t.id, t.at).0;
      TouchTidy(s1, env, t.id);
      OnConnectTidy(s1, env, t.id);
      OnConnectTidy(Touch(s1, env, t.id), env, t.id);
    }
  }

  lemma {:induction false} PutInTidy(st: State, env: Env, g: ScreenId, taken: seq<Taken>)
    requires Inv(st) && AllTidy(st) && forall i :: 0 <= i < |taken| ==> Plain(st, [taken[i].id])
    ensures AllTidy(PutIn(st, env, g, taken).0)
    decreases |taken|
  {
    hide Inv, AllTidy, Plain, Evolves, PutInOne;
    if taken != [] {
      var s1 := PutInOne(st, env, g, taken[0]).0;
      var rest := taken[1..];
      PutInOneTidy(st, env, g, taken[0]);
      PutInOneInv(st, env, g, taken[0]);
      forall i | 0 <= i < |rest| ensures Plain(s1, [rest[i].id]) {
        assert rest[i] == taken[i + 1];
        EvolvesPlain(st, s1, [rest[i].id]);
      }
      PutInTidy(s1, env, g, rest);
    }
  }

  // ---------- Changing groups ----------

  lemma ChangeTidy(st: State, env: Env, g: ScreenId, ids: seq<ScreenId>, at: seq<Point>, filter: bool, combination: Combination)
    requires Inv(st) && AllTidy(st) && Plain(st, ids) && |ids| == |at|
    ensures AllTidy(ChangeScreenGroup(st, env, g, ids, at, filter, combination).0)
  {
    hide Inv, AllTidy, TakeOut, PutIn, Evolves, Plain;
    var (s1, taken) := TakeOut(st, env, g, ids, at, filter);
    TakeOutInv(st, env, g, ids, at, filter);
    TakeOutTidy(st, env, g, ids, at, filter);
    if g in s1.groups {
      CombineInv(s1, g, combination);
      var s2 := s1.(groups := s1.groups[g := s1.groups[g].(combination := combination)]);
      SameTidy(s1, s2);
      forall i | 0 <= i < |taken| ensures Plain(s2, [taken[i].id]) { TakenStayPlain(st, s1, s2, ids, taken, i); }
      PutInTidy(s2, env, g, taken);
    }
  }

  lemma TakenStayPlain(st: State, s1: State, s2: State, ids: seq<ScreenId>, taken: seq<Taken>, i: nat)
    requires Plain(st, ids) && Evolves(st, s1) && s2.screens == s1.screens && i < |taken| && taken[i].id in ids
    ensures Plain(s2, [taken[i].id])
  {
    EvolvesPlain(st, s1, ids);
  }

  lemma MirrorGroupTidy(st: State, env: Env, id: ScreenId)
    requires Inv(st) && AllTidy(st) && id in st.screens && !st.screens[id].IsGroup()
    ensures AllTidy(MirrorGroup(st, env, id).0)
  {
    hide Inv, AllTidy, AddToGroup, Touch, OnConnect;
    if st.screens[id].groupId !in st.groups {
      AddToGroupTidy(st, env, id);
      var s1 := AddToGroup(st, env, id).0;
      TouchTidy(s1, env, id);
      OnConnectTidy(Touch(s1, env, id), env, id);
    }
  }

  lemma MakeMirrorTidy(st: State, env: Env, id: ScreenId, ids: seq<ScreenId>)
    requires Inv(st) && AllTidy(st) && Plain(st, ids)
    ensures AllTidy(MakeMirror(st, env, id, ids).0)
  {
    hide Inv, AllTidy, MirrorGroup, ChangeScreenGroup, Plain, Evolves;
    if id in st.screens && st.screens[id].kind.REAL? {
      var (s1, g) := MirrorGroup(st, env, id);
      MirrorGroupTidy(st, env, id);
      MirrorGroupInv(st, env, id);
      if g in s1.groups {
        EvolvesPlain(st, s1, ids);
        var filter := s1.groups[g].combination.SCREEN_MIRROR? && s1.groups[g].mirrorId == id;
        var s2 := s1.(groups := s1.groups[g := s1.groups[g].(mirrorId := id)]);
        SourceInv(s1, g, id);
        PlainShape(s1, s2, ids);
        SameTidy(s1, s2);
        ChangeTidy(s2, env, g, ids, Origins(|ids|), filter, SCREEN_MIRROR);
      }
    }
  }

  lemma MakeExpandTidy(st: State, env: Env, ids: seq<ScreenId>, at: seq<Point>)
    requires Inv(st) && AllTidy(st) && Plain(st, ids) && |ids| == |at|
    ensures AllTidy(MakeExpand(st, env, ids, at).0)
  {
    hide Inv, AllTidy, GetDefault, ChangeScreenGroup, Plain, Evolves, Extends;
    var (s1, d) := GetDefault(st, env);
    LookupTidy(st, env);
    LookupInv(st, env);
    EvolvesPlain(st, s1, ids);
    if d in s1.screens && s1.screens[d].groupId in s1.groups {
      var g := s1.screens[d].groupId;
      ChangeTidy(s1, env, g, ids, at, s1.groups[g].combination.SCREEN_EXPAND?, SCREEN_EXPAND);
    }
  }

  lemma ServiceTidy(st: State, env: Env, id: ScreenId, ids: seq<ScreenId>, at: seq<Point>)
    requires Inv(st) && AllTidy(st)
    ensures AllTidy(ServiceMakeMirror(st, env, id, ids).0)
    ensures AllTidy(ServiceMakeExpand(st, env, ids, at).0)
  {
    hide Inv, AllTidy, MakeMirror, MakeExpand, GetDefault, Plain, PointsFor, FirstPoints, ValidIds, Evolves, Extends;
    ValidPlain(st, ids, id);
    MakeMirrorTidy(st, env, id, RemoveFirst(ValidIds(st, ids), id));
    if |ids| == |at| {
      var (s1, d) := GetDefault(st, env);
      LookupInv(st, env);
      LookupTidy(st, env);
      ValidPlain(s1, ids, d);
      var all := RemoveFirst(ValidIds(s1, ids), d);
      var points := PointsFor(all, FirstPoints(ids, at));
      if |points| == |all| {
        MakeExpandTidy(s1, env, all, points);
      }
    }
  }

  lemma {:induction false} StopTidy(st: State, env: Env, ids: seq<ScreenId>, combination: Combination)
    requires AllTidy(st)
    ensures AllTidy(StopScreens(st, env, ids, combination))
    decreases |ids|
  {
    hide AllTidy, OnDisconnect, RemoveFromGroup, RemoveChild;
    if ids != [] {
      if ids[0] in st.screens { DropTidy(st, env, ids[0]); }
      assert AllTidy(StopOne(st, env, ids[0], combination));
      hide StopOne;
      StopTidy(StopOne(st, env, ids[0], combination), env, ids[1..], combination);
    }
  }

  lemma {:induction false} RemoveVirtualTidy(st: State, env: Env, ids: seq<ScreenId>)
    requires AllTidy(st)
    ensures AllTidy(RemoveVirtual(st, env, ids))
    decreases |ids|
  {
    hide AllTidy, OnDisconnect, RemoveFromGroup;
    if ids != [] {
      if ids[0] in st.screens { DropTidy(st, env, ids[0]); }
      assert AllTidy(RemoveVirtualOne(st, env, ids[0]));
      hide RemoveVirtualOne;
      RemoveVirtualTidy(RemoveVirtualOne(st, env, ids[0]), env, ids[1..]);
    }
  }

  // ---------- Connecting, disconnecting, destroying ----------

  lemma ConnectTidy(st: State, env: Env, rs: ScreenId)
    requires Inv(st) && AllTidy(st) && rs != SCREEN_ID_INVALID
    ensures AllTidy(Connect(st, env, rs))
  {
    hide Inv, AllTidy, InitScreen, AddToGroup, BuiltIn, Touch, OnConnect, AddChild, Extends, Evolves;
    if rs in st.ids.rs2Dms {
      var d := st.ids.rs2Dms[rs];
      if d in st.screens && st.screens[d].lastGroupId in st.groups {
        MappedPlain(st, rs);
        AddChildTidy(st, env, st.screens[d].lastGroupId, d, ORIGIN);
      }
    } else {
      var (s1, d) := InitScreen(st, env, rs);
      InitScreenInv(st, env, rs);
      InitTidy(st, env, rs);
      if d != SCREEN_ID_INVALID {
        assert !s1.screens[d].IsGroup();
        AddToGroupTidy(s1, env, d);
        var s2 := AddToGroup(s1, env, d).0;
        BuiltInTidy(s2, env, rs, d);
        var s3 := BuiltIn(s2, env, rs, d);
        TouchTidy(s3, env, d);
        OnConnectTidy(Touch(s3, env, d), env, d);
      }
    }
  }

  lemma UnplugTidy(st: State, g: ScreenId, id: ScreenId)
    requires AllTidy(st) && g in st.groups && id in st.screens && st.screens[id].groupId == g
    ensures AllTidy(RemoveDefaultScreen(st, g, id))
  {
  }

  lemma ForgetTidy(st: State, x: ScreenId, ids: Ids)
    requires AllTidy(st)
    ensures AllTidy(st.(screens := st.screens - {x})) && AllTidy(st.(ids := ids))
  {
  }

  lemma RemirrorTidy(st: State, env: Env, g: ScreenId, gone: ScreenId)
    requires Inv(st) && AllTidy(st)
    ensures AllTidy(Remirror(st, env, g, gone))
  {
    hide Inv, AllTidy, GetDefault, MakeMirror, Extends, Evolves, Plain;
    if g in st.groups {
      var (s1, d) := GetDefault(st, env);
      LookupTidy(st, env);
      LookupInv(st, env);
      if g in s1.groups {
        ChildrenPlain(s1, g, d);
        MakeMirrorTidy(s1, env, d, Without(Ascending(s1.groups[g].children), d));
      }
    }
  }

  lemma DisconnectTidy(st: State, env: Env, rs: ScreenId)
    requires Inv(st) && AllTidy(st)
    ensures AllTidy(Disconnect(st, env, rs))
  {
    hide AllTidy, OnDisconnect, RemoveFromGroup, Remirror, Evolves, RemoveDefaultScreen;
    if rs in st.ids.rs2Dms {
      var d := st.ids.rs2Dms[rs];
      if d !in st.screens {
        ForgetTidy(st, d, DeleteId(st.ids, d));
      } else if st.callback && InGroup(st, d) && rs == st.defaultRs {
        UnplugTidy(st, st.screens[d].groupId, d);
      } else {
        MappedPlain(st, rs);
        DropInv(st, env, d);
        DropTidy(st, env, d);
        hide Inv;
        var s1 := if st.callback && InGroup(st, d) then OnDisconnect(st, env, d) else st;
        var (s2, g) := RemoveFromGroup(s1, d);
        ForgetTidy(s2, d, s2.ids);
        var s3 := s2.(screens := s2.screens - {d});
        EvolvesPlain(st, s2, [d]);
        assert d in [d];
        EraseScreenInv(s2, d);
        RemirrorTidy(s3, env, g, d);
        var s4 := Remirror(s3, env, g, d);
        ForgetTidy(s4, d, DeleteId(s4.ids, d));
      }
    }
  }

  lemma DestroyTidy(st: State, env: Env, id: ScreenId)
    requires Inv(st) && AllTidy(st) && AgentsOk(st)
    ensures AllTidy(DestroyVirtual(st, env, id).0)
  {
    if !Refuses(st, id) {
      var s1 := st.(agents := Disown(st.agents, id));
      AgentsInv(st, s1.agents);
      hide Inv, AllTidy, Disown, Disconnect;
      SameTidy(st, s1);
      var rs := RsOf(st.ids, id);
      DisconnectTidy(s1, env, rs);
      var s2 := if rs != SCREEN_ID_INVALID && id in s1.screens then Disconnect(s1, env, rs) else s1;
      assert DestroyVirtual(st, env, id).0.screens == s2.screens;
      SameTidy(s2, DestroyVirtual(st, env, id).0);
    }
  }

  lemma {:induction false} RemoteDiedTidy(st: State, env: Env, a: AgentId)
    requires Inv(st) && AgentsOk(st) && AllTidy(st) && OnRemoteDied(st, env, a).Some?
    ensures AllTidy(OnRemoteDied(st, env, a).value)
    decreases |AgentList(st, a)|
  {
    hide Inv, AgentsOk, DestroyVirtual, AllTidy;
    if AgentList(st, a) != [] {
      var id := AgentList(st, a)[0];
      DestroyTidy(st, env, id);
      DestroyInv(st, env, id);
      RemoteDiedTidy(DestroyVirtual(st, env, id).0, env, a);
    } else {
      SameTidy(st, OnRemoteDied(st, env, a).value);
    }
  }

  lemma NewTidy(st: State, d: ScreenId, s: Screen, agents: map<AgentId, seq<ScreenId>>)
    requires AllTidy(st) && Tidy(s)
    ensures AllTidy(st.(screens := st.screens[d := s], agents := agents))
  {
  }

  lemma CreateVirtualTidy(st: State, env: Env, rs: ScreenId, mode: Mode, a: AgentId)
    requires AllTidy(st)
    ensures AllTidy(CreateVirtual(st, env, rs, mode, a).0)
  {
    hide AllTidy, GetDefault;
    if rs != SCREEN_ID_INVALID && rs !in st.ids.rs2Dms {
      var s0 := st.(ids := CreateId(st.ids, rs));
      SameTidy(st, s0);
      LookupTidy(s0, env);
      var s1 := GetDefault(s0, env).0;
      NewTidy(s1, st.ids.count, NewScreen(rs, VIRTUAL, Some(mode)), s1.agents[a := AgentList(s1, a) + [st.ids.count]]);
    }
  }

  lemma SetVirtualTidy(st: State, env: Env, id: ScreenId)
    requires Inv(st) && AllTidy(st)
    ensures AllTidy(SetVirtualAsDefault(st, env, id).0)
  {
    var rs := RsOf(st.ids, id);
    if rs != SCREEN_ID_INVALID && id in st.screens && !st.screens[id].kind.REAL? {
      MappedOrdinary(st, id);
      hide Inv, AllTidy, AddToGroup, Touch, OnConnect, Disown;
      AddToGroupTidy(st, env, id);
      var s1 := AddToGroup(st, env, id).0;
      TouchTidy(s1, env, id);
      var s2 := Touch(s1, env, id);
      var s3 := s2.(defaultRs := rs, agents := Disown(s2.agents, id));
      SameTidy(s2, s3);
      OnConnectTidy(s3, env, id);
    }
  }

  lemma MappedOrdinary(st: State, id: ScreenId)
    requires Inv(st) && id in st.screens && RsOf(st.ids, id) != SCREEN_ID_INVALID
    ensures !st.screens[id].IsGroup()
  {
    assert ScreenOk(st, id);
  }

  // ---------- Rotation, layout, registration ----------

  lemma TurnTidy(st: State, id: ScreenId, s: Screen)
    requires AllTidy(st) && id in st.screens
    requires s == st.screens[id].(rotation := s.rotation, orientation := s.orientation, requested := s.requested)
    ensures AllTidy(st.(screens := st.screens[id := s]))
  {
  }

  lemma SetRotationTidy(st: State, env: Env, id: ScreenId, r: Rotation)
    requires AllTidy(st)
    ensures AllTidy(SetRotation(st, env, id, r))
  {
    hide AllTidy, Touch, UpdateDisplay;
    if id in st.screens && st.screens[id].rotation != r {
      var s := st.screens[id].(rotation := r);
      TurnTidy(st, id, s);
      var s0 := st.(screens := st.screens[id := s]);
      TouchTidy(s0, env, id);
      var s1 := Touch(s0, env, id);
      var f := (d: Display) => Rotate(d, r);
      UpdateDisplayShape(s1, id, f);
      SameTidy(s1, UpdateDisplay(s1, id, f));
    }
  }

  lemma LayOutOneTidy(st: State, id: ScreenId, x: int)
    requires AllTidy(st) && id in st.screens && st.screens[id].mode.Some?
    ensures AllTidy(LayOutOne(st, id, x).0)
  {
  }

  lemma {:induction false} LayOutTidy(st: State, order: seq<ScreenId>, x: int)
    requires AllTidy(st)
    ensures AllTidy(LayOut(st, order, x).0)
    decreases |order|
  {
    hide AllTidy, LayOutOne;
    if order != [] {
      if order[0] !in st.screens || st.screens[order[0]].mode.None? {
        LayOutTidy(st, order[1..], x);
      } else {
        LayOutOneTidy(st, order[0], x);
        LayOutTidy(LayOutOne(st, order[0], x).0, order[1..], x + WidthOf(st.screens, order[0]));
      }
    }
  }

  lemma SetOrientationTidy(st: State, env: Env, id: ScreenId, o: Orientation)
    requires AllTidy(st)
    ensures AllTidy(SetOrientation(st, env, id, o).0)
  {
    hide AllTidy, Touch, UpdateDisplay, SetRotation, LayOut, ChildrenByX, CalcRotation;
    if id in st.screens && !st.screens[id].IsGroup() {
      var s := st.screens[id].(requested := o);
      TurnTidy(st, id, s);
      var s1 := st.(screens := st.screens[id := s]);
      if s1.screens[id].orientation != o {
        var rot := CalcRotation(s1.screens[id].mode, o);
        SetRotationTidy(s1, env, id, rot);
        var s2 := SetRotation(s1, env, id, rot);
        var s3 := s2;
        if id in s2.screens {
          var t2 := s2.(screens := s2.screens[id := s2.screens[id].(orientation := o)]);
          TurnTidy(s2, id, s2.screens[id].(orientation := o));
          TouchTidy(t2, env, id);
          s3 := Touch(t2, env, id);
        }
        var s4 := s3;
        if s3.callback && id in s3.screens {
          var f := (d: Display) => Rotate(d.(orientation := o), s3.screens[id].rotation);
          s4 := UpdateDisplay(s3, id, f);
          UpdateDisplayShape(s3, id, f);
          SameTidy(s3, s4);
        }
        if id in s4.screens && s4.screens[id].groupId in s4.groups {
          LayOutTidy(s4, ChildrenByX(s4, s4.screens[id].groupId), 0);
        }
      }
    }
  }

  lemma {:induction false} ConnectEachTidy(st: State, env: Env, ids: seq<ScreenId>)
    requires AllTidy(st)
    ensures AllTidy(ConnectEach(st, env, ids))
    decreases |ids|
  {
    hide AllTidy, OnConnect;
    if ids != [] {
      if ids[0] in st.screens { OnConnectTidy(st, env, ids[0]); }
      ConnectEachTidy(if ids[0] in st.screens then OnConnect(st, env, ids[0]) else st, env, ids[1..]);
    }
  }

  // ---------- Every step, every run ----------

  lemma StepTidy(st: State, env: Env, op: Op)
    requires Good(st) && AllTidy(st) && Admissible(op)
    ensures AllTidy(Step(st, env, op))
  {
    hide Inv, AgentsOk, AllTidy, Connect, GetDefault, Disconnect, CreateVirtual, DestroyVirtual, OnRemoteDied, ServiceMakeMirror,
         ServiceMakeExpand, StopScreens, RemoveVirtual, SetRotation, SetOrientation, SetVirtualAsDefault, ConnectEach, Unmatched,
         ValidIds, Ascending;
    match op
    case OpConnect(rs) => ConnectTidy(st, env, rs);
    case OpDisconnect(rs) => DisconnectTidy(st, env, rs);
    case OpQueryDefault => LookupTidy(st, env);
    case OpCreateVirtual(rs, mode, a) => CreateVirtualTidy(st, env, rs, mode, a);
    case OpDestroyVirtual(id) => DestroyTidy(st, env, id);
    case OpAgentDied(a) => if OnRemoteDied(st, env, a).Some? { RemoteDiedTidy(st, env, a); }
    case OpMakeMirror(id, ids) => ServiceTidy(st, env, id, ids, []);
    case OpMakeExpand(ids, at) => ServiceTidy(st, env, 0, ids, at);
    case OpStop(ids, combination) => StopTidy(st, env, ValidIds(st, ids), combination);
    case OpRemoveVirtual(ids) => RemoveVirtualTidy(st, env, ids);
    case OpSetVirtualAsDefault(id) => SetVirtualTidy(st, env, id);
    case OpSetRotation(id, r) => SetRotationTidy(st, env, id, r);
    case OpSetOrientation(id, o) => SetOrientationTidy(st, env, id, o);
    case OpRegister =>
      SameTidy(st, st.(callback := true));
      ConnectEachTidy(st.(callback := true), env, Ascending(st.screens.Keys));
  }

  /** On every run, a screen without a display node starts at the origin, and a child of the group remembers no other
      group than that. */
  lemma {:induction false} RunTidy(st: State, events: seq<Event>)
    requires Good(st) && AllTidy(st) && forall e :: e in events ==> Admissible(e.op)
    ensures AllTidy(Run(st, events))
    decreases |events|
  {
    hide Good, AllTidy, Step;
    if events != [] {
      StepGood(st, events[0].env, events[0].op);
      StepTidy(st, events[0].env, events[0].op);
      RunTidy(Step(st, events[0].env, events[0].op), events[1..]);
    }
  }
}

/** The source of a mirror group: as long as the default screen is a real screen that stays in its
    group, a mirror group always mirrors one of its own children. */
module MirrorSource {
  import opened DmTypes
  import opened ScreenState
  import opened ScreenInvariant
  import opened AgentOwnership
  import opened ScreenRuns
  import opened GroupChanges

  /** A mirror group's source is a real screen of the group. */
  ghost predicate MirrorOk(st: State) {
    forall g :: g in st.groups && st.groups[g].combination.SCREEN_MIRROR? ==>
      var m := st.groups[g].mirrorId;
      m in st.groups[g].children && m in st.screens && st.screens[m].kind.REAL?
  }

  /** The default screen is known, real and in a group, and the display controller listens. */
  ghost predicate DefaultMember(st: State) {
    && st.callback && st.defaultRs != SCREEN_ID_INVALID && st.defaultRs in st.ids.rs2Dms
    && var d := st.ids.rs2Dms[st.defaultRs];
       d in st.screens && st.screens[d].kind.REAL? && InGroup(st, d)
  }

  /** Groups that only gain children keep their source. */
  lemma SourceKept(a: State, b: State)
    requires MirrorOk(a) && Inv(a) && Evolves(a, b)
    requires forall g :: g in b.groups ==>
               && g in a.groups && a.groups[g].children <= b.groups[g].children
               && b.groups[g].mirrorId == a.groups[g].mirrorId && b.groups[g].combination == a.groups[g].combination
    ensures MirrorOk(b)
  {
    forall g | g in b.groups && b.groups[g].combination.SCREEN_MIRROR?
      ensures var m := b.groups[g].mirrorId; m in b.groups[g].children && m in b.screens && b.screens[m].kind.REAL?
    {
      assert a.groups[g].mirrorId in a.groups[g].children;
      assert GroupOk(a, g);
    }
  }

  lemma SameGroupsOk(a: State, b: State)
    requires MirrorOk(a) && Inv(a) && Evolves(a, b) && b.groups == a.groups
    ensures MirrorOk(b)
  {
    hide Inv, Evolves;
    SourceKept(a, b);
  }

  lemma FirstMirrorOk(st: State, env: Env, id: ScreenId)
    requires Inv(st) && st.groups == map[] && id in st.screens && st.screens[id].kind.REAL?
    ensures MirrorOk(AddAsFirst(st, env, id).0)
  {
    AddAsFirstInv(st, env, id);
    hide AddAsFirst, Inv;
  }

  lemma ConnectDefaultMirrorOk(st: State, env: Env)
    requires Inv(st) && st.groups == map[] && MirrorOk(st)
    requires st.defaultRs != SCREEN_ID_INVALID && st.defaultRs !in st.ids.rs2Dms
    ensures MirrorOk(ConnectDefault(st, env))
  {
    InitScreenInv(st, env, st.defaultRs);
    var (s1, d) := InitScreen(st, env, st.defaultRs);
    assert s1.groups == map[];
    if d != SCREEN_ID_INVALID {
      assert s1.screens[d].kind.REAL?;
      hide InitScreen, Extends, Inv, AddAsFirst, MirrorOk, BuiltIn, Redraws, Bind;
      FirstMirrorOk(s1, env, d);
      var s2 := AddAsFirst(s1, env, d).0;
      var s3 := BuiltIn(s2, env, st.defaultRs, d);
      BuiltInShape(s2, env, st.defaultRs, d);
      BuiltInGroups(s2, env, st.defaultRs, d);
      RedrawMirrorOk(s2, s3, d);
      assert d in s3.screens by { RedrawKeys(s2, s3, d); }
      BindShape(s3, d, d);
      BindGroups(s3, d);
      RedrawMirrorOk(s3, Bind(s3, d, d), d);
    }
  }

  lemma RedrawKeys(a: State, b: State, id: ScreenId)
    requires Redraws(a, b, id) && id in a.screens
    ensures id in b.screens
  {
  }

  lemma BindGroups(st: State, id: ScreenId)
    requires id in st.screens
    ensures Bind(st, id, id).groups == st.groups
  {
  }

  lemma LookupMirrorOk(st: State, env: Env)
    requires Inv(st) && MirrorOk(st)
    ensures MirrorOk(GetDefault(st, env).0)
  {
    hide Inv, Evolves, MirrorOk, ConnectDefault, Extends;
    LookupInv(st, env);
    var s0 := Learn(st, env);
    LearnInv(st, env);
    LookupGroups(st, env);
    if st.groups != map[] {
      SameGroupsOk(st, GetDefault(st, env).0);
    } else {
      LearnMirrorOk(st, env);
      if !Settled(st, env) {
        ConnectDefaultMirrorOk(s0, env);
      }
    }
  }

  lemma LearnMirrorOk(st: State, env: Env)
    requires MirrorOk(st)
    ensures MirrorOk(Learn(st, env))
  {
  }

  lemma LookupGroups(st: State, env: Env)
    requires Inv(st)
    ensures st.groups != map[] ==> GetDefault(st, env).0.groups == st.groups
  {
    LookupInv(st, env);
    hide GetDefault, Inv, Evolves;
  }

  lemma RedrawMirrorOk(a: State, b: State, id: ScreenId)
    requires MirrorOk(a) && Redraws(a, b, id) && b.groups == a.groups
    ensures MirrorOk(b)
  {
  }

  lemma MirrorHasSource(st: State, g: ScreenId)
    requires MirrorOk(st) && g in st.groups
    ensures HasSource(st, g)
  {
  }

  lemma AddChildMirrorOk(st: State, env: Env, g: ScreenId, id: ScreenId, p: Point)
    requires Inv(st) && MirrorOk(st) && g in st.groups && id in st.screens && !st.screens[id].IsGroup()
    ensures MirrorOk(AddChild(st, env, g, id, p).0)
  {
    MirrorHasSource(st, g);
    AddChildInv(st, env, g, id, p);
    var r := AddChild(st, env, g, id, p).0;
    assert r.groups == st.groups || r.groups == st.groups[g := st.groups[g].(children := st.groups[g].children + {id})];
    hide Inv, Evolves, AddChild, MirrorOk;
    SourceKept(st, r);
  }

  lemma AddToGroupMirrorOk(st: State, env: Env, id: ScreenId)
    requires Inv(st) && MirrorOk(st) && id in st.screens && st.screens[id].kind.REAL?
    ensures MirrorOk(AddToGroup(st, env, id).0)
  {
    hide Inv, Evolves, GetDefault, AddChild, Extends, MirrorOk, AddAsFirst;
    if st.groups == map[] {
      FirstMirrorOk(st, env, id);
    } else {
      var (s1, d) := GetDefault(st, env);
      LookupInv(st, env);
      LookupOthers(st, env, id);
      LookupMirrorOk(st, env);
      if d in s1.screens && s1.screens[d].groupId in s1.groups {
        var g := s1.screens[d].groupId;
        var p := if s1.groups[g].combination.SCREEN_EXPAND?
                 then Point(SumWidths(s1.screens, Ascending(s1.groups[g].children)), 0) else ORIGIN;
        AddChildMirrorOk(s1, env, g, id, p);
      }
    }
  }

  /** A notification or a connect callback leaves the groups alone. */
  lemma TouchMirrorOk(st: State, env: Env, id: ScreenId)
    requires Inv(st) && MirrorOk(st)
    ensures MirrorOk(Touch(st, env, id)) && Touch(st, env, id).groups == st.groups
    ensures id in st.screens ==> MirrorOk(OnConnect(st, env, id)) && OnConnect(st, env, id).groups == st.groups
  {
    TouchInv(st, env, id);
    hide Inv, Evolves, Extends, MirrorOk, GetDefault, BindAlone, AddExpand;
    if id in st.screens {
      OnConnectInv(st, env, id);
      assert OnConnect(st, env, id).groups == st.groups;
      SameGroupsOk(st, OnConnect(st, env, id));
    }
    SameGroupsOk(st, Touch(st, env, id));
  }

  lemma ConnectMirrorOk(st: State, env: Env, rs: ScreenId)
    requires Inv(st) && MirrorOk(st) && rs != SCREEN_ID_INVALID
    ensures MirrorOk(Connect(st, env, rs))
  {
    hide Inv, Evolves, InitScreen, AddToGroup, BuiltIn, Touch, OnConnect, AddChild, MirrorOk;
    if rs in st.ids.rs2Dms {
      var d := st.ids.rs2Dms[rs];
      if d in st.screens && st.screens[d].lastGroupId in st.groups {
        MappedPlain(st, rs);
        AddChildMirrorOk(st, env, st.screens[d].lastGroupId, d, ORIGIN);
      }
    } else {
      var (s1, d) := InitScreen(st, env, rs);
      InitScreenInv(st, env, rs);
      ExtendsKeeps(st, s1);
      KeepsEvolves(st, s1);
      hide Keeps;
      SameGroupsOk(st, s1);
      hide Extends;
      if d != SCREEN_ID_INVALID {
        var (s2, g) := AddToGroup(s1, env, d);
        AddToGroupInv(s1, env, d);
        AddToGroupMirrorOk(s1, env, d);
        var s3 := BuiltIn(s2, env, rs, d);
        BuiltInShape(s2, env, rs, d);
        BuiltInGroups(s2, env, rs, d);
        RedrawsInv(s2, s3, d);
        RedrawMirrorOk(s2, s3, d);
        hide Redraws;
        TouchMirrorOk(s3, env, d);
        var s4 := Touch(s3, env, d);
        TouchInv(s3, env, d);
        TouchMirrorOk(s4, env, d);
      }
    }
  }

  lemma BuiltInGroups(st: State, env: Env, rs: ScreenId, id: ScreenId)
    requires id in st.screens
    ensures BuiltIn(st, env, rs, id).groups == st.groups
  {
  }

  // ---------- Removing screens ----------

  /** A screen that is not the source of a mirror group can leave it. */
  lemma DropMirrorOk(st: State, env: Env, id: ScreenId)
    requires Inv(st) && MirrorOk(st) && id in st.screens && !st.screens[id].IsGroup()
    requires forall g :: g in st.groups && st.groups[g].combination.SCREEN_MIRROR? ==> st.groups[g].mirrorId != id
    ensures var s1 := if st.callback && InGroup(st, id) then OnDisconnect(st, env, id) else st;
            id in s1.screens && MirrorOk(RemoveFromGroup(s1, id).0)
  {
    hide Inv, Evolves, OnDisconnect, MirrorOk, RemoveFromGroup;
    var s1 := if st.callback && InGroup(st, id) then OnDisconnect(st, env, id) else st;
    DropInv(st, env, id);
    if g :| g in st.groups && st.groups[g].children != {id} {
      DropEffect(st, env, g, id);
      hide RemoveFromGroup;
      LeaveMirrorOk(st, RemoveFromGroup(s1, id).0, g, id);
    } else {
      DropLast(st, s1, id);
    }
  }

  lemma LeaveMirrorOk(a: State, b: State, g: ScreenId, id: ScreenId)
    requires MirrorOk(a) && Inv(a) && Evolves(a, b) && LeavesOnly(a, b, g, {id})
    requires a.groups[g].combination.SCREEN_MIRROR? ==> a.groups[g].mirrorId != id
    ensures MirrorOk(b)
  {
    forall h | h in b.groups && b.groups[h].combination.SCREEN_MIRROR?
      ensures var m := b.groups[h].mirrorId; m in b.groups[h].children && m in b.screens && b.screens[m].kind.REAL?
    {
      assert a.groups[h].mirrorId in a.groups[h].children;
    }
  }

  /** If every group has only this child, no group is left afterwards. */
  lemma DropLast(st: State, s1: State, id: ScreenId)
    requires Inv(s1) && s1.groups == st.groups && MirrorOk(st) && id in s1.screens && !s1.screens[id].IsGroup()
    requires forall g :: g in st.groups ==> st.groups[g].children == {id}
    ensures MirrorOk(RemoveFromGroup(s1, id).0)
  {
    forall g | g in s1.groups ensures s1.screens[id].groupId == g {
      assert GroupOk(s1, g);
    }
    if g :| g in s1.groups {
      RemoveLastInv(s1, g, id);
      hide Inv, Evolves, RemoveChild;
    }
  }

  lemma StopOneMirrorOk(st: State, env: Env, id: ScreenId, combination: Combination)
    requires Inv(st) && MirrorOk(st) && Plain(st, [id])
    ensures MirrorOk(StopOne(st, env, id, combination))
  {
    assert id in [id];
    var r := StopOne(st, env, id, combination);
    if r != st {
      StopOneIsRemoval(st, env, id, combination);
      OneGroup(st);
      hide Inv, OnDisconnect, RemoveFromGroup, MirrorOk, RemoveChild;
      DropMirrorOk(st, env, id);
    }
  }

  lemma OneGroup(st: State)
    requires Inv(st)
    ensures forall g, h :: g in st.groups && h in st.groups ==> g == h
  {
  }

  lemma {:induction false} StopMirrorOk(st: State, env: Env, ids: seq<ScreenId>, combination: Combination)
    requires Inv(st) && MirrorOk(st) && Plain(st, ids)
    ensures MirrorOk(StopScreens(st, env, ids, combination))
    decreases |ids|
  {
    hide Inv, Evolves, StopOne, MirrorOk;
    if ids != [] {
      var s1 := StopOne(st, env, ids[0], combination);
      assert Plain(st, [ids[0]]);
      StopOneInv(st, env, ids[0], combination);
      StopOneMirrorOk(st, env, ids[0], combination);
      EvolvesPlain(st, s1, ids[1..]);
      StopMirrorOk(s1, env, ids[1..], combination);
    }
  }

  lemma {:induction false} RemoveVirtualMirrorOk(st: State, env: Env, ids: seq<ScreenId>)
    requires Inv(st) && MirrorOk(st)
    ensures MirrorOk(RemoveVirtual(st, env, ids))
    decreases |ids|
  {
    if ids != [] {
      var id := ids[0];
      var s1 := RemoveVirtualOne(st, env, id);
      assert id in st.screens && st.screens[id].kind.VIRTUAL? ==>
        forall g :: g in st.groups && st.groups[g].combination.SCREEN_MIRROR? ==> st.groups[g].mirrorId != id;
      hide Inv, Evolves, OnDisconnect, RemoveFromGroup, MirrorOk;
      if s1 != st {
        DropInv(st, env, id);
        DropMirrorOk(st, env, id);
      }
      RemoveVirtualMirrorOk(s1, env, ids[1..]);
    }
  }

  // ---------- MakeMirror and MakeExpand ----------

  lemma MirroredOk(s1: State, r: State, env: Env, g: ScreenId, id: ScreenId, wanted: set<ScreenId>)
    requires Mirrored(s1, r, env, g, id, wanted) && Inv(s1) && id in s1.screens && s1.screens[id].kind.REAL?
    requires id in r.screens && r.screens[id].kind.REAL?
    ensures MirrorOk(r)
  {
  }

  lemma MirrorGroupMirrorOk(st: State, env: Env, id: ScreenId)
    requires Inv(st) && MirrorOk(st) && id in st.screens && st.screens[id].kind.REAL?
    ensures MirrorOk(MirrorGroup(st, env, id).0)
  {
    hide Inv, Evolves, Extends, AddToGroup, Touch, OnConnect, MirrorOk;
    if st.screens[id].groupId !in st.groups {
      var (s1, g) := AddToGroup(st, env, id);
      AddToGroupInv(st, env, id);
      AddToGroupMirrorOk(st, env, id);
      if g != SCREEN_ID_INVALID {
        TouchMirrorOk(s1, env, id);
        TouchInv(s1, env, id);
        TouchMirrorOk(Touch(s1, env, id), env, id);
      }
    }
  }

  lemma MakeMirrorMirrorOk(st: State, env: Env, id: ScreenId, all: seq<ScreenId>)
    requires Inv(st) && MirrorOk(st) && Plain(st, all) && Distinct(all) && id !in all
    ensures MirrorOk(MakeMirror(st, env, id, all).0)
  {
    hide Inv, Evolves, MirrorGroup, ChangeScreenGroup, MirrorOk, Plain, Mirrored;
    if id in st.screens && st.screens[id].kind.REAL? {
      var wanted := set x | x in all;
      MakeMirrorEffect(st, env, id, all, wanted);
      MakeMirrorInv(st, env, id, all);
      MirrorGroupMirrorOk(st, env, id);
      MirrorGroupInv(st, env, id);
      var (s1, g) := MirrorGroup(st, env, id);
      var (r, ok, _) := MakeMirror(st, env, id, all);
      hide MakeMirror;
      if ok {
        KeptReal(st, s1, id);
        KeptReal(st, r, id);
        MirroredOk(s1, r, env, g, id, wanted);
      }
    }
  }

  lemma KeptReal(a: State, b: State, id: ScreenId)
    requires Evolves(a, b) && id in a.screens && a.screens[id].kind.REAL?
    ensures id in b.screens && b.screens[id].kind.REAL?
  {
  }

  lemma ServiceMakeMirrorOk(st: State, env: Env, id: ScreenId, ids: seq<ScreenId>)
    requires Inv(st) && MirrorOk(st)
    ensures MirrorOk(ServiceMakeMirror(st, env, id, ids).0)
  {
    hide Inv, MirrorOk, MakeMirror, ValidIds, RemoveFirst;
    ServiceList(st, ids, id);
    MakeMirrorMirrorOk(st, env, id, RemoveFirst(ValidIds(st, ids), id));
  }

  lemma ServiceMakeExpandOk(st: State, env: Env, ids: seq<ScreenId>, at: seq<Point>)
    requires Inv(st) && MirrorOk(st)
    ensures MirrorOk(ServiceMakeExpand(st, env, ids, at).0)
  {
    hide ServiceMakeExpand, GetDefault, Inv, KnownDefault, DefaultTarget, Wanted;
    var (r, res) := ServiceMakeExpand(st, env, ids, at);
    ServiceMakeExpandMoves(st, env, ids, at);
    if res.Some? {
      OneGroupAfter(st, env, ids, at);
    } else {
      LookupTarget(st, env);
      LookupWanted(st, env, ids);
      ExpandFailOk(st, env, ids, at);
    }
  }

  lemma OneGroupAfter(st: State, env: Env, ids: seq<ScreenId>, at: seq<Point>)
    requires Inv(st)
    ensures Inv(GetDefault(st, env).0)
  {
    GetDefaultInv(st, env);
  }

  /** A refused MakeExpand has at most looked up the default screen, once or twice. */
  lemma ExpandFailOk(st: State, env: Env, ids: seq<ScreenId>, at: seq<Point>)
    requires Inv(st) && MirrorOk(st) && ServiceMakeExpand(st, env, ids, at).1 == None
    requires var (s1, d) := GetDefault(st, env);
             !(ids != [] && |ids| == |at| && Wanted(s1, ids, d) != {} && d in s1.screens && s1.screens[d].groupId in s1.groups)
    ensures MirrorOk(ServiceMakeExpand(st, env, ids, at).0)
  {
    hide Inv, MirrorOk, GetDefault, ChangeScreenGroup, ValidIds, RemoveFirst, PointsFor, FirstPoints, Wanted;
    var (s1, d) := GetDefault(st, env);
    DefaultTwice(st, env);
    LookupMirrorOk(st, env);
    LookupMirrorOk(s1, env);
    ServiceList(s1, ids, d);
    WantedEmpty(s1, ids, d, RemoveFirst(ValidIds(s1, ids), d));
  }

  // ---------- Disconnecting ----------

  /** The states Disconnect passes through when it really takes a screen away. */
  ghost predicate Erased(a: State, b: State, g: ScreenId, d: ScreenId) {
    && Inv(b) && d !in b.screens && g in a.groups
    && b.groups == a.groups[g := a.groups[g].(children := a.groups[g].children - {d})]
    && b.callback == a.callback && b.defaultRs == a.defaultRs
    && (forall rs :: rs in a.ids.rs2Dms ==> rs in b.ids.rs2Dms && b.ids.rs2Dms[rs] == a.ids.rs2Dms[rs])
    && (forall x :: x in a.screens && x != d ==> x in b.screens && b.screens[x] == a.screens[x])
  }

  lemma EraseChild(st: State, env: Env, g: ScreenId, d: ScreenId)
    requires Inv(st) && g in st.groups && d in st.screens && !st.screens[d].IsGroup() && st.groups[g].children != {d}
    requires st.defaultRs != SCREEN_ID_INVALID
    ensures var s1 := if st.callback && InGroup(st, d) then OnDisconnect(st, env, d) else st;
            var s2 := RemoveFromGroup(s1, d).0;
            Erased(st, s2.(screens := s2.screens - {d}), g, d)
  {
    hide Inv, OnDisconnect, RemoveFromGroup;
    var s1 := if st.callback && InGroup(st, d) then OnDisconnect(st, env, d) else st;
    DropInv(st, env, d);
    DropEffect(st, env, g, d);
    var s2 := RemoveFromGroup(s1, d).0;
    EvolvesPlain(st, s2, [d]);
    EraseScreenInv(s2, d);
  }

  /** The default screen is a child of the only group. */
  lemma DefaultChild(st: State)
    requires Inv(st) && DefaultMember(st)
    ensures var d := st.ids.rs2Dms[st.defaultRs];
            var g := st.screens[d].groupId;
            && st.groups.Keys == {g} && d in st.groups[g].children && !st.screens[d].IsGroup()
  {
    var d := st.ids.rs2Dms[st.defaultRs];
    var g := st.screens[d].groupId;
    assert ScreenOk(st, d);
    assert forall h :: h in st.groups ==> h == g;
  }

  /** Remirror after the source is gone: the default becomes the source of all remaining children. */
  lemma RemirrorEffect(st: State, s3: State, env: Env, g: ScreenId, gone: ScreenId)
    requires Inv(st) && DefaultMember(st) && Erased(st, s3, g, gone)
    requires g == st.screens[st.ids.rs2Dms[st.defaultRs]].groupId && gone != st.ids.rs2Dms[st.defaultRs]
    requires st.groups[g].combination.SCREEN_MIRROR? && st.groups[g].mirrorId == gone
    ensures var d := st.ids.rs2Dms[st.defaultRs];
            var r := Remirror(s3, env, g, gone);
            && r.groups == s3.groups[g := s3.groups[g].(mirrorId := d)]
            && d in s3.groups[g].children
            && Evolves(s3, r) && d in r.screens && r.screens[d] == s3.screens[d]
  {
    hide Inv, GetDefault, MakeMirror, Plain, Evolves, Distinct, Mirrored, MirrorGroup;
    var d := st.ids.rs2Dms[st.defaultRs];
    DefaultChild(st);
    ErasedGroups(st, s3, g, gone);
    KnownLookup(s3, env);
    RemirrorInv(s3, env, g, gone);
    var all := Without(Ascending(s3.groups[g].children), d);
    ChildrenPlain(s3, g, d);
    WithoutIn(Ascending(s3.groups[g].children), d);
    AscendingDistinct(s3.groups[g].children);
    WithoutDistinct(Ascending(s3.groups[g].children), d);
    var wanted := s3.groups[g].children - {d};
    MakeMirrorEffect(s3, env, d, all, wanted);
    InOwnGroup(s3, env, d, g);
    MirroredChildren(s3, MakeMirror(s3, env, d, all).0, env, g, d, wanted);
  }

  lemma InOwnGroup(st: State, env: Env, id: ScreenId, g: ScreenId)
    requires id in st.screens && st.screens[id].groupId == g && g in st.groups
    ensures MirrorGroup(st, env, id) == (st, g)
  {
  }

  lemma MirroredChildren(s1: State, r: State, env: Env, g: ScreenId, id: ScreenId, wanted: set<ScreenId>)
    requires Mirrored(s1, r, env, g, id, wanted) && s1.groups[g].combination.SCREEN_MIRROR?
    requires wanted <= s1.groups[g].children && id in s1.screens && id !in wanted
    ensures r.groups == s1.groups[g := s1.groups[g].(mirrorId := id)] && id in r.screens && r.screens[id] == s1.screens[id]
  {
    assert s1.groups[g].children + wanted == s1.groups[g].children;
  }

  lemma {:induction false} WithoutDistinct(ids: seq<ScreenId>, d: ScreenId)
    requires Distinct(ids)
    ensures Distinct(Without(ids, d))
  {
    if ids != [] {
      WithoutDistinct(ids[1..], d);
      WithoutIn(ids[1..], d);
      if ids[0] != d {
        var rest := Without(ids[1..], d);
        forall j | 0 <= j < |rest| ensures rest[j] != ids[0] {
          assert rest[j] in rest;
        }
      }
    }
  }

  /** Disconnecting another screen than the default, with the default a member of the group: the
      group keeps all other children and its combination, and its source, unless the source itself
      has gone: then the default becomes the source. */
  lemma DisconnectOther(st: State, env: Env, rs: ScreenId)
    requires Inv(st) && DefaultMember(st) && MirrorOk(st)
    requires rs in st.ids.rs2Dms && rs != st.defaultRs && st.ids.rs2Dms[rs] in st.screens
    ensures var gone := st.ids.rs2Dms[rs];
            var d := st.ids.rs2Dms[st.defaultRs];
            var g := st.screens[d].groupId;
            var grp := st.groups[g];
            var r := Disconnect(st, env, rs);
            && r.groups == map[g := grp.(children := grp.children - {gone},
                                         mirrorId := if grp.combination.SCREEN_MIRROR? && grp.mirrorId == gone then d
                                                     else grp.mirrorId)]
            && MirrorOk(r) && DefaultMember(r)
  {
    var gone := st.ids.rs2Dms[rs];
    var d := st.ids.rs2Dms[st.defaultRs];
    var g := st.screens[d].groupId;
    DefaultChild(st);
    MappedPlain(st, rs);
    MappedPlain(st, st.defaultRs);
    var s1 := if st.callback && InGroup(st, gone) then OnDisconnect(st, env, gone) else st;
    hide Inv, OnDisconnect, RemoveFromGroup, MirrorOk, Remirror, Evolves, Erased, Disconnect;
    DropInv(st, env, gone);
    OtherChild(st, g, d, gone);
    EraseChild(st, env, g, gone);
    var (s2, h) := RemoveFromGroup(s1, gone);
    var s3 := s2.(screens := s2.screens - {gone});
    RemovedFrom(st, s1, g, gone);
    SourceReplaced(st, s3, env, g, gone, h);
    DisconnectKeeps(st, s3, Remirror(s3, env, h, gone), g, gone, d);
    DisconnectIs(st, env, rs);
  }

  lemma SourceReplaced(st: State, s3: State, env: Env, g: ScreenId, gone: ScreenId, h: ScreenId)
    requires Inv(st) && DefaultMember(st) && MirrorOk(st) && Erased(st, s3, g, gone) && st.groups.Keys == {g}
    requires g == st.screens[st.ids.rs2Dms[st.defaultRs]].groupId && gone != st.ids.rs2Dms[st.defaultRs]
    requires h == if gone in st.groups[g].children then g else SCREEN_ID_INVALID
    ensures var d := st.ids.rs2Dms[st.defaultRs];
            var r := Remirror(s3, env, h, gone);
            && Evolves(s3, r) && d in r.screens && d in s3.screens && r.screens[d] == s3.screens[d]
            && g in s3.groups && r.groups == s3.groups[g := s3.groups[g].(
                 mirrorId := if st.groups[g].combination.SCREEN_MIRROR? && st.groups[g].mirrorId == gone then d
                             else st.groups[g].mirrorId)]
  {
    hide Inv, MirrorOk, Remirror, Evolves;
    ErasedGroups(st, s3, g, gone);
    if st.groups[g].combination.SCREEN_MIRROR? && st.groups[g].mirrorId == gone {
      SourceIsChild(st, g);
      RemirrorEffect(st, s3, env, g, gone);
    } else {
      EvolvesRefl(s3);
      NoRemirror(s3, env, h, gone);
    }
  }

  lemma DisconnectIs(st: State, env: Env, rs: ScreenId)
    requires rs in st.ids.rs2Dms && rs != st.defaultRs && st.ids.rs2Dms[rs] in st.screens
    ensures var gone := st.ids.rs2Dms[rs];
            var s1 := if st.callback && InGroup(st, gone) then OnDisconnect(st, env, gone) else st;
            var (s2, h) := RemoveFromGroup(s1, gone);
            var s4 := Remirror(s2.(screens := s2.screens - {gone}), env, h, gone);
            Disconnect(st, env, rs) == s4.(ids := DeleteId(s4.ids, gone))
  {
    hide OnDisconnect, RemoveFromGroup, Remirror;
  }

  lemma OtherChild(st: State, g: ScreenId, d: ScreenId, gone: ScreenId)
    requires g in st.groups && d in st.groups[g].children && d != gone
    ensures st.groups[g].children != {gone}
  {
  }

  lemma SourceIsChild(st: State, g: ScreenId)
    requires MirrorOk(st) && g in st.groups && st.groups[g].combination.SCREEN_MIRROR?
    ensures st.groups[g].mirrorId in st.groups[g].children
  {
  }

  lemma RemovedFrom(st: State, s1: State, g: ScreenId, id: ScreenId)
    requires Inv(st) && st.groups.Keys == {g} && id in st.screens && !st.screens[id].IsGroup()
    requires s1.groups == st.groups && id in s1.screens && s1.screens[id] == st.screens[id]
    ensures RemoveFromGroup(s1, id).1 == if id in st.groups[g].children then g else SCREEN_ID_INVALID
  {
    assert ScreenOk(st, id) && GroupOk(st, g);
    NoInvalidGroup(st);
  }

  lemma ErasedGroups(a: State, b: State, g: ScreenId, d: ScreenId)
    requires Erased(a, b, g, d)
    ensures b.groups == a.groups[g := a.groups[g].(children := a.groups[g].children - {d})]
    ensures Inv(b) && SCREEN_ID_INVALID !in b.groups
  {
    NoInvalidGroup(b);
  }

  lemma NoRemirror(st: State, env: Env, h: ScreenId, gone: ScreenId)
    requires h in st.groups ==> !(st.groups[h].combination.SCREEN_MIRROR? && st.groups[h].mirrorId == gone)
    ensures Remirror(st, env, h, gone) == st
  {
  }

  /** The id is deleted last; the default keeps its mapping and its place. */
  lemma DisconnectKeeps(st: State, s3: State, s4: State, g: ScreenId, gone: ScreenId, d: ScreenId)
    requires Inv(st) && DefaultMember(st) && MirrorOk(st) && Erased(st, s3, g, gone) && Evolves(s3, s4)
    requires d == st.ids.rs2Dms[st.defaultRs] && g == st.screens[d].groupId && gone != d && st.groups.Keys == {g}
    requires d in s4.screens && s4.screens[d] == s3.screens[d]
    requires gone in st.ids.dms2Rs && RsOf(s4.ids, gone) != st.defaultRs
    requires s4.groups == s3.groups[g := s3.groups[g].(
               mirrorId := if st.groups[g].combination.SCREEN_MIRROR? && st.groups[g].mirrorId == gone then d
                           else st.groups[g].mirrorId)]
    ensures var r := s4.(ids := DeleteId(s4.ids, gone));
            && r.groups == map[g := st.groups[g].(children := st.groups[g].children - {gone},
                                                  mirrorId := s4.groups[g].mirrorId)]
            && MirrorOk(r) && DefaultMember(r)
  {
    DefaultChild(st);
    var r := s4.(ids := DeleteId(s4.ids, gone));
    var m := r.groups[g].mirrorId;
    if st.groups[g].combination.SCREEN_MIRROR? && m != d {
      SourceIsChild(st, g);
      assert GroupOk(st, g);
      assert m in s3.screens && s3.screens[m].kind.REAL?;
    }
    hide Inv;
    assert forall h :: h in r.groups <==> h == g;
    assert r.groups[g] == st.groups[g].(children := st.groups[g].children - {gone}, mirrorId := m);
  }

  // ---------- Every step ----------

  /** No group at all, or the default screen is a real member of it. */
  ghost predicate Anchored(st: State) {
    st.groups == map[] || DefaultMember(st)
  }

  lemma UngroupedDisconnect(st: State, env: Env, rs: ScreenId)
    requires Inv(st) && st.groups == map[]
    ensures Disconnect(st, env, rs).groups == map[]
  {
    hide Inv;
  }

  lemma UnpluggedDefault(st: State, g: ScreenId, d: ScreenId)
    requires Inv(st) && MirrorOk(st) && DefaultMember(st) && g in st.groups && d in st.screens
    requires d == st.ids.rs2Dms[st.defaultRs]
    ensures MirrorOk(RemoveDefaultScreen(st, g, d)) && DefaultMember(RemoveDefaultScreen(st, g, d))
  {
  }

  lemma DisconnectAnchored(st: State, env: Env, rs: ScreenId)
    requires Good(st) && MirrorOk(st) && Anchored(st)
    ensures MirrorOk(Disconnect(st, env, rs)) && Anchored(Disconnect(st, env, rs))
  {
    if rs in st.ids.rs2Dms {
      var d := st.ids.rs2Dms[rs];
      assert !Unmatched(st, d);
      assert d in st.screens;
      hide Inv, Disconnect, AgentsOk, Quiescent;
      if st.groups == map[] {
        UngroupedDisconnect(st, env, rs);
      } else if rs == st.defaultRs {
        UnpluggedDefault(st, st.screens[d].groupId, d);
        DefaultUnplugs(st, env);
      } else {
        DisconnectOther(st, env, rs);
      }
    }
  }

  lemma DefaultUnplugs(st: State, env: Env)
    requires DefaultMember(st)
    ensures var d := st.ids.rs2Dms[st.defaultRs];
            Disconnect(st, env, st.defaultRs) == RemoveDefaultScreen(st, st.screens[d].groupId, d)
  {
  }

  lemma DestroyAnchored(st: State, env: Env, id: ScreenId)
    requires Good(st) && MirrorOk(st) && Anchored(st)
    ensures MirrorOk(DestroyVirtual(st, env, id).0) && Anchored(DestroyVirtual(st, env, id).0)
  {
    if !Refuses(st, id) {
      var s1 := st.(agents := Disown(st.agents, id));
      var rs := RsOf(st.ids, id);
      DisownOk(st, id);
      AgentsInv(st, s1.agents);
      assert Good(s1) && MirrorOk(s1) && Anchored(s1);
      if rs != SCREEN_ID_INVALID && id in s1.screens {
        assert st.ids.rs2Dms[rs] == id;
        hide Inv, Disown, AgentsOk, Disconnect, Unmatched;
        var s2 := Disconnect(s1, env, rs);
        DisconnectAnchored(s1, env, rs);
        DisconnectLoses(s1, env, rs);
        LosesGone(s1, s2, id);
        if st.groups == map[] {
          UngroupedDisconnect(s1, env, rs);
        } else {
          LosesDefault(s1, s2, {id});
        }
        DestroyTail(s2, id, rs);
      } else {
        assert !Unmatched(st, id);
        hide Inv, Disown, AgentsOk, Disconnect;
        DestroyTail(s1, id, rs);
      }
    }
  }

  /** What DestroyVirtualScreen does after the disconnection. */
  lemma DestroyTail(st: State, id: ScreenId, rs: ScreenId)
    requires MirrorOk(st) && Anchored(st)
    requires RsOf(st.ids, id) == SCREEN_ID_INVALID
    requires st.groups != map[] ==> st.defaultRs != rs
    ensures var s3 := st.(ids := DeleteId(st.ids, id));
            var r := if s3.defaultRs == rs then s3.(defaultRs := SCREEN_ID_INVALID) else s3;
            && MirrorOk(r) && Anchored(r) && MirrorOk(s3) && Anchored(s3)
  {
  }

  lemma {:induction false} RemoteDiedAnchored(st: State, env: Env, a: AgentId)
    requires Good(st) && MirrorOk(st) && Anchored(st) && OnRemoteDied(st, env, a).Some?
    ensures MirrorOk(OnRemoteDied(st, env, a).value) && Anchored(OnRemoteDied(st, env, a).value)
    decreases |AgentList(st, a)|
  {
    if AgentList(st, a) != [] {
      hide Inv, AgentsOk, DestroyVirtual, MirrorOk, Anchored, Unmatched;
      var id := AgentList(st, a)[0];
      var s1 := DestroyVirtual(st, env, id).0;
      DestroyAnchored(st, env, id);
      DestroyInv(st, env, id);
      RemoteDiedAnchored(s1, env, a);
    }
  }

  lemma CreateVirtualOk(st: State, env: Env, rs: ScreenId, mode: Mode, a: AgentId)
    requires Inv(st) && MirrorOk(st)
    ensures MirrorOk(CreateVirtual(st, env, rs, mode, a).0)
  {
    if rs != SCREEN_ID_INVALID && rs !in st.ids.rs2Dms {
      var s0 := st.(ids := CreateId(st.ids, rs));
      NewIdInv(st, rs);
      assert MirrorOk(s0);
      assert st.ids.count in st.screens ==> ScreenOk(st, st.ids.count);
      LookupInv(s0, env);
      hide Inv, GetDefault;
      LookupMirrorOk(s0, env);
    }
  }

  lemma {:induction false} RegisterOk(st: State, env: Env, ids: seq<ScreenId>)
    requires Inv(st) && MirrorOk(st)
    ensures MirrorOk(ConnectEach(st, env, ids))
    decreases |ids|
  {
    hide Inv, Evolves, OnConnect, MirrorOk, Extends, SameGrouping;
    if ids != [] {
      if ids[0] in st.screens {
        OnConnectInv(st, env, ids[0]);
        TouchMirrorOk(st, env, ids[0]);
      }
      RegisterOk(if ids[0] in st.screens then OnConnect(st, env, ids[0]) else st, env, ids[1..]);
    }
  }

  // ---------- Rotation never changes a group ----------

  lemma SetRotationGroups(st: State, env: Env, id: ScreenId, r: Rotation)
    requires Inv(st)
    ensures SetRotation(st, env, id, r).groups == st.groups
  {
    if id in st.screens && st.screens[id].rotation != r {
      TurnInv(st, id, st.screens[id].(rotation := r));
      var s0 := st.(screens := st.screens[id := st.screens[id].(rotation := r)]);
      hide Inv, Evolves, MirrorOk;
      TouchGroups(s0, env, id);
      hide Touch;
    }
  }

  lemma TouchGroups(st: State, env: Env, id: ScreenId)
    requires Inv(st)
    ensures Touch(st, env, id).groups == st.groups
  {
    TouchInv(st, env, id);
    hide Inv, Evolves, GetDefault, Extends;
  }

  lemma {:induction false} LayOutGroups(st: State, order: seq<ScreenId>, x: int)
    ensures LayOut(st, order, x).0.groups == st.groups
    decreases |order|
  {
    if order != [] {
      if order[0] !in st.screens || st.screens[order[0]].mode.None? {
        LayOutGroups(st, order[1..], x);
      } else {
        LayOutGroups(LayOutOne(st, order[0], x).0, order[1..], x + WidthOf(st.screens, order[0]));
      }
    }
  }

  lemma SetOrientationGroups(st: State, env: Env, id: ScreenId, o: Orientation)
    requires Inv(st)
    ensures SetOrientation(st, env, id, o).0.groups == st.groups
  {
    hide Inv, Evolves, Touch, SetRotation, LayOut, ChildrenByX, CalcRotation;
    if id in st.screens && !st.screens[id].IsGroup() {
      var s1 := st.(screens := st.screens[id := st.screens[id].(requested := o)]);
      TurnInv(st, id, st.screens[id].(requested := o));
      var s2 := SetRotation(s1, env, id, CalcRotation(s1.screens[id].mode, o));
      SetRotationInv(s1, env, id, CalcRotation(s1.screens[id].mode, o));
      SetRotationGroups(s1, env, id, CalcRotation(s1.screens[id].mode, o));
      if s1.screens[id].orientation != o && id in s2.screens {
        var t2 := s2.(screens := s2.screens[id := s2.screens[id].(orientation := o)]);
        TurnInv(s2, id, s2.screens[id].(orientation := o));
        TouchGroups(t2, env, id);
      }
      forall s: State, order ensures LayOut(s, order, 0).0.groups == s.groups {
        LayOutGroups(s, order, 0);
      }
    }
  }

  /** While the default screen stays a real member of the group and no virtual screen is made the
      default, every operation leaves a mirror group with a real child as its source. */
  lemma StepMirrorOk(st: State, env: Env, op: Op)
    requires Good(st) && MirrorOk(st) && Admissible(op)
    requires !op.OpSetVirtualAsDefault?
    requires op.OpDisconnect? || op.OpDestroyVirtual? || op.OpAgentDied? ==> Anchored(st)
    ensures MirrorOk(Step(st, env, op))
  {
    hide Inv, Evolves, AgentsOk, MirrorOk, Anchored, Connect, GetDefault, Disconnect, CreateVirtual, DestroyVirtual,
         OnRemoteDied, ServiceMakeMirror, ServiceMakeExpand, StopScreens, RemoveVirtual, SetRotation, SetOrientation,
         ConnectEach, Unmatched, ValidIds;
    match op
    case OpConnect(rs) => ConnectMirrorOk(st, env, rs);
    case OpQueryDefault => LookupMirrorOk(st, env);
    case OpMakeMirror(id, ids) => ServiceMakeMirrorOk(st, env, id, ids);
    case OpMakeExpand(ids, at) => ServiceMakeExpandOk(st, env, ids, at);
    case OpStop(ids, combination) =>
      ValidPlain(st, ids, 0);
      StopMirrorOk(st, env, ValidIds(st, ids), combination);
    case OpRemoveVirtual(ids) => RemoveVirtualMirrorOk(st, env, ids);
    case OpSetRotation(id, r) =>
      SetRotationInv(st, env, id, r);
      SetRotationGroups(st, env, id, r);
      SameGroupsOk(st, SetRotation(st, env, id, r));
    case OpSetOrientation(id, o) =>
      SetOrientationInv(st, env, id, o);
      SetOrientationGroups(st, env, id, o);
      SameGroupsOk(st, SetOrientation(st, env, id, o).0);
    case OpDisconnect(rs) => DisconnectAnchored(st, env, rs);
    case OpCreateVirtual(rs, mode, a) => CreateVirtualOk(st, env, rs, mode, a);
    case OpDestroyVirtual(id) => DestroyAnchored(st, env, id);
    case OpAgentDied(a) => if OnRemoteDied(st, env, a).Some? { RemoteDiedAnchored(st, env, a); }
    case OpRegister =>
      CallbackMirrorOk(st);
      RegisterOk(st.(callback := true), env, Ascending(st.screens.Keys));
  }

  lemma CallbackMirrorOk(st: State)
    requires Inv(st) && MirrorOk(st)
    ensures Inv(st.(callback := true)) && MirrorOk(st.(callback := true))
  {
    ShapeInv(st, st.(callback := true));
  }

  /** The run form: the source of a mirror group is always one of its children, on every run that
      never makes a virtual screen the default and during which the default stays a member whenever
      a screen is disconnected or destroyed. */
  lemma {:induction false} RunMirrorOk(st: State, events: seq<Event>)
    requires Good(st) && MirrorOk(st)
    requires forall i :: 0 <= i < |events| ==>
               var op := events[i].op;
               && Admissible(op) && !op.OpSetVirtualAsDefault?
               && (op.OpDisconnect? || op.OpDestroyVirtual? || op.OpAgentDied? ==> Anchored(Run(st, events[..i])))
    ensures MirrorOk(Run(st, events))
    decreases |events|
  {
    hide Good, MirrorOk, Anchored, Step;
    if events != [] {
      var s1 := Step(st, events[0].env, events[0].op);
      var rest := events[1..];
      assert Run(st, events[..0]) == st;
      StepGood(st, events[0].env, events[0].op);
      StepMirrorOk(st, events[0].env, events[0].op);
      forall i | 0 <= i < |rest|
        ensures var op := rest[i].op;
                && Admissible(op) && !op.OpSetVirtualAsDefault?
                && (op.OpDisconnect? || op.OpDestroyVirtual? || op.OpAgentDied? ==> Anchored(Run(s1, rest[..i])))
      {
        assert rest[i] == events[i + 1];
        assert events[..i + 1][0] == events[0] && events[..i + 1][1..] == rest[..i];
      }
      RunMirrorOk(s1, rest);
    }
  }
}

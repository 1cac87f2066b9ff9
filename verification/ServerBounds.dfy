/** What the steps of the connecting half of the server keep, without the full invariant: the bounds that
    the objects rely on, and the measure of the mutual recursion between looking up the default screen and
    connecting a screen. */
module ServerBounds {
  import opened DmTypes
  import opened ScreenState
  import opened DefaultScreen

  /** The bounds are kept, no rs id is forgotten, and a default that is known stays. */
  ghost predicate Onward(a: State, b: State, env: Env) {
    && Bounded(b) && a.ids.rs2Dms.Keys <= b.ids.rs2Dms.Keys
    && (b.defaultRs == a.defaultRs || b.defaultRs == Learn(a, env).defaultRs)
  }

  lemma Carries(a: State, b: State, env: Env)
    requires Onward(a, b, env)
    ensures Bounded(b) && (Settled(a, env) ==> Settled(b, env))
    ensures Settled(a, env) || b.defaultRs == a.defaultRs || b.defaultRs == Learn(a, env).defaultRs
  {
  }

  lemma LearnOnward(st: State, env: Env)
    requires Bounded(st)
    ensures Onward(st, Learn(st, env), env) && Learn(Learn(st, env), env) == Learn(st, env)
  {
  }

  lemma InitScreenOnward(st: State, env: Env, rs: ScreenId)
    requires Bounded(st) && rs !in st.ids.rs2Dms
    ensures Onward(st, InitScreen(st, env, rs).0, env)
    ensures rs != SCREEN_ID_INVALID && InitScreen(st, env, rs).1 != SCREEN_ID_INVALID ==> rs in InitScreen(st, env, rs).0.ids.rs2Dms
  {
  }

  lemma AddAsFirstOnward(st: State, env: Env, id: ScreenId)
    requires Bounded(st) && id in st.screens
    ensures Onward(st, AddAsFirst(st, env, id).0, env)
  {
  }

  lemma PlaceOnward(st: State, env: Env, g: ScreenId, id: ScreenId, p: Point)
    requires Bounded(st) && g in st.groups && id in st.screens
    ensures Onward(st, PlaceChild(st, env, g, id, p), env)
  {
  }

  lemma BuiltInOnward(st: State, env: Env, rs: ScreenId, id: ScreenId)
    requires Bounded(st) && id in st.screens
    ensures Onward(st, BuiltIn(st, env, rs, id), env)
  {
    hide CalcRotation;
  }

  lemma BindOnward(st: State, env: Env, id: ScreenId, d: ScreenId)
    requires Bounded(st) && id in st.screens
    ensures Onward(st, Bind(st, id, d), env)
  {
    hide NewDisplay;
  }

  lemma GetDefaultOnward(st: State, env: Env)
    requires Bounded(st)
    ensures Onward(st, GetDefault(st, env).0, env)
  {
    var s1 := Learn(st, env);
    if !Settled(st, env) {
      ConnectDefaultOnward(s1, env);
    }
    hide ConnectDefault, Bounded;
  }

  lemma ConnectDefaultOnward(st: State, env: Env)
    requires Bounded(st) && st.defaultRs != SCREEN_ID_INVALID && st.defaultRs !in st.ids.rs2Dms
    ensures Onward(st, ConnectDefault(st, env), env)
  {
    InitScreenOnward(st, env, st.defaultRs);
    hide InitScreen, AddAsFirst, BuiltIn, Bind, Bounded;
    var (s1, d) := InitScreen(st, env, st.defaultRs);
    if d != SCREEN_ID_INVALID && s1.groups == map[] {
      AddAsFirstOnward(s1, env, d);
      var s2 := AddAsFirst(s1, env, d).0;
      BuiltInOnward(s2, env, st.defaultRs, d);
      BindOnward(BuiltIn(s2, env, st.defaultRs, d), env, d, d);
    }
  }

  lemma TouchOnward(st: State, env: Env, id: ScreenId)
    requires Bounded(st)
    ensures Onward(st, Touch(st, env, id), env)
  {
    GetDefaultOnward(st, env);
    hide GetDefault;
  }

  lemma NodeConfigOnward(st: State, env: Env, g: ScreenId, id: ScreenId)
    requires Bounded(st) && g in st.groups
    ensures Onward(st, NodeConfig(st, env, g, id), env)
  {
    GetDefaultOnward(st, env);
    hide GetDefault;
  }

  lemma AddChildOnward(st: State, env: Env, g: ScreenId, id: ScreenId, p: Point)
    requires Bounded(st) && g in st.groups && id in st.screens
    ensures Onward(st, AddChild(st, env, g, id, p).0, env)
  {
    NodeConfigOnward(st, env, g, id);
    var s1 := NodeConfig(st, env, g, id);
    PlaceOnward(s1, env, g, id, p);
    hide NodeConfig, PlaceChild;
  }

  lemma AddAsSuccedentOnward(st: State, env: Env, id: ScreenId)
    requires Bounded(st) && id in st.screens
    ensures Onward(st, AddAsSuccedent(st, env, id).0, env)
  {
    GetDefaultOnward(st, env);
    var (s1, d) := GetDefault(st, env);
    if d in s1.screens && s1.screens[d].groupId in s1.groups {
      var g := s1.screens[d].groupId;
      var p := if s1.groups[g].combination.SCREEN_EXPAND?
               then Point(SumWidths(s1.screens, Ascending(s1.groups[g].children)), 0) else ORIGIN;
      AddChildOnward(s1, env, g, id, p);
    }
    hide GetDefault, AddChild, Bounded;
  }

  lemma AddToGroupOnward(st: State, env: Env, id: ScreenId)
    requires Bounded(st) && id in st.screens
    ensures Onward(st, AddToGroup(st, env, id).0, env)
  {
    if st.groups == map[] { AddAsFirstOnward(st, env, id); } else { AddAsSuccedentOnward(st, env, id); }
    hide AddAsFirst, AddAsSuccedent;
  }

  lemma DisplayIdFree(st: State)
    requires Bounded(st)
    ensures st.displayCount !in st.displays
  {
  }

  lemma AddExpandOnward(st: State, env: Env, id: ScreenId)
    requires Bounded(st) && id in st.screens
    ensures Bounded(AddExpand(st, env, id)) && Bounded(BindExpand(st, env, id))
  {
    GetDefaultOnward(st, env);
    hide GetDefault, NewDisplay;
  }

  lemma BindAloneOnward(st: State, env: Env, id: ScreenId)
    requires Bounded(st) && id in st.screens
    ensures Onward(st, BindAlone(st, env, id), env)
  {
    GetDefaultOnward(st, env);
    var (s1, d) := GetDefault(st, env);
    BindOnward(s1, env, id, d);
    hide GetDefault, Bind, Bounded;
  }

  lemma ExpandOnward(st: State, env: Env, id: ScreenId)
    requires Bounded(st) && id in st.screens
    ensures Onward(st, AddExpand(st, env, id), env)
  {
    GetDefaultOnward(st, env);
    hide GetDefault, NewDisplay;
  }

  lemma OnConnectOnward(st: State, env: Env, id: ScreenId)
    requires Bounded(st) && id in st.screens
    ensures Onward(st, OnConnect(st, env, id), env)
  {
    BindAloneOnward(st, env, id);
    ExpandOnward(st, env, id);
    hide BindAlone, AddExpand, Bounded;
  }

  lemma ConnectOnward(st: State, env: Env, rs: ScreenId)
    requires Bounded(st)
    ensures Onward(st, Connect(st, env, rs), env)
  {
    if rs in st.ids.rs2Dms {
      var d := st.ids.rs2Dms[rs];
      if d in st.screens && st.screens[d].lastGroupId in st.groups {
        AddChildOnward(st, env, st.screens[d].lastGroupId, d, ORIGIN);
      }
      hide AddChild;
    } else {
      ConnectNewOnward(st, env, rs);
    }
  }

  /** What ProcessScreenConnected does once the new screen has a group. */
  function Announce(st: State, env: Env, rs: ScreenId, id: ScreenId): State
    requires id in st.screens
  {
    var s1 := Touch(BuiltIn(st, env, rs, id), env, id);
    if s1.callback then OnConnect(s1, env, id) else s1
  }

  lemma AnnounceOnward(st: State, env: Env, rs: ScreenId, id: ScreenId)
    requires Bounded(st) && id in st.screens
    ensures Onward(st, Announce(st, env, rs, id), env)
  {
    assert id in BuiltIn(st, env, rs, id).screens;
    hide BuiltIn, Touch, OnConnect, Bounded;
    BuiltInOnward(st, env, rs, id);
    var s1 := BuiltIn(st, env, rs, id);
    TouchOnward(s1, env, id);
    OnConnectOnward(Touch(s1, env, id), env, id);
  }

  lemma ConnectNewOnward(st: State, env: Env, rs: ScreenId)
    requires Bounded(st) && rs !in st.ids.rs2Dms
    ensures Onward(st, Connect(st, env, rs), env)
  {
    hide InitScreen, AddToGroup, BuiltIn, Touch, OnConnect, Bounded;
    InitScreenOnward(st, env, rs);
    var (s1, d) := InitScreen(st, env, rs);
    if d != SCREEN_ID_INVALID {
      AddToGroupOnward(s1, env, d);
      AnnounceOnward(AddToGroup(s1, env, d).0, env, rs, d);
    }
  }

  lemma NewIdFree(st: State)
    requires Bounded(st)
    ensures st.ids.count !in st.screens && st.ids.count !in st.groups
  {
  }

  /** A new group with its first child, before the source of the mirror is set. */
  function Founded(st: State, env: Env, d: ScreenId, id: ScreenId): State
    requires id in st.screens
  {
    st.(screens := st.screens[id := WithNode(st.screens[id], env, d, ORIGIN)]
                             [d := NewScreen(SCREEN_ID_INVALID, UNDEFINED, None)],
        groups := st.groups[d := Group(if env.expand then SCREEN_EXPAND else SCREEN_MIRROR,
                                       SCREEN_ID_INVALID, SCREEN_ID_INVALID, {id})])
  }

  function WithSource(st: State, g: ScreenId, id: ScreenId): State
    requires g in st.groups
  {
    st.(groups := st.groups[g := st.groups[g].(mirrorId := id)])
  }

  /** The order of registering the group and inserting its first child does not matter. */
  lemma FoundedInOrder(st: State, env: Env, id: ScreenId)
    requires id in st.screens && id != st.ids.count
    ensures var g := st.ids.count;
            AddAsFirst(st, env, id) ==
              (WithSource(Founded(st.(ids := CreateId(st.ids, SCREEN_ID_INVALID)), env, g, id), g, id), g)
  {
    var g := st.ids.count;
    var r := AddAsFirst(st, env, id).0;
    var q := WithSource(Founded(st.(ids := CreateId(st.ids, SCREEN_ID_INVALID)), env, g, id), g, id);
    assert {} + {id} == {id};
    assert r.screens == q.screens;
    assert r.groups == q.groups;
  }

  // ---------- Steps of loops ----------

  /** ProcessScreenConnected, once the screen exists. */
  function Join(st: State, env: Env, rs: ScreenId, id: ScreenId): State
    requires id in st.screens
  {
    var (s1, g) := AddToGroup(st, env, id);
    if g == SCREEN_ID_INVALID then s1 else Announce(s1, env, rs, id)
  }

  lemma JoinParts(st: State, env: Env, id: ScreenId)
    requires Bounded(st) && id in st.screens
    ensures var s1 := AddToGroup(st, env, id).0;
            Bounded(s1) && (Settled(st, env) ==> Settled(s1, env))
  {
    AddToGroupOnward(st, env, id);
    Carries(st, AddToGroup(st, env, id).0, env);
  }

  lemma ConnectParts(st: State, env: Env, rs: ScreenId)
    requires Bounded(st)
    ensures Connect(st, env, rs) ==
              if rs in st.ids.rs2Dms then Reconnect(st, env, rs)
              else
                var (s1, d) := InitScreen(st, env, rs);
                if d == SCREEN_ID_INVALID then s1 else Join(s1, env, rs, d)
    ensures rs !in st.ids.rs2Dms ==>
              var (s1, d) := InitScreen(st, env, rs);
              && Bounded(s1) && (Settled(st, env) ==> Settled(s1, env))
              && (d != SCREEN_ID_INVALID && Learn(st, env).defaultRs == rs ==> Settled(s1, env))
    ensures rs in st.ids.rs2Dms && Learn(st, env).defaultRs == rs ==> Settled(st, env)
  {
    if rs !in st.ids.rs2Dms {
      InitScreenOnward(st, env, rs);
      var (s1, d) := InitScreen(st, env, rs);
      Carries(st, s1, env);
      if d != SCREEN_ID_INVALID {
        assert Learn(st, env).defaultRs == rs ==> Settled(s1, env) by {
          assert Learn(s1, env).defaultRs == Learn(st, env).defaultRs;
        }
      }
    }
    hide InitScreen, AddToGroup, Reconnect, BuiltIn, Touch, OnConnect, Bounded, Settled, Onward;
  }

  lemma AnnounceParts(st: State, env: Env, rs: ScreenId, id: ScreenId)
    requires Bounded(st) && id in st.screens
    ensures var s1 := BuiltIn(st, env, rs, id);
            var s2 := Touch(s1, env, id);
            && id in s1.screens && Bounded(s1) && (Settled(st, env) ==> Settled(s1, env))
            && Bounded(s2) && (Settled(st, env) ==> Settled(s2, env))
            && Announce(st, env, rs, id) == if s2.callback then OnConnect(s2, env, id) else s2
  {
    BuiltInOnward(st, env, rs, id);
    var s1 := BuiltIn(st, env, rs, id);
    Carries(st, s1, env);
    TouchOnward(s1, env, id);
    Carries(s1, Touch(s1, env, id), env);
    assert id in s1.screens;
    hide BuiltIn, Touch, OnConnect, Bounded, Settled, Onward;
  }

  /** AddChild, once the node configuration is known. */
  function Inserted(st: State, env: Env, g: ScreenId, id: ScreenId, p: Point): State
    requires g in st.groups && id in st.screens
  {
    if !Reconnects(st, g, id) then PlaceChild(st, env, g, id, p)
    else if st.screens[id].rsId in env.noNode then st
    else st.(screens := st.screens[id := st.screens[id].(start := p)])
  }

  lemma AddChildParts(st: State, env: Env, g: ScreenId, id: ScreenId, p: Point)
    requires Bounded(st) && g in st.groups && id in st.screens
    ensures var s1 := NodeConfig(st, env, g, id);
            && Bounded(s1) && Bounded(AddChild(st, env, g, id, p).0)
            && AddChild(st, env, g, id, p) ==
                 if id in st.groups[g].children && !Reconnects(st, g, id) then (st, false)
                 else (Inserted(s1, env, g, id, p), true)
  {
    NodeConfigOnward(st, env, g, id);
    AddChildOnward(st, env, g, id, p);
    hide NodeConfig, PlaceChild, Reconnects, Bounded;
  }

  lemma DefaultParts(st: State, env: Env)
    requires Bounded(st)
    ensures var (s1, d) := GetDefault(st, env);
            Bounded(s1) && (Settled(st, env) ==> Settled(s1, env)) && s1.displayCount !in s1.displays
  {
    GetDefaultOnward(st, env);
    Carries(st, GetDefault(st, env).0, env);
    DisplayIdFree(GetDefault(st, env).0);
  }

  lemma SuccedentAtPlace(st: State, env: Env, id: ScreenId)
    requires id in st.screens
    ensures var (s1, d) := GetDefault(st, env);
            AddAsSuccedent(st, env, id) ==
              if d !in s1.screens || s1.screens[d].groupId !in s1.groups then (s1, SCREEN_ID_INVALID)
              else var g := s1.screens[d].groupId; (AddChild(s1, env, g, id, PlaceBehind(s1, g)).0, g)
  {
    hide GetDefault, AddChild, SumWidths, Ascending;
  }

  lemma SumWidthsStep(screens: map<ScreenId, Screen>, order: seq<ScreenId>, i: nat)
    requires i <= |order|
    ensures SumWidths(screens, order[i..]) ==
              if i == |order| then 0 else WidthOf(screens, order[i]) + SumWidths(screens, order[i + 1..])
  {
    if i < |order| {
      assert order[i..][1..] == order[i + 1..];
    }
  }
}

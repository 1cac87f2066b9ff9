/** The default screen: the re-entrant lookup, and being unplugged and plugged in again. */
module DefaultScreen {
  import opened DmTypes
  import opened ScreenState
  import opened ScreenInvariant
  import opened ScreenRuns
  import opened GroupChanges
  import opened MirrorSource

  // ---------- Re-entrancy ----------

  /** Every id in use was handed out by the id manager, a group is a screen, and so is a child. */
  ghost predicate Bounded(st: State) {
    && (forall d :: d in st.screens ==> 0 <= d < st.ids.count)
    && (forall g :: g in st.groups ==> g in st.screens)
    && (forall g, c :: g in st.groups && c in st.groups[g].children ==> c in st.screens)
    && (forall k :: k in st.displays ==> k < st.displayCount)
  }

  /** The default connects while another group exists: it finds its own, still missing, membership. */
  lemma ConnectUngrouped(st: State, env: Env)
    requires Bounded(st) && st.groups != map[]
    requires st.defaultRs != SCREEN_ID_INVALID && st.defaultRs !in st.ids.rs2Dms
    ensures Connect(st, env, st.defaultRs) == ConnectDefault(st, env)
  {
    var (s1, d) := InitScreen(st, env, st.defaultRs);
    if d != SCREEN_ID_INVALID {
      assert s1.groups == st.groups && s1.defaultRs == st.defaultRs && s1.screens[d].groupId == SCREEN_ID_INVALID;
      assert SCREEN_ID_INVALID !in s1.groups;
      assert GetDefault(s1, env) == (s1, d);
      hide InitScreen, GetDefault, AddChild, AddAsFirst, BuiltIn, Bind, Touch, OnConnect;
    }
  }

  /** The default connects first: it founds the group, and every later lookup is free. */
  lemma ConnectFounder(st: State, env: Env)
    requires Bounded(st) && st.groups == map[]
    requires st.defaultRs != SCREEN_ID_INVALID && st.defaultRs !in st.ids.rs2Dms
    ensures Connect(st, env, st.defaultRs) == ConnectDefault(st, env)
  {
    var (s1, d) := InitScreen(st, env, st.defaultRs);
    if d != SCREEN_ID_INVALID {
      var (s2, g) := AddAsFirst(s1, env, d);
      assert g == d + 1 && s2.screens[d].groupId == g && s2.groups[g].children == {d};
      assert s2.defaultRs == st.defaultRs && s2.ids.rs2Dms[s2.defaultRs] == d;
      hide InitScreen, AddAsFirst, GetDefault, CalcRotation;
      var s3 := BuiltIn(s2, env, st.defaultRs, d);
      KnownLookup(s3, env);
      assert s3.groups == s2.groups && s3.screens[d].groupId == g && s3.groups[g].children == {d};
      hide BuiltIn, AddExpand, Touch;
    }
  }

  /** GetDefaultAbstractScreenId and ProcessScreenConnected call each other. The lookup function
      satisfies the equation of the source: it runs the full connect when the default rs id is
      unmapped, and the nested connect it describes is all that this connect amounts to, the calls
      back into the lookup included. */
  lemma LookupIsConnect(st: State, env: Env)
    requires Bounded(st)
    ensures var s1 := Learn(st, env);
            GetDefault(st, env) ==
              if s1.defaultRs == SCREEN_ID_INVALID then (s1, SCREEN_ID_INVALID)
              else if s1.defaultRs in s1.ids.rs2Dms then (s1, s1.ids.rs2Dms[s1.defaultRs])
              else var s2 := Connect(s1, env, s1.defaultRs); (s2, DmsOf(s2.ids, s1.defaultRs))
  {
    hide Connect, ConnectDefault;
    var s1 := Learn(st, env);
    if !Settled(st, env) {
      ConnectDefaultRs(s1, env);
      if s1.groups == map[] { ConnectFounder(s1, env); } else { ConnectUngrouped(s1, env); }
    }
  }

  lemma InvBounded(st: State)
    requires Inv(st) && forall k :: k in st.displays ==> k < st.displayCount
    ensures Bounded(st)
  {
    forall g, c | g in st.groups && c in st.groups[g].children ensures c in st.screens {
      assert GroupOk(st, g);
    }
    forall g | g in st.groups ensures g in st.screens {
      assert GroupOk(st, g);
    }
    forall d | d in st.screens ensures 0 <= d < st.ids.count {
      assert ScreenOk(st, d);
    }
  }

  /** A default id that is returned is the one that carries the default rs id. */
  lemma LookupMapsBack(st: State, env: Env)
    requires Inv(st) && GetDefault(st, env).1 != SCREEN_ID_INVALID
    ensures var (s1, d) := GetDefault(st, env);
            && s1.defaultRs != SCREEN_ID_INVALID && RsOf(s1.ids, d) == s1.defaultRs && DmsOf(s1.ids, s1.defaultRs) == d
            && Settled(s1, env)
  {
    GetDefaultInv(st, env);
    ConnectDefaultRs(Learn(st, env), env);
    hide ConnectDefault, Extends, Keeps;
  }

  /** A second lookup finds what the first one found if and only if the default rs id is unknown, mapped, or
      has modes. Otherwise each lookup hands out an id and takes it back, which only the counter shows. */
  lemma LookupTwice(st: State, env: Env)
    requires Inv(st)
    ensures var (s1, d) := GetDefault(st, env);
            && (GetDefault(s1, env) == (s1, d) <==> Settled(st, env) || Learn(st, env).defaultRs in env.modes)
            && GetDefault(s1, env) == (s1.(ids := GetDefault(s1, env).0.ids), d)
            && (GetDefault(s1, env) != (s1, d) ==> GetDefault(s1, env).0.ids == s1.ids.(count := s1.ids.count + 1))
  {
    hide Inv, ConnectDefault;
    var s0 := Learn(st, env);
    LearnInv(st, env);
    if s0.defaultRs == SCREEN_ID_INVALID || Settled(st, env) {
      assert GetDefault(s0, env) == GetDefault(st, env);
    } else if s0.defaultRs in env.modes {
      ConnectsOnce(s0, env);
    } else {
      NoModesCounts(s0, env);
      CountsAgain(s0, env);
    }
  }

  lemma ConnectsOnce(st: State, env: Env)
    requires Inv(st) && st.defaultRs != SCREEN_ID_INVALID && st.defaultRs !in st.ids.rs2Dms && st.defaultRs in env.modes
    ensures var s1 := ConnectDefault(st, env);
            GetDefault(s1, env) == (s1, DmsOf(s1.ids, s1.defaultRs))
  {
    hide ConnectDefault;
    ConnectDefaultRs(st, env);
    ConnectDefaultMaps(st, env);
    KnownLookup(ConnectDefault(st, env), env);
  }

  lemma CountsAgain(st: State, env: Env)
    requires Inv(st) && st.defaultRs != SCREEN_ID_INVALID && st.defaultRs !in st.ids.rs2Dms && st.defaultRs !in env.modes
    ensures var s1 := st.(ids := st.ids.(count := st.ids.count + 1));
            GetDefault(s1, env) == (s1.(ids := s1.ids.(count := s1.ids.count + 1)), SCREEN_ID_INVALID)
  {
    var s1 := st.(ids := st.ids.(count := st.ids.count + 1));
    hide ConnectDefault;
    assert Inv(s1) by { CountInv(st); }
    NoModesCounts(s1, env);
    hide Inv;
  }

  lemma CountInv(st: State)
    requires Inv(st)
    ensures Inv(st.(ids := st.ids.(count := st.ids.count + 1)))
  {
    var s1 := st.(ids := st.ids.(count := st.ids.count + 1));
    forall d | d in s1.screens ensures ScreenOk(s1, d) { assert ScreenOk(st, d); }
    forall g | g in s1.groups ensures GroupOk(s1, g) { assert GroupOk(st, g); }
  }

  lemma NoModesCounts(st: State, env: Env)
    requires Inv(st) && st.defaultRs != SCREEN_ID_INVALID && st.defaultRs !in st.ids.rs2Dms && st.defaultRs !in env.modes
    ensures ConnectDefault(st, env) == st.(ids := st.ids.(count := st.ids.count + 1))
  {
    var ids := DeleteId(CreateId(st.ids, st.defaultRs), st.ids.count);
    assert ids.dms2Rs == st.ids.dms2Rs && ids.rs2Dms == st.ids.rs2Dms;
  }

  // ---------- Unplugging and plugging in ----------

  /** AddChild renews a node only for a screen that is a child already: a display node that is still
      there means membership. */
  lemma ReconnectsOnlyChildren(st: State, g: ScreenId, id: ScreenId)
    requires Inv(st) && g in st.groups && id in st.screens && !st.screens[id].IsGroup() && Reconnects(st, g, id)
    ensures id in st.groups[g].children && st.screens[id].groupId == g
  {
    assert ScreenOk(st, id);
  }

  /** Unplugging the default screen and plugging it in again keeps every id, group member, display
      and screen; only the start point is reset, provided a new display node could be made. */
  lemma DefaultRoundTrip(st: State, env1: Env, env2: Env)
    requires Inv(st) && DefaultMember(st) && MirrorOk(st)
    ensures var d := st.ids.rs2Dms[st.defaultRs];
            var g := st.screens[d].groupId;
            var out := Disconnect(st, env1, st.defaultRs);
            var back := Connect(out, env2, st.defaultRs);
            var renewed := st.screens[d].hasNode && st.screens[d].rsId !in env2.noNode;
            && g in st.groups
            && out == st.(screens := st.screens[d := st.screens[d].(lastGroupId := g)],
                          groups := st.groups[g := st.groups[g].(defaultId := d)])
            && back == out.(screens := out.screens[d := out.screens[d].(
                              start := if renewed then ORIGIN else st.screens[d].start)])
  {
    var d := st.ids.rs2Dms[st.defaultRs];
    DefaultChild(st);
    DefaultUnplugs(st, env1);
    var g := st.screens[d].groupId;
    MirrorHasSource(st, g);
    var out := RemoveDefaultScreen(st, g, d);
    hide Inv, Disconnect, MirrorOk, InitScreen, AddToGroup, GetDefault, PlaceChild, OnConnect, Touch, BuiltIn;
    assert NodeConfig(out, env2, g, d) == out;
    hide NodeConfig;
  }
}

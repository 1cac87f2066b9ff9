/** The invariant that ties the id maps, the screen map, the group map and the group membership
    recorded in the screens to each other, and its preservation by every operation. */
module ScreenInvariant {
  import opened DmTypes
  import opened ScreenState

  /** The valid part of dms2Rs and rs2Dms are inverse to each other, and ids are never reused. */
  ghost predicate IdsOk(ids: Ids) {
    && (forall d :: d in ids.dms2Rs ==> 0 <= d < ids.count)
    && (forall rs :: rs in ids.rs2Dms ==>
          rs != SCREEN_ID_INVALID && ids.rs2Dms[rs] in ids.dms2Rs && ids.dms2Rs[ids.rs2Dms[rs]] == rs)
    && (forall d :: d in ids.dms2Rs && ids.dms2Rs[d] != SCREEN_ID_INVALID ==>
          ids.dms2Rs[d] in ids.rs2Dms && ids.rs2Dms[ids.dms2Rs[d]] == d)
  }

  ghost predicate ScreenOk(st: State, d: ScreenId)
    requires d in st.screens
  {
    var s := st.screens[d];
    && 0 <= d < st.ids.count
    && (s.IsGroup() ==>
          d in st.groups && s.groupId == SCREEN_ID_INVALID && !s.hasNode && RsOf(st.ids, d) == SCREEN_ID_INVALID)
    && (!s.IsGroup() ==>
          && s.rsId != SCREEN_ID_INVALID && RsOf(st.ids, d) == s.rsId
          && (s.groupId == SCREEN_ID_INVALID || (s.groupId in st.groups && d in st.groups[s.groupId].children))
          && (s.hasNode ==> s.groupId != SCREEN_ID_INVALID))
  }

  ghost predicate GroupOk(st: State, g: ScreenId)
    requires g in st.groups
  {
    && g in st.screens && st.screens[g].IsGroup()
    && st.groups[g].children != {}
    && (forall c :: c in st.groups[g].children ==>
          c in st.screens && !st.screens[c].IsGroup() && st.screens[c].groupId == g)
  }

  ghost predicate Inv(st: State) {
    && IdsOk(st.ids)
    && (forall d :: d in st.screens ==> ScreenOk(st, d))
    && (forall g :: g in st.groups ==> GroupOk(st, g))
    && (forall g, h :: g in st.groups && h in st.groups ==> g == h)
  }

  /** An id that carries a valid rs id but belongs to no screen. */
  ghost predicate Unmatched(st: State, d: ScreenId) {
    d in st.ids.dms2Rs && st.ids.dms2Rs[d] != SCREEN_ID_INVALID && d !in st.screens
  }

  ghost predicate Quiescent(st: State) {
    forall d :: !Unmatched(st, d)
  }

  ghost predicate NoNewUnmatched(a: State, b: State) {
    forall d :: Unmatched(b, d) ==> Unmatched(a, d)
  }

  lemma NoInvalid(st: State)
    requires Inv(st)
    ensures SCREEN_ID_INVALID !in st.screens
  {
    assert SCREEN_ID_INVALID in st.screens ==> ScreenOk(st, SCREEN_ID_INVALID);
  }

  lemma NoInvalidGroup(st: State)
    requires Inv(st)
    ensures SCREEN_ID_INVALID !in st.groups
  {
    assert SCREEN_ID_INVALID in st.groups ==> GroupOk(st, SCREEN_ID_INVALID);
    NoInvalid(st);
  }

  /** What a default-screen lookup may do to a state that has a group: learn the default rs id and
      add one screen, without group, node or display. */
  ghost predicate Extends(a: State, b: State) {
    && a.groups == b.groups && a.agents == b.agents && a.callback == b.callback
    && a.displays == b.displays && a.displayCount == b.displayCount
    && (a.defaultRs != SCREEN_ID_INVALID ==> b.defaultRs == a.defaultRs)
    && a.ids.count <= b.ids.count
    && (forall d :: d in a.screens ==> d in b.screens && b.screens[d] == a.screens[d])
    && (forall d :: d in b.screens && d !in a.screens ==>
          && a.ids.count <= d && b.screens[d].kind.REAL? && b.screens[d].mode.Some?
          && b.screens[d].groupId == SCREEN_ID_INVALID && b.screens[d].lastGroupId == SCREEN_ID_INVALID)
    && (forall d :: d in a.ids.dms2Rs ==> d in b.ids.dms2Rs && b.ids.dms2Rs[d] == a.ids.dms2Rs[d])
    && (forall d :: d in b.ids.dms2Rs && d !in a.ids.dms2Rs ==> a.ids.count <= d && d in b.screens)
    && (forall rs :: rs in a.ids.rs2Dms ==> rs in b.ids.rs2Dms && b.ids.rs2Dms[rs] == a.ids.rs2Dms[rs])
  }

  lemma ExtendsTrans(a: State, b: State, c: State)
    requires Extends(a, b) && Extends(b, c)
    ensures Extends(a, c)
  {
  }

  lemma InitScreenInv(st: State, env: Env, rs: ScreenId)
    requires Inv(st) && rs != SCREEN_ID_INVALID && rs !in st.ids.rs2Dms
    ensures var (s1, d) := InitScreen(st, env, rs);
            && Inv(s1) && Extends(st, s1)
            && (d != SCREEN_ID_INVALID ==>
                  d == st.ids.count && d !in st.screens && s1.ids.rs2Dms == st.ids.rs2Dms[rs := d]
                  && s1.screens[d] == NewScreen(rs, REAL, Some(env.modes[rs])) && rs in env.modes)
            && (d == SCREEN_ID_INVALID ==> s1.screens == st.screens && s1.ids.rs2Dms == st.ids.rs2Dms)
  {
    var (s1, d) := InitScreen(st, env, rs);
    if rs in env.modes {
      forall e | e in s1.screens ensures ScreenOk(s1, e) {
        if e in st.screens { assert ScreenOk(st, e); }
      }
      forall g | g in s1.groups ensures GroupOk(s1, g) {
        assert GroupOk(st, g);
      }
    } else {
      assert s1.ids.dms2Rs == st.ids.dms2Rs;
      assert s1.ids.rs2Dms == st.ids.rs2Dms;
      forall e | e in s1.screens ensures ScreenOk(s1, e) {
        assert ScreenOk(st, e);
      }
      forall g | g in s1.groups ensures GroupOk(s1, g) {
        assert GroupOk(st, g);
      }
    }
  }

  lemma AddAsFirstInv(st: State, env: Env, id: ScreenId)
    requires Inv(st) && st.groups == map[] && id in st.screens
    ensures var (s1, g) := AddAsFirst(st, env, id);
            && Inv(s1) && g == st.ids.count && s1.groups.Keys == {g}
            && s1.groups[g].children == {id} && s1.groups[g].mirrorId == id && s1.groups[g].defaultId == SCREEN_ID_INVALID
            && s1.groups[g].combination == (if env.expand then SCREEN_EXPAND else SCREEN_MIRROR)
            && s1.screens.Keys == st.screens.Keys + {g} && s1.screens[id] == WithNode(st.screens[id], env, g, ORIGIN)
            && s1.ids.rs2Dms == st.ids.rs2Dms && s1.ids.count == st.ids.count + 1
            && s1.ids.dms2Rs == st.ids.dms2Rs[g := SCREEN_ID_INVALID]
            && (forall d :: d in st.screens && d != id ==> s1.screens[d] == st.screens[d])
            && s1.screens[g].IsGroup()
            && s1 == st.(ids := s1.ids, screens := s1.screens, groups := s1.groups)
  {
    var (s1, g) := AddAsFirst(st, env, id);
    assert ScreenOk(st, id);
    forall e | e in s1.screens ensures ScreenOk(s1, e) {
      if e in st.screens { assert ScreenOk(st, e); }
    }
  }

  /** Two states that differ in nothing the invariant speaks about. */
  ghost predicate SameShape(a: State, b: State) {
    && a.ids == b.ids && a.screens.Keys == b.screens.Keys && a.groups.Keys == b.groups.Keys
    && (forall d :: d in a.screens ==>
          && b.screens[d].kind == a.screens[d].kind && b.screens[d].rsId == a.screens[d].rsId
          && b.screens[d].groupId == a.screens[d].groupId && b.screens[d].hasNode == a.screens[d].hasNode
          && b.screens[d].mode == a.screens[d].mode)
    && (forall g :: g in a.groups ==> b.groups[g].children == a.groups[g].children)
  }

  lemma ShapeInv(a: State, b: State)
    requires Inv(a) && SameShape(a, b)
    ensures Inv(b)
    ensures NoNewUnmatched(a, b)
  {
    forall d | d in b.screens ensures ScreenOk(b, d) { assert ScreenOk(a, d); }
    forall g | g in b.groups ensures GroupOk(b, g) { assert GroupOk(a, g); }
  }

  /** Two states of one shape that differ in one screen and in the displays. */
  ghost predicate Redraws(a: State, b: State, id: ScreenId) {
    && SameShape(a, b)
    && b.agents == a.agents && b.callback == a.callback && b.defaultRs == a.defaultRs
    && (forall d :: d in a.screens && d != id ==> b.screens[d] == a.screens[d])
  }

  lemma BuiltInShape(st: State, env: Env, rs: ScreenId, id: ScreenId)
    requires id in st.screens
    ensures Redraws(st, BuiltIn(st, env, rs, id), id)
  {
  }

  lemma BindShape(st: State, id: ScreenId, d: ScreenId)
    requires id in st.screens
    ensures Redraws(st, Bind(st, id, d), id)
  {
  }

  lemma RedrawsInv(a: State, b: State, id: ScreenId)
    requires Inv(a) && Redraws(a, b, id)
    ensures Inv(b) && NoNewUnmatched(a, b)
    ensures a.screens.Keys == b.screens.Keys && a.groups.Keys == b.groups.Keys
  {
    ShapeInv(a, b);
  }

  /** What every lookup keeps, whether or not there is a group. */
  ghost predicate Keeps(a: State, b: State) {
    && b.agents == a.agents && b.callback == a.callback
    && (a.defaultRs != SCREEN_ID_INVALID ==> b.defaultRs == a.defaultRs)
    && a.ids.count <= b.ids.count
    && (forall rs :: rs in a.ids.rs2Dms ==> rs in b.ids.rs2Dms && b.ids.rs2Dms[rs] == a.ids.rs2Dms[rs])
    && (forall d :: d in a.ids.dms2Rs ==> d in b.ids.dms2Rs && b.ids.dms2Rs[d] == a.ids.dms2Rs[d])
    && (forall d :: d in b.ids.dms2Rs && d !in a.ids.dms2Rs ==>
          a.ids.count <= d && (b.ids.dms2Rs[d] == SCREEN_ID_INVALID || d in b.screens))
    && (forall d :: d in a.screens ==> d in b.screens && b.screens[d] == a.screens[d])
    && (forall d :: d in b.screens && d !in a.screens ==> a.ids.count <= d && !b.screens[d].kind.VIRTUAL?)
  }

  lemma ExtendsKeeps(a: State, b: State)
    requires Extends(a, b)
    ensures Keeps(a, b)
  {
  }

  lemma KeepsUnmatched(a: State, b: State)
    requires Keeps(a, b)
    ensures NoNewUnmatched(a, b)
  {
  }

  lemma KeepsTrans(a: State, b: State, c: State)
    requires Keeps(a, b) && Keeps(b, c)
    ensures Keeps(a, c)
  {
  }

  lemma LearnInv(st: State, env: Env)
    requires Inv(st)
    ensures Inv(Learn(st, env)) && Extends(st, Learn(st, env))
  {
    ShapeInv(st, Learn(st, env));
  }

  /** With a group present, looking up the default screen only Extends the state. */
  lemma GetDefaultGrouped(st: State, env: Env)
    requires Inv(st) && st.groups != map[]
    ensures Inv(GetDefault(st, env).0) && Extends(st, GetDefault(st, env).0)
  {
    var s1 := Learn(st, env);
    LearnInv(st, env);
    if !Settled(st, env) {
      InitScreenInv(s1, env, s1.defaultRs);
      var s2 := InitScreen(s1, env, s1.defaultRs).0;
      hide Inv, InitScreen;
      ExtendsTrans(st, s1, s2);
      hide Extends;
    }
  }

  /** A screen that st does not have yet becomes the first child. */
  lemma AddAsFirstKeeps(st: State, mid: State, env: Env, id: ScreenId)
    requires Inv(mid) && mid.groups == map[] && id in mid.screens
    requires Keeps(st, mid) && id !in st.screens
    ensures Keeps(st, AddAsFirst(mid, env, id).0)
  {
    AddAsFirstInv(mid, env, id);
    hide AddAsFirst, Inv;
  }

  /** The shape, and with it everything known to st, survives later changes to a new screen. */
  lemma KeepsShape(st: State, a: State, b: State, id: ScreenId)
    requires Keeps(st, a) && Redraws(a, b, id) && id !in st.screens && id in a.screens
    ensures Keeps(st, b)
  {
  }

  lemma ConnectDefaultEmpty(st: State, env: Env)
    requires Inv(st) && st.groups == map[]
    requires st.defaultRs != SCREEN_ID_INVALID && st.defaultRs !in st.ids.rs2Dms
    ensures Inv(ConnectDefault(st, env)) && Keeps(st, ConnectDefault(st, env))
  {
    var (s1, d) := InitScreen(st, env, st.defaultRs);
    InitScreenInv(st, env, st.defaultRs);
    ExtendsKeeps(st, s1);
    hide Inv, Extends, Keeps, Redraws, SameShape, InitScreen, BuiltIn, Bind;
    if d != SCREEN_ID_INVALID {
      var (s2, g) := AddAsFirst(s1, env, d);
      AddAsFirstInv(s1, env, d);
      AddAsFirstKeeps(st, s1, env, d);
      hide AddAsFirst;
      var s3 := BuiltIn(s2, env, st.defaultRs, d);
      BuiltInShape(s2, env, st.defaultRs, d);
      RedrawsInv(s2, s3, d);
      KeepsShape(st, s2, s3, d);
      var s4 := Bind(s3, d, d);
      BindShape(s3, d, d);
      RedrawsInv(s3, s4, d);
      KeepsShape(st, s3, s4, d);
    }
  }

  lemma GetDefaultInv(st: State, env: Env)
    requires Inv(st)
    ensures Inv(GetDefault(st, env).0) && Keeps(st, GetDefault(st, env).0)
    ensures NoNewUnmatched(st, GetDefault(st, env).0)
    ensures st.groups != map[] ==> Extends(st, GetDefault(st, env).0)
  {
    hide Inv, Extends, Keeps, NoNewUnmatched;
    var s1 := Learn(st, env);
    var r := GetDefault(st, env).0;
    LearnInv(st, env);
    ExtendsKeeps(st, s1);
    if st.groups != map[] {
      GetDefaultGrouped(st, env);
      ExtendsKeeps(st, r);
    } else if !Settled(st, env) {
      ConnectDefaultEmpty(s1, env);
      hide ConnectDefault;
      KeepsTrans(st, s1, r);
    }
    KeepsUnmatched(st, r);
  }

  // ---------- Everything short of deleting a screen ----------

  /** What every step keeps that neither deletes a screen nor touches the agents: ids and the rs
      and dms maps only grow, screens keep what identifies them. */
  ghost predicate Evolves(a: State, b: State) {
    && b.agents == a.agents && b.callback == a.callback
    && (a.defaultRs != SCREEN_ID_INVALID ==> b.defaultRs == a.defaultRs)
    && a.ids.count <= b.ids.count
    && (forall rs :: rs in a.ids.rs2Dms ==> rs in b.ids.rs2Dms && b.ids.rs2Dms[rs] == a.ids.rs2Dms[rs])
    && (forall d :: d in a.ids.dms2Rs ==> d in b.ids.dms2Rs && b.ids.dms2Rs[d] == a.ids.dms2Rs[d])
    && (forall d :: d in b.ids.dms2Rs && d !in a.ids.dms2Rs ==>
          a.ids.count <= d && (b.ids.dms2Rs[d] == SCREEN_ID_INVALID || d in b.screens))
    && (forall d :: d in a.screens && !a.screens[d].IsGroup() ==> d in b.screens)
    && (forall d :: d in a.screens && d in b.screens ==>
          && b.screens[d].kind == a.screens[d].kind && b.screens[d].rsId == a.screens[d].rsId
          && b.screens[d].mode == a.screens[d].mode)
    && (forall d :: d in b.screens && d !in a.screens ==> a.ids.count <= d && !b.screens[d].kind.VIRTUAL?)
  }

  lemma KeepsEvolves(a: State, b: State)
    requires Keeps(a, b)
    ensures Evolves(a, b)
  {
  }

  lemma ShapeEvolves(a: State, b: State)
    requires SameShape(a, b)
    requires b.agents == a.agents && b.callback == a.callback
    requires a.defaultRs != SCREEN_ID_INVALID ==> b.defaultRs == a.defaultRs
    ensures Evolves(a, b)
  {
  }

  lemma EvolvesTrans(a: State, b: State, c: State)
    requires Inv(a) && Inv(b) && Evolves(a, b) && Evolves(b, c)
    ensures Evolves(a, c)
  {
    forall d | d in c.ids.dms2Rs && d !in a.ids.dms2Rs
      ensures a.ids.count <= d && (c.ids.dms2Rs[d] == SCREEN_ID_INVALID || d in c.screens)
    {
      assert d in b.screens ==> ScreenOk(b, d);
    }
    forall d | d in a.screens && d in c.screens
      ensures c.screens[d].kind == a.screens[d].kind && c.screens[d].rsId == a.screens[d].rsId
      ensures c.screens[d].mode == a.screens[d].mode
    {
      assert ScreenOk(a, d);
    }
  }

  lemma EvolvesUnmatched(a: State, b: State)
    requires Inv(a) && Evolves(a, b)
    ensures NoNewUnmatched(a, b)
  {
    forall d | Unmatched(b, d) ensures Unmatched(a, d) {
      assert d in a.screens ==> ScreenOk(a, d);
    }
  }

  lemma EvolvesRefl(a: State)
    ensures Evolves(a, a)
  {
  }

  /** Nothing known is regrouped or changed; new screens may appear. */
  ghost predicate SameGrouping(a: State, b: State) {
    && b.groups == a.groups
    && (forall d :: d in a.screens ==> d in b.screens && b.screens[d] == a.screens[d])
  }

  lemma ExtendsGrouping(a: State, b: State)
    requires Extends(a, b.(displays := a.displays, displayCount := a.displayCount))
    ensures SameGrouping(a, b)
  {
  }

  /** GetDefaultInv in terms of Evolves. */
  lemma LookupInv(st: State, env: Env)
    requires Inv(st)
    ensures Inv(GetDefault(st, env).0) && Evolves(st, GetDefault(st, env).0)
    ensures st.groups != map[] ==> Extends(st, GetDefault(st, env).0)
  {
    hide Inv, Extends, Keeps, Evolves, GetDefault;
    GetDefaultInv(st, env);
    KeepsEvolves(st, GetDefault(st, env).0);
  }

  lemma TouchInv(st: State, env: Env, id: ScreenId)
    requires Inv(st)
    ensures Inv(Touch(st, env, id)) && Evolves(st, Touch(st, env, id))
    ensures st.groups != map[] ==> Extends(st, Touch(st, env, id)) && SameGrouping(st, Touch(st, env, id))
  {
    hide Inv, GetDefault;
    if id in st.screens && st.screens[id].groupId in st.groups {
      LookupInv(st, env);
    }
  }

  /** A screen is placed in a group it is not in. */
  lemma PlaceChildInv(st: State, env: Env, g: ScreenId, id: ScreenId, p: Point)
    requires Inv(st) && g in st.groups && id in st.screens && !st.screens[id].IsGroup()
    requires st.screens[id].groupId == SCREEN_ID_INVALID
    ensures Inv(PlaceChild(st, env, g, id, p)) && Evolves(st, PlaceChild(st, env, g, id, p))
  {
    var r := PlaceChild(st, env, g, id, p);
    assert ScreenOk(st, id) && GroupOk(st, g);
    forall d | d in r.screens ensures ScreenOk(r, d) {
      assert ScreenOk(st, d);
    }
    forall h | h in r.groups ensures GroupOk(r, h) {
      assert GroupOk(st, h);
    }
  }

  /** Only the mirror source of the group may change besides what a lookup does. */
  lemma NodeConfigInv(st: State, env: Env, g: ScreenId, id: ScreenId)
    requires Inv(st) && g in st.groups
    ensures var r := NodeConfig(st, env, g, id);
            && Inv(r) && Evolves(st, r) && Extends(st.(groups := r.groups), r)
            && r.groups == st.groups[g := st.groups[g].(mirrorId := r.groups[g].mirrorId)]
  {
    hide Inv, GetDefault, Evolves, Extends;
    var r := NodeConfig(st, env, g, id);
    var s1 := GetDefault(st, env).0;
    LookupInv(st, env);
    EvolvesRefl(st);
    assert st.groups[g := st.groups[g]] == st.groups;
    if r == st {
      ExtendsRefl(st);
    } else {
      SourceFound(st, s1, r, g);
    }
  }

  lemma SourceFound(st: State, s1: State, r: State, g: ScreenId)
    requires Inv(st) && Inv(s1) && Evolves(st, s1) && Extends(st, s1) && g in st.groups
    requires exists d :: r == s1.(groups := s1.groups[g := s1.groups[g].(mirrorId := d)])
    ensures Inv(r) && Evolves(st, r) && Extends(st.(groups := r.groups), r)
    ensures r.groups == st.groups[g := st.groups[g].(mirrorId := r.groups[g].mirrorId)]
  {
    hide Inv, Evolves;
    var d :| r == s1.(groups := s1.groups[g := s1.groups[g].(mirrorId := d)]);
    assert s1.groups == st.groups;
    ExtendsGroups(st, s1, r);
    hide Extends;
    ShapeInv(s1, r);
    ShapeEvolves(s1, r);
    EvolvesTrans(st, s1, r);
  }

  lemma ExtendsGroups(a: State, b: State, c: State)
    requires Extends(a, b) && c == b.(groups := c.groups)
    ensures Extends(a.(groups := c.groups), c)
  {
  }

  lemma NodeConfigAt(st: State, env: Env, g: ScreenId, id: ScreenId, d: ScreenId)
    requires Inv(st) && g in st.groups && d in st.screens
    ensures NodeConfig(st, env, g, id).screens[d] == st.screens[d]
  {
    NodeConfigInv(st, env, g, id);
  }

  /** A screen without group is placed; it has no node, so it cannot take the reconnect branch. */
  lemma AddChildNew(st: State, env: Env, g: ScreenId, id: ScreenId, p: Point)
    requires Inv(st) && g in st.groups && id in st.screens && !st.screens[id].IsGroup()
    requires st.screens[id].groupId == SCREEN_ID_INVALID
    ensures var s1 := NodeConfig(st, env, g, id);
            && Inv(s1) && s1.screens[id] == st.screens[id]
            && AddChild(st, env, g, id, p) == (PlaceChild(s1, env, g, id, p), true)
  {
    assert ScreenOk(st, id) && GroupOk(st, g);
    hide Inv;
    NodeConfigInv(st, env, g, id);
    NodeConfigAt(st, env, g, id, id);
    hide NodeConfig;
  }

  /** A child is refused, or has its node renewed if it is the default screen coming back. */
  lemma AddChildOld(st: State, env: Env, g: ScreenId, id: ScreenId, p: Point)
    requires Inv(st) && g in st.groups && id in st.groups[g].children
    ensures id in st.screens && st.screens[id].groupId == g
    ensures var s1 := NodeConfig(st, env, g, id);
            var s := st.screens[id];
            && s1.screens[id] == s
            && AddChild(st, env, g, id, p) ==
                 if !Reconnects(st, g, id) then (st, false)
                 else if s.rsId in env.noNode then (s1, true)
                 else (s1.(screens := s1.screens[id := s.(start := p)]), true)
  {
    assert GroupOk(st, g);
    hide Inv;
    NodeConfigInv(st, env, g, id);
    NodeConfigAt(st, env, g, id, id);
    hide NodeConfig;
  }

  lemma StartShape(st: State, id: ScreenId, p: Point)
    requires id in st.screens
    ensures SameShape(st, st.(screens := st.screens[id := st.screens[id].(start := p)]))
  {
  }

  lemma AddChildInv(st: State, env: Env, g: ScreenId, id: ScreenId, p: Point)
    requires Inv(st) && g in st.groups && id in st.screens && !st.screens[id].IsGroup()
    ensures var r := AddChild(st, env, g, id, p).0;
            && Inv(r) && Evolves(st, r)
            && r.groups.Keys == st.groups.Keys && r.groups[g].children == st.groups[g].children + {id}
            && r.screens[id].groupId == g
  {
    var r := AddChild(st, env, g, id, p).0;
    var s1 := NodeConfig(st, env, g, id);
    assert ScreenOk(st, id);
    var child := id in st.groups[g].children;
    assert !child ==> st.screens[id].groupId == SCREEN_ID_INVALID;
    hide Inv, Evolves, Extends, AddChild, NodeConfig;
    NodeConfigInv(st, env, g, id);
    EvolvesRefl(st);
    if child {
      AddChildOld(st, env, g, id, p);
      assert st.groups[g].children == st.groups[g].children + {id};
      StartShape(s1, id, p);
      hide SameShape;
      if r != st && r != s1 {
        ShapeInv(s1, r);
        ShapeEvolves(s1, r);
        EvolvesTrans(st, s1, r);
      }
    } else {
      AddChildNew(st, env, g, id, p);
      PlaceChildInv(s1, env, g, id, p);
      EvolvesTrans(st, s1, r);
    }
  }

  lemma AddAsFirstEvolves(st: State, env: Env, id: ScreenId)
    requires Inv(st) && st.groups == map[] && id in st.screens
    ensures Inv(AddAsFirst(st, env, id).0) && Evolves(st, AddAsFirst(st, env, id).0)
  {
    AddAsFirstInv(st, env, id);
    hide AddAsFirst, IdsOk, GroupOk;
    forall d | d in st.screens ensures d != st.ids.count { assert ScreenOk(st, d); }
  }

  lemma AddAsSuccedentInv(st: State, env: Env, id: ScreenId)
    requires Inv(st) && st.groups != map[] && id in st.screens && !st.screens[id].IsGroup()
    ensures var (r, g) := AddAsSuccedent(st, env, id);
            && Inv(r) && Evolves(st, r)
            && (g != SCREEN_ID_INVALID ==>
                  g in r.groups && r.screens[id].groupId == g && id in r.groups[g].children)
  {
    hide Inv, Evolves, GetDefault, AddChild;
    var (s1, d) := GetDefault(st, env);
    LookupInv(st, env);
    assert s1.screens[id] == st.screens[id];
    hide Extends;
    if d in s1.screens && s1.screens[d].groupId in s1.groups {
      var g := s1.screens[d].groupId;
      var p := if s1.groups[g].combination.SCREEN_EXPAND?
               then Point(SumWidths(s1.screens, Ascending(s1.groups[g].children)), 0) else ORIGIN;
      AddChildInv(s1, env, g, id, p);
      EvolvesTrans(st, s1, AddChild(s1, env, g, id, p).0);
    }
  }

  lemma AddToGroupInv(st: State, env: Env, id: ScreenId)
    requires Inv(st) && id in st.screens && !st.screens[id].IsGroup()
    ensures var (r, g) := AddToGroup(st, env, id);
            && Inv(r) && Evolves(st, r)
            && (g != SCREEN_ID_INVALID ==>
                  g in r.groups && r.screens[id].groupId == g && id in r.groups[g].children)
  {
    if st.groups == map[] {
      AddAsFirstInv(st, env, id);
      hide AddAsFirst;
      AddAsFirstEvolves(st, env, id);
    } else {
      hide Inv, Evolves, AddAsSuccedent;
      AddAsSuccedentInv(st, env, id);
    }
  }

  // ---------- The display callbacks do not touch the shape ----------

  /** A callback is a lookup followed by changes to displays. */
  lemma CallbackInv(st: State, env: Env, r: State)
    requires Inv(st)
    requires var s1 := GetDefault(st, env).0;
             r == st.(displays := r.displays) || r == s1.(displays := r.displays, displayCount := r.displayCount)
    ensures Inv(r) && Evolves(st, r)
    ensures st.groups != map[] ==>
              Extends(st, r.(displays := st.displays, displayCount := st.displayCount)) && SameGrouping(st, r)
    ensures NoNewUnmatched(st, r)
  {
    hide Inv, Evolves, Extends, GetDefault;
    LookupInv(st, env);
    var s1 := GetDefault(st, env).0;
    if r == st.(displays := r.displays) {
      assert SameShape(st, r);
      ShapeInv(st, r);
      ShapeEvolves(st, r);
      assert st == r.(displays := st.displays, displayCount := st.displayCount);
      assert Extends(st, st) by { ExtendsRefl(st); }
      ExtendsGrouping(st, r);
    } else {
      assert SameShape(s1, r);
      ShapeInv(s1, r);
      ShapeEvolves(s1, r);
      EvolvesTrans(st, s1, r);
      if st.groups != map[] {
        ExtendsDisplays(st, s1, r);
        ExtendsGrouping(st, r);
      }
    }
    EvolvesUnmatched(st, r);
  }

  lemma ExtendsRefl(a: State)
    ensures Extends(a, a)
  {
  }

  lemma ExtendsDisplays(a: State, b: State, r: State)
    requires Extends(a, b) && r == b.(displays := r.displays, displayCount := r.displayCount)
    ensures Extends(a, r.(displays := a.displays, displayCount := a.displayCount))
  {
    assert r.(displays := a.displays, displayCount := a.displayCount) == b;
  }

  lemma OnConnectInv(st: State, env: Env, id: ScreenId)
    requires Inv(st) && id in st.screens
    ensures Inv(OnConnect(st, env, id)) && Evolves(st, OnConnect(st, env, id))
    ensures st.groups != map[] ==> var r := OnConnect(st, env, id);
              Extends(st, r.(displays := st.displays, displayCount := st.displayCount)) && SameGrouping(st, r)
  {
    hide Inv, Evolves, Extends, GetDefault;
    var r := OnConnect(st, env, id);
    CallbackInv(st, env, r);
  }

  lemma OnDisconnectInv(st: State, env: Env, id: ScreenId)
    requires Inv(st) && id in st.screens
    ensures Inv(OnDisconnect(st, env, id)) && Evolves(st, OnDisconnect(st, env, id))
    ensures st.groups != map[] ==> var r := OnDisconnect(st, env, id);
              Extends(st, r.(displays := st.displays, displayCount := st.displayCount)) && SameGrouping(st, r)
  {
    hide Inv, Evolves, Extends, GetDefault;
    var r := OnDisconnect(st, env, id);
    var g := st.screens[id].groupId;
    if g in st.groups && st.groups[g].combination.SCREEN_EXPAND? {
      var zeroed := ZeroOthers(st.displays, id);
      var mid := st.(displays := zeroed);
      assert SameShape(st, mid);
      ShapeInv(st, mid);
      ShapeEvolves(st, mid);
      hide SameShape;
      CallbackInv(mid, env, r);
      EvolvesTrans(st, mid, r);
      ExtendsBase(st, mid, r);
      ExtendsGrouping(st, r);
    } else {
      CallbackInv(st, env, r);
    }
  }

  lemma ExtendsBase(a: State, mid: State, r: State)
    requires mid == a.(displays := mid.displays)
    requires Extends(mid, r.(displays := mid.displays, displayCount := mid.displayCount))
    ensures Extends(a, r.(displays := a.displays, displayCount := a.displayCount))
  {
  }

  // ---------- Taking screens out of a group ----------

  /** The last child takes the group with it. */
  lemma RemoveLastInv(st: State, g: ScreenId, id: ScreenId)
    requires Inv(st) && g in st.groups && st.groups[g].children == {id} && id in st.screens
    ensures var r := RemoveChild(st, g, id).0;
            && Inv(r) && Evolves(st, r) && RemoveChild(st, g, id).1 && r.groups == map[]
            && r == st.(screens := r.screens, groups := r.groups)
            && r.screens.Keys == st.screens.Keys - {g} && id != g
            && r.screens[id] == WithoutGroup(st.screens[id])
            && (forall d :: d in r.screens && d != id ==> r.screens[d] == st.screens[d])
  {
    assert GroupOk(st, g) && ScreenOk(st, id);
    var (r, _) := RemoveChild(st, g, id);
    assert st.groups[g].children - {id} == {};
    assert forall h :: h in st.groups ==> h == g;
    assert forall h :: h !in r.groups;
    forall d | d in r.screens ensures ScreenOk(r, d) {
      assert ScreenOk(st, d);
    }
  }

  lemma RemoveOtherInv(st: State, g: ScreenId, id: ScreenId)
    requires Inv(st) && g in st.groups && id in st.groups[g].children && st.groups[g].children != {id}
    requires id in st.screens
    ensures var r := RemoveChild(st, g, id).0;
            && Inv(r) && Evolves(st, r) && RemoveChild(st, g, id).1
            && r == st.(screens := st.screens[id := WithoutGroup(st.screens[id])],
                        groups := st.groups[g := st.groups[g].(children := st.groups[g].children - {id})])
  {
    assert GroupOk(st, g) && ScreenOk(st, id);
    var (r, _) := RemoveChild(st, g, id);
    assert forall c :: c in st.groups[g].children ==> c in st.groups[g].children - {id} || c == id;
    forall d | d in r.screens ensures ScreenOk(r, d) {
      assert ScreenOk(st, d);
    }
    forall h | h in r.groups ensures GroupOk(r, h) {
      assert GroupOk(st, h);
    }
  }

  lemma RemoveChildInv(st: State, g: ScreenId, id: ScreenId)
    requires Inv(st) && g in st.groups && id in st.groups[g].children
    ensures id in st.screens && !st.screens[id].IsGroup() && id != g
    ensures var r := RemoveChild(st, g, id).0;
            && Inv(r) && Evolves(st, r) && RemoveChild(st, g, id).1
            && r == st.(screens := r.screens, groups := r.groups)
            && id in r.screens && r.screens[id] == WithoutGroup(st.screens[id])
            && (forall d :: d in st.screens && d != id && d != g ==> d in r.screens && r.screens[d] == st.screens[d])
            && (st.groups[g].children == {id} ==> r.groups == map[])
            && (st.groups[g].children != {id} ==>
                  r.groups == st.groups[g := st.groups[g].(children := st.groups[g].children - {id})])
  {
    assert GroupOk(st, g);
    hide Inv, Evolves;
    if st.groups[g].children == {id} {
      RemoveLastInv(st, g, id);
      hide RemoveChild;
    } else {
      RemoveOtherInv(st, g, id);
      hide RemoveChild;
    }
  }

  lemma RemoveFromGroupInv(st: State, id: ScreenId)
    requires Inv(st) && id in st.screens && !st.screens[id].IsGroup()
    ensures var r := RemoveFromGroup(st, id).0;
            && Inv(r) && Evolves(st, r) && id in r.screens && r.screens[id].groupId == SCREEN_ID_INVALID
  {
    assert ScreenOk(st, id);
    EvolvesRefl(st);
    var g := st.screens[id].groupId;
    if g in st.groups {
      assert GroupOk(st, g);
      hide Inv, Evolves, RemoveChild;
      RemoveChildInv(st, g, id);
    }
  }

  /** Listed screens that are known and not groups; this survives every step that Evolves. */
  ghost predicate Plain(st: State, ids: seq<ScreenId>) {
    forall id :: id in ids ==> id in st.screens && !st.screens[id].IsGroup()
  }

  lemma EvolvesPlain(a: State, b: State, ids: seq<ScreenId>)
    requires Evolves(a, b) && Plain(a, ids)
    ensures Plain(b, ids)
  {
  }

  /** The disconnect callback for a screen in a group, then its removal. */
  lemma DropInv(st: State, env: Env, id: ScreenId)
    requires Inv(st) && id in st.screens && !st.screens[id].IsGroup()
    ensures var s1 := if st.callback && InGroup(st, id) then OnDisconnect(st, env, id) else st;
            var r := RemoveFromGroup(s1, id).0;
            && Inv(s1) && Evolves(st, s1) && id in s1.screens && !s1.screens[id].IsGroup()
            && s1.screens[id] == st.screens[id] && s1.groups == st.groups
            && Inv(r) && Evolves(st, r) && id in r.screens && r.screens[id].groupId == SCREEN_ID_INVALID
  {
    hide Inv, Evolves, RemoveFromGroup, OnDisconnect;
    var s1 := if st.callback && InGroup(st, id) then OnDisconnect(st, env, id) else st;
    EvolvesRefl(st);
    if st.callback && InGroup(st, id) {
      OnDisconnectInv(st, env, id);
    }
    hide Extends;
    RemoveFromGroupInv(s1, id);
    EvolvesTrans(st, s1, RemoveFromGroup(s1, id).0);
  }

  lemma TakeOutOneInv(st: State, env: Env, g: ScreenId, id: ScreenId, filter: bool)
    requires Inv(st) && Plain(st, [id])
    ensures Inv(TakeOutOne(st, env, g, id, filter)) && Evolves(st, TakeOutOne(st, env, g, id, filter))
  {
    assert id in [id];
    hide Inv, Evolves, RemoveFromGroup, OnDisconnect, Plain;
    EvolvesRefl(st);
    DropInv(st, env, id);
  }

  lemma {:induction false} TakeOutInv(st: State, env: Env, g: ScreenId, ids: seq<ScreenId>, at: seq<Point>, filter: bool)
    requires Inv(st) && Plain(st, ids) && |ids| == |at|
    ensures var (r, taken) := TakeOut(st, env, g, ids, at, filter);
            && Inv(r) && Evolves(st, r)
            && (forall i :: 0 <= i < |taken| ==> taken[i].id in ids)
    decreases |ids|
  {
    hide Inv, Evolves, TakeOutOne;
    EvolvesRefl(st);
    if ids != [] {
      var s1 := TakeOutOne(st, env, g, ids[0], filter);
      TakeOutOneInv(st, env, g, ids[0], filter);
      EvolvesPlain(st, s1, ids[1..]);
      TakeOutInv(s1, env, g, ids[1..], at[1..], filter);
      EvolvesTrans(st, s1, TakeOut(s1, env, g, ids[1..], at[1..], filter).0);
    }
  }

  lemma PutInOneInv(st: State, env: Env, g: ScreenId, t: Taken)
    requires Inv(st) && Plain(st, [t.id])
    ensures Inv(PutInOne(st, env, g, t).0) && Evolves(st, PutInOne(st, env, g, t).0)
    ensures g in st.groups ==> g in PutInOne(st, env, g, t).0.groups
  {
    assert t.id in [t.id];
    hide Inv, Evolves, Extends, AddChild, Touch, OnConnect, Plain;
    EvolvesRefl(st);
    if g in st.groups {
      var (s1, added) := AddChild(st, env, g, t.id, t.at);
      AddChildInv(st, env, g, t.id, t.at);
      var s2 := if t.wasChild || added then Touch(s1, env, t.id) else s1;
      TouchInv(s1, env, t.id);
      EvolvesRefl(s1);
      EvolvesTrans(st, s1, s2);
      var s3 := if s2.callback then OnConnect(s2, env, t.id) else s2;
      OnConnectInv(s2, env, t.id);
      EvolvesRefl(s2);
      EvolvesTrans(st, s2, s3);
    }
  }

  lemma {:induction false} PutInInv(st: State, env: Env, g: ScreenId, taken: seq<Taken>)
    requires Inv(st) && (forall i :: 0 <= i < |taken| ==> Plain(st, [taken[i].id]))
    ensures Inv(PutIn(st, env, g, taken).0) && Evolves(st, PutIn(st, env, g, taken).0)
    decreases |taken|
  {
    hide Inv, Evolves, PutInOne, Plain;
    EvolvesRefl(st);
    if taken != [] {
      var s1 := PutInOne(st, env, g, taken[0]).0;
      PutInOneInv(st, env, g, taken[0]);
      var rest := taken[1..];
      forall i | 0 <= i < |rest| ensures Plain(s1, [rest[i].id]) {
        assert rest[i] == taken[i + 1];
        EvolvesPlain(st, s1, [rest[i].id]);
      }
      PutInInv(s1, env, g, rest);
      EvolvesTrans(st, s1, PutIn(s1, env, g, rest).0);
    }
  }

  lemma CombineInv(st: State, g: ScreenId, combination: Combination)
    requires Inv(st) && g in st.groups
    ensures var r := st.(groups := st.groups[g := st.groups[g].(combination := combination)]);
            Inv(r) && Evolves(st, r)
  {
    hide Inv;
    var r := st.(groups := st.groups[g := st.groups[g].(combination := combination)]);
    ShapeInv(st, r);
    ShapeEvolves(st, r);
  }

  lemma PlainOne(st: State, ids: seq<ScreenId>, id: ScreenId)
    requires Plain(st, ids) && id in ids
    ensures Plain(st, [id])
  {
  }

  lemma ChangeScreenGroupInv(st: State, env: Env, g: ScreenId, ids: seq<ScreenId>, at: seq<Point>, filter: bool,
                             combination: Combination)
    requires Inv(st) && Plain(st, ids) && |ids| == |at|
    ensures var r := ChangeScreenGroup(st, env, g, ids, at, filter, combination).0;
            Inv(r) && Evolves(st, r)
  {
    hide TakeOut, PutIn, Inv, Plain, Evolves;
    var (s1, taken) := TakeOut(st, env, g, ids, at, filter);
    TakeOutInv(st, env, g, ids, at, filter);
    if g in s1.groups {
      var s2 := s1.(groups := s1.groups[g := s1.groups[g].(combination := combination)]);
      CombineInv(s1, g, combination);
      EvolvesTrans(st, s1, s2);
      EvolvesPlain(st, s2, ids);
      forall i | 0 <= i < |taken| ensures Plain(s2, [taken[i].id]) {
        PlainOne(s2, ids, taken[i].id);
      }
      PutInInv(s2, env, g, taken);
      EvolvesTrans(st, s2, PutIn(s2, env, g, taken).0);
    }
  }

  lemma MirrorGroupInv(st: State, env: Env, id: ScreenId)
    requires Inv(st) && id in st.screens && !st.screens[id].IsGroup()
    ensures var (r, g) := MirrorGroup(st, env, id);
            Inv(r) && Evolves(st, r)
  {
    hide Inv, Evolves, Extends, AddToGroup, Touch, OnConnect;
    EvolvesRefl(st);
    if st.screens[id].groupId !in st.groups {
      var (s1, g) := AddToGroup(st, env, id);
      AddToGroupInv(st, env, id);
      var s2 := Touch(s1, env, id);
      TouchInv(s1, env, id);
      EvolvesTrans(st, s1, s2);
      if g != SCREEN_ID_INVALID && s2.callback {
        OnConnectInv(s2, env, id);
        EvolvesTrans(st, s2, OnConnect(s2, env, id));
      }
    }
  }

  lemma MakeMirrorInv(st: State, env: Env, id: ScreenId, ids: seq<ScreenId>)
    requires Inv(st) && Plain(st, ids)
    ensures Inv(MakeMirror(st, env, id, ids).0) && Evolves(st, MakeMirror(st, env, id, ids).0)
  {
    hide Inv, Evolves, MirrorGroup, ChangeScreenGroup, Plain;
    EvolvesRefl(st);
    if id in st.screens && st.screens[id].kind.REAL? {
      var (s1, g) := MirrorGroup(st, env, id);
      MirrorGroupInv(st, env, id);
      if g in s1.groups {
        var filter := s1.groups[g].combination.SCREEN_MIRROR? && s1.groups[g].mirrorId == id;
        var s2 := s1.(groups := s1.groups[g := s1.groups[g].(mirrorId := id)]);
        assert SameShape(s1, s2);
        ShapeInv(s1, s2);
        ShapeEvolves(s1, s2);
        EvolvesTrans(st, s1, s2);
        EvolvesPlain(st, s2, ids);
        ChangeScreenGroupInv(s2, env, g, ids, Origins(|ids|), filter, SCREEN_MIRROR);
        EvolvesTrans(st, s2, ChangeScreenGroup(s2, env, g, ids, Origins(|ids|), filter, SCREEN_MIRROR).0);
      }
    }
  }

  lemma MakeExpandInv(st: State, env: Env, ids: seq<ScreenId>, at: seq<Point>)
    requires Inv(st) && Plain(st, ids) && |ids| == |at|
    ensures Inv(MakeExpand(st, env, ids, at).0) && Evolves(st, MakeExpand(st, env, ids, at).0)
  {
    hide Inv, Evolves, Extends, GetDefault, ChangeScreenGroup, Plain;
    var (s1, d) := GetDefault(st, env);
    LookupInv(st, env);
    if d in s1.screens && s1.screens[d].groupId in s1.groups {
      var g := s1.screens[d].groupId;
      var filter := s1.groups[g].combination.SCREEN_EXPAND?;
      EvolvesPlain(st, s1, ids);
      ChangeScreenGroupInv(s1, env, g, ids, at, filter, SCREEN_EXPAND);
      EvolvesTrans(st, s1, ChangeScreenGroup(s1, env, g, ids, at, filter, SCREEN_EXPAND).0);
    }
  }

  lemma StopOneInv(st: State, env: Env, id: ScreenId, combination: Combination)
    requires Inv(st) && Plain(st, [id])
    ensures Inv(StopOne(st, env, id, combination)) && Evolves(st, StopOne(st, env, id, combination))
  {
    assert id in [id];
    assert ScreenOk(st, id);
    hide Inv, Evolves, RemoveFromGroup, OnDisconnect, Plain, ScreenOk;
    EvolvesRefl(st);
    DropInv(st, env, id);
    var r := StopOne(st, env, id, combination);
    if r != st {
      StopOneIsRemoval(st, env, id, combination);
    }
  }

  lemma StopOneIsRemoval(st: State, env: Env, id: ScreenId, combination: Combination)
    requires Inv(st) && Plain(st, [id])
    requires StopOne(st, env, id, combination) != st
    ensures id in st.screens
    ensures var s1 := if st.callback && InGroup(st, id) then OnDisconnect(st, env, id) else st;
            id in s1.screens && StopOne(st, env, id, combination) == RemoveFromGroup(s1, id).0
  {
    assert id in [id];
    hide Inv, Evolves, OnDisconnect, Plain;
    DropInv(st, env, id);
    hide RemoveChild;
  }

  lemma {:induction false} StopScreensInv(st: State, env: Env, ids: seq<ScreenId>, combination: Combination)
    requires Inv(st) && Plain(st, ids)
    ensures Inv(StopScreens(st, env, ids, combination)) && Evolves(st, StopScreens(st, env, ids, combination))
    decreases |ids|
  {
    hide Inv, Evolves, StopOne;
    EvolvesRefl(st);
    if ids != [] {
      var s1 := StopOne(st, env, ids[0], combination);
      StopOneInv(st, env, ids[0], combination);
      EvolvesPlain(st, s1, ids[1..]);
      StopScreensInv(s1, env, ids[1..], combination);
      EvolvesTrans(st, s1, StopScreens(s1, env, ids[1..], combination));
    }
  }

  lemma {:induction false} RemoveVirtualInv(st: State, env: Env, ids: seq<ScreenId>)
    requires Inv(st)
    ensures Inv(RemoveVirtual(st, env, ids)) && Evolves(st, RemoveVirtual(st, env, ids))
    decreases |ids|
  {
    hide Inv, Evolves, OnDisconnect, RemoveFromGroup;
    EvolvesRefl(st);
    if ids != [] {
      var s1 := RemoveVirtualOne(st, env, ids[0]);
      if s1 != st {
        DropInv(st, env, ids[0]);
      }
      RemoveVirtualInv(s1, env, ids[1..]);
      EvolvesTrans(st, s1, RemoveVirtual(s1, env, ids[1..]));
    }
  }

  // ---------- Connecting and disconnecting ----------

  lemma ReconnectInv(st: State, env: Env, rs: ScreenId)
    requires Inv(st)
    ensures Inv(Reconnect(st, env, rs)) && Evolves(st, Reconnect(st, env, rs))
  {
    EvolvesRefl(st);
    if rs in st.ids.rs2Dms && st.ids.rs2Dms[rs] in st.screens {
      var d := st.ids.rs2Dms[rs];
      assert ScreenOk(st, d);
      hide Inv, Evolves, AddChild;
      if st.screens[d].lastGroupId in st.groups {
        AddChildInv(st, env, st.screens[d].lastGroupId, d, ORIGIN);
      }
    }
  }

  lemma ConnectInv(st: State, env: Env, rs: ScreenId)
    requires Inv(st) && rs != SCREEN_ID_INVALID
    ensures Inv(Connect(st, env, rs)) && Evolves(st, Connect(st, env, rs))
  {
    hide Inv, Evolves, Reconnect, InitScreen, AddToGroup, BuiltIn, Touch, OnConnect;
    if rs in st.ids.rs2Dms {
      ReconnectInv(st, env, rs);
    } else {
      var (s1, d) := InitScreen(st, env, rs);
      InitScreenInv(st, env, rs);
      ExtendsKeeps(st, s1);
      KeepsEvolves(st, s1);
      hide Extends, Keeps;
      if d != SCREEN_ID_INVALID {
        var (s2, g) := AddToGroup(s1, env, d);
        AddToGroupInv(s1, env, d);
        EvolvesTrans(st, s1, s2);
        var s3 := BuiltIn(s2, env, rs, d);
        BuiltInShape(s2, env, rs, d);
        RedrawsInv(s2, s3, d);
        RedrawsEvolves(s2, s3, d);
        EvolvesTrans(st, s2, s3);
        var s4 := Touch(s3, env, d);
        TouchInv(s3, env, d);
        EvolvesTrans(st, s3, s4);
        if g != SCREEN_ID_INVALID && s4.callback {
          OnConnectInv(s4, env, d);
          EvolvesTrans(st, s4, OnConnect(s4, env, d));
        }
      }
    }
  }

  lemma RedrawsEvolves(a: State, b: State, id: ScreenId)
    requires Redraws(a, b, id)
    ensures Evolves(a, b)
  {
    ShapeEvolves(a, b);
  }

  /** A screen outside every group is forgotten; its id still has to be deleted. */
  lemma EraseScreenInv(st: State, d: ScreenId)
    requires Inv(st) && d in st.screens && !st.screens[d].IsGroup() && st.screens[d].groupId == SCREEN_ID_INVALID
    ensures Inv(st.(screens := st.screens - {d}))
  {
    var r := st.(screens := st.screens - {d});
    assert ScreenOk(st, d);
    forall e | e in r.screens ensures ScreenOk(r, e) { assert ScreenOk(st, e); }
    forall g | g in r.groups ensures GroupOk(r, g) { assert GroupOk(st, g); }
  }

  /** Ids are deleted when no ordinary screen uses them any more. */
  lemma DeleteIdInv(st: State, d: ScreenId)
    requires Inv(st) && (d in st.screens ==> st.screens[d].IsGroup())
    ensures Inv(st.(ids := DeleteId(st.ids, d)))
    ensures forall e :: Unmatched(st.(ids := DeleteId(st.ids, d)), e) ==> Unmatched(st, e) && e != d
  {
    var r := st.(ids := DeleteId(st.ids, d));
    assert d in st.screens ==> ScreenOk(st, d);
    forall e | e in r.screens ensures ScreenOk(r, e) {
      assert ScreenOk(st, e);
    }
    forall g | g in r.groups ensures GroupOk(r, g) {
      assert GroupOk(st, g);
    }
  }

  lemma RemirrorInv(st: State, env: Env, g: ScreenId, gone: ScreenId)
    requires Inv(st)
    ensures Inv(Remirror(st, env, g, gone)) && Evolves(st, Remirror(st, env, g, gone))
  {
    EvolvesRefl(st);
    hide Inv, Evolves, GetDefault, MakeMirror;
    if g in st.groups {
      var (s1, d) := GetDefault(st, env);
      LookupInv(st, env);
      assert g in s1.groups;
      hide Extends;
      var ids := Without(Ascending(s1.groups[g].children), d);
      assert Plain(s1, ids) by { ChildrenPlain(s1, g, d); }
      MakeMirrorInv(s1, env, d, ids);
      EvolvesTrans(st, s1, MakeMirror(s1, env, d, ids).0);
    }
  }

  lemma {:induction false} WithoutIn(ids: seq<ScreenId>, d: ScreenId)
    ensures forall id :: id in Without(ids, d) <==> id in ids && id != d
  {
    if ids != [] { WithoutIn(ids[1..], d); }
  }

  lemma ChildrenPlain(st: State, g: ScreenId, d: ScreenId)
    requires Inv(st) && g in st.groups
    ensures Plain(st, Without(Ascending(st.groups[g].children), d))
  {
    assert GroupOk(st, g);
    WithoutIn(Ascending(st.groups[g].children), d);
  }

  /** Disconnecting a screen deletes its id and the screen, and leaves nothing new unmatched. */
  lemma DisconnectInv(st: State, env: Env, rs: ScreenId)
    requires Inv(st)
    ensures Inv(Disconnect(st, env, rs)) && NoNewUnmatched(st, Disconnect(st, env, rs))
  {
    if rs in st.ids.rs2Dms {
      var d := st.ids.rs2Dms[rs];
      if d !in st.screens {
        hide Inv;
        DeleteIdInv(st, d);
      } else if st.callback && InGroup(st, d) && rs == st.defaultRs {
        hide Inv;
        ShapeInv(st, Disconnect(st, env, rs));
      } else {
        assert ScreenOk(st, d);
        hide Inv;
        DisconnectPlain(st, env, rs);
      }
    }
  }

  lemma InvScreen(st: State, d: ScreenId)
    requires Inv(st) && d in st.screens
    ensures ScreenOk(st, d)
  {
  }

  /** An id handed out earlier that has no screen never gets one again. */
  lemma StaysGone(a: State, b: State, d: ScreenId)
    requires Evolves(a, b) && d < a.ids.count
    ensures d < b.ids.count && (d !in a.screens ==> d !in b.screens)
  {
  }

  lemma ErasedUnmatched(st: State, d: ScreenId, e: ScreenId)
    requires Unmatched(st.(screens := st.screens - {d}), e) && e != d
    ensures Unmatched(st, e)
  {
  }

  lemma DisconnectPlain(st: State, env: Env, rs: ScreenId)
    requires Inv(st) && rs in st.ids.rs2Dms && st.ids.rs2Dms[rs] in st.screens
    requires !st.screens[st.ids.rs2Dms[rs]].IsGroup()
    requires var d := st.ids.rs2Dms[rs]; !(st.callback && InGroup(st, d) && rs == st.defaultRs)
    ensures Inv(Disconnect(st, env, rs)) && NoNewUnmatched(st, Disconnect(st, env, rs))
  {
    hide Inv, Evolves, OnDisconnect, RemoveFromGroup, Remirror, Unmatched;
    var d := st.ids.rs2Dms[rs];
    var s1 := if st.callback && InGroup(st, d) then OnDisconnect(st, env, d) else st;
    DropInv(st, env, d);
    var (s2, g) := RemoveFromGroup(s1, d);
    EvolvesUnmatched(st, s2);
    EvolvesPlain(st, s2, [d]);
    EraseScreenInv(s2, d);
    var s3 := s2.(screens := s2.screens - {d});
    var s4 := Remirror(s3, env, g, d);
    RemirrorInv(s3, env, g, d);
    EvolvesUnmatched(s3, s4);
    assert ScreenOk(st, d) by { InvScreen(st, d); }
    StaysGone(st, s2, d);
    StaysGone(s3, s4, d);
    DeleteIdInv(s4, d);
    forall e | Unmatched(Disconnect(st, env, rs), e) ensures Unmatched(st, e) {
      assert Unmatched(s4, e) && e != d;
      assert Unmatched(s3, e);
      ErasedUnmatched(s2, d, e);
    }
  }

  // ---------- What disconnecting leaves alone ----------

  /** b is a later state from which exactly the given ids and their screens may have gone. */
  ghost predicate Loses(a: State, b: State, gone: set<ScreenId>) {
    && b.callback == a.callback
    && (a.defaultRs != SCREEN_ID_INVALID ==> b.defaultRs == a.defaultRs)
    && a.ids.count <= b.ids.count
    && (forall d :: d in a.ids.dms2Rs && d !in gone ==> d in b.ids.dms2Rs && b.ids.dms2Rs[d] == a.ids.dms2Rs[d])
    && (forall d :: d in b.ids.dms2Rs && d !in a.ids.dms2Rs ==> a.ids.count <= d)
    && (forall d :: d in a.screens && !a.screens[d].IsGroup() && d !in gone ==> d in b.screens)
    && (forall d :: d in a.screens && d in b.screens ==>
          && b.screens[d].kind == a.screens[d].kind && b.screens[d].rsId == a.screens[d].rsId
          && b.screens[d].mode == a.screens[d].mode)
    && (forall d :: d in b.screens && d !in a.screens ==> a.ids.count <= d && !b.screens[d].kind.VIRTUAL?)
    && (forall d :: d in gone && d < a.ids.count ==> d !in b.ids.dms2Rs && d !in b.screens)
  }

  lemma LosesTrans(a: State, b: State, c: State, g1: set<ScreenId>, g2: set<ScreenId>)
    requires Inv(a) && Loses(a, b, g1) && Loses(b, c, g2)
    requires forall d :: d in g1 ==> d < a.ids.count
    ensures Loses(a, c, g1 + g2)
  {
    forall d | d in a.screens && d in c.screens
      ensures c.screens[d].kind == a.screens[d].kind && c.screens[d].rsId == a.screens[d].rsId
      ensures c.screens[d].mode == a.screens[d].mode
    {
      assert ScreenOk(a, d);
    }
  }

  lemma DisconnectLoses(st: State, env: Env, rs: ScreenId)
    requires Inv(st) && rs in st.ids.rs2Dms
    requires var d := st.ids.rs2Dms[rs];
             d !in st.screens || !(st.callback && InGroup(st, d) && rs == st.defaultRs)
    ensures Disconnect(st, env, rs).agents == st.agents
    ensures Loses(st, Disconnect(st, env, rs), {st.ids.rs2Dms[rs]})
  {
    var d := st.ids.rs2Dms[rs];
    if d in st.screens {
      assert ScreenOk(st, d);
      assert !st.screens[d].IsGroup();
      hide Inv, Evolves, OnDisconnect, RemoveFromGroup, Remirror, Loses;
      var s1 := if st.callback && InGroup(st, d) then OnDisconnect(st, env, d) else st;
      DropInv(st, env, d);
      var (s2, g) := RemoveFromGroup(s1, d);
      EvolvesPlain(st, s2, [d]);
      EraseScreenInv(s2, d);
      var s3 := s2.(screens := s2.screens - {d});
      RemirrorInv(s3, env, g, d);
      LosesScreen(st, s2, Remirror(s3, env, g, d), d);
    }
  }

  lemma LosesScreen(a: State, mid: State, late: State, d: ScreenId)
    requires Inv(a) && d < a.ids.count && d in a.screens && !a.screens[d].IsGroup()
    requires Evolves(a, mid) && Evolves(mid.(screens := mid.screens - {d}), late)
    ensures late.agents == a.agents && Loses(a, late.(ids := DeleteId(late.ids, d)), {d})
  {
    forall e | e in a.screens && e in late.screens
      ensures late.screens[e].kind == a.screens[e].kind && late.screens[e].rsId == a.screens[e].rsId
      ensures late.screens[e].mode == a.screens[e].mode
    {
      assert ScreenOk(a, e);
    }
  }
}

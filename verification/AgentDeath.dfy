/** The death of an agent, whether the server knows its default screen by then or not: when the loop of
    OnRemoteDied ends, and what it does to the displays. */
module AgentDeath {
  import opened DmTypes
  import opened ScreenState
  import opened ScreenInvariant
  import opened AgentOwnership
  import opened ScreenRuns
  import opened GroupChanges
  import opened ExpandDisplays
  import opened DisplaySharing
  import opened SharingSteps
  import opened SharingOps
  import DefaultScreen

  // ---------- When the loop ends ----------

  /** Destroying the i-th of these screens looks up the default: the disconnect callback does in a mirror
      group, and in an expand group for a screen with a display; and so does replacing the source of a mirror
      group that is not left empty. */
  ghost predicate Asks(st: State, ids: seq<ScreenId>, i: nat)
    requires i < |ids|
  {
    var x := ids[i];
    && x in st.screens && InGroup(st, x)
    && var grp := st.groups[st.screens[x].groupId];
       || (st.callback && (grp.combination.SCREEN_MIRROR? || !NoDisplay(st, x)))
       || (grp.combination.SCREEN_MIRROR? && grp.mirrorId == x && exists c :: c in grp.children && c !in ids[..i + 1])
  }

  /** The default rs id as the server knows it when the loop comes to the i-th screen: an unknown one is
      learned by the first lookup, unless the screen that is just being destroyed turns out to carry it. */
  ghost function DefaultAt(st: State, env: Env, ids: seq<ScreenId>, i: nat): ScreenId
    requires i <= |ids|
  {
    if st.defaultRs != SCREEN_ID_INVALID then st.defaultRs
    else if exists j :: 0 <= j < i && Asks(st, ids, j) && RsOf(st.ids, ids[j]) != env.defaultRs then env.defaultRs
    else SCREEN_ID_INVALID
  }

  /** No listed id is refused when its turn comes. */
  ghost predicate DeathEnds(st: State, env: Env, a: AgentId) {
    var ids := AgentList(st, a);
    forall i :: 0 <= i < |ids| ==> RsOf(st.ids, ids[i]) != DefaultAt(st, env, ids, i)
  }

  ghost predicate AsksNow(st: State, x: ScreenId) {
    && x in st.screens && InGroup(st, x)
    && var grp := st.groups[st.screens[x].groupId];
       || (st.callback && (grp.combination.SCREEN_MIRROR? || !NoDisplay(st, x)))
       || (grp.combination.SCREEN_MIRROR? && grp.mirrorId == x && grp.children != {x})
  }

  /** x is gone, and nothing else about groups, screens and who has a display. */
  ghost predicate Dropped(a: State, b: State, x: ScreenId) {
    && b.callback == a.callback && x !in b.screens
    && (forall g :: g in b.groups ==>
          g in a.groups && b.groups[g] == a.groups[g].(children := a.groups[g].children - {x}))
    && (forall g, c :: g in a.groups && c in a.groups[g].children && c != x ==> g in b.groups)
    && (forall y :: y in a.screens && !a.screens[y].IsGroup() && y != x ==> y in b.screens && b.screens[y] == a.screens[y])
    && (forall y :: y in b.screens && y !in a.screens ==> !b.screens[y].kind.VIRTUAL?)
    && (forall y :: y != x ==> (NoDisplay(b, y) <==> NoDisplay(a, y)))
  }

  lemma CallbackLearns(st: State, env: Env, x: ScreenId)
    requires Inv(st) && Numbered(st) && st.defaultRs == SCREEN_ID_INVALID && x in st.screens && InGroup(st, x)
    ensures OnDisconnect(st, env, x).defaultRs ==
              if st.groups[st.screens[x].groupId].combination.SCREEN_MIRROR? || !NoDisplay(st, x) then env.defaultRs
              else SCREEN_ID_INVALID
  {
    var zeroed := st.(displays := ZeroOthers(st.displays, x));
    LookupLearns(st, env);
    LookupLearns(zeroed, env);
    LastFinds(st.displays, x, st.displayCount);
    hide Inv, GetDefault, FirstDisplay, LastDisplay, ZeroOthers;
  }

  lemma LookupLearns(st: State, env: Env)
    ensures GetDefault(st, env).0.defaultRs == Learn(st, env).defaultRs
  {
    if !Settled(st, env) { LookupRs(st, env); }
    hide ConnectDefault;
  }

  /** Without a default to take them over, only the display of x can go. */
  lemma UnknownUnhooks(st: State, env: Env, x: ScreenId)
    requires Inv(st) && Numbered(st) && x in st.screens && InGroup(st, x)
    requires st.groups[st.screens[x].groupId].combination.SCREEN_MIRROR? ==>
               KnownDefault(st, env) == x || !DefaultHoused(st, env)
    ensures forall y :: y != x ==> (NoDisplay(OnDisconnect(st, env, x), y) <==> NoDisplay(st, y))
  {
    hide Inv, Evolves, Extends, KnownDefault, OnDisconnect;
    var r := OnDisconnect(st, env, x);
    if st.groups[st.screens[x].groupId].combination.SCREEN_MIRROR? {
      UnknownRebinds(st, env, x);
    } else {
      ExpandErases(st, env, x);
    }
    forall y | y != x ensures NoDisplay(r, y) <==> NoDisplay(st, y) {
      if j :| j in st.displays && st.displays[j].screenId == y {
        assert r.displays[j].screenId == y;
      }
    }
  }

  lemma UnknownRebinds(st: State, env: Env, x: ScreenId)
    requires Inv(st) && x in st.screens && InGroup(st, x)
    requires st.groups[st.screens[x].groupId].combination.SCREEN_MIRROR?
    requires KnownDefault(st, env) == x || !DefaultHoused(st, env)
    ensures var r := OnDisconnect(st, env, x);
            && (forall k :: k in r.displays <==> k in st.displays)
            && (forall k :: k in r.displays ==> r.displays[k].screenId == st.displays[k].screenId)
  {
    hide Inv, Evolves, Extends, KnownDefault, GetDefault, FirstDisplay;
    LookupInv(st, env);
    ExtendsAt(st, GetDefault(st, env).0, x);
    HousedKnown(st, env);
  }

  lemma LeaveLearns(st: State, env: Env, x: ScreenId)
    requires Inv(st) && Numbered(st) && st.defaultRs == SCREEN_ID_INVALID && x in st.screens && !st.screens[x].IsGroup()
    ensures Leave(st, env, x).defaultRs ==
              if (st.callback && InGroup(st, x)
                  && (st.groups[st.screens[x].groupId].combination.SCREEN_MIRROR? || !NoDisplay(st, x)))
              then env.defaultRs else SCREEN_ID_INVALID
  {
    hide Inv, Evolves, Leave, LeftBy, OnDisconnect, NoDisplay;
    LeaveShape(st, env, x);
    if st.callback && InGroup(st, x) { CallbackLearns(st, env, x); }
  }

  lemma LeaveDrops(st: State, env: Env, x: ScreenId)
    requires Inv(st) && Numbered(st) && x in st.screens && !st.screens[x].IsGroup()
    requires st.callback && InGroup(st, x) && st.groups[st.screens[x].groupId].combination.SCREEN_MIRROR? ==>
               KnownDefault(st, env) == x || !DefaultHoused(st, env)
    ensures var r := Leave(st, env, x); Dropped(st, r.(screens := r.screens - {x}), x)
  {
    hide Inv, Leave, OnDisconnect, KnownDefault, DefaultHoused;
    var r := Leave(st, env, x);
    LeaveShape(st, env, x);
    var s1 := if st.callback && InGroup(st, x) then OnDisconnect(st, env, x) else st;
    if st.callback && InGroup(st, x) { UnknownUnhooks(st, env, x); }
    forall y | y != x ensures NoDisplay(r.(screens := r.screens - {x}), y) <==> NoDisplay(st, y) {
      assert NoDisplay(r, y) <==> NoDisplay(s1, y);
    }
    hide NoDisplay;
  }

  /** The default is unknown and stays so, or is the screen that goes. */
  lemma NobodyHoused(st: State, env: Env, rs: ScreenId, x: ScreenId)
    requires Inv(st) && st.defaultRs == SCREEN_ID_INVALID && rs in st.ids.rs2Dms && st.ids.rs2Dms[rs] == x
    requires env.defaultRs == SCREEN_ID_INVALID || env.defaultRs == rs
    ensures KnownDefault(st, env) == x || !DefaultHoused(st, env)
  {
    NoInvalid(st);
  }

  /** Whether the disconnecting of x goes on to replace the source of its group. */
  ghost predicate Replaces(st: State, x: ScreenId)
    requires x in st.screens
  {
    && InGroup(st, x)
    && var grp := st.groups[st.screens[x].groupId];
       grp.combination.SCREEN_MIRROR? && grp.mirrorId == x && grp.children != {x}
  }

  lemma RemirrorRuns(st: State, env: Env, x: ScreenId, s3: State, g: ScreenId)
    requires Inv(st) && x in st.screens && !st.screens[x].IsGroup() && LeftBy(st, Leave(st, env, x), x)
    requires s3 == Leave(st, env, x).(screens := Leave(st, env, x).screens - {x})
    requires g == if InGroup(st, x) then st.screens[x].groupId else SCREEN_ID_INVALID
    ensures Replaces(st, x) <==>
              g in s3.groups && s3.groups[g].combination.SCREEN_MIRROR? && s3.groups[g].mirrorId == x
  {
    hide Leave, Inv;
    NoInvalidGroup(st);
    if InGroup(st, x) && st.groups[g].children != {x} {
      var c := SecondChild(st.groups[g].children, x);
      assert c in st.groups[g].children;
    }
    if InGroup(st, x) && g in s3.groups {
      assert s3.groups[g].children == st.groups[g].children - {x};
      GroupKept(st, env, x, g);
    }
  }

  lemma SecondChild(s: set<ScreenId>, x: ScreenId) returns (c: ScreenId)
    requires x in s && s != {x}
    ensures c in s && c != x
  {
    assert s == (s - {x}) + {x};
    c := Pick(s - {x});
  }

  /** A group that outlives the leaving of x has other children. */
  lemma GroupKept(st: State, env: Env, x: ScreenId, g: ScreenId)
    requires Inv(st) && x in st.screens && !st.screens[x].IsGroup() && g in Leave(st, env, x).groups
    requires g in st.groups && Leave(st, env, x).groups[g].children == st.groups[g].children - {x}
    ensures st.groups[g].children != {x}
  {
    hide Evolves, Leave, LeftBy;
    LeaveShape(st, env, x);
    assert GroupOk(Leave(st, env, x), g);
  }

  lemma RemirrorLearns(st: State, env: Env, g: ScreenId, gone: ScreenId)
    requires Inv(st) && gone !in st.screens
    requires st.defaultRs == SCREEN_ID_INVALID || st.defaultRs == env.defaultRs
    ensures var r := Remirror(st, env, g, gone);
            var runs := g in st.groups && st.groups[g].combination.SCREEN_MIRROR? && st.groups[g].mirrorId == gone;
            && r.defaultRs == (if runs then env.defaultRs else st.defaultRs)
            && (!runs ==> r == st)
            && (KnownDefault(st, env) !in st.screens && Settled(st, env) && runs ==> r == Learn(st, env))
  {
    hide Inv, Evolves, Extends, GetDefault, MakeMirror, Plain;
    if g in st.groups && st.groups[g].combination.SCREEN_MIRROR? && st.groups[g].mirrorId == gone {
      var (s1, d) := GetDefault(st, env);
      LookupInv(st, env);
      LookupLearns(st, env);
      LookupSame(st, env);
      ChildrenPlain(s1, g, d);
      var ids := Without(Ascending(s1.groups[g].children), d);
      MakeMirrorInv(s1, env, d, ids);
      if s1.defaultRs != SCREEN_ID_INVALID { EvolvesDefault(s1, MakeMirror(s1, env, d, ids).0); }
      SettledLookup(st, env);
      NoInvalid(st);
      NoMirror(s1, env, d, ids);
    }
  }

  lemma NoMirror(st: State, env: Env, d: ScreenId, ids: seq<ScreenId>)
    ensures d !in st.screens ==> MakeMirror(st, env, d, ids).0 == st
    ensures st.defaultRs == SCREEN_ID_INVALID && d == SCREEN_ID_INVALID && SCREEN_ID_INVALID !in st.screens ==>
              MakeMirror(st, env, d, ids).0.defaultRs == SCREEN_ID_INVALID
  {
  }

  lemma SettledLookup(st: State, env: Env)
    requires Inv(st)
    ensures Settled(st, env) ==> GetDefault(st, env) == (Learn(st, env), KnownDefault(st, env))
    ensures Learn(st, env).defaultRs == SCREEN_ID_INVALID ==> GetDefault(st, env).1 == SCREEN_ID_INVALID
  {
    hide ConnectDefault;
  }

  lemma DroppedSame(a: State, b: State, c: State, x: ScreenId)
    requires Dropped(a, b, x) && c.screens == b.screens && c.groups == b.groups && c.displays == b.displays
    requires c.callback == b.callback
    ensures Dropped(a, c, x)
  {
    assert forall y :: NoDisplay(c, y) <==> NoDisplay(b, y);
    hide NoDisplay;
  }

  /** Disconnecting with an unknown default: what is learned, and that otherwise x just goes. */
  lemma UnknownDisconnect(st: State, env: Env, rs: ScreenId, x: ScreenId)
    requires Inv(st) && Numbered(st) && st.defaultRs == SCREEN_ID_INVALID && rs != SCREEN_ID_INVALID
    requires rs in st.ids.rs2Dms && st.ids.rs2Dms[rs] == x && x in st.screens
    ensures var r := Disconnect(st, env, rs);
            && r.defaultRs == (if AsksNow(st, x) then env.defaultRs else SCREEN_ID_INVALID)
            && (!AsksNow(st, x) || env.defaultRs == SCREEN_ID_INVALID || env.defaultRs == rs ==> Dropped(st, r, x))
  {
    hide Inv, Evolves, OnDisconnect, RemoveFromGroup, Remirror, LeftBy, KnownDefault, Dropped, DefaultHoused;
    MappedPlain(st, rs);
    var s1 := if st.callback && InGroup(st, x) then OnDisconnect(st, env, x) else st;
    DropInv(st, env, x);
    var (s2, g) := RemoveFromGroup(s1, x);
    var s3 := s2.(screens := s2.screens - {x});
    assert s2 == Leave(st, env, x);
    hide Leave;
    LeaveShape(st, env, x);
    LeftCallback(st, s2, x);
    RemovedGroup(s1, x);
    LeftOrdinary(st, s2, x);
    EraseScreenInv(s2, x);
    LeaveLearns(st, env, x);
    RemirrorRuns(st, env, x, s3, g);
    NoInvalidGroup(s3);
    RemirrorLearns(s3, env, g, x);
    var t := Remirror(s3, env, g, x);
    if !AsksNow(st, x) || env.defaultRs == SCREEN_ID_INVALID || env.defaultRs == rs {
      if env.defaultRs == SCREEN_ID_INVALID || env.defaultRs == rs { NobodyHoused(st, env, rs, x); }
      LeaveDrops(st, env, x);
      if AsksNow(st, x) { StillMapped(st, s2, env, rs, x); }
      DroppedSame(st, s3, t, x);
      DroppedSame(st, t, Disconnect(st, env, rs), x);
    }
  }

  lemma LeftOrdinary(a: State, b: State, x: ScreenId)
    requires LeftBy(a, b, x)
    ensures x in b.screens && !b.screens[x].IsGroup() && b.screens[x].groupId == SCREEN_ID_INVALID
  {
  }

  lemma StillMapped(st: State, s2: State, env: Env, rs: ScreenId, x: ScreenId)
    requires Inv(st) && Inv(s2) && Evolves(st, s2) && rs in st.ids.rs2Dms && st.ids.rs2Dms[rs] == x
    requires env.defaultRs == SCREEN_ID_INVALID || env.defaultRs == rs
    requires s2.defaultRs == SCREEN_ID_INVALID || s2.defaultRs == env.defaultRs
    ensures var s3 := s2.(screens := s2.screens - {x}); KnownDefault(s3, env) !in s3.screens && Settled(s3, env)
  {
    NoInvalid(s2);
  }

  lemma UnknownDestroy(st: State, env: Env, a: AgentId, x: ScreenId)
    requires Inv(st) && AgentsOk(st) && Numbered(st) && st.defaultRs == SCREEN_ID_INVALID
    requires x in AgentList(st, a) && RsOf(st.ids, x) != SCREEN_ID_INVALID
    ensures var r := DestroyVirtual(st, env, x).0;
            && r.defaultRs == (if AsksNow(st, x) && env.defaultRs != RsOf(st.ids, x) then env.defaultRs else SCREEN_ID_INVALID)
            && (r.defaultRs == SCREEN_ID_INVALID ==> Dropped(st, r, x))
  {
    hide Inv, AgentsOk, Disconnect, Disown, Dropped, AsksNow;
    var rs := RsOf(st.ids, x);
    var s1 := st.(agents := Disown(st.agents, x));
    AgentsInv(st, s1.agents);
    SameNumbered(st, s1);
    ListedScreen(st, a, x);
    SameAsks(st, s1, x);
    if x in st.screens {
      UnknownDisconnect(s1, env, rs, x);
      DroppedFrom(st, s1, Disconnect(s1, env, rs), DestroyVirtual(st, env, x).0, x);
    } else {
      AbsentDrops(st, DestroyVirtual(st, env, x).0, x);
    }
  }

  lemma SameAsks(a: State, b: State, x: ScreenId)
    requires b == a.(agents := b.agents)
    ensures AsksNow(b, x) <==> AsksNow(a, x)
    ensures x !in a.screens ==> !AsksNow(a, x)
  {
    assert NoDisplay(b, x) <==> NoDisplay(a, x);
    hide NoDisplay;
  }

  lemma DroppedFrom(a: State, a1: State, b: State, c: State, x: ScreenId)
    requires a1 == a.(agents := a1.agents)
    requires c.screens == b.screens && c.groups == b.groups && c.displays == b.displays && c.callback == b.callback
    ensures Dropped(a1, b, x) ==> Dropped(a, c, x)
  {
    assert forall y :: NoDisplay(c, y) <==> NoDisplay(b, y);
    assert forall y :: NoDisplay(a1, y) <==> NoDisplay(a, y);
    hide NoDisplay;
  }

  lemma AbsentDrops(a: State, b: State, x: ScreenId)
    requires Inv(a) && x !in a.screens
    requires b.screens == a.screens && b.groups == a.groups && b.displays == a.displays && b.callback == a.callback
    ensures Dropped(a, b, x)
  {
    forall g | g in a.groups ensures a.groups[g].children == a.groups[g].children - {x} {
      assert GroupOk(a, g);
    }
    assert forall y :: NoDisplay(b, y) <==> NoDisplay(a, y);
    hide NoDisplay, Inv;
  }

  /** After x has just gone, the rest of the list asks as before. */
  lemma AsksAfter(st: State, s1: State, a: AgentId, j: nat)
    requires Inv(st) && AgentsOk(st) && AgentsOk(s1) && AgentList(st, a) != []
    requires AgentList(s1, a) == AgentList(st, a)[1..] && j < |AgentList(s1, a)|
    requires Dropped(st, s1, AgentList(st, a)[0])
    ensures Asks(s1, AgentList(s1, a), j) <==> Asks(st, AgentList(st, a), j + 1)
  {
    hide Inv, NoDisplay;
    var ids, rest := AgentList(st, a), AgentList(s1, a);
    var x, y := ids[0], rest[j];
    assert st.agents[a][0] != st.agents[a][j + 1];
    assert y == ids[j + 1] && y != x;
    assert y in st.screens ==> st.screens[y].kind.VIRTUAL?;
    assert y in s1.screens ==> s1.screens[y].kind.VIRTUAL?;
    hide AgentsOk;
    assert ids[..j + 2] == [x] + rest[..j + 1];
    if y in st.screens {
      assert y in s1.screens && s1.screens[y] == st.screens[y] && InGroup(s1, y) == InGroup(st, y);
      if InGroup(st, y) {
        var here, there := s1.groups[st.screens[y].groupId].children, st.groups[st.screens[y].groupId].children;
        assert forall c :: c in here && c !in rest[..j + 1] <==> c in there && c !in ids[..j + 2];
      }
    }
  }

  /** OnRemoteDied ends exactly when no listed id is refused when its turn comes; then the agent has no entry,
      every listed id is unmapped and without a screen, and every other agent, id and screen is as it was. */
  lemma {:induction false} OnRemoteDiedEnds(st: State, env: Env, a: AgentId)
    requires Inv(st) && AgentsOk(st) && Numbered(st)
    ensures OnRemoteDied(st, env, a).Some? <==> DeathEnds(st, env, a)
    ensures OnRemoteDied(st, env, a).Some? ==>
              var r := OnRemoteDied(st, env, a).value;
              && a !in r.agents
              && (forall b :: b != a ==> AgentList(r, b) == AgentList(st, b))
              && (forall id :: id in AgentList(st, a) ==> id !in r.ids.dms2Rs && id !in r.screens)
              && Loses(st, r, Listed(AgentList(st, a)))
    decreases |AgentList(st, a)|
  {
    hide Inv, AgentsOk, DestroyVirtual, Disown, Loses, Numbered, Asks, AsksNow, Dropped;
    if OnRemoteDied(st, env, a).Some? { DeathEffect(st, env, a); }
    var ids := AgentList(st, a);
    if st.defaultRs != SCREEN_ID_INVALID {
      KnownDeathEnds(st, env, a);
      KnownEnds(st, env, a);
    } else if ids != [] {
      if Refuses(st, ids[0]) {
        RefusedSpins(st, env, a);
        assert RsOf(st.ids, ids[0]) == DefaultAt(st, env, ids, 0);
      } else {
        var s1 := DestroyVirtual(st, env, ids[0]).0;
        DestroyHead(st, env, a);
        assert ids[0] in ids;
        UnknownDestroy(st, env, a, ids[0]);
        DestroyShares(st, env, ids[0]);
        if s1.defaultRs != SCREEN_ID_INVALID {
          KnownDeathEnds(s1, env, a);
          LearnedEnds(st, s1, env, a);
        } else {
          OnRemoteDiedEnds(s1, env, a);
          DroppedEnds(st, s1, env, a);
        }
      }
    }
  }

  lemma KnownEnds(st: State, env: Env, a: AgentId)
    requires st.defaultRs != SCREEN_ID_INVALID
    ensures DeathEnds(st, env, a) <==> forall id :: id in AgentList(st, a) ==> RsOf(st.ids, id) != st.defaultRs
  {
    var ids := AgentList(st, a);
    assert forall i :: 0 <= i < |ids| ==> DefaultAt(st, env, ids, i) == st.defaultRs;
    hide DefaultAt;
    assert forall i :: 0 <= i < |ids| ==> ids[i] in ids;
  }

  lemma AsksFirst(st: State, ids: seq<ScreenId>)
    requires ids != []
    ensures Asks(st, ids, 0) <==> AsksNow(st, ids[0])
  {
    var x := ids[0];
    assert ids[..1] == [x];
    hide NoDisplay;
    if x in st.screens && InGroup(st, x) {
      var children := st.groups[st.screens[x].groupId].children;
      if children != {x} {
        var c := SecondChild(children, x);
        assert c in children && c !in [x];
      }
    }
  }

  /** The first screen made the default known. */
  lemma LearnedEnds(st: State, s1: State, env: Env, a: AgentId)
    requires AgentList(st, a) != [] && AgentList(s1, a) == AgentList(st, a)[1..]
    requires st.defaultRs == SCREEN_ID_INVALID && RsOf(st.ids, AgentList(st, a)[0]) != SCREEN_ID_INVALID
    requires AsksNow(st, AgentList(st, a)[0]) && RsOf(st.ids, AgentList(st, a)[0]) != env.defaultRs
    requires s1.defaultRs == env.defaultRs
    requires forall id :: id in AgentList(st, a)[1..] ==> RsOf(s1.ids, id) == RsOf(st.ids, id)
    ensures DeathEnds(st, env, a) <==> forall id :: id in AgentList(s1, a) ==> RsOf(s1.ids, id) != s1.defaultRs
  {
    var ids, rest := AgentList(st, a), AgentList(s1, a);
    AsksFirst(st, ids);
    hide Asks, AsksNow;
    assert forall i :: 0 < i < |ids| ==> DefaultAt(st, env, ids, i) == env.defaultRs;
    assert DefaultAt(st, env, ids, 0) == SCREEN_ID_INVALID;
    hide DefaultAt;
    assert forall i :: 0 <= i < |rest| ==> rest[i] in rest && rest[i] == ids[i + 1];
    assert forall i :: 0 < i < |ids| ==> ids[i] == rest[i - 1];
  }

  /** The first screen left the default unknown. */
  lemma DroppedEnds(st: State, s1: State, env: Env, a: AgentId)
    requires Inv(st) && AgentsOk(st) && AgentsOk(s1)
    requires AgentList(st, a) != [] && AgentList(s1, a) == AgentList(st, a)[1..] && Dropped(st, s1, AgentList(st, a)[0])
    requires st.defaultRs == SCREEN_ID_INVALID == s1.defaultRs && RsOf(st.ids, AgentList(st, a)[0]) != SCREEN_ID_INVALID
    requires AsksNow(st, AgentList(st, a)[0]) && RsOf(st.ids, AgentList(st, a)[0]) != env.defaultRs ==>
               env.defaultRs == SCREEN_ID_INVALID
    requires forall id :: id in AgentList(st, a)[1..] ==> RsOf(s1.ids, id) == RsOf(st.ids, id)
    ensures DeathEnds(st, env, a) <==> DeathEnds(s1, env, a)
  {
    hide Inv, AgentsOk, Dropped, Asks, AsksNow;
    var ids, rest := AgentList(st, a), AgentList(s1, a);
    AsksFirst(st, ids);
    forall j | 0 <= j < |rest| ensures Asks(s1, rest, j) <==> Asks(st, ids, j + 1) {
      AsksAfter(st, s1, a, j);
    }
    assert forall i :: 0 <= i < |rest| ==> rest[i] in rest && rest[i] == ids[i + 1];
    assert forall i :: 0 <= i < |rest| ==> RsOf(s1.ids, rest[i]) == RsOf(st.ids, ids[i + 1]);
    forall i | 0 <= i < |rest| ensures DefaultAt(s1, env, rest, i) == DefaultAt(st, env, ids, i + 1) {
      DefaultAfter(st, s1, env, ids, rest, i);
    }
    assert DefaultAt(st, env, ids, 0) == SCREEN_ID_INVALID;
    hide DefaultAt;
    assert forall i :: 0 < i < |ids| ==> ids[i] == rest[i - 1] && DefaultAt(st, env, ids, i) == DefaultAt(s1, env, rest, i - 1);
  }

  lemma DefaultAfter(st: State, s1: State, env: Env, ids: seq<ScreenId>, rest: seq<ScreenId>, i: nat)
    requires ids != [] && rest == ids[1..] && i < |rest| && st.defaultRs == SCREEN_ID_INVALID == s1.defaultRs
    requires Asks(st, ids, 0) && RsOf(st.ids, ids[0]) != env.defaultRs ==> env.defaultRs == SCREEN_ID_INVALID
    requires forall j :: 0 <= j < |rest| ==> (Asks(s1, rest, j) <==> Asks(st, ids, j + 1))
    requires forall j :: 0 <= j < |rest| ==> RsOf(s1.ids, rest[j]) == RsOf(st.ids, ids[j + 1])
    ensures DefaultAt(s1, env, rest, i) == DefaultAt(st, env, ids, i + 1)
  {
    hide Asks;
    if j :| 0 <= j < i && Asks(s1, rest, j) && RsOf(s1.ids, rest[j]) != env.defaultRs {
      assert Asks(st, ids, j + 1) && RsOf(st.ids, ids[j + 1]) != env.defaultRs;
    }
    if j :| 0 <= j < i + 1 && Asks(st, ids, j) && RsOf(st.ids, ids[j]) != env.defaultRs {
      if j > 0 { assert Asks(s1, rest, j - 1) && RsOf(s1.ids, rest[j - 1]) != env.defaultRs; }
    }
  }

  /** A virtual screen that was unplugged while no default is known is refused, too. */
  lemma UnmappedSpins(env: Env, rs: ScreenId, mode: Mode, a: AgentId)
    requires env.defaultRs == SCREEN_ID_INVALID && rs != SCREEN_ID_INVALID
    ensures var st := Run(INITIAL, [Event(env, OpCreateVirtual(rs, mode, a)), Event(env, OpDisconnect(rs))]);
            AgentList(st, a) == [0] && 0 !in st.ids.dms2Rs && OnRemoteDied(st, env, a) == None
  {
    var create, unplug := Event(env, OpCreateVirtual(rs, mode, a)), Event(env, OpDisconnect(rs));
    RunAppend(INITIAL, [], create);
    RunAppend(INITIAL, [create], unplug);
    assert [] + [create] == [create] && [create] + [unplug] == [create, unplug] && Run(INITIAL, []) == INITIAL;
    var s1 := CreateVirtual(INITIAL, env, rs, mode, a).0;
    assert s1.ids.rs2Dms == map[rs := 0] && s1.groups == map[] && s1.screens.Keys == {0} && s1.agents[a] == [0];
    var st := Disconnect(s1, env, rs);
    hide CreateVirtual, Run, Disown;
    assert st.agents == s1.agents && st.defaultRs == SCREEN_ID_INVALID && 0 !in st.ids.dms2Rs;
    hide Disconnect;
    RefusedSpins(st, env, a);
  }

  // ---------- What it does to the displays ----------

  /** If all leave without sharing, so does the first. */
  lemma FirstUnshared(st: State, env: Env, out: seq<ScreenId>)
    requires Inv(st) && Numbered(st) && Plain(st, out) && Unshared(st.displays) && st.callback && Receives(st, env)
    requires out != [] && Unshared(LeaveAll(st, env, out).displays)
    ensures Unshared(Leave(st, env, out[0]).displays)
  {
    hide Inv, Evolves, Numbered, Unshared, Leave, Plain, Doubled, KnownDefault, Receives, NoDisplay, LeftBy;
    var x := out[0];
    var d := KnownDefault(st, env);
    var s1 := Leave(st, env, x);
    PlainParts(st, out);
    LeaveUnhooks(st, env, x);
    if !Unshared(s1.displays) {
      LeaveShape(st, env, x);
      EvolvesPlain(st, s1, out[1..]);
      ReceivesMirror(st, env);
      LeaveStays(st, env, x, d);
      LeaveAllPersists(s1, env, out[1..], d);
      DoubledShares(LeaveAll(s1, env, out[1..]), d);
    }
  }

  lemma EmptiedBy(st: State, env: Env, x: ScreenId, s1: State, y: ScreenId, out: seq<ScreenId>)
    requires Plain(st, out) && out != [] && x == out[0] && LeftBy(st, s1, x) && Unhooked(st, env, x, s1)
    requires Receives(st, env) && x != KnownDefault(st, env) && y != KnownDefault(st, env)
    requires NoDisplay(st, y) || (y in out && y in st.screens && InGroup(st, y))
    ensures NoDisplay(s1, y) || (y in out[1..] && y in s1.screens && InGroup(s1, y))
  {
    hide NoDisplay, Unshared, Doubled, Receives, KnownDefault;
    assert out == [x] + out[1..];
    if !NoDisplay(st, y) && y != x {
      assert y in out[1..];
      assert !st.screens[y].IsGroup();
    }
  }

  lemma {:induction false} LeaveAllEmpties(st: State, env: Env, out: seq<ScreenId>)
    requires Inv(st) && Numbered(st) && Plain(st, out) && Unshared(st.displays) && st.callback && Receives(st, env)
    requires KnownDefault(st, env) !in out && Unshared(LeaveAll(st, env, out).displays)
    ensures var r := LeaveAll(st, env, out);
            forall y :: y != KnownDefault(st, env) && (NoDisplay(st, y) || (y in out && y in st.screens && InGroup(st, y))) ==>
              NoDisplay(r, y)
    decreases |out|
  {
    hide Inv, Evolves, Numbered, Unshared, Leave, Plain, Doubled, KnownDefault, Receives, NoDisplay, LeftBy;
    if out != [] {
      var x, rest := out[0], out[1..];
      var d := KnownDefault(st, env);
      var s1 := Leave(st, env, x);
      assert x in out;
      PlainParts(st, out);
      LeaveShape(st, env, x);
      LeaveReceives(st, env, x);
      LeaveNumbered(st, env, x);
      LeaveUnhooks(st, env, x);
      EvolvesPlain(st, s1, rest);
      LeftCallback(st, s1, x);
      FirstUnshared(st, env, out);
      LeaveAllEmpties(s1, env, rest);
      forall y | y != d && (NoDisplay(st, y) || (y in out && y in st.screens && InGroup(st, y)))
        ensures NoDisplay(LeaveAll(st, env, out), y)
      {
        EmptiedBy(st, env, x, s1, y, out);
      }
    }
  }

  /** The default still receives in the same group, of which only the source and the children may differ. */
  ghost predicate StillReceives(st: State, env: Env, r: State, gone: ScreenId, source: ScreenId) {
    var d := KnownDefault(st, env);
    && d in st.screens && st.screens[d].groupId in st.groups
    && Receives(r, env) && KnownDefault(r, env) == d && r.callback == st.callback
    && r.screens[d].kind == st.screens[d].kind && r.screens[d].groupId == st.screens[d].groupId
    && var g := st.screens[d].groupId;
       && r.groups[g].mirrorId == source
       && (forall y :: y in r.groups[g].children <==> y in st.groups[g].children && y != gone)
  }

  /** The source of the default's group. */
  function SourceOf(st: State, env: Env): ScreenId
    requires Receives(st, env)
  {
    st.groups[st.screens[KnownDefault(st, env)].groupId].mirrorId
  }

  predicate RealDefault(st: State, env: Env) {
    var d := KnownDefault(st, env);
    d in st.screens && st.screens[d].kind.REAL?
  }

  lemma EvolvesKnown(a: State, b: State, env: Env)
    requires Evolves(a, b) && a.defaultRs != SCREEN_ID_INVALID && a.defaultRs in a.ids.rs2Dms
    ensures KnownDefault(b, env) == KnownDefault(a, env)
  {
  }

  lemma NoMirrorReceives(st: State, env: Env, gone: ScreenId)
    requires Inv(st) && Receives(st, env) && gone !in st.screens
    ensures StillReceives(st, env, st, gone, SourceOf(st, env))
  {
    hide KnownDefault;
    ReceivesKnown(st, env);
    ChildrenKnown(st, st.screens[KnownDefault(st, env)].groupId);
  }

  /** A real default becomes the source of its own group, and stays in it with all the others. */
  lemma MirrorReceives(st: State, env: Env, gone: ScreenId, ids: seq<ScreenId>)
    requires Inv(st) && Receives(st, env) && gone !in st.screens && RealDefault(st, env)
    requires st.defaultRs != SCREEN_ID_INVALID && st.defaultRs in st.ids.rs2Dms
    requires Plain(st, ids) && Distinct(ids)
    requires var d := KnownDefault(st, env);
             forall x :: x in ids <==> x in st.groups[st.screens[d].groupId].children && x != d
    ensures StillReceives(st, env, MakeMirror(st, env, KnownDefault(st, env), ids).0, gone, KnownDefault(st, env))
  {
    hide Inv, Evolves, MakeMirror, KnownDefault, Plain, Distinct;
    var d := KnownDefault(st, env);
    var g := st.screens[d].groupId;
    ReceivesKnown(st, env);
    ChildrenKnown(st, g);
    var wanted := st.groups[g].children - {d};
    MakeMirrorEffect(st, env, d, ids, wanted);
    MakeMirrorInv(st, env, d, ids);
    EvolvesKnown(st, MakeMirror(st, env, d, ids).0, env);
    EvolvesCount(st, MakeMirror(st, env, d, ids).0);
    NoInvalidGroup(st);
    assert MirrorGroup(st, env, d) == (st, g);
  }

  lemma LearnReceives(st: State, env: Env)
    requires Inv(st) && Receives(st, env)
    ensures var s1 := Learn(st, env);
            && GetDefault(st, env) == (s1, KnownDefault(st, env)) && Receives(s1, env)
            && KnownDefault(s1, env) == KnownDefault(st, env) && SourceOf(s1, env) == SourceOf(st, env)
            && s1.defaultRs != SCREEN_ID_INVALID && s1.defaultRs in s1.ids.rs2Dms
  {
    NoInvalid(st);
    hide Inv;
  }

  lemma RemirrorReceives(st: State, env: Env, g: ScreenId, gone: ScreenId)
    requires Inv(st) && Receives(st, env) && gone !in st.screens
    ensures var runs := g in st.groups && st.groups[g].mirrorId == gone && RealDefault(st, env);
            StillReceives(st, env, Remirror(st, env, g, gone), gone,
                          if runs then KnownDefault(st, env) else SourceOf(st, env))
  {
    hide Inv, Evolves, GetDefault, MakeMirror, KnownDefault, Plain, Distinct, StillReceives, Learn;
    NoMirrorReceives(st, env, gone);
    ReceivesMirror(st, env);
    ReceivesKnown(st, env);
    if g in st.groups && st.groups[g].mirrorId == gone {
      OnlyOneGroup(st, g);
      var s1 := Learn(st, env);
      LearnReceives(st, env);
      LearnInv(st, env);
      LearnSame(st, env);
      var d := KnownDefault(st, env);
      var ids := Without(Ascending(s1.groups[g].children), d);
      ChildrenPlain(s1, g, d);
      WithoutIn(Ascending(s1.groups[g].children), d);
      WithoutDistinct(Ascending(s1.groups[g].children), d);
      if RealDefault(st, env) {
        MirrorReceives(s1, env, gone, ids);
        ReceivesFrom(st, s1, env, MakeMirror(s1, env, d, ids).0, gone, d);
      } else {
        NotRealMirror(s1, env, d, ids);
        NoMirrorReceives(s1, env, gone);
        ReceivesFrom(st, s1, env, s1, gone, SourceOf(st, env));
      }
    }
  }

  lemma LearnSame(st: State, env: Env)
    ensures var r := Learn(st, env);
            && r.screens == st.screens && r.groups == st.groups && r.displays == st.displays && r.callback == st.callback
            && r.displayCount == st.displayCount && r.ids == st.ids
  {
  }

  lemma {:induction false} WithoutDistinct(ids: seq<ScreenId>, d: ScreenId)
    requires Distinct(ids)
    ensures Distinct(Without(ids, d))
  {
    if ids != [] {
      WithoutDistinct(ids[1..], d);
      WithoutIn(ids[1..], d);
      var rest := Without(ids[1..], d);
      assert forall k :: 0 <= k < |rest| ==> rest[k] in rest;
      assert forall k :: 0 <= k < |ids[1..]| ==> ids[1..][k] == ids[k + 1];
      assert ids[0] !in ids[1..];
    }
  }

  lemma NotRealMirror(st: State, env: Env, d: ScreenId, ids: seq<ScreenId>)
    ensures (d in st.screens ==> !st.screens[d].kind.REAL?) ==> MakeMirror(st, env, d, ids).0 == st
  {
  }

  lemma ReceivesFrom(a: State, a1: State, env: Env, r: State, gone: ScreenId, source: ScreenId)
    requires StillReceives(a1, env, r, gone, source) && KnownDefault(a1, env) == KnownDefault(a, env)
    requires a1.screens == a.screens && a1.groups == a.groups && a1.callback == a.callback
    ensures StillReceives(a, env, r, gone, source)
  {
    hide KnownDefault, Receives;
  }

  /** A new source takes all displays over: no other child has one afterwards. */
  lemma MirrorEmpties(st: State, env: Env, ids: seq<ScreenId>)
    requires Inv(st) && Numbered(st) && Unshared(st.displays) && st.callback && Receives(st, env) && RealDefault(st, env)
    requires Plain(st, ids) && SourceOf(st, env) != KnownDefault(st, env)
    requires var d := KnownDefault(st, env);
             forall x :: x in ids <==> x in st.groups[st.screens[d].groupId].children && x != d
    requires Unshared(MakeMirror(st, env, KnownDefault(st, env), ids).0.displays)
    ensures var d := KnownDefault(st, env);
            forall y :: y in ids ==> NoDisplay(MakeMirror(st, env, d, ids).0, y)
  {
    hide Inv, Evolves, ChangeScreenGroup, KnownDefault, Plain, Unshared, NoDisplay, LeaveAll, TakeOut;
    var d := KnownDefault(st, env);
    var g := st.screens[d].groupId;
    ReceivesKnown(st, env);
    assert MirrorGroup(st, env, d) == (st, g);
    var s2 := st.(groups := st.groups[g := st.groups[g].(mirrorId := d)]);
    SourceInv(st, g, d);
    PlainShape(st, s2, ids);
    SameNumbered(st, s2);
    SameKnown(st, s2, env);
    ChangeShares(s2, env, g, ids, Origins(|ids|), false, SCREEN_MIRROR, d);
    var r := MakeMirror(st, env, d, ids).0;
    assert r == ChangeScreenGroup(s2, env, g, ids, Origins(|ids|), false, SCREEN_MIRROR).0;
    LeaveAllEmpties(s2, env, ids);
    forall y | y in ids ensures NoDisplay(r, y) {
      InPlain(s2, ids, y);
      GroupedMeans(s2, g, y);
      DisplayedSame(LeaveAll(s2, env, ids), r, y);
    }
  }

  lemma InPlain(st: State, ids: seq<ScreenId>, y: ScreenId)
    requires Plain(st, ids) && y in ids
    ensures y in st.screens && !st.screens[y].IsGroup()
  {
  }

  lemma DisplayedSame(a: State, b: State, y: ScreenId)
    requires b.displays == a.displays
    ensures NoDisplay(b, y) <==> NoDisplay(a, y)
  {
  }

  lemma RemirrorEmpties(st: State, env: Env, g: ScreenId, gone: ScreenId)
    requires Inv(st) && Numbered(st) && Unshared(st.displays) && st.callback && Receives(st, env) && gone !in st.screens
    requires Unshared(Remirror(st, env, g, gone).displays)
    ensures var r := Remirror(st, env, g, gone);
            var d := KnownDefault(st, env);
            if g in st.groups && st.groups[g].mirrorId == gone && RealDefault(st, env)
            then forall y :: y in st.groups[g].children && y != d ==> NoDisplay(r, y)
            else r.displays == st.displays
  {
    hide Inv, Evolves, GetDefault, MakeMirror, KnownDefault, Plain, Learn, Unshared, NoDisplay, Receives;
    ReceivesMirror(st, env);
    ReceivesKnown(st, env);
    if g in st.groups && st.groups[g].mirrorId == gone {
      OnlyOneGroup(st, g);
      var s1 := Learn(st, env);
      LearnReceives(st, env);
      LearnInv(st, env);
      LearnSame(st, env);
      SameNumbered(st, s1);
      var d := KnownDefault(st, env);
      var ids := Without(Ascending(s1.groups[g].children), d);
      ChildrenPlain(s1, g, d);
      WithoutIn(Ascending(s1.groups[g].children), d);
      if RealDefault(st, env) {
        SourceIs(s1, env, g, d);
        MirrorEmpties(s1, env, ids);
      } else {
        NotRealMirror(s1, env, d, ids);
      }
    }
  }

  lemma SourceIs(st: State, env: Env, g: ScreenId, d: ScreenId)
    requires Inv(st) && Receives(st, env) && KnownDefault(st, env) == d && g in st.groups
    ensures SourceOf(st, env) == st.groups[g].mirrorId && st.screens[d].groupId == g
  {
    hide KnownDefault;
    OnlyOneGroup(st, g);
  }

  /** Replacing the source does not give the default a mode or a group. */
  lemma RemirrorNot(st: State, env: Env, g: ScreenId, gone: ScreenId)
    requires Inv(st) && !Receives(st, env)
    ensures !Receives(Remirror(st, env, g, gone), env)
  {
    hide Inv, Evolves, Extends, GetDefault, MakeMirror, KnownDefault, Plain, Receives;
    if g in st.groups && st.groups[g].combination.SCREEN_MIRROR? && st.groups[g].mirrorId == gone {
      var (s1, d) := GetDefault(st, env);
      LookupInv(st, env);
      LookupSame(st, env);
      ExtendsPiles(st, s1, env, {});
      var ids := Without(Ascending(s1.groups[g].children), d);
      ChildrenPlain(s1, g, d);
      WithoutIn(Ascending(s1.groups[g].children), d);
      NotRealMirror(s1, env, d, ids);
      if d in s1.screens && s1.screens[d].kind.REAL? {
        FoundDefault(st, env);
        MirrorNot(s1, env, g, d, ids);
      }
    }
  }

  lemma FoundDefault(st: State, env: Env)
    requires Inv(st) && GetDefault(st, env).1 in GetDefault(st, env).0.screens
    ensures var (s1, d) := GetDefault(st, env);
            && KnownDefault(s1, env) == d && s1.defaultRs != SCREEN_ID_INVALID && s1.defaultRs in s1.ids.rs2Dms
            && GetDefault(s1, env) == (s1, d)
  {
    var (s1, d) := GetDefault(st, env);
    LookupInv(st, env);
    NoInvalid(s1);
    GetDefaultAgain(st, env);
    DefaultScreen.LookupMapsBack(st, env);
    hide GetDefault, Inv;
  }

  lemma MirrorNot(st: State, env: Env, g: ScreenId, d: ScreenId, ids: seq<ScreenId>)
    requires Inv(st) && !Receives(st, env) && KnownDefault(st, env) == d && GetDefault(st, env) == (st, d)
    requires st.defaultRs != SCREEN_ID_INVALID && st.defaultRs in st.ids.rs2Dms
    requires g in st.groups && st.groups[g].combination.SCREEN_MIRROR? && d in st.screens && st.screens[d].kind.REAL?
    requires Plain(st, ids)
    ensures !Receives(MakeMirror(st, env, d, ids).0, env)
  {
    hide Inv, Evolves, GetDefault, KnownDefault, Plain, ChangeScreenGroup, AddChild;
    OnlyOneGroup(st, g);
    MakeMirrorInv(st, env, d, ids);
    EvolvesKnown(st, MakeMirror(st, env, d, ids).0, env);
    if st.screens[d].groupId in st.groups {
      hide MakeMirror;
      KeepsMode(st, MakeMirror(st, env, d, ids).0, d);
    } else {
      NoInvalidGroup(st);
      assert AddAsSuccedent(st, env, d) == (st, SCREEN_ID_INVALID);
    }
  }

  lemma KeepsMode(a: State, b: State, d: ScreenId)
    requires Evolves(a, b) && d in a.screens && !a.screens[d].IsGroup()
    ensures d in b.screens && b.screens[d].mode == a.screens[d].mode
  {
  }

  lemma SameReceives(a: State, b: State, env: Env)
    requires b.ids == a.ids && b.defaultRs == a.defaultRs && b.screens == a.screens && b.groups == a.groups
    ensures KnownDefault(b, env) == KnownDefault(a, env) && (Receives(b, env) <==> Receives(a, env))
  {
    SameKnown(a, b, env);
    hide KnownDefault;
  }

  /** Forgetting an id and a default that was learned with it. */
  lemma ForgottenNot(a: State, b: State, env: Env, x: ScreenId)
    requires Inv(a) && !Receives(a, env) && b.screens == a.screens && b.groups == a.groups && b.ids == DeleteId(a.ids, x)
    requires b.defaultRs == a.defaultRs || (b.defaultRs == SCREEN_ID_INVALID && env.defaultRs !in b.ids.rs2Dms)
    ensures !Receives(b, env)
  {
    NoInvalid(a);
    var d, e := KnownDefault(a, env), KnownDefault(b, env);
    assert e == d || e == SCREEN_ID_INVALID;
    hide KnownDefault, Inv;
  }

  /** What Disconnect passes through before it deletes the id. */
  lemma DisconnectStages(st: State, env: Env, rs: ScreenId, x: ScreenId)
    returns (s3: State, g: ScreenId)
    requires Inv(st) && rs in st.ids.rs2Dms && st.ids.rs2Dms[rs] == x && x in st.screens && rs != st.defaultRs
    ensures !st.screens[x].IsGroup() && LeftBy(st, Leave(st, env, x), x) && Inv(s3) && x !in s3.screens
    ensures s3 == Leave(st, env, x).(screens := Leave(st, env, x).screens - {x})
    ensures g == if InGroup(st, x) then st.screens[x].groupId else SCREEN_ID_INVALID
    ensures var t := Remirror(s3, env, g, x);
            && Inv(t) && Disconnect(st, env, rs) == t.(ids := DeleteId(t.ids, x))
            && rs in t.ids.rs2Dms && t.ids.rs2Dms[rs] == x && RsOf(t.ids, x) == rs
  {
    hide Inv, Evolves, OnDisconnect, RemoveFromGroup, Remirror, LeftBy;
    MappedPlain(st, rs);
    var s1 := if st.callback && InGroup(st, x) then OnDisconnect(st, env, x) else st;
    DropInv(st, env, x);
    var s2: State;
    s2, g := RemoveFromGroup(s1, x).0, RemoveFromGroup(s1, x).1;
    s3 := s2.(screens := s2.screens - {x});
    assert s2 == Leave(st, env, x);
    LeaveShape(st, env, x);
    RemovedGroup(s1, x);
    LeftOrdinary(st, s2, x);
    EraseScreenInv(s2, x);
    RemirrorInv(s3, env, g, x);
    MappingStays(st, s2, rs, x);
    MappingStays(s3, Remirror(s3, env, g, x), rs, x);
    MappedBack(Remirror(s3, env, g, x), rs, x);
  }

  lemma MappingStays(a: State, b: State, rs: ScreenId, x: ScreenId)
    requires Evolves(a, b) && rs in a.ids.rs2Dms && a.ids.rs2Dms[rs] == x
    ensures rs in b.ids.rs2Dms && b.ids.rs2Dms[rs] == x
  {
  }

  lemma MappedBack(st: State, rs: ScreenId, x: ScreenId)
    requires Inv(st) && rs in st.ids.rs2Dms && st.ids.rs2Dms[rs] == x
    ensures RsOf(st.ids, x) == rs && rs !in DeleteId(st.ids, x).rs2Dms
  {
  }

  lemma DisconnectNot(st: State, env: Env, rs: ScreenId, x: ScreenId)
    requires Inv(st) && rs in st.ids.rs2Dms && st.ids.rs2Dms[rs] == x && x in st.screens && rs != st.defaultRs
    requires !Receives(st, env) || KnownDefault(st, env) == x
    ensures !Receives(Disconnect(st, env, rs), env) && rs !in Disconnect(st, env, rs).ids.rs2Dms
  {
    hide Inv, Evolves, Disconnect, Leave, Remirror, Receives, KnownDefault, LeftBy;
    var s3, g := DisconnectStages(st, env, rs, x);
    LeaveShape(st, env, x);
    LeaveReceives(st, env, x);
    LeftOrdinary(st, Leave(st, env, x), x);
    ErasedReceives(Leave(st, env, x), env, x, s3);
    RemirrorNot(s3, env, g, x);
    var t := Remirror(s3, env, g, x);
    MappedBack(t, rs, x);
    ForgottenNot(t, Disconnect(st, env, rs), env, x);
  }

  /** A default that receives after x is destroyed did so before, and is not x. */
  lemma DestroyNot(st: State, env: Env, a: AgentId, x: ScreenId)
    requires Inv(st) && AgentsOk(st) && Numbered(st) && x in AgentList(st, a) && !Refuses(st, x)
    requires !Receives(st, env) || KnownDefault(st, env) == x
    ensures !Receives(DestroyVirtual(st, env, x).0, env)
  {
    hide Inv, AgentsOk, Disconnect, Disown, Receives, KnownDefault;
    var rs := RsOf(st.ids, x);
    var s1 := st.(agents := Disown(st.agents, x));
    AgentsInv(st, s1.agents);
    SameReceives(st, s1, env);
    ListedScreen(st, a, x);
    if rs != SCREEN_ID_INVALID && x in st.screens {
      var s2 := Disconnect(s1, env, rs);
      DisconnectNot(s1, env, rs, x);
      DisconnectInv(s1, env, rs);
      DisconnectGone(s1, env, rs, x);
      SameNumbered(st, s1);
      LearnsOwn(s1, env, rs, x);
      ForgottenNot(s2, DestroyVirtual(st, env, x).0, env, x);
    } else {
      if KnownDefault(s1, env) == x { NotInScreens(s1, env, x); }
      ForgottenNot(s1, DestroyVirtual(st, env, x).0, env, x);
    }
  }

  lemma DisconnectGone(st: State, env: Env, rs: ScreenId, x: ScreenId)
    requires Inv(st) && rs in st.ids.rs2Dms && st.ids.rs2Dms[rs] == x && x in st.screens && rs != st.defaultRs
    ensures x !in Disconnect(st, env, rs).ids.dms2Rs && DeleteId(Disconnect(st, env, rs).ids, x) == Disconnect(st, env, rs).ids
  {
    hide Inv, Disconnect, Leave, Remirror, LeftBy;
    var s3, g := DisconnectStages(st, env, rs, x);
  }

  /** The default becomes the rs id of the screen that is disconnected only if the render service names it. */
  lemma LearnsOwn(st: State, env: Env, rs: ScreenId, x: ScreenId)
    requires Inv(st) && Numbered(st) && rs != SCREEN_ID_INVALID && rs != st.defaultRs
    requires rs in st.ids.rs2Dms && st.ids.rs2Dms[rs] == x && x in st.screens
    ensures Disconnect(st, env, rs).defaultRs == rs ==> env.defaultRs == rs
  {
    hide Inv, Disconnect, Loses, AsksNow, Dropped;
    if st.defaultRs == SCREEN_ID_INVALID {
      UnknownDisconnect(st, env, rs, x);
    } else {
      DisconnectLoses(st, env, rs);
      LosesKnown(st, Disconnect(st, env, rs), {x});
    }
  }

  lemma LosesKnown(a: State, b: State, gone: set<ScreenId>)
    requires Loses(a, b, gone) && a.defaultRs != SCREEN_ID_INVALID
    ensures b.defaultRs == a.defaultRs
  {
  }

  /** A default without a screen, or that is no ordinary screen, does not receive. */
  lemma NotInScreens(st: State, env: Env, x: ScreenId)
    requires Inv(st) && KnownDefault(st, env) == x && (x !in st.screens || RsOf(st.ids, x) == SCREEN_ID_INVALID)
    ensures !Receives(st, env)
  {
    hide KnownDefault;
    if x in st.screens { assert ScreenOk(st, x); NoInvalidGroup(st); }
  }

  /** The other children of the default's group. */
  ghost function Fellows(st: State, env: Env): set<ScreenId>
    requires Receives(st, env)
  {
    st.groups[st.screens[KnownDefault(st, env)].groupId].children - {KnownDefault(st, env)}
  }

  /** The default takes over as the source when x goes. */
  predicate TakesOver(st: State, env: Env, x: ScreenId)
    requires Receives(st, env)
  {
    && SourceOf(st, env) == x && RealDefault(st, env)
    && x in st.groups[st.screens[KnownDefault(st, env)].groupId].children
  }

  ghost function NextSource(st: State, env: Env, x: ScreenId): ScreenId
    requires Receives(st, env)
  {
    if TakesOver(st, env, x) then KnownDefault(st, env) else SourceOf(st, env)
  }

  lemma LeaveStillReceives(st: State, env: Env, x: ScreenId)
    requires Inv(st) && x in st.screens && !st.screens[x].IsGroup() && Receives(st, env) && KnownDefault(st, env) != x
    ensures var r := Leave(st, env, x);
            StillReceives(st, env, r.(screens := r.screens - {x}), x, SourceOf(st, env))
  {
    hide Inv, Evolves, Leave, KnownDefault;
    var r := Leave(st, env, x);
    LeaveShape(st, env, x);
    LeaveReceives(st, env, x);
    ErasedReceives(r, env, x, r.(screens := r.screens - {x}));
    ReceivesKnown(st, env);
  }

  lemma StillTrans(a: State, b: State, c: State, env: Env, x: ScreenId, s1: ScreenId, s2: ScreenId)
    requires StillReceives(a, env, b, x, s1) && StillReceives(b, env, c, x, s2)
    ensures StillReceives(a, env, c, x, s2)
  {
    hide Receives;
  }

  /** Forgetting another id than that of the default. */
  lemma ForgottenReceives(a: State, b: State, env: Env, x: ScreenId)
    requires Inv(a) && Receives(a, env) && KnownDefault(a, env) != x && b.screens == a.screens && b.groups == a.groups
    requires b.ids == DeleteId(a.ids, x) && b.defaultRs == a.defaultRs && b.callback == a.callback
    ensures forall gone, source, st :: StillReceives(st, env, a, gone, source) ==> StillReceives(st, env, b, gone, source)
  {
    NoInvalid(a);
    assert KnownDefault(b, env) == KnownDefault(a, env);
    hide KnownDefault;
    assert Receives(b, env);
    hide Receives;
  }

  lemma StillMeans(st: State, env: Env, r: State, gone: ScreenId, source: ScreenId)
    requires StillReceives(st, env, r, gone, source)
    ensures Receives(r, env) && KnownDefault(r, env) == KnownDefault(st, env) && r.callback == st.callback
    ensures SourceOf(r, env) == source && (RealDefault(r, env) <==> RealDefault(st, env))
    ensures var d := KnownDefault(st, env);
            && d in st.screens && st.screens[d].groupId in st.groups && st.screens[d].groupId in r.groups
            && r.screens[d].groupId == st.screens[d].groupId
            && forall y :: y in r.groups[st.screens[d].groupId].children <==>
                           y in st.groups[st.screens[d].groupId].children && y != gone
  {
    hide KnownDefault;
  }

  lemma RunsWhen(st: State, env: Env, x: ScreenId, s3: State, g: ScreenId)
    requires Inv(st) && Inv(s3) && x in st.screens && !st.screens[x].IsGroup() && Receives(st, env)
    requires StillReceives(st, env, s3, x, SourceOf(st, env))
    requires g == if InGroup(st, x) then st.screens[x].groupId else SCREEN_ID_INVALID
    ensures TakesOver(st, env, x) <==> g in s3.groups && s3.groups[g].mirrorId == x && RealDefault(s3, env)
  {
    hide Inv, KnownDefault;
    StillMeans(st, env, s3, x, SourceOf(st, env));
    ReceivesKnown(st, env);
    var dg := st.screens[KnownDefault(st, env)].groupId;
    GroupedMeans(st, dg, x);
    NoInvalidGroup(s3);
    OnlyOneGroup(st, dg);
    OnlyOneGroup(s3, dg);
    hide Receives, StillReceives;
  }

  lemma FirstOfTwo(st: State, env: Env, x: ScreenId, s3: State, g: ScreenId)
    requires Inv(s3) && Numbered(s3) && Receives(st, env) && Unhooked(st, env, x, s3)
    requires Receives(s3, env) && KnownDefault(s3, env) == KnownDefault(st, env)
    requires Unshared(Remirror(s3, env, g, x).displays)
    ensures Unshared(s3.displays)
  {
    hide Inv, Remirror, Receives, KnownDefault, Unshared, NoDisplay, Doubled, HandsOver;
    if Doubled(s3, KnownDefault(st, env)) {
      RemirrorPersists(s3, env, g, x, KnownDefault(st, env));
      DoubledShares(Remirror(s3, env, g, x), KnownDefault(st, env));
    }
  }

  /** What one disconnection of the loop does: to the default and the children, and to their displays. */
  lemma DisconnectReceives(st: State, env: Env, rs: ScreenId, x: ScreenId)
    requires Inv(st) && Numbered(st) && rs in st.ids.rs2Dms && st.ids.rs2Dms[rs] == x && x in st.screens
    requires rs != st.defaultRs && Receives(st, env) && KnownDefault(st, env) != x
    ensures var r := Disconnect(st, env, rs);
            && StillReceives(st, env, r, x, NextSource(st, env, x))
            && (st.callback && Unshared(st.displays) && Unshared(r.displays) ==>
                  if TakesOver(st, env, x)
                  then forall y :: y in Fellows(st, env) && y != x ==> NoDisplay(r, y)
                  else Unhooked(st, env, x, r))
  {
    hide Inv, Evolves, Disconnect, Leave, Remirror, Receives, KnownDefault, LeftBy, Unshared, Numbered, NoDisplay, Unhooked,
         Doubled, StillReceives;
    var s3, g := DisconnectStages(st, env, rs, x);
    var t := Remirror(s3, env, g, x);
    LeaveStillReceives(st, env, x);
    RunsWhen(st, env, x, s3, g);
    StillMeans(st, env, s3, x, SourceOf(st, env));
    RemirrorReceives(s3, env, g, x);
    StillTrans(st, s3, t, env, x, SourceOf(st, env), NextSource(st, env, x));
    StillMeans(st, env, t, x, NextSource(st, env, x));
    ForgottenReceives(t, Disconnect(st, env, rs), env, x);
    if st.callback && Unshared(st.displays) && Unshared(t.displays) {
      LeaveUnhooks(st, env, x);
      SameDisplayed(st, env, x, Leave(st, env, x), s3);
      LeaveNumbered(st, env, x);
      SameNumbered(Leave(st, env, x), s3);
      FirstOfTwo(st, env, x, s3, g);
      RemirrorEmpties(s3, env, g, x);
      var r := Disconnect(st, env, rs);
      if TakesOver(st, env, x) {
        var d := KnownDefault(st, env);
        forall y | y in Fellows(st, env) && y != x ensures NoDisplay(r, y) {
          SourceIs(s3, env, g, d);
          DisplayedSame(t, r, y);
        }
      } else {
        SameDisplayed(st, env, x, s3, r);
      }
    }
  }

  lemma ListedPlain(st: State, a: AgentId, x: ScreenId)
    requires Inv(st) && AgentsOk(st) && x in AgentList(st, a) && x in st.screens
    ensures !st.screens[x].IsGroup() && RsOf(st.ids, x) != SCREEN_ID_INVALID
  {
    ListedScreen(st, a, x);
    assert ScreenOk(st, x);
    var i :| 0 <= i < |st.agents[a]| && st.agents[a][i] == x;
    assert st.screens[st.agents[a][i]].kind.VIRTUAL?;
  }

  /** A default other than x is not forgotten with x. */
  lemma NoReset(st: State, env: Env, rs: ScreenId, x: ScreenId)
    requires Inv(st) && Numbered(st) && rs != SCREEN_ID_INVALID && rs != st.defaultRs
    requires rs in st.ids.rs2Dms && st.ids.rs2Dms[rs] == x && x in st.screens && KnownDefault(st, env) != x
    ensures Disconnect(st, env, rs).defaultRs != rs
  {
    LearnsOwn(st, env, rs, x);
    hide Inv, Disconnect, Loses;
    if st.defaultRs != SCREEN_ID_INVALID {
      DisconnectLoses(st, env, rs);
      LosesKnown(st, Disconnect(st, env, rs), {x});
    }
  }

  lemma UnhookedFrom(a: State, a1: State, env: Env, x: ScreenId, r: State)
    requires a1 == a.(agents := a1.agents) && Unhooked(a1, env, x, r)
    ensures Unhooked(a, env, x, r)
  {
    SameReceives(a, a1, env);
    assert forall y :: NoDisplay(a1, y) <==> NoDisplay(a, y);
    hide Receives, KnownDefault, NoDisplay, Unshared, Doubled;
  }

  /** The same for DestroyVirtualScreen of a listed screen. */
  lemma DestroyReceives(st: State, env: Env, a: AgentId, x: ScreenId)
    requires Inv(st) && AgentsOk(st) && Numbered(st) && x in AgentList(st, a) && !Refuses(st, x)
    requires Receives(st, env) && KnownDefault(st, env) != x
    ensures var r := DestroyVirtual(st, env, x).0;
            && StillReceives(st, env, r, x, NextSource(st, env, x))
            && (st.callback && Unshared(st.displays) && Unshared(r.displays) ==>
                  if TakesOver(st, env, x) then forall y :: y in Fellows(st, env) && y != x ==> NoDisplay(r, y)
                  else Unhooked(st, env, x, r))
  {
    hide Inv, AgentsOk, Disconnect, Disown, Receives, KnownDefault, Unshared, NoDisplay, Unhooked, StillReceives;
    var rs := RsOf(st.ids, x);
    var s1 := st.(agents := Disown(st.agents, x));
    var r := DestroyVirtual(st, env, x).0;
    AgentsInv(st, s1.agents);
    SameReceives(st, s1, env);
    SameNumbered(st, s1);
    ListedScreen(st, a, x);
    if x in st.screens {
      ListedPlain(st, a, x);
      var s2 := Disconnect(s1, env, rs);
      DisconnectReceives(s1, env, rs, x);
      DisconnectGone(s1, env, rs, x);
      NoReset(s1, env, rs, x);
      assert r == s2;
      ReceivesFrom(st, s1, env, r, x, NextSource(st, env, x));
      if Unhooked(s1, env, x, r) { UnhookedFrom(st, s1, env, x, r); }
    } else {
      ReceivesKnown(st, env);
      ChildrenKnown(st, st.screens[KnownDefault(st, env)].groupId);
      NoMirrorReceives(s1, env, x);
      ForgottenReceives(s1, r, env, x);
      ReceivesFrom(st, s1, env, r, x, SourceOf(st, env));
      if Unshared(st.displays) { SameUnhooked(st, env, x, r); }
    }
  }

  /** Who leaves when an agent dies: its screens, and all fellows of the default if the default takes over as
      the source. */
  ghost function DiedGoers(st: State, env: Env, ids: seq<ScreenId>): set<ScreenId> {
    var out := Before(ids, KnownDefault(st, env));
    out + if Receives(st, env) && SourceOf(st, env) in out && TakesOver(st, env, SourceOf(st, env))
          then Fellows(st, env) else {}
  }

  lemma GivesMeans(st: State, env: Env, y: ScreenId)
    requires Inv(st) && Receives(st, env) && y != KnownDefault(st, env)
    ensures Gives(st, y) <==> y in Fellows(st, env) && !NoDisplay(st, y)
  {
    hide Inv, KnownDefault, NoDisplay;
    var g := st.screens[KnownDefault(st, env)].groupId;
    ChildrenKnown(st, g);
    ChildrenPlainly(st, g);
    if y in st.screens {
      if st.screens[y].IsGroup() { NoGroupInGroup(st, y); } else { GroupedMeans(st, g, y); }
    }
    hide Receives;
  }

  lemma ChildrenPlainly(st: State, g: ScreenId)
    requires Inv(st) && g in st.groups
    ensures forall y :: y in st.groups[g].children ==> y in st.screens && !st.screens[y].IsGroup()
  {
    assert GroupOk(st, g);
  }

  lemma NoGroupInGroup(st: State, y: ScreenId)
    requires Inv(st) && y in st.screens && st.screens[y].IsGroup()
    ensures !InGroup(st, y)
  {
    assert ScreenOk(st, y);
    NoInvalidGroup(st);
  }

  lemma PilesMono(st: State, env: Env, a: set<ScreenId>, b: set<ScreenId>)
    requires Piles(st, env, a) && forall y :: y in a && Gives(st, y) ==> y in b
    ensures Piles(st, env, b)
  {
    hide Receives, KnownDefault, Gives, NoDisplay;
  }

  lemma NobodyGives(st: State, env: Env, leavers: set<ScreenId>)
    requires forall y :: y in leavers ==> !Gives(st, y)
    ensures !Piles(st, env, leavers)
  {
    hide Receives, KnownDefault, Gives, NoDisplay;
  }

  /** After a takeover nobody has anything left to give. */
  lemma TakenOver(st: State, env: Env, a: AgentId, s1: State)
    requires Inv(st) && Inv(s1) && AgentsOk(st) && Numbered(st) && Unshared(st.displays) && st.callback
    requires AgentList(st, a) != [] && !Refuses(st, AgentList(st, a)[0])
    requires s1 == DestroyVirtual(st, env, AgentList(st, a)[0]).0 && Unshared(s1.displays)
    requires Receives(st, env) && TakesOver(st, env, AgentList(st, a)[0]) && KnownDefault(st, env) != AgentList(st, a)[0]
    requires StillReceives(st, env, s1, AgentList(st, a)[0], KnownDefault(st, env))
    requires forall y :: y in Fellows(st, env) && y != AgentList(st, a)[0] ==> NoDisplay(s1, y)
    ensures !Piles(st, env, DiedGoers(st, env, AgentList(st, a)))
    ensures !Piles(s1, env, DiedGoers(s1, env, AgentList(st, a)[1..]))
  {
    hide Inv, AgentsOk, DestroyVirtual, Receives, KnownDefault, Unshared, NoDisplay, StillReceives, Gives, Numbered, Piles;
    var ids := AgentList(st, a);
    var x := ids[0];
    assert x in ids;
    StillMeans(st, env, s1, x, KnownDefault(st, env));
    var here, there := DiedGoers(st, env, ids), DiedGoers(s1, env, ids[1..]);
    forall y | y in there ensures !Gives(s1, y) { GivesMeans(s1, env, y); }
    NobodyGives(s1, env, there);
    if Piles(st, env, here) {
      DestroyShares(st, env, x);
      ReceivesKnown(st, env);
      ChildrenKnown(st, st.screens[KnownDefault(st, env)].groupId);
      ListedScreen(st, a, x);
      SourceFollowers(st, env, x);
      forall y | y in here && Gives(st, y) ensures y in Goers(st, env, x) { GivesMeans(st, env, y); }
      PilesMono(st, env, here, Goers(st, env, x));
      ListedPlain(st, a, x);
    }
  }

  lemma SourceFollowers(st: State, env: Env, x: ScreenId)
    requires Inv(st) && Receives(st, env) && TakesOver(st, env, x) && KnownDefault(st, env) != x && x in st.screens
    ensures forall y :: y in Fellows(st, env) ==> y in Goers(st, env, x)
  {
    hide KnownDefault;
    var g := st.screens[KnownDefault(st, env)].groupId;
    ReceivesKnown(st, env);
    ChildrenPlainly(st, g);
    GroupedMeans(st, g, x);
    OnlyOneGroup(st, g);
    hide Receives, Inv;
  }

  lemma NotTakenOver(st: State, env: Env, a: AgentId, s1: State)
    requires Inv(st) && Inv(s1) && AgentList(st, a) != [] && Unhooked(st, env, AgentList(st, a)[0], s1)
    requires Receives(st, env) && !TakesOver(st, env, AgentList(st, a)[0]) && KnownDefault(st, env) != AgentList(st, a)[0]
    requires StillReceives(st, env, s1, AgentList(st, a)[0], SourceOf(st, env)) && Unshared(s1.displays)
    ensures Piles(st, env, DiedGoers(st, env, AgentList(st, a))) <==>
              Piles(s1, env, DiedGoers(s1, env, AgentList(st, a)[1..]))
  {
    hide Inv, AgentsOk, Receives, KnownDefault, Unshared, NoDisplay, StillReceives, Gives, Numbered, Piles, Doubled;
    var ids := AgentList(st, a);
    var x, rest := ids[0], ids[1..];
    StillMeans(st, env, s1, x, SourceOf(st, env));
    var there := DiedGoers(s1, env, rest);
    GivesMeans(s1, env, x);
    forall y | y in there && y != x ensures Gives(s1, y) <==> Gives(st, y) {
      GivesMeans(st, env, y);
      GivesMeans(s1, env, y);
    }
    TogetherPile(st, env, x, there, s1);
    PilesOver(st, env, DiedGoers(st, env, ids), {x} + there);
  }

  /** One turn of the loop: what the first screen does, and what the rest then does. */
  lemma DiedTurn(st: State, env: Env, a: AgentId, s1: State)
    requires Inv(st) && Inv(s1) && AgentsOk(st) && Numbered(st) && Unshared(st.displays) && st.callback
    requires AgentList(st, a) != [] && !Refuses(st, AgentList(st, a)[0])
    requires s1 == DestroyVirtual(st, env, AgentList(st, a)[0]).0 && Unshared(s1.displays)
    ensures Piles(st, env, DiedGoers(st, env, AgentList(st, a))) <==>
              Piles(s1, env, DiedGoers(s1, env, AgentList(st, a)[1..]))
  {
    hide Inv, AgentsOk, DestroyVirtual, Receives, KnownDefault, Unshared, NoDisplay, Unhooked, StillReceives, Gives, Numbered;
    var ids := AgentList(st, a);
    var x, rest := ids[0], ids[1..];
    assert x in ids;
    if !Receives(st, env) || KnownDefault(st, env) == x {
      DestroyNot(st, env, a, x);
      if Receives(st, env) { assert DiedGoers(st, env, ids) == {}; }
    } else {
      DestroyReceives(st, env, a, x);
      StillMeans(st, env, s1, x, NextSource(st, env, x));
      if TakesOver(st, env, x) {
        TakenOver(st, env, a, s1);
      } else {
        NotTakenOver(st, env, a, s1);
      }
    }
  }

  /** Two displays on the default stay there through the rest of the loop. */
  lemma {:induction false} DeathPersists(st: State, env: Env, a: AgentId, d: ScreenId)
    requires Inv(st) && AgentsOk(st) && Numbered(st) && OnRemoteDied(st, env, a).Some? && st.defaultRs != SCREEN_ID_INVALID
    requires Receives(st, env) && KnownDefault(st, env) == d && Doubled(st, d)
    ensures Doubled(OnRemoteDied(st, env, a).value, d)
    decreases |AgentList(st, a)|
  {
    hide Inv, AgentsOk, Numbered, DestroyVirtual, Receives, KnownDefault, Doubled, StillReceives;
    if AgentList(st, a) == [] {
      SameDoubled(st, OnRemoteDied(st, env, a).value, d);
    } else {
      var x := AgentList(st, a)[0];
      assert x in AgentList(st, a);
      if Refuses(st, x) { RefusedSpins(st, env, a); }
      NotTheDefault(st, env, x);
      var s1 := DestroyVirtual(st, env, x).0;
      DestroyHead(st, env, a);
      DestroyShares(st, env, x);
      DestroyReceives(st, env, a, x);
      StillMeans(st, env, s1, x, NextSource(st, env, x));
      DestroyDoubled(st, env, a, x, d);
      DeathPersists(s1, env, a, d);
    }
  }

  /** A known default would be refused. */
  lemma NotTheDefault(st: State, env: Env, x: ScreenId)
    requires Inv(st) && st.defaultRs != SCREEN_ID_INVALID && !Refuses(st, x) && Receives(st, env)
    ensures KnownDefault(st, env) != x
  {
    NoInvalid(st);
  }

  lemma DestroyDoubled(st: State, env: Env, a: AgentId, x: ScreenId, d: ScreenId)
    requires Inv(st) && AgentsOk(st) && Numbered(st) && x in AgentList(st, a) && !Refuses(st, x)
    requires Receives(st, env) && KnownDefault(st, env) == d && d != x && Doubled(st, d)
    ensures Doubled(DestroyVirtual(st, env, x).0, d)
  {
    hide Inv, AgentsOk, Disconnect, Disown, Receives, KnownDefault, Leave, LeftBy, Doubled, Numbered;
    var rs := RsOf(st.ids, x);
    var s1 := st.(agents := Disown(st.agents, x));
    AgentsInv(st, s1.agents);
    SameReceives(st, s1, env);
    SameNumbered(st, s1);
    SameDoubled(st, s1, d);
    if x in st.screens {
      ListedScreen(st, a, x);
      ListedPlain(st, a, x);
      var s3, g := DisconnectStages(s1, env, rs, x);
      ReceivesMirror(s1, env);
      LeavePersists(s1, env, x, d);
      LeaveReceives(s1, env, x);
      LeaveNumbered(s1, env, x);
      LeftOrdinary(s1, Leave(s1, env, x), x);
      LeaveShape(s1, env, x);
      ErasedReceives(Leave(s1, env, x), env, x, s3);
      SameNumbered(Leave(s1, env, x), s3);
      SameDoubled(Leave(s1, env, x), s3, d);
      RemirrorPersists(s3, env, g, x, d);
      SameDoubled(Remirror(s3, env, g, x), DestroyVirtual(st, env, x).0, d);
    } else {
      SameDoubled(s1, DestroyVirtual(st, env, x).0, d);
    }
  }

  /** Whoever leaves when x is disconnected goes when the agent dies. */
  lemma GoersDie(st: State, env: Env, ids: seq<ScreenId>)
    requires Inv(st) && Receives(st, env) && ids != [] && ids[0] != KnownDefault(st, env) && ids[0] in st.screens
    ensures forall y :: y in Goers(st, env, ids[0]) ==> y in DiedGoers(st, env, ids)
  {
    hide KnownDefault;
    var x := ids[0];
    ReceivesKnown(st, env);
    if InGroup(st, x) { OneGroup(st, env, x); }
    hide Receives, Inv;
  }

  /** A screen that leaves a mirror group makes the default known. */
  lemma GiverLearns(st: State, env: Env, a: AgentId)
    requires Inv(st) && AgentsOk(st) && Numbered(st) && st.callback && AgentList(st, a) != []
    requires !Refuses(st, AgentList(st, a)[0]) && AgentList(st, a)[0] in st.screens
    requires Piles(st, env, Goers(st, env, AgentList(st, a)[0]))
    ensures DestroyVirtual(st, env, AgentList(st, a)[0]).0.defaultRs != SCREEN_ID_INVALID
  {
    hide Inv, AgentsOk, DestroyVirtual, Numbered, Dropped, NoDisplay;
    var x := AgentList(st, a)[0];
    assert x in AgentList(st, a);
    DestroyHead(st, env, a);
    if st.defaultRs == SCREEN_ID_INVALID {
      ListedScreen(st, a, x);
      PilesNeeds(st, env, Goers(st, env, x));
      ReceivesKnown(st, env);
      NoInvalid(st);
      UnknownDestroy(st, env, a, x);
      UnmappedUnknown(st);
    }
  }

  lemma UnmappedUnknown(st: State)
    requires Inv(st)
    ensures SCREEN_ID_INVALID !in st.ids.rs2Dms
  {
  }

  /** If the first screen shares, it does so for all that goes, and the rest of the loop leaves it so. */
  lemma FirstPiles(st: State, env: Env, a: AgentId, s1: State)
    requires Inv(st) && Inv(s1) && AgentsOk(st) && AgentsOk(s1) && Numbered(st) && Numbered(s1) && Unshared(st.displays)
    requires st.callback && AgentList(st, a) != [] && OnRemoteDied(s1, env, a).Some?
    requires !Refuses(st, AgentList(st, a)[0]) && s1 == DestroyVirtual(st, env, AgentList(st, a)[0]).0
    requires !Unshared(s1.displays)
    ensures Piles(st, env, DiedGoers(st, env, AgentList(st, a)))
    ensures !Unshared(OnRemoteDied(s1, env, a).value.displays)
  {
    hide Inv, AgentsOk, DestroyVirtual, Receives, KnownDefault, Unshared, NoDisplay, StillReceives, Gives, Numbered, Piles,
         OnRemoteDied, Doubled;
    var ids := AgentList(st, a);
    var x := ids[0];
    var d := KnownDefault(st, env);
    assert x in ids;
    DestroyShares(st, env, x);
    ListedScreen(st, a, x);
    UnmappedUnknown(st);
    PilesNeeds(st, env, Goers(st, env, x));
    NobodyPiles(st, env);
    assert x != d;
    GoersDie(st, env, ids);
    PilesMono(st, env, Goers(st, env, x), DiedGoers(st, env, ids));
    DestroyReceives(st, env, a, x);
    StillMeans(st, env, s1, x, NextSource(st, env, x));
    GiverLearns(st, env, a);
    DeathPersists(s1, env, a, d);
    DoubledShares(OnRemoteDied(s1, env, a).value, d);
  }

  /** When the loop ends, two displays are on one screen if and only if those of the screens that go pile up. */
  lemma {:induction false} DeathShares(st: State, env: Env, a: AgentId)
    requires Inv(st) && AgentsOk(st) && Numbered(st) && OnRemoteDied(st, env, a).Some?
    ensures Outcome(st, OnRemoteDied(st, env, a).value, st.callback && Piles(st, env, DiedGoers(st, env, AgentList(st, a))))
    decreases |AgentList(st, a)|
  {
    hide Inv, AgentsOk, Numbered, DestroyVirtual, Piles, Unshared, DiedGoers, Receives, KnownDefault;
    var ids := AgentList(st, a);
    if ids == [] {
      SameNumbered(st, OnRemoteDied(st, env, a).value);
      NoneGoes(st, env);
    } else {
      var x := ids[0];
      assert x in ids;
      if Refuses(st, x) { RefusedSpins(st, env, a); }
      var s1 := DestroyVirtual(st, env, x).0;
      DestroyHead(st, env, a);
      DestroyShares(st, env, x);
      LosesCallback(st, s1, {x});
      DeathShares(s1, env, a);
      if Unshared(st.displays) && st.callback {
        if Unshared(s1.displays) {
          DiedTurn(st, env, a, s1);
        } else {
          FirstPiles(st, env, a, s1);
        }
      }
    }
  }

  lemma NoneGoes(st: State, env: Env)
    ensures !Piles(st, env, DiedGoers(st, env, []))
  {
    hide Receives, KnownDefault, Gives;
  }

  lemma LosesCallback(a: State, b: State, gone: set<ScreenId>)
    requires Loses(a, b, gone)
    ensures b.callback == a.callback
  {
  }
}

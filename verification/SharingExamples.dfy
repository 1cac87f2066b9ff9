/** Two runs from the start that leave two displays on one screen, with one registration and no screen made the
    default while it is: a mirror group founded again for the default, and a display handed over to it. */
module SharingExamples {
  import opened DmTypes
  import opened ScreenState
  import opened ScreenInvariant
  import opened ScreenRuns
  import opened DisplaySharing

  // ---------- A group founded again ----------

  /** The default screen is screen 0, on the only display. */
  ghost predicate Shown(st: State, rs: ScreenId, mode: Mode) {
    && st.defaultRs == rs && rs != SCREEN_ID_INVALID && rs in st.ids.rs2Dms && st.ids.rs2Dms[rs] == 0
    && st.callback && 0 in st.screens && st.screens[0].kind.REAL? && st.screens[0].mode == Some(mode)
    && st.displays.Keys == {0} && st.displays[0].screenId == 0 && st.displayCount == 1
  }

  /** It is the only child of the mirror group 1. */
  ghost predicate ShownAlone(st: State, rs: ScreenId, mode: Mode) {
    && Shown(st, rs, mode) && st.ids.count == 2 && st.ids.rs2Dms.Keys == {rs} && 1 in st.ids.dms2Rs
    && st.screens.Keys == {0, 1} && st.screens[0].groupId == 1 && st.screens[1].IsGroup()
    && st.groups == map[1 := Group(SCREEN_MIRROR, 0, SCREEN_ID_INVALID, {0})]
  }

  /** Screen 2 has joined the group. */
  ghost predicate Joined(st: State, rs: ScreenId, other: ScreenId, mode: Mode, source: ScreenId) {
    && Shown(st, rs, mode) && st.ids.count == 3 && st.ids.rs2Dms == map[rs := 0, other := 2] && rs != other
    && other != SCREEN_ID_INVALID
    && 2 in st.ids.dms2Rs && st.ids.dms2Rs[2] == other
    && st.screens.Keys == {0, 1, 2} && st.screens[0].groupId == 1 && st.screens[1].IsGroup()
    && st.screens[2].kind.REAL? && st.screens[2].groupId == 1
    && st.groups == map[1 := Group(SCREEN_MIRROR, source, SCREEN_ID_INVALID, {0, 2})]
  }

  lemma ConnectAlone(env: Env, mode: Mode)
    requires env.defaultRs != SCREEN_ID_INVALID && env.defaultRs in env.modes && env.modes[env.defaultRs] == mode
    requires !env.expand
    ensures var st := RegisterCallback(Connect(INITIAL, env, env.defaultRs), env);
            ShownAlone(st, env.defaultRs, mode)
  {
    hide CalcRotation, RegisterCallback;
    ConnectFounds(env);
    RegisterFounded(Connect(INITIAL, env, env.defaultRs), env, env.defaultRs);
  }

  lemma OtherJoins(st: State, env: Env, other: ScreenId, mode: Mode)
    requires ShownAlone(st, env.defaultRs, mode) && other !in {env.defaultRs, SCREEN_ID_INVALID} && other in env.modes
    ensures Joined(Connect(st, env, other), env.defaultRs, other, mode, 0)
  {
    hide CalcRotation, OnConnect, SumWidths, Ascending, AddToGroup;
    var s1 := InitScreen(st, env, other).0;
    OtherEnters(s1, env, other, mode);
    var s2 := AddToGroup(s1, env, 2).0;
    assert BuiltIn(s2, env, other, 2) == s2;
    assert Touch(s2, env, 2) == s2;
    assert OnConnect(s2, env, 2) == s2 by { JoinedIdle(s2, env, env.defaultRs, other, mode, 0, 2); }
  }

  lemma OtherEnters(st: State, env: Env, other: ScreenId, mode: Mode)
    requires Shown(st, env.defaultRs, mode) && st.ids.count == 3 && st.ids.rs2Dms == map[env.defaultRs := 0, other := 2]
    requires other !in {env.defaultRs, SCREEN_ID_INVALID} && 2 in st.ids.dms2Rs && st.ids.dms2Rs[2] == other
    requires st.screens.Keys == {0, 1, 2} && st.screens[0].groupId == 1 && st.screens[1].IsGroup()
    requires st.screens[2].kind.REAL?
    requires st.groups == map[1 := Group(SCREEN_MIRROR, 0, SCREEN_ID_INVALID, {0})]
    ensures var (r, g) := AddToGroup(st, env, 2);
            g == 1 && Joined(r, env.defaultRs, other, mode, 0)
  {
    hide SumWidths, Ascending;
    assert GetDefault(st, env) == (st, 0);
    assert {0} + {2} == {0, 2};
    assert AddToGroup(st, env, 2) == (PlaceChild(st, env, 1, 2, ORIGIN), 1);
  }

  lemma JoinedIdle(st: State, env: Env, rs: ScreenId, other: ScreenId, mode: Mode, source: ScreenId, id: ScreenId)
    requires Joined(st, rs, other, mode, source) && id in {0, 2}
    ensures OnConnect(st, env, id) == st && Touch(st, env, id) == st
  {
    hide BindAlone, AddExpand;
    assert 0 in {0, 2} - {2} && |{0, 2}| == 2;
  }

  lemma OnlyValid(st: State, id: ScreenId, main: ScreenId)
    requires id in st.screens && !st.screens[id].IsGroup() && id != main
    ensures ValidIds(st, [id]) == [id] && RemoveFirst([id], main) == [id]
  {
    assert [id][..0] == [] && ValidIds(st, []) == [];
  }

  /** Taken out of the mirror group, the default hands its display to itself. */
  lemma SelfHandover(st: State, env: Env, rs: ScreenId, other: ScreenId, mode: Mode, source: ScreenId)
    requires Joined(st, rs, other, mode, source)
    ensures var r := OnDisconnect(st, env, 0);
            Joined(r, rs, other, mode, source) && r == st.(displays := r.displays)
  {
    assert GetDefault(st, env) == (st, 0);
    assert FirstDisplay(st.displays, 0, 0, 1) == Some(0);
  }

  /** Screen 0 has left, and screen 2 is alone in the group. */
  ghost predicate LeftAlone(st: State, rs: ScreenId, other: ScreenId, mode: Mode) {
    && Shown(st, rs, mode) && st.ids.count == 3 && st.ids.rs2Dms == map[rs := 0, other := 2] && rs != other
    && other != SCREEN_ID_INVALID
    && 2 in st.ids.dms2Rs && st.ids.dms2Rs[2] == other
    && st.screens.Keys == {0, 1, 2} && st.screens[0].groupId == SCREEN_ID_INVALID && st.screens[1].IsGroup()
    && st.screens[2].kind.REAL? && st.screens[2].groupId == 1
    && st.groups == map[1 := Group(SCREEN_MIRROR, 2, SCREEN_ID_INVALID, {2})]
  }

  lemma OtherLeads(st: State, env: Env, rs: ScreenId, other: ScreenId, mode: Mode)
    requires Joined(st, rs, other, mode, 2)
    ensures LeftAlone(StopOne(st, env, 0, SCREEN_MIRROR), rs, other, mode)
    ensures LeftAlone(TakeOutOne(st, env, 1, 0, false), rs, other, mode)
  {
    hide OnDisconnect;
    SelfHandover(st, env, rs, other, mode, 2);
    assert {0, 2} - {0} == {2};
  }

  lemma DefaultLeaves(st: State, env: Env, rs: ScreenId, other: ScreenId, mode: Mode)
    requires Joined(st, rs, other, mode, 2)
    ensures LeftAlone(ServiceStop(st, env, [0], SCREEN_MIRROR), rs, other, mode)
  {
    hide StopOne, ValidIds, RemoveFirst;
    OtherLeads(st, env, rs, other, mode);
    OnlyValid(st, 0, 2);
    assert [0][1..] == [];
  }

  lemma DefaultReturns(st: State, env: Env, rs: ScreenId, other: ScreenId, mode: Mode)
    requires LeftAlone(st, rs, other, mode)
    ensures Joined(PutInOne(st, env, 1, Taken(0, ORIGIN, true)).0, rs, other, mode, 2)
  {
    hide OnConnect, Touch;
    var s1 := AddChild(st, env, 1, 0, ORIGIN).0;
    assert {2} + {0} == {0, 2};
    assert s1 == PlaceChild(st, env, 1, 0, ORIGIN);
    JoinedIdle(s1, env, rs, other, mode, 2, 0);
  }

  lemma OtherTakesOver(st: State, env: Env, rs: ScreenId, other: ScreenId, mode: Mode)
    requires Joined(st, rs, other, mode, 0)
    ensures Joined(ServiceMakeMirror(st, env, 2, [0]).0, rs, other, mode, 2)
  {
    hide ValidIds, RemoveFirst, ChangeScreenGroup;
    OnlyValid(st, 0, 2);
    OtherMoves(st.(groups := st.groups[1 := st.groups[1].(mirrorId := 2)]), env, rs, other, mode);
  }

  lemma OtherMoves(st: State, env: Env, rs: ScreenId, other: ScreenId, mode: Mode)
    requires Joined(st, rs, other, mode, 2)
    ensures Joined(ChangeScreenGroup(st, env, 1, [0], Origins(1), false, SCREEN_MIRROR).0, rs, other, mode, 2)
  {
    hide TakeOutOne, PutInOne, ChangeScreenGroup, Moves, Joined, LeftAlone, InGroup;
    OtherLeads(st, env, rs, other, mode);
    MovesUnfiltered(st, rs, other, mode);
    var s2 := TakeOutOne(st, env, 1, 0, false);
    SameCombination(s2, rs, other, mode);
    ChangeSingle(st, env, 1, 0, false);
    DefaultReturns(s2, env, rs, other, mode);
  }

  lemma SameCombination(st: State, rs: ScreenId, other: ScreenId, mode: Mode)
    requires LeftAlone(st, rs, other, mode)
    ensures 1 in st.groups && st.(groups := st.groups[1 := st.groups[1].(combination := SCREEN_MIRROR)]) == st
  {
  }

  lemma MovesUnfiltered(st: State, rs: ScreenId, other: ScreenId, mode: Mode)
    requires Joined(st, rs, other, mode, 2)
    ensures 0 in st.screens && Moves(st, 1, 0, false) && InGroup(st, 0)
  {
  }

  lemma TakeSingle(st: State, env: Env, g: ScreenId, id: ScreenId, p: Point, filter: bool)
    requires id in st.screens && Moves(st, g, id, filter)
    ensures TakeOut(st, env, g, [id], [p], filter)
            == (TakeOutOne(st, env, g, id, filter), [Taken(id, p, InGroup(st, id))])
  {
    hide TakeOutOne, Moves, InGroup;
    var s1 := TakeOutOne(st, env, g, id, filter);
    var t := Taken(id, p, InGroup(st, id));
    assert [id][1..] == [] && [p][1..] == [] && [t] + [] == [t];
    assert TakeOut(s1, env, g, [id][1..], [p][1..], filter) == (s1, []);
  }

  lemma ChangeSingle(st: State, env: Env, g: ScreenId, id: ScreenId, filter: bool)
    requires id in st.screens && Moves(st, g, id, filter) && g in TakeOutOne(st, env, g, id, filter).groups
    ensures var s1 := TakeOutOne(st, env, g, id, filter);
            var s2 := s1.(groups := s1.groups[g := s1.groups[g].(combination := SCREEN_MIRROR)]);
            ChangeScreenGroup(st, env, g, [id], Origins(1), filter, SCREEN_MIRROR).0
            == PutInOne(s2, env, g, Taken(id, ORIGIN, InGroup(st, id))).0
  {
    hide TakeOutOne, PutInOne, Moves, InGroup, TakeOut;
    assert Origins(1) == [ORIGIN];
    TakeSingle(st, env, g, id, ORIGIN, filter);
    var t := Taken(id, ORIGIN, InGroup(st, id));
    var s1 := TakeOutOne(st, env, g, id, filter);
    var s2 := s1.(groups := s1.groups[g := s1.groups[g].(combination := SCREEN_MIRROR)]);
    var s3 := PutInOne(s2, env, g, t).0;
    assert [t][1..] == [] && PutIn(s3, env, g, []).0 == s3;
    assert PutIn(s2, env, g, [t]).0 == s3;
  }

  /** The other screen unplugs, and no group is left. */
  ghost predicate Ungrouped(st: State, rs: ScreenId, mode: Mode) {
    && Shown(st, rs, mode) && st.ids.count == 3 && st.ids.rs2Dms == map[rs := 0]
    && st.screens.Keys == {0} && st.screens[0].groupId == SCREEN_ID_INVALID && st.groups == map[]
  }

  lemma OtherUnplugs(st: State, env: Env, rs: ScreenId, other: ScreenId, mode: Mode)
    requires LeftAlone(st, rs, other, mode)
    ensures Ungrouped(Disconnect(st, env, other), rs, mode)
  {
    assert GetDefault(st, env) == (st, 0);
    assert FirstDisplay(st.displays, 2, 0, 1) == None;
    assert OnDisconnect(st, env, 2) == st;
    hide OnDisconnect;
    assert {2} - {2} == {};
  }

  /** A virtual screen beside it. */
  ghost predicate Pair(st: State, rs: ScreenId, mode: Mode) {
    && Shown(st, rs, mode) && st.ids.count == 4
    && st.screens.Keys == {0, 3} && st.screens[0].groupId == SCREEN_ID_INVALID && st.groups == map[]
    && st.screens[3].kind.VIRTUAL? && st.screens[3].groupId == SCREEN_ID_INVALID
  }

  lemma VirtualBeside(st: State, env: Env, rs: ScreenId, made: ScreenId, mode: Mode, a: AgentId)
    requires Ungrouped(st, rs, mode) && made !in {rs, SCREEN_ID_INVALID}
    ensures Pair(CreateVirtual(st, env, made, mode, a).0, rs, mode)
  {
  }

  /** Screen 0 founds a group again, and is bound once more. */
  ghost predicate Twice(st: State) {
    && st.displays.Keys == {0, 1} && st.displays[0].screenId == 0 && st.displays[1].screenId == 0
  }

  ghost predicate Refounded(st: State, rs: ScreenId, mode: Mode) {
    && st.defaultRs == rs && rs != SCREEN_ID_INVALID && rs in st.ids.rs2Dms && st.ids.rs2Dms[rs] == 0
    && st.screens.Keys == {0, 3, 4} && st.screens[0].groupId == 4 && st.screens[3].groupId == SCREEN_ID_INVALID
    && st.groups.Keys == {4} && st.groups[4].combination.SCREEN_MIRROR? && st.groups[4].children == {0}
    && st.groups[4].mirrorId == 0 && st.screens[3].kind.VIRTUAL? && Twice(st)
  }

  lemma FoundAgain(st: State, env: Env, rs: ScreenId, mode: Mode)
    requires Pair(st, rs, mode) && !env.expand
    ensures var (r, g) := MirrorGroup(st, env, 0);
            g == 4 && Refounded(r, rs, mode)
  {
    hide OnConnect;
    var (s1, g) := AddAsFirst(st, env, 0);
    assert g == 4 && Touch(s1, env, 0) == s1;
    assert s1.groups.Keys == {4} && s1.groups[4].children == {0} && s1.screens[0].groupId == 4;
    BoundAgain(s1, env, rs, mode);
  }

  lemma BoundAgain(st: State, env: Env, rs: ScreenId, mode: Mode)
    requires Shown(st, rs, mode) && st.screens[0].groupId in st.groups && st.groups[st.screens[0].groupId].children == {0}
    ensures var r := OnConnect(st, env, 0);
            r == st.(displays := r.displays, displayCount := r.displayCount) && Twice(r)
  {
    assert GetDefault(st, env) == (st, 0);
  }

  lemma PairMirrors(st: State, env: Env, rs: ScreenId, mode: Mode)
    requires Pair(st, rs, mode) && !env.expand
    ensures Twice(ServiceMakeMirror(st, env, 0, [3]).0)
  {
    hide MirrorGroup, ValidIds, RemoveFirst, ChangeScreenGroup, Moves, TakeOutOne, PutInOne;
    OnlyValid(st, 3, 0);
    FoundAgain(st, env, rs, mode);
    var s1 := MirrorGroup(st, env, 0).0;
    SecondJoins(s1, env, rs, mode);
    assert s1.(groups := s1.groups[4 := s1.groups[4].(mirrorId := 0)]) == s1;
  }

  lemma SecondJoins(st: State, env: Env, rs: ScreenId, mode: Mode)
    requires Refounded(st, rs, mode)
    ensures var filter := st.groups[4].combination.SCREEN_MIRROR? && st.groups[4].mirrorId == 0;
            Twice(ChangeScreenGroup(st, env, 4, [3], Origins(1), filter, SCREEN_MIRROR).0)
  {
    hide ChangeScreenGroup, TakeOutOne, PutInOne;
    assert TakeOutOne(st, env, 4, 3, true) == st by { LonerStays(st, env, rs, mode); }
    ChangeSingle(st, env, 4, 3, true);
    assert st.(groups := st.groups[4 := st.groups[4].(combination := SCREEN_MIRROR)]) == st;
    LonerEnters(st, env, rs, mode, Taken(3, ORIGIN, InGroup(st, 3)));
  }

  lemma LonerStays(st: State, env: Env, rs: ScreenId, mode: Mode)
    requires Refounded(st, rs, mode)
    ensures TakeOutOne(st, env, 4, 3, true) == st
  {
  }

  lemma LonerEnters(st: State, env: Env, rs: ScreenId, mode: Mode, t: Taken)
    requires Refounded(st, rs, mode) && t.id == 3
    ensures Twice(PutInOne(st, env, 4, t).0)
  {
    hide GetDefault, BindAlone, AddExpand;
    assert GetDefault(st, env) == (st, 0) by { LookupIdle(st, env, rs); }
    var s1 := AddChild(st, env, 4, 3, t.at).0;
    assert s1.displays == st.displays;
    assert 0 in s1.groups[4].children && 3 in s1.groups[4].children;
    LookupIdle(s1, env, rs);
  }

  lemma LookupIdle(st: State, env: Env, rs: ScreenId)
    requires st.defaultRs == rs && rs != SCREEN_ID_INVALID && rs in st.ids.rs2Dms
    ensures GetDefault(st, env) == (st, st.ids.rs2Dms[rs])
  {
  }

  /** The default is mirrored by another screen, which is stopped and unplugged; mirrored by a virtual screen,
      it founds a group again and gets a second display. */
  lemma FoundedAgain(env: Env, other: ScreenId, made: ScreenId, mode: Mode, a: AgentId)
    requires env.defaultRs != SCREEN_ID_INVALID && env.defaultRs in env.modes && env.modes[env.defaultRs] == mode
    requires !env.expand && other in env.modes && other !in {env.defaultRs, SCREEN_ID_INVALID}
    requires made !in {env.defaultRs, SCREEN_ID_INVALID}
    ensures var st := Run(INITIAL, AllIn(env, [
                OpConnect(env.defaultRs), OpRegister, OpConnect(other), OpMakeMirror(2, [0]), OpStop([0], SCREEN_MIRROR),
                OpDisconnect(other), OpCreateVirtual(made, mode, a)]));
            Unshared(st.displays) && !Unshared(Step(st, env, OpMakeMirror(0, [3])).displays)
  {
    hide Run, AllIn, Shown, ShownAlone, Joined, LeftAlone, Ungrouped, Pair, Twice, Unshared;
    hide Connect, RegisterCallback, ServiceMakeMirror, ServiceStop, Disconnect, CreateVirtual;
    var rs := env.defaultRs;
    var ops := [OpConnect(rs), OpRegister, OpConnect(other), OpMakeMirror(2, [0]), OpStop([0], SCREEN_MIRROR),
                OpDisconnect(other), OpCreateVirtual(made, mode, a)];
    var s1 := Connect(INITIAL, env, rs);
    var s2 := RegisterCallback(s1, env);
    var s3 := Connect(s2, env, other);
    var s4 := ServiceMakeMirror(s3, env, 2, [0]).0;
    var s5 := ServiceStop(s4, env, [0], SCREEN_MIRROR);
    var s6 := Disconnect(s5, env, other);
    var s7 := CreateVirtual(s6, env, made, mode, a).0;
    InTurn(INITIAL, env, ops, 0);
    InTurn(s1, env, ops, 1);
    InTurn(s2, env, ops, 2);
    InTurn(s3, env, ops, 3);
    InTurn(s4, env, ops, 4);
    InTurn(s5, env, ops, 5);
    InTurn(s6, env, ops, 6);
    InTurn(s7, env, ops, 7);
    ConnectAlone(env, mode);
    OtherJoins(s2, env, other, mode);
    OtherTakesOver(s3, env, rs, other, mode);
    DefaultLeaves(s4, env, rs, other, mode);
    OtherUnplugs(s5, env, rs, other, mode);
    VirtualBeside(s6, env, rs, made, mode, a);
    PairMirrors(s7, env, rs, mode);
    PairUnshared(s7, rs, mode);
    TwiceShares(ServiceMakeMirror(s7, env, 0, [3]).0);
  }

  lemma PairUnshared(st: State, rs: ScreenId, mode: Mode)
    requires Pair(st, rs, mode)
    ensures Unshared(st.displays)
  {
  }

  lemma TwiceShares(st: State)
    requires Twice(st)
    ensures !Unshared(st.displays)
  {
  }

  // ---------- A display handed over ----------

  /** Screen 0 is virtual, on display 0, and in no group. */
  ghost predicate Dropped(st: State, rs: ScreenId) {
    && st.defaultRs == rs && rs != SCREEN_ID_INVALID && st.ids == Ids(2, map[0 := rs, 1 := SCREEN_ID_INVALID], map[rs := 0])
    && st.callback && st.screens.Keys == {0} && st.screens[0].kind.VIRTUAL? && st.screens[0].mode.Some?
    && st.screens[0].groupId == SCREEN_ID_INVALID
    && st.groups == map[] && st.displays.Keys == {0} && st.displays[0].screenId == 0 && st.displayCount == 1
  }

  lemma ChosenDrops(st: State, env: Env, rs: ScreenId)
    requires Mirroring(st) && st.ids == Ids(2, map[0 := rs, 1 := SCREEN_ID_INVALID], map[rs := 0]) && st.defaultRs == rs
    requires st.screens.Keys == {0, 1} && st.groups[1].children == {0} && rs != SCREEN_ID_INVALID
    requires st.screens[0].kind.VIRTUAL? && st.screens[0].mode.Some?
    ensures Dropped(RemoveVirtual(st, env, [0]), rs)
  {
    assert {0} - {0} == {};
    assert FirstDisplay(st.displays, 0, 0, 1) == Some(0);
    assert RemoveVirtual(st, env, [0]) == RemoveVirtual(RemoveVirtualOne(st, env, 0), env, []);
  }

  /** A second virtual screen, which has the display other, as source of the group 3. */
  ghost predicate Rivals(st: State, rs: ScreenId, other: ScreenId) {
    && rs !in {other, SCREEN_ID_INVALID} && other != SCREEN_ID_INVALID && st.callback
    && st.ids.rs2Dms == map[rs := 0, other := 2] && RsOf(st.ids, 0) == rs
    && 0 in st.screens && 2 in st.screens && st.screens[0].kind.VIRTUAL? && st.screens[0].mode.Some?
    && st.screens[2].kind.VIRTUAL? && st.screens[2].groupId == 3
    && st.groups.Keys == {3} && st.groups[3].combination.SCREEN_MIRROR? && st.groups[3].mirrorId == 2
    && st.displays.Keys == {0, 1} && st.displays[0].screenId == 0 && st.displays[1].screenId == 2 && st.displayCount == 2
  }

  lemma RivalFounds(st: State, env: Env, rs: ScreenId, other: ScreenId, mode: Mode, a: AgentId)
    requires Dropped(st, rs) && other !in {rs, SCREEN_ID_INVALID} && !env.expand
    ensures var r := SetVirtualAsDefault(CreateVirtual(st, env, other, mode, a).0, env, 2).0;
            && Rivals(r, rs, other) && r.defaultRs == other && r.groups[3].children == {2}
            && r.screens[0].groupId !in r.groups
  {
    hide Disown, AddAsFirst, OnConnect;
    var s1 := CreateVirtual(st, env, other, mode, a).0;
    RivalAlone(s1, env, rs, other);
    var s2 := AddAsFirst(s1, env, 2).0;
    assert Touch(s2, env, 2) == s2;
    RivalBinds(s2.(defaultRs := other, agents := Disown(s2.agents, 2)), env, rs, other);
  }

  /** The second screen on its own, before and in its group. */
  ghost predicate Rising(st: State, rs: ScreenId, other: ScreenId) {
    && rs !in {other, SCREEN_ID_INVALID} && other != SCREEN_ID_INVALID && st.callback
    && st.ids.rs2Dms == map[rs := 0, other := 2] && RsOf(st.ids, 0) == rs && RsOf(st.ids, 2) == other
    && 0 in st.screens && 2 in st.screens && st.screens[0].kind.VIRTUAL? && st.screens[0].mode.Some?
    && st.screens[0].groupId == SCREEN_ID_INVALID && st.screens[2].kind.VIRTUAL? && st.screens[2].mode.Some?
    && st.displays.Keys == {0} && st.displays[0].screenId == 0 && st.displayCount == 1
  }

  lemma RivalAlone(st: State, env: Env, rs: ScreenId, other: ScreenId)
    requires Rising(st, rs, other) && st.groups == map[] && st.ids.count == 3 && !env.expand
    ensures var (r, g) := AddAsFirst(st, env, 2);
            && g == 3 && Rising(r, rs, other) && r.screens[2].groupId == 3
            && r.groups == map[3 := Group(SCREEN_MIRROR, 2, SCREEN_ID_INVALID, {2})] && r.defaultRs == st.defaultRs
  {
    var none: set<ScreenId> := {};
    assert none + {2} == {2};
    var r := AddAsFirst(st, env, 2).0;
    assert r.groups.Keys == {3} && r.groups[3] == Group(SCREEN_MIRROR, 2, SCREEN_ID_INVALID, {2});
  }

  lemma RivalBinds(st: State, env: Env, rs: ScreenId, other: ScreenId)
    requires Rising(st, rs, other) && st.screens[2].groupId == 3 && st.defaultRs == other
    requires st.groups == map[3 := Group(SCREEN_MIRROR, 2, SCREEN_ID_INVALID, {2})]
    ensures var r := OnConnect(st, env, 2);
            && Rivals(r, rs, other) && r.defaultRs == other && r.groups[3].children == {2}
            && r.screens[0].groupId !in r.groups
  {
    assert GetDefault(st, env) == (st, 2);
  }

  lemma FirstReturns(st: State, env: Env, rs: ScreenId, other: ScreenId)
    requires Rivals(st, rs, other) && st.defaultRs == other && st.groups[3].children == {2}
    ensures var r := SetVirtualAsDefault(st, env, 0).0;
            && Rivals(r, rs, other) && r.defaultRs == rs && r.groups[3].children == {0, 2} && r.screens[0].groupId == 3
  {
    hide Disown, BindAlone, AddExpand, SumWidths, Ascending;
  }

  lemma RivalHandsOver(st: State, env: Env, rs: ScreenId, other: ScreenId)
    requires Rivals(st, rs, other) && st.defaultRs == rs && st.groups[3].children == {0, 2} && st.screens[0].groupId == 3
    ensures Twice(RemoveVirtual(st, env, [2]))
  {
    assert GetDefault(st, env) == (st, 0);
    assert FirstDisplay(st.displays, 2, 0, 2) == Some(1);
    assert RemoveVirtual(st, env, [2]) == RemoveVirtual(RemoveVirtualOne(st, env, 2), env, []);
  }

  /** A virtual default leaves its group and keeps its display; another founds a group and gets the second; the
      first becomes the default in that group; and the other leaves. */
  lemma HandedOver(env: Env, rs: ScreenId, other: ScreenId, mode: Mode, a: AgentId)
    requires env.defaultRs == SCREEN_ID_INVALID && !env.expand
    requires rs != SCREEN_ID_INVALID && other !in {rs, SCREEN_ID_INVALID}
    ensures var st := Run(INITIAL, AllIn(env, [
                OpRegister, OpCreateVirtual(rs, mode, a), OpSetVirtualAsDefault(0), OpRemoveVirtual([0]),
                OpCreateVirtual(other, mode, a), OpSetVirtualAsDefault(2), OpSetVirtualAsDefault(0)]));
            Unshared(st.displays) && !Unshared(Step(st, env, OpRemoveVirtual([2])).displays)
  {
    hide Run, AllIn, Unshared;
    hide RegisterCallback, CreateVirtual, SetVirtualAsDefault, RemoveVirtual;
    var ops := [OpRegister, OpCreateVirtual(rs, mode, a), OpSetVirtualAsDefault(0), OpRemoveVirtual([0]),
                OpCreateVirtual(other, mode, a), OpSetVirtualAsDefault(2), OpSetVirtualAsDefault(0)];
    var s1 := RegisterCallback(INITIAL, env);
    var s2 := CreateVirtual(s1, env, rs, mode, a).0;
    var s3 := SetVirtualAsDefault(s2, env, 0).0;
    var s4 := RemoveVirtual(s3, env, [0]);
    var s5 := CreateVirtual(s4, env, other, mode, a).0;
    var s6 := SetVirtualAsDefault(s5, env, 2).0;
    var s7 := SetVirtualAsDefault(s6, env, 0).0;
    InTurn(INITIAL, env, ops, 0);
    InTurn(s1, env, ops, 1);
    InTurn(s2, env, ops, 2);
    InTurn(s3, env, ops, 3);
    InTurn(s4, env, ops, 4);
    InTurn(s5, env, ops, 5);
    InTurn(s6, env, ops, 6);
    InTurn(s7, env, ops, 7);
    InTheEnd(env, rs, other, mode, a);
  }

  /** The same, operation by operation. */
  lemma InTheEnd(env: Env, rs: ScreenId, other: ScreenId, mode: Mode, a: AgentId)
    requires env.defaultRs == SCREEN_ID_INVALID && !env.expand
    requires rs != SCREEN_ID_INVALID && other !in {rs, SCREEN_ID_INVALID}
    ensures var s2 := CreateVirtual(RegisterCallback(INITIAL, env), env, rs, mode, a).0;
            var s4 := RemoveVirtual(SetVirtualAsDefault(s2, env, 0).0, env, [0]);
            var s6 := SetVirtualAsDefault(CreateVirtual(s4, env, other, mode, a).0, env, 2).0;
            var s7 := SetVirtualAsDefault(s6, env, 0).0;
            Unshared(s7.displays) && !Unshared(RemoveVirtual(s7, env, [2]).displays)
  {
    hide Loner, Dropped, Rivals, Twice, Unshared, RegisterCallback, CreateVirtual, SetVirtualAsDefault, RemoveVirtual;
    var s2 := CreateVirtual(RegisterCallback(INITIAL, env), env, rs, mode, a).0;
    var s3 := SetVirtualAsDefault(s2, env, 0).0;
    var s4 := RemoveVirtual(s3, env, [0]);
    var s6 := SetVirtualAsDefault(CreateVirtual(s4, env, other, mode, a).0, env, 2).0;
    var s7 := SetVirtualAsDefault(s6, env, 0).0;
    CreateLoner(env, rs, mode, a);
    ChooseMirrors(s2, env, rs, mode);
    ChosenDrops(s3, env, rs);
    RivalFounds(s4, env, rs, other, mode, a);
    FirstReturns(s6, env, rs, other);
    RivalsUnshared(s7, rs, other);
    RivalHandsOver(s7, env, rs, other);
    TwiceShares(RemoveVirtual(s7, env, [2]));
  }

  lemma RivalsUnshared(st: State, rs: ScreenId, other: ScreenId)
    requires Rivals(st, rs, other)
    ensures Unshared(st.displays)
  {
  }
}

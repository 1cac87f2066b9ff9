/** The displays that the connect callback makes: for which screens, of what size, and where. */
module DisplayPlaces {
  import opened DmTypes
  import opened ScreenState
  import opened ScreenInvariant
  import opened ScreenRuns
  import opened GroupChanges
  import opened ExpandDisplays
  import opened DisplaySharing
  import SharingSteps
  import ExpandTiling
  import ExpandRoundTrip
  import DefaultScreen

  // ---------- The connect callback ----------

  /** A display of the screen, turned like it, for this mode and at this place. */
  function DisplayOf(id: ScreenId, s: Screen, m: Mode, p: Point): Display {
    Display(id, s.groupId, p, RotatedWidth(m, s.rotation), RotatedHeight(m, s.rotation), s.rotation, s.orientation)
  }

  lemma CreateMakes(st: State, id: ScreenId, m: Mode, p: Point)
    requires id in st.screens
    ensures CreateDisplay(st, id, m, p) ==
              st.(displays := st.displays[st.displayCount := DisplayOf(id, st.screens[id], m, p)],
                  displayCount := st.displayCount + 1)
  {
  }

  /** The mode of the default screen, which a lookup may still connect. */
  function DefaultMode(st: State, env: Env): Option<Mode> {
    var d, rs := KnownDefault(st, env), Learn(st, env).defaultRs;
    if d in st.screens then st.screens[d].mode
    else if !Settled(st, env) && rs in env.modes then Some(env.modes[rs]) else None
  }

  /** The mode of the display that the screen is due, if it is due one: alone in its group it must be the default;
      with others in an expand group it must have none yet, and if it is virtual it takes the mode of the default. */
  ghost function DueMode(st: State, env: Env, id: ScreenId): Option<Mode>
    requires id in st.screens && st.screens[id].groupId in st.groups
  {
    var s, grp := st.screens[id], st.groups[st.screens[id].groupId];
    if |grp.children| == 1 then (if KnownDefault(st, env) == id then s.mode else None)
    else if grp.combination.SCREEN_MIRROR? || !NoDisplay(st, id) then None
    else if s.kind.VIRTUAL? then DefaultMode(st, env)
    else s.mode
  }

  /** A screen alone in its group gets its display at the origin, one of several where it starts itself. */
  function DuePlace(st: State, id: ScreenId): Point
    requires id in st.screens && st.screens[id].groupId in st.groups
  {
    if |st.groups[st.screens[id].groupId].children| == 1 then ORIGIN else st.screens[id].start
  }

  /** The displays with the one that the screen is due. */
  ghost function WithDue(st: State, env: Env, id: ScreenId): map<DisplayId, Display>
    requires id in st.screens && st.screens[id].groupId in st.groups
  {
    var m := DueMode(st, env, id);
    if m.None? then st.displays
    else st.displays[st.displayCount := DisplayOf(id, st.screens[id], m.value, DuePlace(st, id))]
  }

  lemma LookupMode(st: State, env: Env)
    requires Inv(st) && st.groups != map[]
    ensures var (s1, d) := GetDefault(st, env);
            DefaultMode(st, env) == if d in s1.screens then s1.screens[d].mode else None
  {
    var (s1, d) := GetDefault(st, env);
    LookupInv(st, env);
    NoInvalid(st);
    if KnownDefault(st, env) in st.screens {
      LookupFinds(st, env, KnownDefault(st, env));
      hide GetDefault, Inv;
    } else if !Settled(st, env) {
      LearnInv(st, env);
      FoundMode(Learn(st, env), env);
      NoInvalid(s1);
      hide ConnectDefault, Inv;
    } else {
      NoInvalid(s1);
      hide Inv;
    }
  }

  lemma FoundMode(st: State, env: Env)
    requires Inv(st) && st.groups != map[] && st.defaultRs != SCREEN_ID_INVALID && st.defaultRs !in st.ids.rs2Dms
    ensures var r := ConnectDefault(st, env);
            var d := DmsOf(r.ids, st.defaultRs);
            && r.defaultRs == st.defaultRs
            && (st.defaultRs in env.modes ==> d in r.screens && r.screens[d].mode == Some(env.modes[st.defaultRs]))
            && (st.defaultRs !in env.modes ==> d == SCREEN_ID_INVALID)
  {
    InitScreenInv(st, env, st.defaultRs);
    hide Inv, Extends, InitScreen;
  }

  /** What the connect callback does, in full: the displays get the one that is due, and a lookup may connect the
      default screen, which joins no group. */
  lemma OnConnectMakes(st: State, env: Env, id: ScreenId)
    requires Inv(st) && id in st.screens && st.screens[id].groupId in st.groups
    requires forall k :: k in st.displays ==> k < st.displayCount
    ensures var r := OnConnect(st, env, id);
            && r.displays == WithDue(st, env, id)
            && r.displayCount == st.displayCount + (if DueMode(st, env, id).Some? then 1 else 0)
            && SameGrouping(st, r) && r.callback == st.callback
  {
    hide Inv, BindAlone, BindExpand, DefaultMode, FirstDisplay, KnownDefault, Evolves, Extends, DisplayOf;
    OnConnectInv(st, env, id);
    BindAloneMakes(st, env, id);
    BindExpandMakes(st, env, id);
    AddExpandChecks(st, id);
    hide NoDisplay, SameGrouping;
  }

  lemma AddExpandChecks(st: State, id: ScreenId)
    requires forall k :: k in st.displays ==> k < st.displayCount
    ensures FirstDisplay(st.displays, id, 0, st.displayCount).None? <==> NoDisplay(st, id)
  {
    FirstFinds(st.displays, id, 0, st.displayCount);
    hide FirstDisplay;
  }

  lemma BindAloneMakes(st: State, env: Env, id: ScreenId)
    requires Inv(st) && id in st.screens && st.groups != map[]
    ensures var r := BindAlone(st, env, id);
            var s := st.screens[id];
            && r.callback == st.callback
            && if KnownDefault(st, env) == id && s.mode.Some?
               then r.displays == st.displays[st.displayCount := DisplayOf(id, s, s.mode.value, ORIGIN)]
                    && r.displayCount == st.displayCount + 1
               else r.displays == st.displays && r.displayCount == st.displayCount
  {
    LookupInv(st, env);
    LookupFinds(st, env, id);
    NoInvalid(st);
    var (s1, d) := GetDefault(st, env);
    assert s1.displays == st.displays && s1.displayCount == st.displayCount && s1.screens[id] == st.screens[id];
    hide Inv, GetDefault, CreateDisplay, KnownDefault, Evolves, Extends;
    if st.screens[id].mode.Some? {
      CreateMakes(s1, id, st.screens[id].mode.value, ORIGIN);
    }
  }

  lemma BindExpandMakes(st: State, env: Env, id: ScreenId)
    requires Inv(st) && id in st.screens && st.groups != map[]
    ensures var r := BindExpand(st, env, id);
            var s := st.screens[id];
            var m := if s.kind.VIRTUAL? then DefaultMode(st, env) else s.mode;
            && r.callback == st.callback
            && if m.Some?
               then r.displays == st.displays[st.displayCount := DisplayOf(id, s, m.value, s.start)]
                    && r.displayCount == st.displayCount + 1
               else r.displays == st.displays && r.displayCount == st.displayCount
  {
    LookupInv(st, env);
    LookupMode(st, env);
    var (s1, d) := GetDefault(st, env);
    assert s1.displays == st.displays && s1.displayCount == st.displayCount && s1.screens[id] == st.screens[id];
    var m := if st.screens[id].kind.VIRTUAL? then DefaultMode(st, env) else st.screens[id].mode;
    hide Inv, GetDefault, CreateDisplay, DefaultMode, Evolves, Extends;
    if m.Some? {
      CreateMakes(s1, id, m.value, st.screens[id].start);
    }
  }

  // ---------- Registering ----------

  /** b has all displays of a, and its new ones are numbered in the order of the screens they show, all of them in ids. */
  ghost predicate InOrder(a: State, b: State, ids: seq<ScreenId>) {
    && a.displayCount <= b.displayCount
    && (forall k :: k in a.displays ==> k in b.displays && b.displays[k] == a.displays[k])
    && (forall k :: k in b.displays && k !in a.displays ==>
          a.displayCount <= k < b.displayCount && b.displays[k].screenId in ids)
    && (forall j, k :: j in b.displays && j !in a.displays && k in b.displays && k !in a.displays && j < k ==>
          b.displays[j].screenId < b.displays[k].screenId)
  }

  lemma OneInOrder(st: State, env: Env, id: ScreenId)
    requires Inv(st) && Numbered(st) && id in st.screens
    ensures InOrder(st, OnConnect(st, env, id), [id]) && Numbered(OnConnect(st, env, id))
  {
    OnConnectInv(st, env, id);
    OnConnectRetains(st, env, id);
    if st.screens[id].groupId in st.groups {
      OnConnectMakes(st, env, id);
      hide Inv, OnConnect, DueMode, Evolves, Extends, SameGrouping;
    }
  }

  lemma InOrderTrans(a: State, b: State, c: State, id: ScreenId, rest: seq<ScreenId>)
    requires Numbered(a) && InOrder(a, b, [id]) && InOrder(b, c, rest) && forall x :: x in rest ==> id < x
    ensures InOrder(a, c, [id] + rest)
  {
  }

  /** A registration numbers the displays it makes in the order of the ids of their screens. */
  lemma {:induction false} ConnectEachInOrder(st: State, env: Env, ids: seq<ScreenId>)
    requires Inv(st) && Numbered(st) && forall i, j :: 0 <= i < j < |ids| ==> ids[i] < ids[j]
    ensures InOrder(st, ConnectEach(st, env, ids), ids)
    decreases |ids|
  {
    hide Inv, OnConnect, InOrder, Numbered, Evolves, Extends, SameGrouping;
    if ids == [] {
      assert InOrder(st, st, ids) by { SelfInOrder(st); }
    } else {
      var id, rest := ids[0], ids[1..];
      var s1 := if id in st.screens then OnConnect(st, env, id) else st;
      if id in st.screens {
        OnConnectInv(st, env, id);
        OneInOrder(st, env, id);
      } else {
        SelfInOrder(st);
        MoreInOrder(st, id);
      }
      forall x | x in rest ensures id < x {
        var i :| 0 <= i < |rest| && rest[i] == x;
        assert ids[i + 1] == x;
      }
      ConnectEachInOrder(s1, env, rest);
      InOrderTrans(st, s1, ConnectEach(s1, env, rest), id, rest);
      assert ids == [id] + rest;
    }
  }

  lemma SelfInOrder(st: State)
    ensures InOrder(st, st, [])
  {
  }

  lemma MoreInOrder(st: State, id: ScreenId)
    ensures InOrder(st, st, [id])
  {
  }

  // ---------- A new screen ----------

  /** A further screen is placed behind the children of the group as they are before the lookup. */
  lemma SucceedPlaces(st: State, env: Env, id: ScreenId)
    requires Inv(st) && st.groups != map[] && Loose(st, id)
    ensures var (r, g) := AddAsSuccedent(st, env, id);
            g != SCREEN_ID_INVALID ==>
              g in st.groups && id in r.screens && r.screens[id] == WithNode(st.screens[id], env, g, PlaceBehind(st, g))
              && r.groups == st.groups[g := st.groups[g].(children := st.groups[g].children + {id},
                                                           mirrorId := r.groups[g].mirrorId)]
              && (st.groups[g].combination.SCREEN_EXPAND? ==> r.groups[g].mirrorId == st.groups[g].mirrorId)
  {
    hide Inv, GetDefault, AddChild, KnownDefault, WithNode, Evolves;
    var (s1, d) := GetDefault(st, env);
    LookupInv(st, env);
    LookupGrouped(st, env);
    NoInvalidGroup(st);
    if d in s1.screens && s1.screens[d].groupId in s1.groups {
      var g := s1.screens[d].groupId;
      SamePlace(st, s1, g);
      LooseLater(st, s1, id);
      AddChildPlaces(s1, env, g, id, PlaceBehind(s1, g));
    }
  }

  lemma LooseLater(a: State, b: State, id: ScreenId)
    requires Extends(a, b) && Loose(a, id)
    ensures Loose(b, id) && b.screens[id] == a.screens[id]
  {
  }

  lemma AddChildPlaces(st: State, env: Env, g: ScreenId, id: ScreenId, p: Point)
    requires Inv(st) && g in st.groups && Loose(st, id)
    ensures var r := AddChild(st, env, g, id, p).0;
            && id in r.screens && r.screens[id] == WithNode(st.screens[id], env, g, p)
            && r.groups == st.groups[g := st.groups[g].(children := st.groups[g].children + {id},
                                                         mirrorId := r.groups[g].mirrorId)]
            && (st.groups[g].combination.SCREEN_EXPAND? ==> r.groups[g].mirrorId == st.groups[g].mirrorId)
  {
    AddChildNew(st, env, g, id, p);
    NodeConfigInv(st, env, g, id);
    assert st.groups[g].combination.SCREEN_EXPAND? ==> NodeConfig(st, env, g, id) == st;
    hide Inv, AddChild, NodeConfig, WithNode, Evolves, Extends;
  }

  lemma SamePlace(a: State, b: State, g: ScreenId)
    requires Inv(a) && Extends(a, b) && g in a.groups
    ensures PlaceBehind(b, g) == PlaceBehind(a, g)
  {
    assert GroupOk(a, g);
    var order := Ascending(a.groups[g].children);
    assert forall i :: 0 <= i < |order| ==> order[i] in a.groups[g].children;
    hide Inv, Ascending;
    ExpandTiling.SumSame(b.screens, a.screens, order);
  }

  /** The group that a new screen joins, judged before it connects: a new one if there is none, or else that of the
      default screen. */
  function NewTarget(st: State, env: Env): Option<ScreenId> {
    var d := KnownDefault(st, env);
    if st.groups == map[] then Some(st.ids.count + 1)
    else if d in st.screens && st.screens[d].groupId in st.groups then Some(st.screens[d].groupId)
    else None
  }

  /** The place of a new screen, judged before it connects. */
  function NewPlace(st: State, env: Env): Point {
    var t := NewTarget(st, env);
    if t.Some? && t.value in st.groups then PlaceBehind(st, t.value) else ORIGIN
  }

  /** A screen that has just connected: real, with the mode that the render service gives it, in the group if there
      is one for it. With a display node it is at that place; and the built-in panel, if it has one, is turned as
      configured. */
  predicate Newcomer(s: Screen, env: Env, rs: ScreenId, g: Option<ScreenId>, p: Point)
    requires rs in env.modes
  {
    && s.rsId == rs && s.kind.REAL? && s.mode == Some(env.modes[rs]) && s.lastGroupId == SCREEN_ID_INVALID
    && s.groupId == (if g.Some? then g.value else SCREEN_ID_INVALID)
    && (s.hasNode <==> g.Some? && rs !in env.noNode)
    && s.start == (if s.hasNode then p else ORIGIN)
    && if s.hasNode && rs == env.defaultRs
       then s.requested == env.builtIn && s.orientation == env.builtIn && Suits(s.rotation, s.mode, env.builtIn)
       else s.requested == UNSPECIFIED && s.orientation == UNSPECIFIED && s.rotation == ROTATION_0
  }

  /** The new screen gets a display if the callback is registered and it is the first child and the default, or a
      further child of an expand group. */
  predicate NewShown(st: State, env: Env, rs: ScreenId) {
    var t := NewTarget(st, env);
    st.callback && t.Some? &&
    if t.value in st.groups then st.groups[t.value].combination.SCREEN_EXPAND? else Learn(st, env).defaultRs == rs
  }

  lemma BuiltInTurns(st: State, env: Env, rs: ScreenId, id: ScreenId, g: ScreenId, p: Point)
    requires id in st.screens && rs in env.modes
    requires st.screens[id] == WithNode(NewScreen(rs, REAL, Some(env.modes[rs])), env, g, p)
    ensures var r := BuiltIn(st, env, rs, id);
            && id in r.screens && Newcomer(r.screens[id], env, rs, Some(g), p)
            && r == st.(screens := st.screens[id := r.screens[id]])
  {
    OnlySuits(CalcRotation(Some(env.modes[rs]), env.builtIn), Some(env.modes[rs]), env.builtIn);
    hide CalcRotation, Suits;
  }

  /** What the joined screen, turned, leaves when it is touched and called back. */
  lemma JoinedShown(st: State, env: Env, id: ScreenId)
    requires Inv(st) && id in st.screens && st.screens[id].groupId in st.groups
    requires forall k :: k in st.displays ==> k < st.displayCount
    ensures var s3 := Touch(st, env, id);
            var r := if s3.callback then OnConnect(s3, env, id) else s3;
            && s3.callback == st.callback && SameGrouping(st, r) && Evolves(st, r) && st.displayCount <= r.displayCount
            && r.displays == if st.callback then WithDue(st, env, id) else st.displays
  {
    var s3 := Touch(st, env, id);
    TouchInv(st, env, id);
    hide Inv, Evolves, Touch, OnConnect, WithDue;
    assert s3.displays == st.displays && s3.displayCount == st.displayCount && s3.callback == st.callback;
    hide Extends;
    if s3.callback {
      OnConnectMakes(s3, env, id);
      OnConnectInv(s3, env, id);
      EvolvesTrans(st, s3, OnConnect(s3, env, id));
      TouchedDue(st, env, id);
    }
  }

  lemma TouchedDue(st: State, env: Env, id: ScreenId)
    requires Inv(st) && id in st.screens && st.screens[id].groupId in st.groups
    ensures var s3 := Touch(st, env, id);
            && id in s3.screens && s3.screens[id].groupId in s3.groups
            && WithDue(s3, env, id) == WithDue(st, env, id) && DueMode(s3, env, id) == DueMode(st, env, id)
  {
    hide GetDefault, Inv, Evolves, KnownDefault, DefaultMode, NoDisplay, Touch, DisplayOf;
    var s3 := Touch(st, env, id);
    TouchInv(st, env, id);
    TouchedDefault(st, env, id);
    SameNoDisplay(st, s3, id);
  }

  lemma TouchedDefault(st: State, env: Env, id: ScreenId)
    requires Inv(st) && id in st.screens && st.screens[id].groupId in st.groups
    ensures var s3 := Touch(st, env, id);
            && (KnownDefault(s3, env) == id <==> KnownDefault(st, env) == id)
            && DefaultMode(s3, env) == DefaultMode(st, env)
  {
    hide Inv, Evolves, KnownDefault, DefaultMode, GetDefault;
    var s3 := Touch(st, env, id);
    var (s4, d) := GetDefault(s3, env);
    DefaultTwice(st, env);
    KnownStays(st, env, id);
    LookupMode(st, env);
    LookupInv(st, env);
    LookupMode(s3, env);
    assert d == GetDefault(st, env).1;
    hide Touch, Extends;
    LookupInv(s3, env);
  }

  lemma SameNoDisplay(a: State, b: State, id: ScreenId)
    requires b.displays == a.displays
    ensures NoDisplay(b, id) <==> NoDisplay(a, id)
  {
  }

  /** What a new screen leaves: itself, its membership, and the display that shows it, at its own place and turned
      like it. No other screen or display changes. */
  ghost predicate NewLeft(st: State, r: State, env: Env, rs: ScreenId)
    requires rs in env.modes
  {
    var d, t := st.ids.count, NewTarget(st, env);
    && d !in st.screens && rs in r.ids.rs2Dms && r.ids.rs2Dms[rs] == d
    && d in r.screens && Newcomer(r.screens[d], env, rs, t, NewPlace(st, env))
    && (forall x :: x in st.screens ==> x in r.screens && r.screens[x] == st.screens[x])
    && (t.None? ==> r.groups == st.groups)
    && (t.Some? && t.value !in st.groups ==>
          r.groups == map[t.value := Group(if env.expand then SCREEN_EXPAND else SCREEN_MIRROR, d, SCREEN_ID_INVALID, {d})])
    && (t.Some? && t.value in st.groups ==>
          t.value in r.groups && r.groups == st.groups[t.value := st.groups[t.value].(
            children := st.groups[t.value].children + {d}, mirrorId := r.groups[t.value].mirrorId)])
    && r.displays == (if NewShown(st, env, rs)
                      then st.displays[st.displayCount := DisplayOf(d, r.screens[d], env.modes[rs], r.screens[d].start)]
                      else st.displays)
  }

  /** Connecting under a new rs id: without modes only the id counter moves. */
  lemma NewConnects(st: State, env: Env, rs: ScreenId)
    requires Inv(st) && Numbered(st) && rs != SCREEN_ID_INVALID && rs !in st.ids.rs2Dms
    ensures rs !in env.modes ==> var r := Connect(st, env, rs); r == st.(ids := r.ids) && rs !in r.ids.rs2Dms
    ensures rs in env.modes ==> NewLeft(st, Connect(st, env, rs), env, rs)
  {
    hide Inv, AddAsFirst, AddAsSuccedent, Touch, OnConnect, BuiltIn, NewTarget, NewLeft, Extends;
    InitScreenInv(st, env, rs);
    var (s1, d) := InitScreen(st, env, rs);
    if rs in env.modes {
      InitFacts(st, env, rs);
      NewTargets(st, s1, env, rs, d);
      hide InitScreen;
      if st.groups == map[] {
        NewFirst(st, s1, env, rs, d);
      } else if NewTarget(st, env).Some? {
        NewBehind(st, s1, env, rs, d);
      } else {
        NewAside(st, s1, env, rs, d);
      }
    }
  }

  /** Connecting again under an rs id that is mapped does nothing, unless it is that of the default. */
  lemma KnownConnects(st: State, env: Env, rs: ScreenId)
    requires rs in st.ids.rs2Dms && rs != st.defaultRs
    ensures Connect(st, env, rs) == st
  {
  }

  /** The screen exists, and is in no group yet. */
  ghost predicate Made(st: State, s1: State, env: Env, rs: ScreenId, d: ScreenId) {
    && rs in env.modes && d == st.ids.count && d !in st.screens && Inv(st) && Inv(s1) && Numbered(st) && Extends(st, s1)
    && rs !in st.ids.rs2Dms && s1.ids.rs2Dms == st.ids.rs2Dms[rs := d] && s1.ids.count == d + 1
    && s1.screens == st.screens[d := NewScreen(rs, REAL, Some(env.modes[rs]))]
    && s1.defaultRs == st.defaultRs
  }

  lemma InitFacts(st: State, env: Env, rs: ScreenId)
    requires Inv(st) && Numbered(st) && rs != SCREEN_ID_INVALID && rs !in st.ids.rs2Dms && rs in env.modes
    ensures var (s1, d) := InitScreen(st, env, rs); Made(st, s1, env, rs, d) && d != SCREEN_ID_INVALID
  {
    InitScreenInv(st, env, rs);
    hide Inv, Extends;
  }

  /** The new id is nobody's, so it is known as the default exactly under the default rs id; and a default that has a
      group is the same as before. */
  lemma NewTargets(st: State, s1: State, env: Env, rs: ScreenId, d: ScreenId)
    requires Made(st, s1, env, rs, d)
    ensures KnownDefault(s1, env) == d <==> Learn(st, env).defaultRs == rs
    ensures KnownDefault(s1, env) != d ==> KnownDefault(s1, env) == KnownDefault(st, env)
    ensures KnownDefault(s1, env) == d ==> KnownDefault(st, env) == SCREEN_ID_INVALID
    ensures forall k :: k in s1.displays ==> s1.displays[k].screenId != d
  {
    assert forall x :: x in st.ids.rs2Dms ==> st.ids.rs2Dms[x] != d;
    hide Extends;
  }

  /** The screen has joined the group g at p and is turned; nothing else has changed for the old screens. */
  ghost predicate Seated(st: State, s3: State, env: Env, rs: ScreenId, g: ScreenId, p: Point) {
    var d := st.ids.count;
    && Inv(s3) && rs in env.modes && d !in st.screens && d in s3.screens && Newcomer(s3.screens[d], env, rs, Some(g), p)
    && (forall x :: x in st.screens ==> x in s3.screens && s3.screens[x] == st.screens[x])
    && s3.displays == st.displays && s3.displayCount == st.displayCount && s3.callback == st.callback
    && rs in s3.ids.rs2Dms && s3.ids.rs2Dms[rs] == d && g in s3.groups
  }

  lemma FirstSeated(st: State, s1: State, env: Env, rs: ScreenId, d: ScreenId)
    requires Made(st, s1, env, rs, d) && st.groups == map[]
    ensures var (s2, g) := AddAsFirst(s1, env, d);
            var s3 := BuiltIn(s2, env, rs, d);
            && g == d + 1 && Seated(st, s3, env, rs, g, ORIGIN) && KnownDefault(s3, env) == KnownDefault(s1, env)
            && s3.groups == map[g := Group(if env.expand then SCREEN_EXPAND else SCREEN_MIRROR, d, SCREEN_ID_INVALID, {d})]
  {
    hide Inv, AddAsFirst, BuiltIn, Newcomer, WithNode, Extends;
    MadeSame(st, s1, env, rs, d);
    AddAsFirstInv(s1, env, d);
    var (s2, g) := AddAsFirst(s1, env, d);
    BuiltInTurns(s2, env, rs, d, g, ORIGIN);
    BuiltInShape(s2, env, rs, d);
    RedrawsInv(s2, BuiltIn(s2, env, rs, d), d);
    hide Redraws;
    assert s2.groups[g] == Group(if env.expand then SCREEN_EXPAND else SCREEN_MIRROR, d, SCREEN_ID_INVALID, {d});
    assert s2.groups == map[g := s2.groups[g]];
  }

  lemma MadeSame(st: State, s1: State, env: Env, rs: ScreenId, d: ScreenId)
    requires Made(st, s1, env, rs, d)
    ensures s1.displays == st.displays && s1.displayCount == st.displayCount && s1.callback == st.callback
    ensures s1.groups == st.groups && Loose(s1, d) && rs != SCREEN_ID_INVALID
    ensures forall k :: k in st.displays ==> k < st.displayCount && st.displays[k].screenId != d
  {
    assert s1.ids.rs2Dms[rs] == d;
  }

  /** Once it is seated, the new screen is touched and called back, which is all that is left to do. */
  lemma Welcomed(st: State, s3: State, env: Env, rs: ScreenId, g: ScreenId, p: Point)
    requires Numbered(st) && Seated(st, s3, env, rs, g, p) && NewTarget(st, env) == Some(g) && NewPlace(st, env) == p
    requires var d := st.ids.count;
             && s3.screens[d].groupId == g
             && (st.callback ==>
                   WithDue(s3, env, d) == if NewShown(st, env, rs)
                     then st.displays[st.displayCount := DisplayOf(d, s3.screens[d], env.modes[rs], s3.screens[d].start)]
                     else st.displays)
    requires g !in st.groups ==> s3.groups == map[g := Group(if env.expand then SCREEN_EXPAND else SCREEN_MIRROR,
                                                             st.ids.count, SCREEN_ID_INVALID, {st.ids.count})]
    requires g in st.groups ==> s3.groups == st.groups[g := st.groups[g].(
               children := st.groups[g].children + {st.ids.count}, mirrorId := s3.groups[g].mirrorId)]
    ensures var t := Touch(s3, env, st.ids.count);
            NewLeft(st, if t.callback then OnConnect(t, env, st.ids.count) else t, env, rs)
  {
    hide Inv, Touch, OnConnect, Newcomer, NewTarget, NewPlace, DisplayOf, WithDue, SameGrouping, Evolves;
    var d := st.ids.count;
    JoinedShown(s3, env, d);
    var t := Touch(s3, env, d);
    var r := if t.callback then OnConnect(t, env, d) else t;
    GroupedAt(s3, r, d);
    forall x | x in st.screens ensures x in r.screens && r.screens[x] == st.screens[x] { GroupedAt(s3, r, x); }
    EvolvesRs(s3, r, rs);
    assert !NewShown(st, env, rs) || st.callback;
    hide NewShown;
  }

  lemma EvolvesRs(a: State, b: State, rs: ScreenId)
    requires Evolves(a, b) && rs in a.ids.rs2Dms
    ensures rs in b.ids.rs2Dms && b.ids.rs2Dms[rs] == a.ids.rs2Dms[rs]
  {
  }

  lemma NewFirst(st: State, s1: State, env: Env, rs: ScreenId, d: ScreenId)
    requires Made(st, s1, env, rs, d) && st.groups == map[]
    ensures var (s2, g) := AddAsFirst(s1, env, d);
            var s3 := Touch(BuiltIn(s2, env, rs, d), env, d);
            && g != SCREEN_ID_INVALID
            && NewLeft(st, if s3.callback then OnConnect(s3, env, d) else s3, env, rs)
  {
    hide Inv, AddAsFirst, BuiltIn, Touch, OnConnect, DisplayOf, NewLeft, KnownDefault, Extends, NoDisplay;
    NoInvalidGroup(st);
    NewTargets(st, s1, env, rs, d);
    FirstSeated(st, s1, env, rs, d);
    var s3 := BuiltIn(AddAsFirst(s1, env, d).0, env, rs, d);
    SeatedAt(st, s3, env, rs, d + 1, ORIGIN);
    Welcomed(st, s3, env, rs, d + 1, ORIGIN);
  }

  lemma SeatedAt(st: State, s3: State, env: Env, rs: ScreenId, g: ScreenId, p: Point)
    requires Seated(st, s3, env, rs, g, p)
    ensures var s := s3.screens[st.ids.count];
            s.groupId == g && s.kind.REAL? && s.mode == Some(env.modes[rs]) && (p == ORIGIN ==> s.start == ORIGIN)
  {
    hide Inv;
  }

  lemma GroupedAt(a: State, b: State, x: ScreenId)
    requires SameGrouping(a, b) && x in a.screens
    ensures x in b.screens && b.screens[x] == a.screens[x] && b.groups == a.groups
  {
  }

  lemma NewAside(st: State, s1: State, env: Env, rs: ScreenId, d: ScreenId)
    requires Made(st, s1, env, rs, d) && st.groups != map[] && NewTarget(st, env).None?
    ensures var (s2, g) := AddAsSuccedent(s1, env, d);
            g == SCREEN_ID_INVALID && NewLeft(st, s2, env, rs)
  {
    hide Inv, GetDefault, Evolves, KnownDefault, AddChild;
    NoInvalidGroup(st);
    NewTargets(st, s1, env, rs, d);
    LookupGrouped(s1, env);
    LookupInv(s1, env);
    LookupKeepsRs(s1, env, rs);
  }

  lemma LookupKeepsRs(st: State, env: Env, rs: ScreenId)
    requires Inv(st) && rs in st.ids.rs2Dms
    ensures rs in GetDefault(st, env).0.ids.rs2Dms && GetDefault(st, env).0.ids.rs2Dms[rs] == st.ids.rs2Dms[rs]
  {
    LookupInv(st, env);
    hide GetDefault, Inv;
  }

  lemma BehindSeated(st: State, s1: State, env: Env, rs: ScreenId, d: ScreenId)
    requires Made(st, s1, env, rs, d) && st.groups != map[] && AddAsSuccedent(s1, env, d).1 != SCREEN_ID_INVALID
    ensures var (s2, g) := AddAsSuccedent(s1, env, d);
            d in s2.screens
            && var s3 := BuiltIn(s2, env, rs, d);
            && g in st.groups && Seated(st, s3, env, rs, g, PlaceBehind(st, g))
            && s3.groups == st.groups[g := st.groups[g].(
                 children := st.groups[g].children + {d}, mirrorId := s3.groups[g].mirrorId)]
  {
    hide Inv, AddAsSuccedent, BuiltIn, Newcomer, WithNode, Extends, KnownDefault, PlaceBehind, Evolves;
    MadeSame(st, s1, env, rs, d);
    NoInvalidGroup(st);
    SharingSteps.SucceedJoins(s1, env, d);
    SucceedPlaces(s1, env, d);
    AddAsSuccedentInv(s1, env, d);
    var (s2, g) := AddAsSuccedent(s1, env, d);
    SamePlace(st, s1, g);
    BuiltInTurns(s2, env, rs, d, g, PlaceBehind(st, g));
    BuiltInShape(s2, env, rs, d);
    RedrawsInv(s2, BuiltIn(s2, env, rs, d), d);
    EvolvesRs(s1, s2, rs);
    hide Redraws;
  }

  lemma NewBehind(st: State, s1: State, env: Env, rs: ScreenId, d: ScreenId)
    requires Made(st, s1, env, rs, d) && st.groups != map[] && NewTarget(st, env).Some?
    ensures var (s2, g) := AddAsSuccedent(s1, env, d);
            && g != SCREEN_ID_INVALID && d in s2.screens
            && var s3 := Touch(BuiltIn(s2, env, rs, d), env, d);
               NewLeft(st, if s3.callback then OnConnect(s3, env, d) else s3, env, rs)
  {
    hide Inv, AddAsSuccedent, BuiltIn, Touch, OnConnect, DisplayOf, NewLeft, KnownDefault, Extends, NoDisplay, PlaceBehind;
    NoInvalidGroup(st);
    NoInvalid(st);
    MadeSame(st, s1, env, rs, d);
    NewTargets(st, s1, env, rs, d);
    SharingSteps.SucceedJoins(s1, env, d);
    BehindSeated(st, s1, env, rs, d);
    var (s2, g) := AddAsSuccedent(s1, env, d);
    var s3 := BuiltIn(s2, env, rs, d);
    SeatedAt(st, s3, env, rs, g, PlaceBehind(st, g));
    BehindDue(st, s3, env, rs, g, PlaceBehind(st, g));
    Welcomed(st, s3, env, rs, g, PlaceBehind(st, g));
  }

  lemma BehindDue(st: State, s3: State, env: Env, rs: ScreenId, g: ScreenId, p: Point)
    requires Inv(st) && Numbered(st) && Seated(st, s3, env, rs, g, p) && g in st.groups && NewTarget(st, env) == Some(g)
    requires var d := st.ids.count;
             s3.screens[d].groupId == g && s3.screens[d].kind.REAL? && s3.screens[d].mode == Some(env.modes[rs])
             && s3.groups == st.groups[g := st.groups[g].(
                  children := st.groups[g].children + {d}, mirrorId := s3.groups[g].mirrorId)]
    ensures var d := st.ids.count;
            st.callback ==>
              WithDue(s3, env, d) == if NewShown(st, env, rs)
                then st.displays[st.displayCount := DisplayOf(d, s3.screens[d], env.modes[rs], s3.screens[d].start)]
                else st.displays
  {
    var d := st.ids.count;
    assert GroupOk(st, g);
    var c := Pick(st.groups[g].children);
    ExpandRoundTrip.TwoChildren(s3.groups[g].children, c, d);
    assert NoDisplay(s3, d);
    hide Inv, NewTarget, KnownDefault, DisplayOf, NoDisplay, Newcomer;
  }

  /** A lookup leaves nothing to connect, unless the default screen has no modes. */
  lemma LookupSettles(st: State, env: Env)
    requires Inv(st)
    ensures Settled(GetDefault(st, env).0, env) || Learn(st, env).defaultRs !in env.modes
  {
    var s0 := Learn(st, env);
    if !Settled(st, env) && s0.defaultRs in env.modes {
      LearnInv(st, env);
      ConnectDefaultMaps(s0, env);
      ConnectDefaultRs(s0, env);
      NoInvalidCount(st);
      hide ConnectDefault, Inv;
      MappedSettles(ConnectDefault(s0, env), env, s0.defaultRs);
    }
  }

  lemma NoInvalidCount(st: State)
    ensures st.ids.count != SCREEN_ID_INVALID
  {
  }

  lemma MappedSettles(st: State, env: Env, rs: ScreenId)
    requires st.defaultRs == rs && rs != SCREEN_ID_INVALID && DmsOf(st.ids, rs) != SCREEN_ID_INVALID
    ensures Settled(st, env)
  {
  }

  /** A first screen has the default screen connected too, if that is known and has modes. */
  lemma FirstSettles(st: State, env: Env, rs: ScreenId)
    requires Inv(st) && Numbered(st) && rs != SCREEN_ID_INVALID && rs !in st.ids.rs2Dms && rs in env.modes
    requires st.groups == map[] && Learn(st, env).defaultRs != SCREEN_ID_INVALID && Learn(st, env).defaultRs in env.modes
    ensures var r := Connect(st, env, rs);
            r.defaultRs == Learn(st, env).defaultRs && r.defaultRs in r.ids.rs2Dms
  {
    hide Inv, AddAsFirst, Touch, OnConnect, BuiltIn, Extends, Evolves, Newcomer, Redraws;
    InitFacts(st, env, rs);
    var (s1, d) := InitScreen(st, env, rs);
    MadeSame(st, s1, env, rs, d);
    hide InitScreen;
    FirstSeated(st, s1, env, rs, d);
    AddAsFirstInv(s1, env, d);
    var (s2, g) := AddAsFirst(s1, env, d);
    var s3 := BuiltIn(s2, env, rs, d);
    assert s3.defaultRs == st.defaultRs by { BuiltInShape(s2, env, rs, d); SameDefault(s2, s3, d); }
    SeatedAt(st, s3, env, rs, g, ORIGIN);
    LookupSettles(s3, env);
    LookupInv(s3, env);
    LookupKnows(s3, env);
    var t := Touch(s3, env, d);
    assert t == GetDefault(s3, env).0 by { GroupedTouch(s3, env, d); }
    OnConnectInv(t, env, d);
    if t.callback { EvolvesDefault(t, OnConnect(t, env, d)); }
    hide GetDefault;
  }

  lemma SameDefault(a: State, b: State, id: ScreenId)
    requires Redraws(a, b, id)
    ensures b.defaultRs == a.defaultRs
  {
  }

  lemma GroupedTouch(st: State, env: Env, id: ScreenId)
    requires id in st.screens && st.screens[id].groupId in st.groups
    ensures Touch(st, env, id) == GetDefault(st, env).0
  {
  }

  lemma LookupKnows(st: State, env: Env)
    requires Learn(st, env).defaultRs != SCREEN_ID_INVALID
    ensures GetDefault(st, env).0.defaultRs == Learn(st, env).defaultRs
  {
    ConnectDefaultRs(Learn(st, env), env);
    hide ConnectDefault;
  }

  lemma EvolvesDefault(a: State, b: State)
    requires Evolves(a, b) && a.defaultRs != SCREEN_ID_INVALID && a.defaultRs in a.ids.rs2Dms
    ensures b.defaultRs == a.defaultRs && b.defaultRs in b.ids.rs2Dms
  {
  }
}

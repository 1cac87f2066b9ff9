/** When displays and screens get out of step: BindAloneScreenLocked makes a display without looking for one, and a
    display that loses its screen is handed to a default screen that may have one already, or no group. Here are
    the two callbacks, the registration and the choice of a virtual default; module SharingRuns has every operation. */
module DisplaySharing {
  import opened DmTypes
  import opened ScreenState
  import opened ScreenInvariant
  import opened ScreenRuns
  import opened GroupChanges
  import opened ExpandDisplays

  /** No two displays are bound to the same screen. */
  ghost predicate Unshared(displays: map<DisplayId, Display>) {
    forall j, k :: j in displays && k in displays && displays[j].screenId == displays[k].screenId ==> j == k
  }

  /** Every display was numbered by the counter, for a screen whose id was handed out. */
  ghost predicate Numbered(st: State) {
    forall k :: k in st.displays ==> k < st.displayCount && st.displays[k].screenId < st.ids.count
  }

  predicate OnlyChild(st: State, id: ScreenId)
    requires id in st.screens
  {
    st.screens[id].groupId in st.groups && |st.groups[st.screens[id].groupId].children| == 1
  }

  // ---------- One more display ----------

  lemma CreateShares(st: State, id: ScreenId, m: Mode, p: Point)
    requires id in st.screens && id < st.ids.count && Unshared(st.displays) && Numbered(st)
    ensures var r := CreateDisplay(st, id, m, p);
            && Numbered(r) && (Unshared(r.displays) <==> NoDisplay(st, id))
            && (forall x :: x != id ==> (NoDisplay(r, x) <==> NoDisplay(st, x)))
  {
    var r := CreateDisplay(st, id, m, p);
    var n := st.displayCount;
    assert n in r.displays && r.displays[n].screenId == id;
    assert forall k :: k in r.displays <==> k == n || k in st.displays;
    assert forall k :: k in st.displays ==> k != n && r.displays[k] == st.displays[k];
    hide CreateDisplay;
    if !NoDisplay(st, id) {
      var k :| k in st.displays && st.displays[k].screenId == id;
      assert k in r.displays && r.displays[k].screenId == r.displays[n].screenId;
    }
    forall x | x != id ensures NoDisplay(r, x) <==> NoDisplay(st, x) {
      if !NoDisplay(st, x) {
        var k :| k in st.displays && st.displays[k].screenId == x;
        assert k in r.displays && r.displays[k].screenId == x;
      }
    }
  }

  /** BindAloneScreenLocked does not look for a display of the screen: two displays share a screen
      afterwards if and only if the screen is the default, has a mode, and had a display already. */
  lemma BindAloneShares(st: State, env: Env, id: ScreenId)
    requires Inv(st) && id in st.screens && (st.groups != map[] || Settled(st, env))
    requires Unshared(st.displays) && Numbered(st)
    ensures var r := BindAlone(st, env, id);
            && Numbered(r)
            && (Unshared(r.displays) <==>
                  !(KnownDefault(st, env) == id && st.screens[id].mode.Some? && !NoDisplay(st, id)))
  {
    var s1 := GetDefault(st, env).0;
    assert ScreenOk(st, id);
    LookupFinds(st, env, id);
    LookupInv(st, env);
    assert s1.displays == st.displays && s1.displayCount == st.displayCount && s1.screens[id] == st.screens[id];
    hide GetDefault, Inv, KnownDefault, Unshared;
    if st.screens[id].mode.Some? {
      CreateShares(s1, id, st.screens[id].mode.value, ORIGIN);
    }
  }

  // ---------- The connect callback ----------

  /** The connect callback gives the screen a second display. */
  ghost predicate Doubles(st: State, env: Env, id: ScreenId)
    requires id in st.screens
  {
    OnlyChild(st, id) && KnownDefault(st, env) == id && st.screens[id].mode.Some? && !NoDisplay(st, id)
  }

  lemma AddExpandShares(st: State, env: Env, id: ScreenId)
    requires Inv(st) && id in st.screens && st.groups != map[]
    requires Unshared(st.displays) && Numbered(st)
    ensures var r := AddExpand(st, env, id);
            && Numbered(r) && Unshared(r.displays)
            && (forall x :: x != id ==> (NoDisplay(r, x) <==> NoDisplay(st, x)))
  {
    FirstFinds(st.displays, id, 0, st.displayCount);
    LookupInv(st, env);
    var (s1, d) := GetDefault(st, env);
    assert FirstDisplay(st.displays, id, 0, st.displayCount).None? ==> NoDisplay(s1, id);
    assert s1.displays == st.displays && s1.displayCount == st.displayCount && s1.screens[id] == st.screens[id];
    hide GetDefault, Inv, Unshared, FirstDisplay, CreateDisplay;
    var mode := if !s1.screens[id].kind.VIRTUAL? then s1.screens[id].mode
                else if d in s1.screens then s1.screens[d].mode else None;
    if FirstDisplay(st.displays, id, 0, st.displayCount).None? && mode.Some? {
      CreateShares(s1, id, mode.value, s1.screens[id].start);
    }
  }

  lemma BindAloneOthers(st: State, env: Env, id: ScreenId)
    requires Inv(st) && id in st.screens && st.groups != map[] && Unshared(st.displays) && Numbered(st)
    ensures forall x :: x != id ==> (NoDisplay(BindAlone(st, env, id), x) <==> NoDisplay(st, x))
  {
    LookupInv(st, env);
    var s1 := GetDefault(st, env).0;
    assert s1.displays == st.displays && s1.displayCount == st.displayCount && s1.screens[id] == st.screens[id];
    hide GetDefault, Inv, Unshared, CreateDisplay;
    if st.screens[id].mode.Some? {
      CreateShares(s1, id, st.screens[id].mode.value, ORIGIN);
    }
  }

  lemma OnConnectShares(st: State, env: Env, id: ScreenId)
    requires Inv(st) && id in st.screens && Unshared(st.displays) && Numbered(st)
    ensures var r := OnConnect(st, env, id);
            && Numbered(r) && (Unshared(r.displays) <==> !Doubles(st, env, id))
            && (forall x :: x != id ==> (NoDisplay(r, x) <==> NoDisplay(st, x)))
  {
    hide Inv, BindAlone, AddExpand, KnownDefault, NoDisplay, Unshared, Numbered;
    if st.screens[id].groupId in st.groups {
      BindAloneShares(st, env, id);
      BindAloneOthers(st, env, id);
      AddExpandShares(st, env, id);
    }
  }

  /** The callback for one screen changes nothing that decides about another. */
  lemma OnConnectFrame(st: State, env: Env, id: ScreenId, x: ScreenId)
    requires Inv(st) && id in st.screens && x in st.screens && x != id && Unshared(st.displays) && Numbered(st)
    ensures var r := OnConnect(st, env, id);
            && x in r.screens && (Doubles(r, env, x) <==> Doubles(st, env, x))
  {
    var r := OnConnect(st, env, id);
    OnConnectShares(st, env, id);
    OnConnectInv(st, env, id);
    OnConnectKnown(st, env, id, x);
    hide Inv, Evolves, OnConnect, KnownDefault, NoDisplay, Unshared, Numbered;
  }

  lemma OnConnectKnown(st: State, env: Env, id: ScreenId, x: ScreenId)
    requires Inv(st) && id in st.screens && x in st.screens
    ensures KnownDefault(OnConnect(st, env, id), env) == x <==> KnownDefault(st, env) == x
    ensures st.groups == map[] ==> OnConnect(st, env, id) == st
  {
    KnownStays(st, env, x);
    hide Inv, GetDefault, FirstDisplay;
  }

  lemma {:induction false} ConnectEachKeeps(st: State, env: Env, ids: seq<ScreenId>)
    requires Inv(st) && Numbered(st) && !Unshared(st.displays)
    ensures !Unshared(ConnectEach(st, env, ids).displays)
    decreases |ids|
  {
    hide Inv, Evolves, Extends, SameGrouping, OnConnect, Unshared;
    if ids != [] {
      if ids[0] in st.screens {
        OnConnectInv(st, env, ids[0]);
        OnConnectRetains(st, env, ids[0]);
        ConnectEachKeeps(OnConnect(st, env, ids[0]), env, ids[1..]);
      } else {
        ConnectEachKeeps(st, env, ids[1..]);
      }
    }
  }

  /** The callback never takes a display away. */
  lemma OnConnectRetains(st: State, env: Env, id: ScreenId)
    requires Inv(st) && id in st.screens && Numbered(st)
    ensures var r := OnConnect(st, env, id);
            Numbered(r) && (!Unshared(st.displays) ==> !Unshared(r.displays))
  {
    hide GetDefault, Inv, Evolves, Extends, FirstDisplay, CreateDisplay, Unshared, Numbered;
    assert id < st.ids.count by { InvScreen(st, id); }
    MoreDisplays(st, st, id, Mode(0, 0), ORIGIN);
    if st.screens[id].groupId in st.groups {
      var (s1, d) := GetDefault(st, env);
      LookupInv(st, env);
      ExtendsAt(st, s1, id);
      var m1 := if st.screens[id].mode.Some? then st.screens[id].mode.value else Mode(0, 0);
      MoreDisplays(st, s1, id, m1, ORIGIN);
      MoreDisplays(st, s1, id, m1, s1.screens[id].start);
      var m2 := if d in s1.screens && s1.screens[d].mode.Some? then s1.screens[d].mode.value else Mode(0, 0);
      MoreDisplays(st, s1, id, m2, s1.screens[id].start);
    }
  }

  lemma MoreDisplays(a: State, b: State, id: ScreenId, m: Mode, p: Point)
    requires b.displays == a.displays && b.displayCount == a.displayCount && id in b.screens && Numbered(a)
    requires a.ids.count <= b.ids.count && id < b.ids.count
    ensures Numbered(b) && (!Unshared(a.displays) ==> !Unshared(b.displays))
    ensures var r := CreateDisplay(b, id, m, p);
            Numbered(r) && (!Unshared(a.displays) ==> !Unshared(r.displays))
  {
    var r := CreateDisplay(b, id, m, p);
    if !Unshared(a.displays) {
      var j, k :| j in a.displays && k in a.displays && a.displays[j].screenId == a.displays[k].screenId && j != k;
      assert r.displays[j] == a.displays[j] && r.displays[k] == a.displays[k];
    }
  }

  lemma {:induction false} ConnectEachShares(st: State, env: Env, ids: seq<ScreenId>)
    requires Inv(st) && Unshared(st.displays) && Numbered(st)
    requires forall i :: 0 <= i < |ids| ==> ids[i] in st.screens
    requires forall i, j :: 0 <= i < j < |ids| ==> ids[i] != ids[j]
    ensures Unshared(ConnectEach(st, env, ids).displays) <==>
              forall i :: 0 <= i < |ids| ==> !Doubles(st, env, ids[i])
    decreases |ids|
  {
    hide Inv, Evolves, Extends, SameGrouping, OnConnect, Unshared, Numbered, Doubles;
    if ids != [] {
      var s1 := OnConnect(st, env, ids[0]);
      OnConnectInv(st, env, ids[0]);
      OnConnectShares(st, env, ids[0]);
      if Doubles(st, env, ids[0]) {
        ConnectEachKeeps(s1, env, ids[1..]);
      } else {
        forall i | 0 < i < |ids|
          ensures ids[i] in s1.screens && (Doubles(s1, env, ids[i]) <==> Doubles(st, env, ids[i]))
        {
          OnConnectFrame(st, env, ids[0], ids[i]);
        }
        ConnectEachShares(s1, env, ids[1..]);
        assert forall i :: 0 < i < |ids| ==> ids[i] == ids[1..][i - 1];
        assert forall i :: 0 <= i < |ids| - 1 ==> ids[1..][i] == ids[i + 1];
      }
    }
  }

  // ---------- Registering, and choosing a virtual default ----------

  lemma DoublesAt(st: State, s0: State, env: Env, x: ScreenId)
    requires s0 == st.(callback := true) && x in st.screens
    ensures Doubles(s0, env, x) <==>
              KnownDefault(st, env) == x && OnlyChild(st, x) && st.screens[x].mode.Some? && !NoDisplay(st, x)
  {
  }

  /** Registering the callback leaves two displays on one screen if and only if the default screen is the
      only child of the group, has a mode, and has a display already. */
  lemma RegisterShares(st: State, env: Env)
    requires Inv(st) && Unshared(st.displays) && Numbered(st)
    ensures Unshared(RegisterCallback(st, env).displays) <==>
              !(var d := KnownDefault(st, env);
                d in st.screens && OnlyChild(st, d) && st.screens[d].mode.Some? && !NoDisplay(st, d))
  {
    hide Inv, Unshared, NoDisplay, ConnectEach, KnownDefault, Doubles;
    var s0 := st.(callback := true);
    var ids := Ascending(st.screens.Keys);
    var d := KnownDefault(st, env);
    ShapeInv(st, s0);
    ConnectEachShares(s0, env, ids);
    forall x | x in st.screens
      ensures Doubles(s0, env, x) <==> x == d && OnlyChild(st, x) && st.screens[x].mode.Some? && !NoDisplay(st, x)
    {
      DoublesAt(st, s0, env, x);
    }
    if d in st.screens {
      assert d in ids;
    }
  }

  /** Joining the group makes no display; the screen ends as the only child if it founds the group or was
      the only child before, and in the second case it is accepted only as the default. */
  lemma JoinAlone(st: State, env: Env, id: ScreenId)
    requires Inv(st) && id in st.screens && !st.screens[id].IsGroup()
    ensures var (s1, g) := AddToGroup(st, env, id);
            && s1.displays == st.displays && s1.displayCount == st.displayCount && s1.callback == st.callback
            && (st.groups == map[] ==> g != SCREEN_ID_INVALID)
            && (OnlyChild(st, id) ==> (g != SCREEN_ID_INVALID <==> KnownDefault(st, env) == id))
            && (g != SCREEN_ID_INVALID ==> (OnlyChild(s1, id) <==> st.groups == map[] || OnlyChild(st, id)))
  {
    if st.groups == map[] {
      FoundAlone(st, env, id);
    } else {
      hide Inv, AddAsSuccedent, KnownDefault, OnlyChild;
      SucceedAlone(st, env, id);
    }
  }

  lemma FoundAlone(st: State, env: Env, id: ScreenId)
    requires Inv(st) && st.groups == map[] && id in st.screens
    ensures var (s1, g) := AddAsFirst(st, env, id);
            && s1.displays == st.displays && s1.displayCount == st.displayCount && s1.callback == st.callback
            && g != SCREEN_ID_INVALID && OnlyChild(s1, id)
  {
    assert ScreenOk(st, id);
    var (s1, g) := AddAsFirst(st, env, id);
    assert s1.groups[g].children == {id};
  }

  lemma SucceedAlone(st: State, env: Env, id: ScreenId)
    requires Inv(st) && st.groups != map[] && id in st.screens && !st.screens[id].IsGroup()
    ensures var (s1, g) := AddAsSuccedent(st, env, id);
            && s1.displays == st.displays && s1.displayCount == st.displayCount && s1.callback == st.callback
            && (OnlyChild(st, id) ==> (g != SCREEN_ID_INVALID <==> KnownDefault(st, env) == id))
            && (g != SCREEN_ID_INVALID ==> (OnlyChild(s1, id) <==> OnlyChild(st, id)))
  {
    hide Evolves, GetDefault, AddChild, KnownDefault;
    var (s1, d) := GetDefault(st, env);
    LookupInv(st, env);
    LookupFinds(st, env, id);
    assert s1.screens[id] == st.screens[id] && s1.groups == st.groups;
    assert SCREEN_ID_INVALID !in st.groups by { NoInvalidGroup(st); }
    AloneDefault(s1, id, d);
    hide Extends, Inv;
    if d in s1.screens && s1.screens[d].groupId in s1.groups {
      var g := s1.screens[d].groupId;
      var p := if s1.groups[g].combination.SCREEN_EXPAND?
               then Point(SumWidths(s1.screens, Ascending(s1.groups[g].children)), 0) else ORIGIN;
      AddChildAlone(s1, env, g, id, p);
    }
  }

  /** In the group of an only child the default is that child. */
  lemma AloneDefault(st: State, id: ScreenId, d: ScreenId)
    requires Inv(st) && id in st.screens
    ensures OnlyChild(st, id) ==> (d in st.screens && st.screens[d].groupId in st.groups <==> d == id)
  {
    assert ScreenOk(st, id);
    if OnlyChild(st, id) && d in st.screens && st.screens[d].groupId in st.groups {
      var g := st.screens[id].groupId;
      assert ScreenOk(st, d) && g == st.screens[d].groupId;
      assert d in st.groups[g].children && id in st.groups[g].children;
      OneElement(st.groups[g].children, id, d);
    }
  }

  lemma OneElement<T>(s: set<T>, x: T, y: T)
    requires |s| == 1 && x in s && y in s
    ensures x == y
  {
    var rest := s - {x};
    assert |rest| == 0;
    assert y !in rest;
  }

  lemma AddChildAlone(st: State, env: Env, g: ScreenId, id: ScreenId, p: Point)
    requires Inv(st) && g in st.groups && id in st.screens && !st.screens[id].IsGroup()
    ensures var r := AddChild(st, env, g, id, p).0;
            && r.displays == st.displays && r.displayCount == st.displayCount && r.callback == st.callback
            && id in r.screens && (OnlyChild(r, id) <==> OnlyChild(st, id))
  {
    var r := AddChild(st, env, g, id, p).0;
    var children := st.groups[g].children;
    AddChildInv(st, env, g, id, p);
    NodeConfigInv(st, env, g, id);
    assert GroupOk(st, g) && ScreenOk(st, id);
    if id in children {
      assert children + {id} == children;
    } else {
      var c := Pick(children);
      assert c in children + {id} && id in children + {id};
      if |children + {id}| == 1 {
        OneElement(children + {id}, c, id);
      }
    }
    hide Inv, Evolves, NodeConfig, ScreenOk, GroupOk;
  }

  /** Making a virtual screen the default leaves two displays on one screen if and only if the screen is
      accepted, has a display already, and ends as the only child of its group: it founds a new group, or is
      alone in the group and the default already. */
  lemma SetVirtualShares(st: State, env: Env, id: ScreenId)
    requires Inv(st) && Unshared(st.displays) && Numbered(st)
    ensures Unshared(SetVirtualAsDefault(st, env, id).0.displays) <==>
              !(&& st.callback && RsOf(st.ids, id) != SCREEN_ID_INVALID && id in st.screens
                && !st.screens[id].kind.REAL? && st.screens[id].mode.Some? && !NoDisplay(st, id)
                && (st.groups == map[] || (OnlyChild(st, id) && KnownDefault(st, env) == id)))
  {
    hide Inv, Evolves, Extends, AddToGroup, Touch, OnConnect, Unshared, NoDisplay, Numbered, Disown,
         KnownDefault, OnlyChild;
    var rs := RsOf(st.ids, id);
    if rs != SCREEN_ID_INVALID && id in st.screens && !st.screens[id].kind.REAL? {
      var (s1, g) := AddToGroup(st, env, id);
      IsOrdinary(st, id);
      JoinAlone(st, env, id);
      AddToGroupInv(st, env, id);
      if g != SCREEN_ID_INVALID {
        EvolvesMode(st, s1, id);
        EqualDisplays(st, s1, id);
        ChosenShares(s1, env, id, rs);
      }
    }
  }

  /** SetVirtualScreenAsDefault answers true exactly for a known screen with an rs id that is not real, if the callback is
      registered and there is no group or the default has one. */
  lemma SetVirtualAnswers(st: State, env: Env, id: ScreenId)
    requires Inv(st)
    ensures var d := KnownDefault(st, env);
            SetVirtualAsDefault(st, env, id).1 <==>
              && RsOf(st.ids, id) != SCREEN_ID_INVALID && id in st.screens && !st.screens[id].kind.REAL? && st.callback
              && (st.groups == map[] || (d in st.screens && st.screens[d].groupId in st.groups))
  {
    if RsOf(st.ids, id) != SCREEN_ID_INVALID && id in st.screens && !st.screens[id].kind.REAL? {
      IsOrdinary(st, id);
      JoinAlone(st, env, id);
      AddToGroupInv(st, env, id);
      NoInvalidGroup(st);
      hide Inv, AddAsFirst, AddChild, GetDefault, KnownDefault, OnConnect, Disown, Evolves, OnlyChild;
      if st.groups != map[] { LookupGrouped(st, env); }
      var s1 := AddToGroup(st, env, id).0;
      TouchInv(s1, env, id);
      EvolvesCallback(s1, Touch(s1, env, id));
      hide Touch;
    }
  }

  lemma IsOrdinary(st: State, id: ScreenId)
    requires Inv(st) && id in st.screens && RsOf(st.ids, id) != SCREEN_ID_INVALID
    ensures !st.screens[id].IsGroup()
  {
    assert ScreenOk(st, id);
  }

  lemma EvolvesMode(a: State, b: State, id: ScreenId)
    requires Evolves(a, b) && id in a.screens && !a.screens[id].IsGroup()
    ensures id in b.screens && b.screens[id].mode == a.screens[id].mode && a.ids.count <= b.ids.count
    ensures RsOf(a.ids, id) != SCREEN_ID_INVALID ==> RsOf(b.ids, id) == RsOf(a.ids, id)
  {
  }

  lemma EqualDisplays(a: State, b: State, id: ScreenId)
    requires b.displays == a.displays && b.displayCount == a.displayCount && a.ids.count <= b.ids.count
    ensures (NoDisplay(b, id) <==> NoDisplay(a, id)) && (Numbered(a) ==> Numbered(b))
  {
  }

  /** What follows the joining: the callback for the new default. */
  lemma ChosenShares(st: State, env: Env, id: ScreenId, rs: ScreenId)
    requires Inv(st) && id in st.screens && st.groups != map[] && rs != SCREEN_ID_INVALID && RsOf(st.ids, id) == rs
    requires Unshared(st.displays) && Numbered(st)
    ensures var s2 := Touch(st, env, id);
            var s3 := s2.(defaultRs := rs, agents := Disown(s2.agents, id));
            && id in s3.screens && s2.callback == st.callback && s2.displays == st.displays
            && (Unshared(OnConnect(s3, env, id).displays) <==>
                  !(OnlyChild(st, id) && st.screens[id].mode.Some? && !NoDisplay(st, id)))
  {
    hide Inv, Evolves, Extends, Touch, OnConnect, Unshared, NoDisplay, Numbered, Disown, KnownDefault;
    var s2 := Touch(st, env, id);
    var s3 := s2.(defaultRs := rs, agents := Disown(s2.agents, id));
    TouchInv(st, env, id);
    ExtendsAt(st, s2, id);
    ShapeInv(s2, s3);
    DefaultById(s2, s3, env, id, rs);
    EqualDisplays(st, s3, id);
    OnConnectShares(s3, env, id);
  }

  lemma DefaultById(a: State, b: State, env: Env, id: ScreenId, rs: ScreenId)
    requires Inv(a) && id in a.screens && RsOf(a.ids, id) == rs && rs != SCREEN_ID_INVALID
    requires b.ids == a.ids && b.defaultRs == rs
    ensures KnownDefault(b, env) == id
  {
    assert ScreenOk(a, id);
  }

  lemma ExtendsAt(a: State, b: State, id: ScreenId)
    requires Extends(a, b) && id in a.screens
    ensures b.displays == a.displays && b.displayCount == a.displayCount && b.callback == a.callback
    ensures b.groups == a.groups && id in b.screens && b.screens[id] == a.screens[id] && a.ids.count <= b.ids.count
    ensures RsOf(a.ids, id) != SCREEN_ID_INVALID ==> RsOf(b.ids, id) == RsOf(a.ids, id)
  {
  }

  // ---------- Leaving a mirror group ----------

  /** The default screen can take over a display: it is known, has a mode, and has a group. */
  predicate DefaultHoused(st: State, env: Env) {
    var d := KnownDefault(st, env);
    d in st.screens && st.screens[d].mode.Some? && st.screens[d].groupId in st.groups
  }

  /** The first display of the screen. */
  ghost predicate IsFirst(st: State, id: ScreenId, k: DisplayId) {
    && k in st.displays && st.displays[k].screenId == id
    && forall j :: j in st.displays && st.displays[j].screenId == id ==> k <= j
  }

  lemma {:induction false} FirstIsLeast(displays: map<DisplayId, Display>, id: ScreenId, from: nat, count: nat)
    ensures var found := FirstDisplay(displays, id, from, count);
            found.Some? ==> from <= found.value < count
                            && forall k :: k in displays && displays[k].screenId == id && from <= k ==> found.value <= k
    decreases count - from
  {
    if from < count && !(from in displays && displays[from].screenId == id) {
      FirstIsLeast(displays, id, from + 1, count);
    }
  }

  lemma FindsFirst(st: State, id: ScreenId, k: DisplayId)
    requires Numbered(st)
    ensures FirstDisplay(st.displays, id, 0, st.displayCount) == Some(k) <==> IsFirst(st, id, k)
  {
    FirstFinds(st.displays, id, 0, st.displayCount);
    FirstIsLeast(st.displays, id, 0, st.displayCount);
    hide FirstDisplay;
  }

  /** The first display of a screen that leaves a mirror group goes over to the default screen if and only if that
      has a mode and a group. With a mode and no group the source goes through a null pointer instead. If no two
      displays were on one screen, two are now if and only if the default had one already. */
  lemma HandoverExact(st: State, env: Env, id: ScreenId, k: DisplayId)
    requires Inv(st) && id in st.screens && st.screens[id].groupId in st.groups
    requires st.groups[st.screens[id].groupId].combination.SCREEN_MIRROR?
    requires Numbered(st) && IsFirst(st, id, k)
    ensures var r := OnDisconnect(st, env, id);
            var d := KnownDefault(st, env);
            && (DefaultHoused(st, env) ==>
                  && r.displays == st.displays[k := st.displays[k].(
                       screenId := d, offset := st.screens[d].start,
                       width := st.screens[d].mode.value.width, height := st.screens[d].mode.value.height)]
                  && (Unshared(st.displays) ==> (Unshared(r.displays) <==> d == id || NoDisplay(st, d))))
            && (!DefaultHoused(st, env) ==> r.displays == st.displays)
  {
    hide Evolves;
    var (s1, d) := GetDefault(st, env);
    LookupInv(st, env);
    NoInvalidGroup(st);
    FindsFirst(st, id, k);
    HousedKnown(st, env);
    hide GetDefault, Inv, KnownDefault, FirstDisplay, Unshared, IsFirst;
    var r := OnDisconnect(st, env, id);
    if DefaultHoused(st, env) && Unshared(st.displays) {
      ReboundShares(st.displays, r.displays, k, d);
    }
  }

  lemma HousedKnown(st: State, env: Env)
    requires Inv(st) && st.groups != map[]
    ensures var (s1, d) := GetDefault(st, env);
            && (DefaultHoused(st, env) <==> d in s1.screens && s1.screens[d].mode.Some? && s1.screens[d].groupId in s1.groups)
            && (DefaultHoused(st, env) ==>
                  && d == KnownDefault(st, env) && s1.screens[d] == st.screens[d]
                  && d in st.groups[st.screens[d].groupId].children)
  {
    var (s1, d) := GetDefault(st, env);
    var known := KnownDefault(st, env);
    LookupInv(st, env);
    NoInvalidGroup(st);
    if known in st.screens {
      LookupFinds(st, env, known);
      assert ScreenOk(st, known);
    }
    if d in st.screens {
      LookupFinds(st, env, d);
    }
    hide GetDefault, KnownDefault, ScreenOk, GroupOk;
  }

  lemma ReboundShares(a: map<DisplayId, Display>, b: map<DisplayId, Display>, k: DisplayId, d: ScreenId)
    requires Unshared(a) && k in a && k in b && b == a[k := b[k]] && b[k].screenId == d
    ensures Unshared(b) <==> d == a[k].screenId || forall j :: j in a ==> a[j].screenId != d
  {
    if d != a[k].screenId {
      if j :| j in a && a[j].screenId == d {
        assert j != k && b[j] == a[j] && b[j].screenId == b[k].screenId;
      }
    }
  }

  // ---------- Runs from the start that share ----------

  /** The default screen is screen 0, the only child of group 1. */
  ghost predicate Founded(st: State, rs: ScreenId) {
    && st.defaultRs == rs && rs != SCREEN_ID_INVALID && st.ids.rs2Dms == map[rs := 0]
    && st.groups.Keys == {1} && st.groups[1].children == {0}
    && st.screens.Keys == {0, 1} && st.screens[0].groupId == 1 && st.screens[1].groupId == SCREEN_ID_INVALID
    && st.screens[0].mode.Some? && 0 < st.ids.count
  }

  lemma ZeroOne()
    ensures Ascending({0, 1}) == [0, 1]
  {
    var ids := Ascending({0, 1});
    assert ids[0] in ids && ids[1] in ids && 0 in ids && 1 in ids;
  }

  /** A registration gives the founder one more display. */
  lemma RegisterFounded(st: State, env: Env, rs: ScreenId)
    requires Founded(st, rs)
    ensures var r := RegisterCallback(st, env);
            && Founded(r, rs)
            && r == CreateDisplay(st.(callback := true), 0, st.screens[0].mode.value, ORIGIN)
  {
    ZeroOne();
    var s0 := st.(callback := true);
    var s1 := CreateDisplay(s0, 0, st.screens[0].mode.value, ORIGIN);
    assert st.screens.Keys == {0, 1};
    assert OnConnect(s0, env, 0) == s1;
    assert OnConnect(s1, env, 1) == s1;
    hide OnConnect, CreateDisplay, Ascending;
    var ids := [0, 1];
    assert ids[1..] == [1] && ids[1..][1..] == [];
    assert ConnectEach(s0, env, ids) == ConnectEach(s1, env, [1]) == ConnectEach(s1, env, []) == s1;
  }

  lemma ConnectFounds(env: Env)
    requires env.defaultRs != SCREEN_ID_INVALID && env.defaultRs in env.modes
    ensures Founded(Connect(INITIAL, env, env.defaultRs), env.defaultRs)
    ensures Connect(INITIAL, env, env.defaultRs).displays == map[]
  {
    hide CalcRotation;
  }

  lemma RunPrefixes(st: State, a: Event, b: Event, c: Event, d: Event, e: Event, f: Event)
    ensures Run(st, [a, b]) == Step(Step(st, a.env, a.op), b.env, b.op)
    ensures Run(st, [a, b, c]) == Step(Run(st, [a, b]), c.env, c.op)
    ensures Run(st, [a, b, c, d]) == Step(Run(st, [a, b, c]), d.env, d.op)
    ensures Run(st, [a, b, c, d, e]) == Step(Run(st, [a, b, c, d]), e.env, e.op)
    ensures Run(st, [a, b, c, d, e, f]) == Step(Run(st, [a, b, c, d, e]), f.env, f.op)
  {
    hide Step;
    RunAppend(st, [], a);
    RunAppend(st, [a], b);
    RunAppend(st, [a, b], c);
    RunAppend(st, [a, b, c], d);
    RunAppend(st, [a, b, c, d], e);
    RunAppend(st, [a, b, c, d, e], f);
    assert [] + [a] == [a] && [a] + [b] == [a, b] && [a, b] + [c] == [a, b, c];
    assert [a, b, c] + [d] == [a, b, c, d] && [a, b, c, d] + [e] == [a, b, c, d, e];
    assert [a, b, c, d, e] + [f] == [a, b, c, d, e, f];
  }

  /** A default screen that connects first has no display yet, gets one at the first registration, and a
      second one at the second. */
  lemma RegisterTwice(env: Env)
    requires env.defaultRs != SCREEN_ID_INVALID && env.defaultRs in env.modes
    ensures var connect, register := Event(env, OpConnect(env.defaultRs)), Event(env, OpRegister);
            && Unshared(Run(INITIAL, [connect, register]).displays)
            && !Unshared(Run(INITIAL, [connect, register, register]).displays)
  {
    hide Connect, RegisterCallback, Unshared, Founded;
    var connect, register := Event(env, OpConnect(env.defaultRs)), Event(env, OpRegister);
    var st := Connect(INITIAL, env, env.defaultRs);
    ConnectFounds(env);
    FoundedTwice(st, env, env.defaultRs);
    RunPrefixes(INITIAL, connect, register, register, register, register, register);
  }

  lemma FoundedTwice(st: State, env: Env, rs: ScreenId)
    requires Founded(st, rs) && st.displays == map[]
    ensures var once := RegisterCallback(st, env);
            Unshared(once.displays) && !Unshared(RegisterCallback(once, env).displays)
  {
    hide RegisterCallback;
    var s0 := st.(callback := true);
    var m := st.screens[0].mode.value;
    var once := CreateDisplay(s0, 0, m, ORIGIN);
    RegisterFounded(st, env, rs);
    RegisterFounded(once, env, rs);
    CreateShares(s0, 0, m, ORIGIN);
    assert st.displayCount in once.displays && once.displays[st.displayCount].screenId == 0;
    assert once.(callback := true) == once;
    CreateShares(once, 0, m, ORIGIN);
  }

  /** Without a default screen, a virtual screen that is made the default twice has two displays. */
  lemma ChosenTwice(env: Env, rs: ScreenId, mode: Mode, a: AgentId)
    requires env.defaultRs == SCREEN_ID_INVALID && rs != SCREEN_ID_INVALID
    ensures var register, create := Event(env, OpRegister), Event(env, OpCreateVirtual(rs, mode, a));
            var choose := Event(env, OpSetVirtualAsDefault(0));
            && Unshared(Run(INITIAL, [register, create, choose]).displays)
            && !Unshared(Run(INITIAL, [register, create, choose, choose]).displays)
  {
    var register, create := Event(env, OpRegister), Event(env, OpCreateVirtual(rs, mode, a));
    var choose := Event(env, OpSetVirtualAsDefault(0));
    hide Good, RegisterCallback, CreateVirtual, SetVirtualAsDefault, Unshared, Founded, NoDisplay, Numbered, Loner;
    CreateLoner(env, rs, mode, a);
    InitialGood();
    var s1 := RegisterCallback(INITIAL, env);
    var s2 := CreateVirtual(s1, env, rs, mode, a).0;
    var once := SetVirtualAsDefault(s2, env, 0).0;
    StepGood(INITIAL, env, register.op);
    StepGood(s1, env, create.op);
    StepGood(s2, env, choose.op);
    VirtualFounds(s2, env, rs, mode);
    ChooseAgain(once, env, rs);
    RunPrefixes(INITIAL, register, create, choose, choose, choose, choose);
  }

  lemma ChooseAgain(st: State, env: Env, rs: ScreenId)
    requires Good(st) && Founded(st, rs) && st.callback && st.screens[0].kind.VIRTUAL? && RsOf(st.ids, 0) == rs
    requires Unshared(st.displays) && Numbered(st) && !NoDisplay(st, 0)
    ensures !Unshared(SetVirtualAsDefault(st, env, 0).0.displays)
  {
    hide Inv, SetVirtualAsDefault, Unshared, NoDisplay, Numbered;
    SetVirtualShares(st, env, 0);
  }

  /** One virtual screen, in no group, and no default. */
  ghost predicate Loner(st: State, rs: ScreenId, mode: Mode) {
    && rs != SCREEN_ID_INVALID && st.ids == Ids(1, map[0 := rs], map[rs := 0])
    && st.screens == map[0 := NewScreen(rs, VIRTUAL, Some(mode))] && st.groups == map[]
    && st.displays == map[] && st.displayCount == 0 && st.callback && st.defaultRs == SCREEN_ID_INVALID
  }

  lemma CreateLoner(env: Env, rs: ScreenId, mode: Mode, a: AgentId)
    requires env.defaultRs == SCREEN_ID_INVALID && rs != SCREEN_ID_INVALID
    ensures Loner(CreateVirtual(RegisterCallback(INITIAL, env), env, rs, mode, a).0, rs, mode)
  {
    assert INITIAL.screens.Keys == {} && Ascending({}) == [];
    assert RegisterCallback(INITIAL, env) == INITIAL.(callback := true);
    hide RegisterCallback;
  }

  lemma LonerFounds(st: State, env: Env, rs: ScreenId, mode: Mode)
    requires Loner(st, rs, mode) && env.defaultRs == SCREEN_ID_INVALID
    ensures var s1 := Touch(AddAsFirst(st, env, 0).0, env, 0);
            && s1.screens.Keys == {0, 1} && s1.groups.Keys == {1}
            && s1.groups[1] == Group(if env.expand then SCREEN_EXPAND else SCREEN_MIRROR, 0, SCREEN_ID_INVALID, {0})
            && s1.screens[0].groupId == 1 && s1.screens[1].groupId == SCREEN_ID_INVALID
            && s1.screens[0].mode == Some(mode) && s1.screens[0].kind.VIRTUAL?
            && s1.ids == Ids(2, map[0 := rs, 1 := SCREEN_ID_INVALID], map[rs := 0])
            && s1.displays == map[] && s1.displayCount == 0 && s1.callback
            && AddAsFirst(st, env, 0).1 == 1
  {
  }

  lemma VirtualFounds(st: State, env: Env, rs: ScreenId, mode: Mode)
    requires Loner(st, rs, mode) && env.defaultRs == SCREEN_ID_INVALID
    ensures var once := SetVirtualAsDefault(st, env, 0).0;
            && Founded(once, rs) && once.callback && once.screens[0].kind.VIRTUAL? && RsOf(once.ids, 0) == rs
            && Unshared(once.displays) && Numbered(once) && !NoDisplay(once, 0)
  {
    hide Touch, Disown, AddAsFirst, OnConnect, Unshared, Numbered, NoDisplay;
    LonerFounds(st, env, rs, mode);
    var s2 := Touch(AddAsFirst(st, env, 0).0, env, 0);
    var s3 := s2.(defaultRs := rs, agents := Disown(s2.agents, 0));
    BindFounder(s3, env, rs, mode);
  }

  lemma BindFounder(st: State, env: Env, rs: ScreenId, mode: Mode)
    requires Founded(st, rs) && st.screens[0].mode == Some(mode) && st.displays == map[] && st.displayCount == 0
    ensures var r := OnConnect(st, env, 0);
            && r == st.(displays := r.displays, displayCount := 1)
            && Unshared(r.displays) && Numbered(r) && !NoDisplay(r, 0)
  {
    CreateShares(st, 0, mode, ORIGIN);
    var r := OnConnect(st, env, 0);
    assert r == CreateDisplay(st, 0, mode, ORIGIN);
    assert 0 in r.displays && r.displays[0].screenId == 0;
    hide OnConnect, CreateDisplay, Unshared, Numbered;
  }

  // ---------- A run from the start that strands a display ----------

  /** Screen 0 is in the mirror group 1 and has the only display. */
  ghost predicate Mirroring(st: State) {
    && st.callback && 0 in st.screens && st.screens[0].groupId == 1 && st.groups.Keys == {1}
    && st.groups[1].combination.SCREEN_MIRROR? && st.groups[1].mirrorId == 0 && 0 in st.groups[1].children
    && st.displays.Keys == {0} && st.displays[0].screenId == 0 && st.displayCount == 1
  }

  lemma ChooseMirrors(st: State, env: Env, rs: ScreenId, mode: Mode)
    requires Loner(st, rs, mode) && env.defaultRs == SCREEN_ID_INVALID && !env.expand
    ensures var r := SetVirtualAsDefault(st, env, 0).0;
            && Mirroring(r) && r.ids == Ids(2, map[0 := rs, 1 := SCREEN_ID_INVALID], map[rs := 0]) && r.defaultRs == rs
            && r.screens.Keys == {0, 1} && r.groups[1].children == {0}
            && r.screens[0].kind.VIRTUAL? && r.screens[0].mode == Some(mode)
  {
    hide Touch, Disown, AddAsFirst, OnConnect;
    LonerFounds(st, env, rs, mode);
    var s2 := Touch(AddAsFirst(st, env, 0).0, env, 0);
    var s3 := s2.(defaultRs := rs, agents := Disown(s2.agents, 0));
    BindFounder(s3, env, rs, mode);
  }

  /** A second virtual screen becomes the default of the group. */
  lemma ChooseOther(st: State, env: Env, rs: ScreenId, other: ScreenId, mode: Mode, a: AgentId)
    requires Mirroring(st) && st.ids == Ids(2, map[0 := rs, 1 := SCREEN_ID_INVALID], map[rs := 0]) && st.defaultRs == rs
    requires st.screens.Keys == {0, 1} && st.groups[1].children == {0}
    requires rs != SCREEN_ID_INVALID && other != SCREEN_ID_INVALID && rs != other
    ensures var s1 := CreateVirtual(st, env, other, mode, a).0;
            var r := SetVirtualAsDefault(s1, env, 2).0;
            && Mirroring(r) && r.ids.rs2Dms == map[rs := 0, other := 2] && r.defaultRs == other
            && 2 in r.screens && r.screens[2].kind.VIRTUAL? && r.screens[2].mode == Some(mode)
            && r.screens[2].groupId == 1 && r.groups[1].children == {0, 2}
  {
    var s1 := CreateVirtual(st, env, other, mode, a).0;
    assert s1.ids.rs2Dms == map[rs := 0, other := 2];
    hide CreateVirtual, Disown, BindAlone, AddExpand, SumWidths, Ascending;
  }

  /** It leaves the group again, and is the default still. */
  lemma OtherLeaves(st: State, env: Env, other: ScreenId)
    requires Mirroring(st) && other in st.ids.rs2Dms && st.ids.rs2Dms[other] == 2 && st.defaultRs == other
    requires other != SCREEN_ID_INVALID && 2 in st.screens && st.screens[2].kind.VIRTUAL? && st.screens[2].mode.Some?
    requires st.screens[2].groupId == 1 && st.groups[1].children == {0, 2}
    ensures var r := RemoveVirtual(st, env, [2]);
            && Mirroring(r) && KnownDefault(r, env) == 2 && 2 in r.screens && r.screens[2].mode.Some?
            && r.screens[2].groupId !in r.groups
  {
    assert {0, 2} - {2} == {0};
    assert RemoveVirtual(st, env, [2]) == RemoveVirtual(RemoveVirtualOne(st, env, 2), env, []);
  }

  /** Two virtual screens are made the default in turn, and the second leaves the group. The first, which
      has the display, can then not hand it over: the default screen has a mode but no group. */
  lemma Strands(env: Env, rs: ScreenId, other: ScreenId, mode: Mode, a: AgentId)
    requires env.defaultRs == SCREEN_ID_INVALID && !env.expand
    requires rs != SCREEN_ID_INVALID && other != SCREEN_ID_INVALID && rs != other
    ensures var register, create := Event(env, OpRegister), Event(env, OpCreateVirtual(rs, mode, a));
            var choose, createOther := Event(env, OpSetVirtualAsDefault(0)), Event(env, OpCreateVirtual(other, mode, a));
            var chooseOther, leave := Event(env, OpSetVirtualAsDefault(2)), Event(env, OpRemoveVirtual([2]));
            var st := Run(INITIAL, [register, create, choose, createOther, chooseOther, leave]);
            var d := KnownDefault(st, env);
            && Mirroring(st) && !DefaultHoused(st, env)
            && d in st.screens && st.screens[d].mode.Some? && st.screens[d].groupId !in st.groups
  {
    hide RegisterCallback, CreateVirtual, SetVirtualAsDefault, RemoveVirtual, Loner, KnownDefault, Mirroring;
    var register, create := Event(env, OpRegister), Event(env, OpCreateVirtual(rs, mode, a));
    var choose, createOther := Event(env, OpSetVirtualAsDefault(0)), Event(env, OpCreateVirtual(other, mode, a));
    var chooseOther, leave := Event(env, OpSetVirtualAsDefault(2)), Event(env, OpRemoveVirtual([2]));
    RunPrefixes(INITIAL, register, create, choose, createOther, chooseOther, leave);
    var s2 := CreateVirtual(RegisterCallback(INITIAL, env), env, rs, mode, a).0;
    var s3 := SetVirtualAsDefault(s2, env, 0).0;
    var s5 := SetVirtualAsDefault(CreateVirtual(s3, env, other, mode, a).0, env, 2).0;
    CreateLoner(env, rs, mode, a);
    ChooseMirrors(s2, env, rs, mode);
    ChooseOther(s3, env, rs, other, mode, a);
    OtherLeaves(s5, env, other);
  }
}

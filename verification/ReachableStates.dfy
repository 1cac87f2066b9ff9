/** What the invariants say about every reachable state of the server, spelled out. */
module ReachableStates {
  import opened DmTypes
  import opened ScreenState
  import opened ScreenInvariant
  import opened AgentOwnership
  import opened ScreenRuns
  import opened GroupChanges
  import opened ExpandDisplays
  import opened MirrorSource
  import DisplaySharing
  import SharingRuns
  import SharingOps
  import ExpandCoverage
  import ExpandTiling
  import DisplayTiling

  // ---------- The shape of a reachable state ----------

  /** In every reachable state there is at most one group; it has children, is listed as a screen, and is
      nobody's child; membership recorded in the screens and in the group agree; a display node means
      membership; and the ids that carry an rs id are exactly the screens that are no group. */
  lemma ReachableShape(events: seq<Event>)
    requires forall e :: e in events ==> Admissible(e.op)
    ensures var st := Run(INITIAL, events);
            && (forall g, h :: g in st.groups && h in st.groups ==> g == h)
            && (forall g :: g in st.groups ==>
                  g in st.screens && st.screens[g].IsGroup() && st.groups[g].children != {})
            && (forall g, c :: g in st.groups && c in st.groups[g].children ==>
                  c in st.screens && c !in st.groups && st.screens[c].groupId == g)
            && (forall d, g :: d in st.screens && !st.screens[d].IsGroup() && g in st.groups ==>
                  (st.screens[d].groupId == g <==> d in st.groups[g].children))
            && (forall d :: d in st.screens && st.screens[d].hasNode ==>
                  st.screens[d].groupId in st.groups && d in st.groups[st.screens[d].groupId].children)
    ensures var st := Run(INITIAL, events);
            && SCREEN_ID_INVALID !in st.ids.rs2Dms
            && (forall d, rs :: rs != SCREEN_ID_INVALID ==>
                  (d in st.ids.dms2Rs && st.ids.dms2Rs[d] == rs <==> rs in st.ids.rs2Dms && st.ids.rs2Dms[rs] == d))
            && (forall d :: (d in st.screens && !st.screens[d].IsGroup()) <==>
                            (d in st.ids.dms2Rs && st.ids.dms2Rs[d] != SCREEN_ID_INVALID))
            && (forall d :: d in st.screens && !st.screens[d].IsGroup() ==> st.screens[d].rsId == st.ids.dms2Rs[d])
  {
    InitialGood();
    RunGood(INITIAL, events);
    hide Run;
    GoodShape(Run(INITIAL, events));
    GoodIds(Run(INITIAL, events));
  }

  lemma GoodShape(st: State)
    requires Good(st)
    ensures forall g, h :: g in st.groups && h in st.groups ==> g == h
    ensures forall g :: g in st.groups ==> g in st.screens && st.screens[g].IsGroup() && st.groups[g].children != {}
    ensures forall g, c :: g in st.groups && c in st.groups[g].children ==>
              c in st.screens && c !in st.groups && st.screens[c].groupId == g
    ensures forall d, g :: d in st.screens && !st.screens[d].IsGroup() && g in st.groups ==>
              (st.screens[d].groupId == g <==> d in st.groups[g].children)
    ensures forall d :: d in st.screens && st.screens[d].hasNode ==>
              st.screens[d].groupId in st.groups && d in st.groups[st.screens[d].groupId].children
  {
    NoInvalidGroup(st);
    forall g | g in st.groups ensures GroupOk(st, g) {}
    forall d | d in st.screens ensures ScreenOk(st, d) {}
    hide Inv, AgentsOk, Quiescent;
  }

  lemma GoodIds(st: State)
    requires Good(st)
    ensures SCREEN_ID_INVALID !in st.ids.rs2Dms
    ensures forall d, rs :: rs != SCREEN_ID_INVALID ==>
              (d in st.ids.dms2Rs && st.ids.dms2Rs[d] == rs <==> rs in st.ids.rs2Dms && st.ids.rs2Dms[rs] == d)
    ensures forall d :: (d in st.screens && !st.screens[d].IsGroup()) <==>
              (d in st.ids.dms2Rs && st.ids.dms2Rs[d] != SCREEN_ID_INVALID)
    ensures forall d :: d in st.screens && !st.screens[d].IsGroup() ==> st.screens[d].rsId == st.ids.dms2Rs[d]
  {
    forall d | d in st.screens ensures ScreenOk(st, d) {}
    forall d
      ensures (d in st.screens && !st.screens[d].IsGroup()) <==>
                (d in st.ids.dms2Rs && st.ids.dms2Rs[d] != SCREEN_ID_INVALID)
    {
      IdOfScreen(st, d);
    }
    hide AgentsOk;
  }

  lemma IdOfScreen(st: State, d: ScreenId)
    requires Inv(st) && Quiescent(st)
    ensures (d in st.screens && !st.screens[d].IsGroup()) <==>
              (d in st.ids.dms2Rs && st.ids.dms2Rs[d] != SCREEN_ID_INVALID)
  {
    assert !Unmatched(st, d);
    assert d in st.screens ==> ScreenOk(st, d);
  }

  // ---------- Ids are never reused ----------

  /** Every id that is new was handed out since. */
  ghost predicate Fresh(a: State, b: State) {
    && a.ids.count <= b.ids.count
    && (forall d :: d in b.ids.dms2Rs && d !in a.ids.dms2Rs ==> a.ids.count <= d)
  }

  lemma EvolvesFresh(a: State, b: State)
    requires Evolves(a, b)
    ensures Fresh(a, b)
  {
  }

  lemma FreshTrans(a: State, b: State, c: State)
    requires Fresh(a, b) && Fresh(b, c)
    ensures Fresh(a, c)
  {
  }

  lemma DisconnectFresh(st: State, env: Env, rs: ScreenId)
    requires Inv(st)
    ensures Fresh(st, Disconnect(st, env, rs))
  {
    if rs in st.ids.rs2Dms {
      var d := st.ids.rs2Dms[rs];
      if !(d in st.screens && st.callback && InGroup(st, d) && rs == st.defaultRs) {
        DisconnectLoses(st, env, rs);
        hide Disconnect, Inv;
      }
    }
  }

  lemma CreateVirtualFresh(st: State, env: Env, rs: ScreenId, mode: Mode, a: AgentId)
    requires Inv(st)
    ensures Fresh(st, CreateVirtual(st, env, rs, mode, a).0)
  {
    if rs != SCREEN_ID_INVALID && rs !in st.ids.rs2Dms {
      NewIdInv(st, rs);
      var s0 := st.(ids := CreateId(st.ids, rs));
      LookupInv(s0, env);
      EvolvesFresh(s0, GetDefault(s0, env).0);
      hide GetDefault, Inv;
    }
  }

  lemma DestroyFresh(st: State, env: Env, id: ScreenId)
    requires Inv(st)
    ensures Fresh(st, DestroyVirtual(st, env, id).0)
  {
    var s1 := st.(agents := Disown(st.agents, id));
    AgentsInv(st, s1.agents);
    DisconnectFresh(s1, env, RsOf(st.ids, id));
    hide Disconnect, Disown, Inv;
  }

  lemma {:induction false} RemoteDiedFresh(st: State, env: Env, a: AgentId)
    requires Inv(st) && AgentsOk(st) && OnRemoteDied(st, env, a).Some?
    ensures Fresh(st, OnRemoteDied(st, env, a).value)
    decreases |AgentList(st, a)|
  {
    hide Inv, AgentsOk, DestroyVirtual;
    if AgentList(st, a) != [] {
      var id := AgentList(st, a)[0];
      var s1 := DestroyVirtual(st, env, id).0;
      DestroyInv(st, env, id);
      DestroyFresh(st, env, id);
      RemoteDiedFresh(s1, env, a);
      FreshTrans(st, s1, OnRemoteDied(s1, env, a).value);
    }
  }

  lemma SetVirtualFresh(st: State, env: Env, id: ScreenId)
    requires Inv(st)
    ensures Fresh(st, SetVirtualAsDefault(st, env, id).0)
  {
    hide Inv, Evolves, AddToGroup, Touch, OnConnect, Disown, Extends, SameGrouping, SameShape, Fresh;
    var rs := RsOf(st.ids, id);
    EvolvesRefl(st);
    EvolvesFresh(st, st);
    if rs != SCREEN_ID_INVALID && id in st.screens && !st.screens[id].kind.REAL? {
      DisplaySharing.IsOrdinary(st, id);
      var (s1, g) := AddToGroup(st, env, id);
      AddToGroupInv(st, env, id);
      EvolvesFresh(st, s1);
      var s2 := Touch(s1, env, id);
      TouchInv(s1, env, id);
      EvolvesFresh(s1, s2);
      FreshTrans(st, s1, s2);
      if g != SCREEN_ID_INVALID && s2.callback {
        var s3 := s2.(defaultRs := rs, agents := Disown(s2.agents, id));
        ChosenFresh(s2, s3, env, id);
        FreshTrans(st, s2, OnConnect(s3, env, id));
      }
    }
  }

  lemma ChosenFresh(a: State, b: State, env: Env, id: ScreenId)
    requires Inv(a) && b == a.(defaultRs := b.defaultRs, agents := b.agents) && id in a.screens
    ensures Fresh(a, OnConnect(b, env, id))
  {
    hide OnConnect, Inv, Extends, SameGrouping;
    ShapeInv(a, b);
    OnConnectInv(b, env, id);
    EvolvesFresh(b, OnConnect(b, env, id));
  }

  lemma StepFresh(st: State, env: Env, op: Op)
    requires Good(st) && Admissible(op)
    ensures Fresh(st, Step(st, env, op))
  {
    hide Inv, Evolves, AgentsOk, Connect, GetDefault, Disconnect, CreateVirtual, DestroyVirtual, OnRemoteDied,
         ServiceMakeMirror, ServiceMakeExpand, ServiceStop, RemoveVirtual, SetRotation, SetOrientation,
         SetVirtualAsDefault, ConnectEach, Unmatched;
    if Grows(op) {
      GrowsEvolves(st, env, op);
      EvolvesFresh(st, Step(st, env, op));
    } else {
      match op
      case OpDisconnect(rs) => DisconnectFresh(st, env, rs);
      case OpCreateVirtual(rs, mode, a) => CreateVirtualFresh(st, env, rs, mode, a);
      case OpDestroyVirtual(id) => DestroyFresh(st, env, id);
      case OpAgentDied(a) => if OnRemoteDied(st, env, a).Some? { RemoteDiedFresh(st, env, a); }
      case OpSetVirtualAsDefault(id) => SetVirtualFresh(st, env, id);
      case OpRegister =>
        var s0 := st.(callback := true);
        ShapeInv(st, s0);
        ConnectEachInv(s0, env, Ascending(st.screens.Keys));
        EvolvesFresh(s0, RegisterCallback(st, env));
    }
  }

  /** An id that was handed out and is gone never comes back. */
  lemma {:induction false} GoneForGood(st: State, events: seq<Event>, d: ScreenId)
    requires Good(st) && forall e :: e in events ==> Admissible(e.op)
    requires d < st.ids.count && d !in st.ids.dms2Rs
    ensures d !in Run(st, events).ids.dms2Rs
    decreases |events|
  {
    hide Good, Step;
    if events != [] {
      var s1 := Step(st, events[0].env, events[0].op);
      StepGood(st, events[0].env, events[0].op);
      StepFresh(st, events[0].env, events[0].op);
      GoneForGood(s1, events[1..], d);
    }
  }

  // ---------- Displays ----------

  /** After SetOrientation to a new orientation the screen has the rotation that suits it, has that orientation and
      has recorded it as the one requested. The first display of the screen, if the screen is in a group and the
      callback is registered, has that rotation and orientation too. Nothing else about the screens changes but where
      the layout puts them, and every display stays bound to its screen. */
  lemma OrientationTakes(st: State, env: Env, id: ScreenId, o: Orientation, k: DisplayId)
    requires Inv(st) && id in st.screens && !st.screens[id].IsGroup() && st.screens[id].orientation != o
    ensures var r := SetOrientation(st, env, id, o).0;
            && id in r.screens && Suits(r.screens[id].rotation, st.screens[id].mode, o)
            && r.screens[id] == st.screens[id].(orientation := o, requested := o, rotation := r.screens[id].rotation,
                                                start := r.screens[id].start)
            && (forall x :: x in st.screens && x != id ==>
                  x in r.screens && r.screens[x] == st.screens[x].(start := r.screens[x].start))
            && SharingOps.SameBinding(st, r)
            && (st.callback && st.screens[id].groupId in st.groups && DisplaySharing.IsFirst(st, id, k)
                && DisplaySharing.Numbered(st) ==>
                  k in r.displays && r.displays[k].orientation == o && Suits(r.displays[k].rotation, st.screens[id].mode, o))
            && (!st.callback || st.screens[id].groupId !in st.groups ==> r.displays == st.displays)
            && (st.screens[id].groupId !in st.groups || st.groups[st.screens[id].groupId].combination.SCREEN_MIRROR? ==>
                  forall x :: x in st.screens ==> r.screens[x].start == st.screens[x].start)
  {
    hide SetOrientation, Inv, CalcRotation;
    SetOrientationTurns(st, env, id, o);
    OnlySuits(CalcRotation(st.screens[id].mode, o), st.screens[id].mode, o);
    SharingOps.SetOrientationBinding(st, env, id, o);
    OrientationElsewhere(st, env, id, o);
    if st.callback && st.screens[id].groupId in st.groups && DisplaySharing.IsFirst(st, id, k) && DisplaySharing.Numbered(st) {
      DisplaySharing.FindsFirst(st, id, k);
      OrientationShown(st, env, id, o, k);
    }
  }

  /** In an expand run the display of a real screen then has the shape that the orientation names. */
  lemma OrientedShape(st: State, env: Env, id: ScreenId, o: Orientation, k: DisplayId)
    requires Inv(st) && DispOk(st) && env.expand && id in st.screens && st.screens[id].kind.REAL?
    requires st.screens[id].orientation != o && k in st.displays && st.displays[k].screenId == id
    ensures var r := SetOrientation(st, env, id, o).0;
            && k in r.displays && r.displays[k].orientation == o && Suits(r.displays[k].rotation, st.screens[id].mode, o)
            && st.screens[id].mode.Some?
            && var d, m := r.displays[k], st.screens[id].mode.value;
               && (Upright(o) ==> d.height >= d.width) && (Sideways(o) ==> d.width >= d.height)
               && {d.width, d.height} == {m.width, m.height}
  {
    hide SetOrientation, Inv;
    assert st.callback && Housed(st, id) && DisplaySharing.IsFirst(st, id, k) && DisplaySharing.Numbered(st) by {
      ExpandCoverage.DispNumbered(st);
    }
    OrientationTakes(st, env, id, o, k);
    SetOrientationOk(st, env, id, o);
    var r := SetOrientation(st, env, id, o).0;
    assert k in r.displays && r.displays[k].screenId == id;
    FitsAt(r, k);
    hide DispOk, SharingOps.SameBinding, Suits;
    FitsShape(r.displays[k], r.screens[id], o);
  }

  lemma FitsAt(st: State, k: DisplayId)
    requires DispOk(st) && k in st.displays
    ensures var id := st.displays[k].screenId;
            id in st.screens && (st.screens[id].kind.REAL? ==> Fits(st.displays[k], st.screens[id]))
  {
  }

  lemma FitsShape(d: Display, s: Screen, o: Orientation)
    requires Fits(d, s) && Suits(d.rotation, s.mode, o)
    ensures var m := s.mode.value;
            && (Upright(o) ==> d.height >= d.width) && (Sideways(o) ==> d.width >= d.height)
            && {d.width, d.height} == {m.width, m.height}
  {
  }

  /** Asked for the orientation it has, a screen only records the request; a group, or an unknown screen, refuses. */
  lemma OrientationKept(st: State, env: Env, id: ScreenId, o: Orientation)
    ensures var (r, ok) := SetOrientation(st, env, id, o);
            && (ok <==> id in st.screens && !st.screens[id].IsGroup())
            && (!ok ==> r == st)
            && (ok && st.screens[id].orientation == o ==>
                  r == st.(screens := st.screens[id := st.screens[id].(requested := o)]))
  {
    hide SetRotation, Touch, UpdateDisplay, UpdateLayout, CalcRotation;
  }

  /** Where there is no display to turn, none changes; and only an expand group is laid out. */
  lemma OrientationElsewhere(st: State, env: Env, id: ScreenId, o: Orientation)
    requires Inv(st) && id in st.screens && !st.screens[id].IsGroup() && st.screens[id].orientation != o
    ensures var r := SetOrientation(st, env, id, o).0;
            && (!st.callback || st.screens[id].groupId !in st.groups ==> r.displays == st.displays)
            && (st.screens[id].groupId !in st.groups || st.groups[st.screens[id].groupId].combination.SCREEN_MIRROR? ==>
                  forall x :: x in st.screens ==> x in r.screens && r.screens[x].start == st.screens[x].start)
  {
    hide Inv, Evolves, Touch, UpdateDisplay, CalcRotation, UpdateLayout, Rotate, SetRotation;
    var rot := CalcRotation(st.screens[id].mode, o);
    var s1 := st.(screens := st.screens[id := st.screens[id].(requested := o)]);
    TurnInv(st, id, st.screens[id].(requested := o));
    var s2 := SetRotation(s1, env, id, rot);
    SetRotationTurns(s1, env, id, rot);
    SetRotationElsewhere(s1, env, id, rot);
    var t2 := s2.(screens := s2.screens[id := s2.screens[id].(orientation := o)]);
    TurnInv(s2, id, s2.screens[id].(orientation := o));
    TouchAt(t2, env, id);
    TouchElsewhere(t2, env, id);
    var s3 := Touch(t2, env, id);
    var f := (d: Display) => Rotate(d.(orientation := o), s3.screens[id].rotation);
    UpdateElsewhere(s3, id, f);
    var s4 := if s3.callback then UpdateDisplay(s3, id, f) else s3;
    assert s4.screens == s3.screens && s4.groups == st.groups && s4.callback == st.callback;
    if s4.screens[id].groupId in s4.groups { LayoutElsewhere(s4, s4.screens[id].groupId); }
  }

  lemma UpdateElsewhere(st: State, id: ScreenId, f: Display -> Display)
    requires id in st.screens
    ensures var r := UpdateDisplay(st, id, f);
            && r.screens == st.screens && r.groups == st.groups && r.callback == st.callback
            && (st.screens[id].groupId !in st.groups ==> r == st)
  {
    hide FirstDisplay;
  }

  lemma TouchElsewhere(st: State, env: Env, id: ScreenId)
    requires Inv(st)
    ensures var r := Touch(st, env, id); r.displays == st.displays && r.groups == st.groups && r.callback == st.callback
  {
    TouchInv(st, env, id);
    hide Inv, Evolves, GetDefault;
    assert st.groups == map[] ==> Touch(st, env, id) == st;
    hide Touch;
  }

  lemma SetRotationElsewhere(st: State, env: Env, id: ScreenId, r: Rotation)
    requires Inv(st) && id in st.screens
    ensures var s := SetRotation(st, env, id, r);
            && s.groups == st.groups && s.callback == st.callback
            && (!st.callback || st.screens[id].groupId !in st.groups ==> s.displays == st.displays)
  {
    hide Inv, Evolves, Touch, UpdateDisplay, Rotate;
    if st.screens[id].rotation != r {
      var s0 := st.(screens := st.screens[id := st.screens[id].(rotation := r)]);
      TurnInv(st, id, st.screens[id].(rotation := r));
      TouchAt(s0, env, id);
      TouchElsewhere(s0, env, id);
      UpdateElsewhere(Touch(s0, env, id), id, (d: Display) => Rotate(d, r));
    }
  }

  lemma LayoutElsewhere(st: State, g: ScreenId)
    requires g in st.groups
    ensures var r := UpdateLayout(st, g).0;
            && (st.groups[g].combination.SCREEN_MIRROR? ==> r == st)
            && (!st.callback ==> r.displays == st.displays)
  {
    hide LayOut, ChildrenByX;
    if !st.callback { QuietLayout(st, ChildrenByX(st, g), 0); }
  }

  lemma {:induction false} QuietLayout(st: State, order: seq<ScreenId>, x: int)
    requires !st.callback
    ensures LayOut(st, order, x).0.displays == st.displays
    decreases |order|
  {
    if order != [] {
      if order[0] !in st.screens || st.screens[order[0]].mode.None? {
        QuietLayout(st, order[1..], x);
      } else {
        QuietLayout(LayOutOne(st, order[0], x).0, order[1..], x + WidthOf(st.screens, order[0]));
      }
    }
  }

  lemma {:induction false} FirstSame(a: map<DisplayId, Display>, b: map<DisplayId, Display>, id: ScreenId, from: nat, count: nat)
    requires forall k :: k in b <==> k in a
    requires forall k :: k in b ==> b[k].screenId == a[k].screenId
    ensures FirstDisplay(b, id, from, count) == FirstDisplay(a, id, from, count)
    decreases count - from
  {
    if from < count && !(from in a && a[from].screenId == id) {
      FirstSame(a, b, id, from + 1, count);
    }
  }

  lemma OrientationShown(st: State, env: Env, id: ScreenId, o: Orientation, k: DisplayId)
    requires Inv(st) && id in st.screens && !st.screens[id].IsGroup() && st.screens[id].orientation != o
    requires st.callback && st.screens[id].groupId in st.groups
    requires FirstDisplay(st.displays, id, 0, st.displayCount) == Some(k)
    ensures var r := SetOrientation(st, env, id, o).0;
            && k in r.displays && r.displays[k].orientation == o
            && r.displays[k].rotation == CalcRotation(st.screens[id].mode, o)
  {
    hide Inv, Evolves, Touch, UpdateDisplay, CalcRotation, UpdateLayout, Rotate, SharingOps.SameBinding;
    var rot := CalcRotation(st.screens[id].mode, o);
    var s1 := st.(screens := st.screens[id := st.screens[id].(requested := o)]);
    TurnInv(st, id, st.screens[id].(requested := o));
    var s2 := SetRotation(s1, env, id, rot);
    SetRotationTurns(s1, env, id, rot);
    SharingOps.SetRotationBinding(s1, env, id, rot);
    SetRotationInv(s1, env, id, rot);
    MirrorSource.SetRotationGroups(s1, env, id, rot);
    var t2 := s2.(screens := s2.screens[id := s2.screens[id].(orientation := o)]);
    TurnInv(s2, id, s2.screens[id].(orientation := o));
    hide SetRotation;
    TouchAt(t2, env, id);
    SharingOps.TouchBinding(t2, env, id);
    MirrorSource.TouchGroups(t2, env, id);
    var s3 := Touch(t2, env, id);
    assert s2.callback by { EvolvesCallback(s1, s2); }
    SharingOps.EqualBinding(s2, t2);
    SharingOps.BindingTrans(s1, s2, t2);
    SharingOps.BindingTrans(s1, t2, s3);
    FirstKept(s1, s3, id);
    UpdatedDisplay(s3, id, k, o);
    var f := (d: Display) => Rotate(d.(orientation := o), s3.screens[id].rotation);
    var s4 := UpdateDisplay(s3, id, f);
    UpdateDisplayShape(s3, id, f);
    assert s4.groups == s3.groups && s4.screens == s3.screens;
    LayoutShows(s4, s4.screens[id].groupId, k);
  }

  lemma FirstKept(a: State, b: State, id: ScreenId)
    requires SharingOps.SameBinding(a, b)
    ensures FirstDisplay(b.displays, id, 0, b.displayCount) == FirstDisplay(a.displays, id, 0, a.displayCount)
  {
    FirstSame(a.displays, b.displays, id, 0, a.displayCount);
  }

  lemma UpdatedDisplay(st: State, id: ScreenId, k: DisplayId, o: Orientation)
    requires id in st.screens && st.screens[id].groupId in st.groups
    requires FirstDisplay(st.displays, id, 0, st.displayCount) == Some(k)
    ensures var r := UpdateDisplay(st, id, (d: Display) => Rotate(d.(orientation := o), st.screens[id].rotation));
            && k in r.displays && r.displays[k].orientation == o && r.displays[k].rotation == st.screens[id].rotation
            && r.groups == st.groups
  {
    hide FirstDisplay;
  }

  /** The layout turns no display. */
  lemma LayoutShows(st: State, g: ScreenId, k: DisplayId)
    requires g in st.groups && k in st.displays
    ensures var r := UpdateLayout(st, g).0;
            && k in r.displays && r.displays[k].orientation == st.displays[k].orientation
            && r.displays[k].rotation == st.displays[k].rotation
  {
    hide ChildrenByX, LayOut;
    LayOutShows(st, ChildrenByX(st, g), 0, k);
  }

  lemma {:induction false} LayOutShows(st: State, order: seq<ScreenId>, x: int, k: DisplayId)
    requires k in st.displays
    ensures var r := LayOut(st, order, x).0;
            && k in r.displays && r.displays[k].orientation == st.displays[k].orientation
            && r.displays[k].rotation == st.displays[k].rotation
    decreases |order|
  {
    if order != [] {
      if order[0] !in st.screens || st.screens[order[0]].mode.None? {
        LayOutShows(st, order[1..], x, k);
      } else {
        var s1 := LayOutOne(st, order[0], x).0;
        assert k in s1.displays && s1.displays[k].orientation == st.displays[k].orientation
               && s1.displays[k].rotation == st.displays[k].rotation;
        hide LayOutOne;
        LayOutShows(s1, order[1..], x + WidthOf(st.screens, order[0]), k);
      }
    }
  }

  lemma SetOrientationTurns(st: State, env: Env, id: ScreenId, o: Orientation)
    requires Inv(st) && id in st.screens && !st.screens[id].IsGroup() && st.screens[id].orientation != o
    ensures var r := SetOrientation(st, env, id, o).0;
            && id in r.screens
            && r.screens[id] == st.screens[id].(orientation := o, requested := o,
                                                rotation := CalcRotation(st.screens[id].mode, o), start := r.screens[id].start)
            && (forall x :: x in st.screens && x != id ==>
                  x in r.screens && r.screens[x] == st.screens[x].(start := r.screens[x].start))
  {
    hide Inv, Evolves, Touch, UpdateDisplay, CalcRotation, UpdateLayout;
    var s1 := st.(screens := st.screens[id := st.screens[id].(requested := o)]);
    TurnInv(st, id, st.screens[id].(requested := o));
    var rot := CalcRotation(st.screens[id].mode, o);
    var s2 := SetRotation(s1, env, id, rot);
    SetRotationTurns(s1, env, id, rot);
    var t2 := s2.(screens := s2.screens[id := s2.screens[id].(orientation := o)]);
    TurnInv(s2, id, s2.screens[id].(orientation := o));
    TouchAt(t2, env, id);
    var s3 := Touch(t2, env, id);
    var f := (d: Display) => Rotate(d.(orientation := o), s3.screens[id].rotation);
    var s4 := if s3.callback then UpdateDisplay(s3, id, f) else s3;
    UpdateDisplayShape(s3, id, f);
    assert s4.screens == s3.screens;
    hide SetRotation, Rotate;
    if s4.screens[id].groupId in s4.groups {
      LayoutTurnsNothing(s4, s4.screens[id].groupId);
    }
  }

  lemma TouchAt(st: State, env: Env, id: ScreenId)
    requires Inv(st) && id in st.screens
    ensures var r := Touch(st, env, id); Inv(r) && forall x :: x in st.screens ==> x in r.screens && r.screens[x] == st.screens[x]
  {
    TouchInv(st, env, id);
    hide Inv, Evolves, GetDefault;
    if st.groups == map[] {
      assert Touch(st, env, id) == st;
    } else {
      hide Touch;
    }
  }

  lemma SetRotationTurns(st: State, env: Env, id: ScreenId, r: Rotation)
    requires Inv(st) && id in st.screens
    ensures var s := SetRotation(st, env, id, r);
            && Inv(s) && id in s.screens && s.screens[id] == st.screens[id].(rotation := r)
            && forall x :: x in st.screens && x != id ==> x in s.screens && s.screens[x] == st.screens[x]
  {
    hide Inv, Evolves, Touch, UpdateDisplay, Rotate, SameShape;
    SetRotationInv(st, env, id, r);
    if st.screens[id].rotation != r {
      var s1 := st.(screens := st.screens[id := st.screens[id].(rotation := r)]);
      TurnInv(st, id, st.screens[id].(rotation := r));
      TouchAt(s1, env, id);
      UpdateDisplayShape(Touch(s1, env, id), id, (d: Display) => Rotate(d, r));
    }
  }

  /** The layout moves screens; it turns none. */
  lemma LayoutTurnsNothing(st: State, g: ScreenId)
    requires g in st.groups
    ensures var r := UpdateLayout(st, g).0;
            forall x :: x in st.screens ==> x in r.screens && r.screens[x] == st.screens[x].(start := r.screens[x].start)
  {
    hide ChildrenByX, LayOut;
    forall x | x in st.screens
      ensures x in UpdateLayout(st, g).0.screens
      ensures UpdateLayout(st, g).0.screens[x] == st.screens[x].(start := UpdateLayout(st, g).0.screens[x].start)
    {
      LayOutTurnsNothing(st, ChildrenByX(st, g), 0, x);
    }
  }

  lemma {:induction false} LayOutTurnsNothing(st: State, order: seq<ScreenId>, x: int, id: ScreenId)
    requires id in st.screens
    ensures var r := LayOut(st, order, x).0;
            id in r.screens && r.screens[id] == st.screens[id].(start := r.screens[id].start)
    decreases |order|
  {
    if order != [] {
      if order[0] !in st.screens || st.screens[order[0]].mode.None? {
        LayOutTurnsNothing(st, order[1..], x, id);
      } else {
        var s1 := LayOutOne(st, order[0], x).0;
        assert id in s1.screens && s1.screens[id] == st.screens[id].(start := s1.screens[id].start);
        hide LayOutOne;
        LayOutTurnsNothing(s1, order[1..], x + WidthOf(st.screens, order[0]), id);
      }
    }
  }

  // ---------- Runs from the start ----------

  /** In every reachable state the displays were numbered by their counter and made for ids handed out. As long as
      no operation so far shared, no two of them are on one screen, and the first that shares ends it. */
  lemma SharedReachable(events: seq<Event>, next: Event)
    requires (forall e :: e in events ==> Admissible(e.op)) && Admissible(next.op)
    ensures var st := Run(INITIAL, events);
            && (forall k :: k in st.displays ==> k < st.displayCount && st.displays[k].screenId < st.ids.count)
            && ((forall i :: 0 <= i < |events| ==> !SharingRuns.Shares(Run(INITIAL, events[..i]), events[i].env, events[i].op)) ==>
                  && DisplaySharing.Unshared(st.displays)
                  && (DisplaySharing.Unshared(Step(st, next.env, next.op).displays) <==>
                        !SharingRuns.Shares(st, next.env, next.op)))
  {
    InitialGood();
    assert DisplaySharing.Numbered(INITIAL) && DisplaySharing.Unshared(INITIAL.displays);
    SharingRuns.RunNumbered(INITIAL, events);
    hide Run, Good, Step, SharingRuns.Shares;
    if forall i :: 0 <= i < |events| ==> !SharingRuns.Shares(Run(INITIAL, events[..i]), events[i].env, events[i].op) {
      SharingRuns.RunUnshared(INITIAL, events, next);
    }
  }

  /** In an expand run with the callback registered, all real children of the group but at most one have a display,
      as long as no default that had left the group was plugged in while another child was without; and plugging it
      in so ends it. */
  lemma CoveredReachable(events: seq<Event>, next: Event)
    requires forall i :: 0 <= i < |events| ==>
               && ExpandOp(Run(INITIAL, events[..i]), events[i].env, events[i].op)
               && !ExpandCoverage.Slips(Run(INITIAL, events[..i]), events[i].op)
    requires ExpandOp(Run(INITIAL, events), next.env, next.op)
    ensures var st := Run(INITIAL, events);
            st.callback ==>
              forall g, x, y :: RealChild(st, g, x) && RealChild(st, g, y) && x != y ==>
                exists k :: k in st.displays && st.displays[k].screenId in {x, y}
    ensures var st := Run(INITIAL, events);
            ExpandCoverage.Covered(Step(st, next.env, next.op)) <==> !ExpandCoverage.Slips(st, next.op)
  {
    hide *;
    InitialGood();
    InitialCovered();
    ExpandCoverage.RunCovered(INITIAL, events, next);
    CoveredPairs(Run(INITIAL, events));
  }

  predicate RealChild(st: State, g: ScreenId, x: ScreenId) {
    && g in st.groups && x in st.groups[g].children
    && x in st.screens && st.screens[x].kind.REAL? && st.screens[x].mode.Some?
  }

  lemma InitialCovered()
    ensures DispOk(INITIAL) && ExpandCoverage.Covered(INITIAL)
  {
  }

  lemma CoveredPairs(st: State)
    requires ExpandCoverage.Covered(st)
    ensures st.callback ==>
              forall g, x, y :: RealChild(st, g, x) && RealChild(st, g, y) && x != y ==>
                exists k :: k in st.displays && st.displays[k].screenId in {x, y}
  {
    forall g, x, y | st.callback && RealChild(st, g, x) && RealChild(st, g, y) && x != y
      ensures exists k :: k in st.displays && st.displays[k].screenId in {x, y}
    {
      assert ExpandCoverage.Member(st, x) && ExpandCoverage.Member(st, y);
      assert (ExpandCoverage.Bare(st, x) <==> NoDisplay(st, x)) && (ExpandCoverage.Bare(st, y) <==> NoDisplay(st, y));
    }
  }

  /** Runs of an expanding server: connecting, disconnecting, virtual screens, MakeExpand, StopExpand,
      RemoveVirtualScreenFromGroup, rotations and orientations, with the callback registered once. Every
      display is bound to a child of an expand group, no two displays share a screen, and the display of a
      real screen has its rotation and the size of its mode, swapped exactly for rotations 90 and 270. */
  lemma ExpandReachable(events: seq<Event>)
    requires forall i :: 0 <= i < |events| ==> ExpandOp(Run(INITIAL, events[..i]), events[i].env, events[i].op)
    ensures var st := Run(INITIAL, events);
            && (forall k :: k in st.displays ==>
                  var id := st.displays[k].screenId;
                  && id in st.screens && st.screens[id].groupId in st.groups
                  && id in st.groups[st.screens[id].groupId].children
                  && st.groups[st.screens[id].groupId].combination.SCREEN_EXPAND?
                  && (st.screens[id].kind.REAL? ==>
                        && st.displays[k].rotation == st.screens[id].rotation && st.screens[id].mode.Some?
                        && var m := st.screens[id].mode.value;
                           (st.displays[k].width, st.displays[k].height) ==
                             if IsVertical(st.screens[id].rotation) then (m.width, m.height) else (m.height, m.width)))
            && DisplaySharing.Unshared(st.displays)
  {
    InitialGood();
    RunDispOk(INITIAL, events);
    forall i | 0 <= i < |events| ensures Admissible(events[i].op) {
      assert ExpandOp(Run(INITIAL, events[..i]), events[i].env, events[i].op);
    }
    forall e | e in events ensures Admissible(e.op) {
      var i :| 0 <= i < |events| && events[i] == e;
    }
    RunGood(INITIAL, events);
    var st := Run(INITIAL, events);
    hide Run, ExpandOp;
    GoodShape(st);
    hide Good;
  }

  /** Runs that make no virtual screen the default and disconnect or destroy screens only while a real
      default screen is in the group: the source of a mirror group is one of its children. */
  lemma MirrorReachable(events: seq<Event>)
    requires forall i :: 0 <= i < |events| ==>
               var op := events[i].op;
               && Admissible(op) && !op.OpSetVirtualAsDefault?
               && (op.OpDisconnect? || op.OpDestroyVirtual? || op.OpAgentDied? ==> Anchored(Run(INITIAL, events[..i])))
    ensures var st := Run(INITIAL, events);
            forall g :: g in st.groups && st.groups[g].combination.SCREEN_MIRROR? ==>
              st.groups[g].mirrorId in st.groups[g].children
  {
    InitialGood();
    RunMirrorOk(INITIAL, events);
    hide Run, Good, Anchored;
  }

  /** Runs of connections and orientation changes with expanding groups: in some left-to-right order each
      child starts where its left neighbour ends, the first one at 0. */
  lemma TiledReachable(events: seq<Event>)
    requires forall i :: 0 <= i < |events| ==>
               ExpandTiling.TilingOp(Run(INITIAL, events[..i]), events[i].env, events[i].op)
    ensures var st := Run(INITIAL, events);
            forall g :: g in st.groups ==> exists order :: ExpandTiling.TiledBy(st, g, order)
  {
    InitialGood();
    ExpandTiling.InitialTiled();
    ExpandTiling.RunTiled(INITIAL, events);
    hide Run, Good, ExpandTiling.TilingOp, ExpandTiling.TiledBy;
  }

  /** In such runs every display lies where its screen starts. If the callback is registered once, the displays of any
      two real screens stand side by side. */
  lemma AlignedReachable(events: seq<Event>)
    requires forall i :: 0 <= i < |events| ==>
               ExpandTiling.TilingOp(Run(INITIAL, events[..i]), events[i].env, events[i].op)
    ensures var st := Run(INITIAL, events);
            forall k :: k in st.displays ==>
              st.displays[k].screenId in st.screens && st.displays[k].offset == st.screens[st.displays[k].screenId].start
    ensures (forall i :: 0 <= i < |events| ==> ExpandOp(Run(INITIAL, events[..i]), events[i].env, events[i].op)) ==>
              var st := Run(INITIAL, events);
              forall j, k :: j in st.displays && k in st.displays && j != k
                             && st.displays[j].screenId in st.screens && st.screens[st.displays[j].screenId].kind.REAL?
                             && st.displays[k].screenId in st.screens && st.screens[st.displays[k].screenId].kind.REAL? ==>
                var a, b := st.displays[j], st.displays[k];
                a.offset.y == 0 && b.offset.y == 0
                && (a.offset.x + a.width <= b.offset.x || b.offset.x + b.width <= a.offset.x)
  {
    hide *;
    InitialGood();
    ExpandTiling.InitialTiled();
    InitialAligned();
    DisplayTiling.RunAligned(INITIAL, events);
    var st := Run(INITIAL, events);
    AlignedMeans(st);
    if forall i :: 0 <= i < |events| ==> ExpandOp(Run(INITIAL, events[..i]), events[i].env, events[i].op) {
      InitialCovered();
      RunDispOk(INITIAL, events);
      forall j, k | j in st.displays && k in st.displays && j != k
                    && st.displays[j].screenId in st.screens && st.screens[st.displays[j].screenId].kind.REAL?
                    && st.displays[k].screenId in st.screens && st.screens[st.displays[k].screenId].kind.REAL?
        ensures var a, b := st.displays[j], st.displays[k];
                a.offset.y == 0 && b.offset.y == 0
                && (a.offset.x + a.width <= b.offset.x || b.offset.x + b.width <= a.offset.x)
      {
        DisplayTiling.DisplaysApart(st, j, k);
      }
    }
  }

  lemma InitialAligned()
    ensures DisplayTiling.Aligned(INITIAL) && DisplaySharing.Numbered(INITIAL)
  {
  }

  lemma AlignedMeans(st: State)
    requires DisplayTiling.Aligned(st)
    ensures forall k :: k in st.displays ==>
              st.displays[k].screenId in st.screens && st.displays[k].offset == st.screens[st.displays[k].screenId].start
  {
  }
}

/** The invariant over every operation, and so over every run of the server. */
module ScreenRuns {
  import opened DmTypes
  import opened ScreenState
  import opened ScreenInvariant
  import opened AgentOwnership

  // ---------- Rotation and layout ----------

  lemma UpdateDisplayShape(st: State, id: ScreenId, f: Display -> Display)
    ensures SameShape(st, UpdateDisplay(st, id, f)) && Evolves(st, UpdateDisplay(st, id, f))
    ensures UpdateDisplay(st, id, f).screens == st.screens && UpdateDisplay(st, id, f).callback == st.callback
  {
  }

  lemma UpdateDisplayInv(st: State, id: ScreenId, f: Display -> Display)
    requires Inv(st)
    ensures Inv(UpdateDisplay(st, id, f)) && Evolves(st, UpdateDisplay(st, id, f))
  {
    hide Inv, Evolves;
    UpdateDisplayShape(st, id, f);
    ShapeInv(st, UpdateDisplay(st, id, f));
  }

  /** Changing the rotation, the orientation or the requested orientation of a screen. */
  lemma TurnInv(st: State, id: ScreenId, s: Screen)
    requires Inv(st) && id in st.screens
    requires s == st.screens[id].(rotation := s.rotation, orientation := s.orientation, requested := s.requested)
    ensures Inv(st.(screens := st.screens[id := s])) && Evolves(st, st.(screens := st.screens[id := s]))
  {
    hide Inv;
    ShapeInv(st, st.(screens := st.screens[id := s]));
  }

  lemma SetRotationInv(st: State, env: Env, id: ScreenId, r: Rotation)
    requires Inv(st)
    ensures Inv(SetRotation(st, env, id, r)) && Evolves(st, SetRotation(st, env, id, r))
  {
    hide Inv, Evolves, Extends, SameGrouping, Touch, UpdateDisplay;
    EvolvesRefl(st);
    if id in st.screens && st.screens[id].rotation != r {
      var s0 := st.(screens := st.screens[id := st.screens[id].(rotation := r)]);
      TurnInv(st, id, st.screens[id].(rotation := r));
      var s1 := Touch(s0, env, id);
      TouchInv(s0, env, id);
      EvolvesTrans(st, s0, s1);
      if s1.callback {
        var f := (d: Display) => Rotate(d, r);
        UpdateDisplayInv(s1, id, f);
        EvolvesTrans(st, s1, UpdateDisplay(s1, id, f));
      }
    }
  }

  lemma LayOutOneInv(st: State, id: ScreenId, x: int)
    requires Inv(st) && id in st.screens && st.screens[id].mode.Some?
    ensures Inv(LayOutOne(st, id, x).0) && Evolves(st, LayOutOne(st, id, x).0)
  {
    hide Inv;
    ShapeInv(st, LayOutOne(st, id, x).0);
  }

  lemma {:induction false} LayOutInv(st: State, order: seq<ScreenId>, x: int)
    requires Inv(st)
    ensures Inv(LayOut(st, order, x).0) && Evolves(st, LayOut(st, order, x).0)
    decreases |order|
  {
    hide Inv, Evolves, LayOutOne;
    EvolvesRefl(st);
    if order != [] {
      if order[0] !in st.screens || st.screens[order[0]].mode.None? {
        LayOutInv(st, order[1..], x);
      } else {
        var s1 := LayOutOne(st, order[0], x).0;
        var x1 := x + WidthOf(st.screens, order[0]);
        LayOutOneInv(st, order[0], x);
        LayOutInv(s1, order[1..], x1);
        EvolvesTrans(st, s1, LayOut(s1, order[1..], x1).0);
      }
    }
  }

  lemma SetOrientationInv(st: State, env: Env, id: ScreenId, o: Orientation)
    requires Inv(st)
    ensures Inv(SetOrientation(st, env, id, o).0) && Evolves(st, SetOrientation(st, env, id, o).0)
  {
    hide Inv, Evolves, Extends, SameGrouping, Touch, UpdateDisplay, SetRotation, LayOut, ChildrenByX;
    EvolvesRefl(st);
    if id in st.screens && !st.screens[id].IsGroup() {
      var s1 := st.(screens := st.screens[id := st.screens[id].(requested := o)]);
      TurnInv(st, id, st.screens[id].(requested := o));
      if s1.screens[id].orientation != o {
        var s2 := SetRotation(s1, env, id, CalcRotation(s1.screens[id].mode, o));
        SetRotationInv(s1, env, id, CalcRotation(s1.screens[id].mode, o));
        EvolvesTrans(st, s1, s2);
        EvolvesPlain(st, s2, [id]);
        assert id in [id];
        var t2 := s2.(screens := s2.screens[id := s2.screens[id].(orientation := o)]);
        TurnInv(s2, id, s2.screens[id].(orientation := o));
        EvolvesTrans(st, s2, t2);
        var s3 := Touch(t2, env, id);
        TouchInv(t2, env, id);
        EvolvesTrans(st, t2, s3);
        var s4 := s3;
        if s3.callback && id in s3.screens {
          var f := (d: Display) => Rotate(d.(orientation := o), s3.screens[id].rotation);
          s4 := UpdateDisplay(s3, id, f);
          UpdateDisplayInv(s3, id, f);
          EvolvesTrans(st, s3, s4);
        }
        if id in s4.screens && s4.screens[id].groupId in s4.groups {
          var order := ChildrenByX(s4, s4.screens[id].groupId);
          LayOutInv(s4, order, 0);
          EvolvesTrans(st, s4, LayOut(s4, order, 0).0);
        }
      }
    }
  }

  // ---------- Registration and the service ----------

  lemma {:induction false} ConnectEachInv(st: State, env: Env, ids: seq<ScreenId>)
    requires Inv(st)
    ensures Inv(ConnectEach(st, env, ids)) && Evolves(st, ConnectEach(st, env, ids))
    decreases |ids|
  {
    hide Inv, Evolves, Extends, SameGrouping, OnConnect;
    EvolvesRefl(st);
    if ids != [] {
      var s1 := if ids[0] in st.screens then OnConnect(st, env, ids[0]) else st;
      if ids[0] in st.screens { OnConnectInv(st, env, ids[0]); }
      ConnectEachInv(s1, env, ids[1..]);
      EvolvesTrans(st, s1, ConnectEach(s1, env, ids[1..]));
    }
  }

  ghost predicate Ungrouped(st: State, d: ScreenId) {
    d in st.screens ==> st.screens[d].groupId !in st.groups
  }

  lemma OnConnectUngrouped(st: State, env: Env, id: ScreenId, d: ScreenId)
    requires Inv(st) && id in st.screens && Ungrouped(st, d)
    ensures Ungrouped(OnConnect(st, env, id), d)
  {
    OnConnectInv(st, env, id);
    if st.groups != map[] {
      NoInvalidGroup(st);
      hide OnConnect, Inv, Evolves;
    }
  }

  lemma {:induction false} UngroupedIdle(st: State, env: Env, ids: seq<ScreenId>)
    requires forall i :: 0 <= i < |ids| ==> Ungrouped(st, ids[i])
    ensures ConnectEach(st, env, ids) == st
    decreases |ids|
  {
    if ids != [] {
      assert Ungrouped(st, ids[0]);
      UngroupedIdle(st, env, ids[1..]);
    }
  }

  /** A registration need not visit the screens that its own callbacks add: they are in no group, and
      visiting them as well does nothing. */
  lemma {:induction false} LateScreensIdle(st: State, env: Env, ids: seq<ScreenId>, late: seq<ScreenId>)
    requires Inv(st) && forall i :: 0 <= i < |late| ==> Ungrouped(st, late[i])
    ensures ConnectEach(st, env, ids + late) == ConnectEach(st, env, ids)
    decreases |ids|
  {
    hide Inv, Evolves, Extends, SameGrouping, OnConnect, Ungrouped;
    if ids == [] {
      assert ids + late == late;
      UngroupedIdle(st, env, late);
    } else {
      var s1 := if ids[0] in st.screens then OnConnect(st, env, ids[0]) else st;
      if ids[0] in st.screens {
        OnConnectInv(st, env, ids[0]);
        forall i | 0 <= i < |late| ensures Ungrouped(s1, late[i]) {
          OnConnectUngrouped(st, env, ids[0], late[i]);
        }
      }
      assert (ids + late)[0] == ids[0] && (ids + late)[1..] == ids[1..] + late;
      LateScreensIdle(s1, env, ids[1..], late);
    }
  }

  /** GetAllValidScreenIds keeps the known ordinary screens of the list, each once. */
  lemma {:induction false} ValidIdsFilter(st: State, ids: seq<ScreenId>)
    ensures forall id :: id in ValidIds(st, ids) <==> id in ids && id in st.screens && !st.screens[id].IsGroup()
    ensures forall i, j :: 0 <= i < j < |ValidIds(st, ids)| ==> ValidIds(st, ids)[i] != ValidIds(st, ids)[j]
  {
    if ids != [] {
      ValidIdsFilter(st, ids[..|ids| - 1]);
      assert ids == ids[..|ids| - 1] + [ids[|ids| - 1]];
    }
  }

  /** They come in the order in which the list names them first: what comes earlier is named before the other. */
  lemma {:induction false} ValidIdsOrder(st: State, ids: seq<ScreenId>, i: nat, j: nat) returns (p: nat)
    requires i < j < |ValidIds(st, ids)|
    ensures p < |ids| && ids[p] == ValidIds(st, ids)[i] && ValidIds(st, ids)[j] !in ids[..p + 1]
  {
    var init, last := ids[..|ids| - 1], ids[|ids| - 1];
    ValidIdsFilter(st, init);
    var v := ValidIds(st, init);
    if j < |v| {
      p := ValidIdsOrder(st, init, i, j);
      assert ids[..p + 1] == init[..p + 1];
    } else {
      var x := v[i];
      assert x in v && last !in v;
      p :| 0 <= p < |init| && init[p] == x;
      assert forall x :: x in ids[..p + 1] ==> x in init;
    }
  }

  lemma {:induction false} RemoveFirstIn(ids: seq<ScreenId>, id: ScreenId)
    ensures forall x :: x in RemoveFirst(ids, id) ==> x in ids
  {
    if ids != [] { RemoveFirstIn(ids[1..], id); }
  }

  lemma ValidPlain(st: State, ids: seq<ScreenId>, id: ScreenId)
    ensures Plain(st, ValidIds(st, ids)) && Plain(st, RemoveFirst(ValidIds(st, ids), id))
  {
    ValidIdsFilter(st, ids);
    RemoveFirstIn(ValidIds(st, ids), id);
  }

  lemma ServiceInv(st: State, env: Env, id: ScreenId, ids: seq<ScreenId>, at: seq<Point>, combination: Combination)
    requires Inv(st)
    ensures var r := ServiceMakeMirror(st, env, id, ids).0; Inv(r) && Evolves(st, r)
    ensures var r := ServiceMakeExpand(st, env, ids, at).0; Inv(r) && Evolves(st, r)
    ensures var r := ServiceStop(st, env, ids, combination); Inv(r) && Evolves(st, r)
  {
    hide Inv, Evolves, Extends, MakeMirror, MakeExpand, StopScreens, GetDefault, Plain, PointsFor, FirstPoints, ValidIds;
    EvolvesRefl(st);
    ValidPlain(st, ids, id);
    StopScreensInv(st, env, ValidIds(st, ids), combination);
    MakeMirrorInv(st, env, id, RemoveFirst(ValidIds(st, ids), id));
    if |ids| == |at| {
      var (s1, d) := GetDefault(st, env);
      LookupInv(st, env);
      ValidPlain(s1, ids, d);
      var all := RemoveFirst(ValidIds(s1, ids), d);
      var points := PointsFor(all, FirstPoints(ids, at));
      if |points| == |all| {
        MakeExpandInv(s1, env, all, points);
        EvolvesTrans(st, s1, MakeExpand(s1, env, all, points).0);
      }
    }
  }

  // ---------- Every step, every run ----------

  /** What holds between operations: the structural invariant, every valid id has its screen, and
      the agents' lists are in order. */
  ghost predicate Good(st: State) {
    Inv(st) && Quiescent(st) && AgentsOk(st)
  }

  /** No screen connects under the invalid rs id. */
  predicate Admissible(op: Op) {
    op.OpConnect? ==> op.rs != SCREEN_ID_INVALID
  }

  lemma EvolvesGood(a: State, b: State)
    requires Good(a) && Inv(b) && Evolves(a, b)
    ensures Good(b)
  {
    hide Inv, AgentsOk, Evolves;
    EvolvesUnmatched(a, b);
    EvolvesAgents(a, b);
  }

  lemma InitialGood()
    ensures Good(INITIAL)
  {
  }

  lemma DisconnectGood(st: State, env: Env, rs: ScreenId)
    requires Good(st)
    ensures Good(Disconnect(st, env, rs))
    ensures Disconnect(st, env, rs).agents == st.agents
    ensures AgentsAway(st) && st.defaultRs != SCREEN_ID_INVALID ==>
              AgentsAway(Disconnect(st, env, rs)) && Disconnect(st, env, rs).defaultRs == st.defaultRs
  {
    hide Inv, AgentsOk, AgentsAway, Loses, Remirror, OnDisconnect, RemoveFromGroup;
    var r := Disconnect(st, env, rs);
    DisconnectInv(st, env, rs);
    if rs in st.ids.rs2Dms {
      var d := st.ids.rs2Dms[rs];
      if d in st.screens && st.callback && InGroup(st, d) && rs == st.defaultRs {
        ShapeEvolves(st, r);
        EvolvesAgents(st, r);
      } else {
        DisconnectLoses(st, env, rs);
        LosesAgents(st, r, {d});
        if AgentsAway(st) && st.defaultRs != SCREEN_ID_INVALID {
          LosesAway(st, r, {d});
          LosesDefault(st, r, {d});
        }
      }
    }
  }

  lemma LosesDefault(a: State, b: State, gone: set<ScreenId>)
    requires Loses(a, b, gone) && a.defaultRs != SCREEN_ID_INVALID
    ensures b.defaultRs == a.defaultRs
  {
  }

  /** The operations that only ever add: everything but disconnecting, destroying, creating virtual
      screens, a dying agent, choosing a virtual default and registering. */
  predicate Grows(op: Op) {
    op.OpConnect? || op.OpQueryDefault? || op.OpMakeMirror? || op.OpMakeExpand? || op.OpStop?
    || op.OpRemoveVirtual? || op.OpSetRotation? || op.OpSetOrientation?
  }

  lemma GrowsEvolves(st: State, env: Env, op: Op)
    requires Inv(st) && Grows(op) && Admissible(op)
    ensures Inv(Step(st, env, op)) && Evolves(st, Step(st, env, op))
  {
    hide Inv, Evolves, Extends, Connect, GetDefault, ServiceMakeMirror, ServiceMakeExpand, ServiceStop, RemoveVirtual,
         SetRotation, SetOrientation;
    match op
    case OpConnect(rs) => ConnectInv(st, env, rs);
    case OpQueryDefault => LookupInv(st, env);
    case OpMakeMirror(id, ids) => ServiceInv(st, env, id, ids, [], SCREEN_MIRROR);
    case OpMakeExpand(ids, at) => ServiceInv(st, env, 0, ids, at, SCREEN_MIRROR);
    case OpStop(ids, combination) => ServiceInv(st, env, 0, ids, [], combination);
    case OpRemoveVirtual(ids) => RemoveVirtualInv(st, env, ids);
    case OpSetRotation(id, r) => SetRotationInv(st, env, id, r);
    case OpSetOrientation(id, o) => SetOrientationInv(st, env, id, o);
  }

  lemma RegisterGood(st: State, env: Env)
    requires Good(st)
    ensures Good(RegisterCallback(st, env))
    ensures AgentsAway(st) && st.defaultRs != SCREEN_ID_INVALID ==>
              AgentsAway(RegisterCallback(st, env)) && RegisterCallback(st, env).defaultRs == st.defaultRs
  {
    hide Inv, Evolves, ConnectEach, AgentsAway;
    var s0 := st.(callback := true);
    ShapeInv(st, s0);
    assert Good(s0);
    SameAway(st, s0);
    hide AgentsOk, Quiescent;
    ConnectEachInv(s0, env, Ascending(st.screens.Keys));
    EvolvesGood(s0, RegisterCallback(st, env));
    EvolvesAgents(s0, RegisterCallback(st, env));
    if st.defaultRs != SCREEN_ID_INVALID { EvolvesDefault(s0, RegisterCallback(st, env)); }
  }

  lemma SameAway(a: State, b: State)
    requires b == a.(callback := b.callback)
    ensures AgentsAway(a) ==> AgentsAway(b)
  {
  }

  /** Every operation keeps Good. */
  lemma StepGood(st: State, env: Env, op: Op)
    requires Good(st) && Admissible(op)
    ensures Good(Step(st, env, op))
  {
    hide Inv, Evolves, AgentsOk, AgentsAway, Connect, GetDefault, Disconnect, CreateVirtual, DestroyVirtual, OnRemoteDied,
         ServiceMakeMirror, ServiceMakeExpand, ServiceStop, RemoveVirtual, SetRotation, SetOrientation,
         SetVirtualAsDefault, RegisterCallback, Unmatched;
    if Grows(op) {
      GrowsEvolves(st, env, op);
      EvolvesGood(st, Step(st, env, op));
    } else {
      match op
      case OpDisconnect(rs) => DisconnectGood(st, env, rs);
      case OpCreateVirtual(rs, mode, a) => CreateVirtualInv(st, env, rs, mode, a);
      case OpDestroyVirtual(id) => DestroyInv(st, env, id);
      case OpAgentDied(a) => if OnRemoteDied(st, env, a).Some? { OnRemoteDiedInv(st, env, a); }
      case OpSetVirtualAsDefault(id) => SetVirtualAsDefaultInv(st, env, id);
      case OpRegister => RegisterGood(st, env);
    }
  }

  /** Every reachable state is Good, whatever the render service answers. */
  lemma {:induction false} RunGood(st: State, events: seq<Event>)
    requires Good(st) && forall e :: e in events ==> Admissible(e.op)
    ensures Good(Run(st, events))
    decreases |events|
  {
    hide Good, Step;
    if events != [] {
      StepGood(st, events[0].env, events[0].op);
      RunGood(Step(st, events[0].env, events[0].op), events[1..]);
    }
  }

  lemma {:induction false} RunAppend(st: State, events: seq<Event>, e: Event)
    ensures Run(st, events + [e]) == Step(Run(st, events), e.env, e.op)
    decreases |events|
  {
    hide Step;
    if events == [] {
      assert events + [e] == [e] && [e][1..] == [];
    } else {
      assert (events + [e])[0] == events[0] && (events + [e])[1..] == events[1..] + [e];
      RunAppend(Step(st, events[0].env, events[0].op), events[1..], e);
    }
  }

  // ---------- Agents over runs ----------

  /** The default is known and no agent lists the screen that carries it. */
  ghost predicate Known(st: State) {
    st.defaultRs != SCREEN_ID_INVALID && AgentsAway(st)
  }

  lemma DestroyKnown(st: State, env: Env, id: ScreenId)
    requires Good(st) && Known(st)
    ensures Known(DestroyVirtual(st, env, id).0)
  {
    hide Inv, AgentsOk, Disconnect, Disown, Unmatched;
    if !Refuses(st, id) {
      var s1 := st.(agents := Disown(st.agents, id));
      var rs := RsOf(st.ids, id);
      DisownOk(st, id);
      DisownFewer(st, id);
      FewerAway(st, s1.agents);
      AgentsInv(st, s1.agents);
      assert Good(s1);
      if rs != SCREEN_ID_INVALID && id in s1.screens {
        DisconnectGood(s1, env, rs);
        UnlistedAway(Disconnect(s1, env, rs), id);
      } else {
        UnlistedAway(s1, id);
      }
    }
  }

  lemma DisownFewer(st: State, id: ScreenId)
    requires AgentsOk(st)
    ensures forall a, i :: a in Disown(st.agents, id) && 0 <= i < |Disown(st.agents, id)[a]| ==>
              Disown(st.agents, id)[a][i] in AgentList(st, a)
  {
    DisownOk(st, id);
    var agents := Disown(st.agents, id);
    hide Disown, AgentsOk;
    forall a, i | a in agents && 0 <= i < |agents[a]| ensures agents[a][i] in AgentList(st, a) {
      assert agents[a] == AgentList(st.(agents := agents), a);
      RemoveFirstIn(AgentList(st, a), id);
    }
  }

  /** Lists whose entries all come from the old lists. */
  lemma FewerAway(st: State, agents: map<AgentId, seq<ScreenId>>)
    requires AgentsAway(st)
    requires forall a, i :: a in agents && 0 <= i < |agents[a]| ==> agents[a][i] in AgentList(st, a)
    ensures AgentsAway(st.(agents := agents))
  {
    var r := st.(agents := agents);
    forall a, i | a in r.agents && 0 <= i < |r.agents[a]| ensures RsOf(r.ids, r.agents[a][i]) != r.defaultRs {
      assert r.agents[a][i] in AgentList(st, a);
      var j :| 0 <= j < |st.agents[a]| && st.agents[a][j] == r.agents[a][i];
    }
  }

  lemma UnlistedAway(st: State, id: ScreenId)
    requires AgentsAway(st) && st.defaultRs != SCREEN_ID_INVALID
    ensures AgentsAway(st.(ids := DeleteId(st.ids, id)))
  {
  }

  lemma RemoteDiedKnown(st: State, env: Env, a: AgentId)
    requires Good(st) && Known(st)
    ensures OnRemoteDied(st, env, a).Some? && Known(OnRemoteDied(st, env, a).value)
  {
    hide Inv, Quiescent, Loses, OnRemoteDied;
    KnownDeathEnds(st, env, a);
    AwayList(st, a);
    DeathEffect(st, env, a);
    hide AgentsOk;
    var r := OnRemoteDied(st, env, a).value;
    var gone := Listed(AgentList(st, a));
    LosesAway(st, r, gone);
    LosesDefault(st, r, gone);
    var mid := r.(agents := st.agents);
    forall b, i | b in r.agents && 0 <= i < |r.agents[b]| ensures r.agents[b][i] in AgentList(mid, b) {
      assert AgentList(r, b) == AgentList(st, b);
    }
    FewerAway(mid, r.agents);
  }

  lemma AwayList(st: State, a: AgentId)
    requires AgentsAway(st)
    ensures forall id :: id in AgentList(st, a) ==> RsOf(st.ids, id) != st.defaultRs
  {
    forall id | id in AgentList(st, a) ensures RsOf(st.ids, id) != st.defaultRs {
      var i :| 0 <= i < |st.agents[a]| && st.agents[a][i] == id;
    }
  }

  /** A new virtual screen is made under the default rs id. */
  predicate MakesDefault(st: State, op: Op) {
    op.OpCreateVirtual? && op.rs == st.defaultRs && op.rs !in st.ids.rs2Dms
  }

  /** Once the default is known, it stays known and away from the agents through an operation if and only if
      the operation does not make a new virtual screen under the default rs id. */
  lemma StepKnown(st: State, env: Env, op: Op)
    requires Good(st) && Known(st) && Admissible(op)
    ensures Known(Step(st, env, op)) <==> !MakesDefault(st, op)
  {
    hide Inv, Evolves, AgentsOk, AgentsAway, Connect, GetDefault, Disconnect, DestroyVirtual, OnRemoteDied,
         ServiceMakeMirror, ServiceMakeExpand, ServiceStop, RemoveVirtual, SetRotation, SetOrientation,
         SetVirtualAsDefault, RegisterCallback, Unmatched;
    if Grows(op) {
      GrowsEvolves(st, env, op);
      EvolvesAgents(st, Step(st, env, op));
      EvolvesDefault(st, Step(st, env, op));
    } else {
      match op
      case OpDisconnect(rs) => DisconnectGood(st, env, rs);
      case OpCreateVirtual(rs, mode, a) =>
        CreateVirtualInv(st, env, rs, mode, a);
        if MakesDefault(st, op) {
          CreatedDefaultSpins(st, env, mode, a, env);
        }
      case OpDestroyVirtual(id) => DestroyKnown(st, env, id);
      case OpAgentDied(a) => RemoteDiedKnown(st, env, a);
      case OpSetVirtualAsDefault(id) => SetVirtualAsDefaultInv(st, env, id);
      case OpRegister => RegisterGood(st, env);
    }
  }

  /** Along every run the virtual screens an agent lists can be destroyed: if that agent dies, the
      loop of OnRemoteDied ends, and none of its screens or ids remain. */
  lemma {:induction false} RunAgentsEnd(st: State, events: seq<Event>, env: Env, a: AgentId)
    requires Good(st) && Known(st)
    requires forall i :: 0 <= i < |events| ==> Admissible(events[i].op)
    requires forall i :: 0 <= i < |events| ==> !MakesDefault(Run(st, events[..i]), events[i].op)
    ensures var last := Run(st, events);
            && OnRemoteDied(last, env, a).Some?
            && var dead := OnRemoteDied(last, env, a).value;
               && a !in dead.agents
               && (forall b :: b != a ==> AgentList(dead, b) == AgentList(last, b))
               && (forall id :: id in AgentList(last, a) ==> id !in dead.ids.dms2Rs && id !in dead.screens)
    decreases |events|
  {
    hide Step, OnRemoteDied;
    if events == [] {
      hide AgentsOk, AgentsAway, Inv;
      KnownDeathEnds(st, env, a);
      AwayList(st, a);
      DeathEffect(st, env, a);
    } else {
      hide Good, Known, MakesDefault;
      var s1 := Step(st, events[0].env, events[0].op);
      var rest := events[1..];
      assert Run(st, events[..0]) == st;
      StepGood(st, events[0].env, events[0].op);
      StepKnown(st, events[0].env, events[0].op);
      forall i | 0 <= i < |rest| ensures !MakesDefault(Run(s1, rest[..i]), rest[i].op) {
        assert rest[i] == events[i + 1];
        assert events[..i + 1][0] == events[0] && events[..i + 1][1..] == rest[..i];
      }
      RunAgentsEnd(s1, rest, env, a);
    }
  }

  // ---------- Runs in one environment ----------

  function AllIn(env: Env, ops: seq<Op>): seq<Event> {
    if ops == [] then [] else [Event(env, ops[0])] + AllIn(env, ops[1..])
  }

  lemma InTurn(st: State, env: Env, ops: seq<Op>, k: nat)
    requires k <= |ops|
    ensures Run(st, AllIn(env, ops[k..]))
            == if k < |ops| then Run(Step(st, env, ops[k]), AllIn(env, ops[k + 1..])) else st
    ensures ops[0..] == ops
  {
    hide Step;
    if k < |ops| {
      var events := AllIn(env, ops[k + 1..]);
      assert ops[k..][1..] == ops[k + 1..];
      assert ([Event(env, ops[k])] + events)[1..] == events;
    }
  }
}

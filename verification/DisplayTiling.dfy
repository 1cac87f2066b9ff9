/** On the runs whose screens tile the desktop, every display lies where its screen starts. */
module DisplayTiling {
  import opened DmTypes
  import opened ScreenState
  import opened ScreenInvariant
  import opened AgentOwnership
  import opened ScreenRuns
  import opened GroupChanges
  import opened DefaultScreen
  import opened ExpandDisplays
  import opened ExpandTiling
  import opened DisplaySharing
  import opened DisplayPlaces
  import MirrorSource
  import SharingRuns

  /** Every display is bound to a screen that has a group, and lies where that starts. */
  ghost predicate Aligned(st: State) {
    && (forall k :: k in st.displays ==>
          Housed(st, st.displays[k].screenId) && st.displays[k].offset == st.screens[st.displays[k].screenId].start)
    && (!st.callback ==> st.displays == map[])
  }

  /** No display is moved against its screen, and no screen out of its group. */
  ghost predicate InStep(a: State, b: State) {
    && b.callback == a.callback && a.groups.Keys <= b.groups.Keys
    && (forall k :: k in b.displays ==> k in a.displays && b.displays[k].screenId == a.displays[k].screenId
                                        && b.displays[k].offset == a.displays[k].offset)
    && (forall x :: x in a.screens && !a.screens[x].IsGroup() ==>
          x in b.screens && !b.screens[x].IsGroup() && b.screens[x].groupId == a.screens[x].groupId
          && b.screens[x].start == a.screens[x].start)
  }

  lemma InStepAligned(a: State, b: State)
    requires Aligned(a) && InStep(a, b)
    ensures Aligned(b)
  {
  }

  lemma NothingAligned(st: State)
    requires st.displays == map[]
    ensures Aligned(st)
  {
  }

  lemma NoGroupNothing(st: State)
    requires Aligned(st) && st.groups == map[]
    ensures st.displays == map[]
  {
    if k :| k in st.displays {
      assert Housed(st, st.displays[k].screenId);
    }
  }

  // ---------- Connecting ----------

  lemma NewAligned(st: State, env: Env, rs: ScreenId)
    requires Inv(st) && Aligned(st) && Numbered(st) && rs != SCREEN_ID_INVALID && rs !in st.ids.rs2Dms
    ensures Aligned(Connect(st, env, rs))
  {
    hide Inv, Connect, NewTarget, NewShown, NewPlace, DisplayOf, KnownDefault;
    NewConnects(st, env, rs);
    NoInvalidGroup(st);
    ConnectInv(st, env, rs);
    var r := Connect(st, env, rs);
    assert r.callback == st.callback by { EvolvesCallback(st, r); }
    hide Evolves;
    if rs in env.modes {
      if st.groups == map[] { NoGroupNothing(st); }
      LeftAligned(st, r, env, rs);
    }
  }

  lemma LeftAligned(st: State, r: State, env: Env, rs: ScreenId)
    requires Aligned(st) && rs in env.modes && NewLeft(st, r, env, rs) && r.callback == st.callback
    requires st.groups == map[] ==> st.displays == map[]
    ensures Aligned(r)
  {
    var d, t := st.ids.count, NewTarget(st, env);
    forall k | k in r.displays
      ensures Housed(r, r.displays[k].screenId) && r.displays[k].offset == r.screens[r.displays[k].screenId].start
    {
      if k in st.displays && r.displays[k] == st.displays[k] {
        assert Housed(st, st.displays[k].screenId);
      } else {
        assert r.displays[k] == DisplayOf(d, r.screens[d], env.modes[rs], r.screens[d].start);
        assert r.screens[d].groupId == t.value;
      }
    }
  }

  lemma LookupAligned(st: State, env: Env)
    requires Inv(st) && Aligned(st) && Numbered(st)
    ensures Aligned(GetDefault(st, env).0)
  {
    hide Inv, Evolves, Connect, ConnectDefault;
    var s0 := Learn(st, env);
    LearnInv(st, env);
    LookupInv(st, env);
    if st.groups != map[] {
      ExtendsInStep(st, GetDefault(st, env).0);
      InStepAligned(st, GetDefault(st, env).0);
    } else if !Settled(st, env) {
      InvBounded(s0);
      ConnectFounder(s0, env);
      NewAligned(s0, env, s0.defaultRs);
    }
  }

  lemma ExtendsInStep(a: State, b: State)
    requires Extends(a, b)
    ensures InStep(a, b)
  {
  }

  lemma CreateVirtualAligned(st: State, env: Env, rs: ScreenId, mode: Mode, a: AgentId)
    requires Inv(st) && Aligned(st) && Numbered(st)
    ensures Aligned(CreateVirtual(st, env, rs, mode, a).0)
  {
    if rs != SCREEN_ID_INVALID && rs !in st.ids.rs2Dms {
      var s0 := st.(ids := CreateId(st.ids, rs));
      NewIdInv(st, rs);
      LookupAligned(s0, env);
      LookupInv(s0, env);
      assert st.ids.count in st.screens ==> ScreenOk(st, st.ids.count);
      var s1 := GetDefault(s0, env).0;
      assert st.ids.count !in s1.screens;
      hide Inv, GetDefault, Evolves, Extends;
    }
  }

  // ---------- Registering ----------

  /** A child that is alone starts at the origin, where its display goes. */
  lemma AloneAtOrigin(st: State, id: ScreenId)
    requires TileInv(st) && Housed(st, id)
    ensures |st.groups[st.screens[id].groupId].children| == 1 ==> st.screens[id].start == ORIGIN
  {
    var g := st.screens[id].groupId;
    assert ScreenOk(st, id);
    NoInvalidGroup(st);
    var order :| TiledBy(st, g, order);
    if |st.groups[g].children| == 1 {
      DistinctSize(order);
      assert order[..0] == [];
      OneElement(st.groups[g].children, id, order[0]);
    }
    hide Inv;
  }

  lemma {:induction false} DistinctSize(order: seq<ScreenId>)
    requires Distinct(order)
    ensures |Elements(order)| == |order|
  {
    if order != [] {
      assert Elements(order) == {order[0]} + Elements(order[1..]);
      assert order[0] !in order[1..];
      DistinctSize(order[1..]);
    }
  }

  lemma OnConnectAligned(st: State, env: Env, id: ScreenId)
    requires TileInv(st) && Aligned(st) && Numbered(st) && st.callback && id in st.screens
    ensures Aligned(OnConnect(st, env, id))
  {
    if st.screens[id].groupId in st.groups {
      assert Housed(st, id) by { assert ScreenOk(st, id); NoInvalidGroup(st); }
      AloneAtOrigin(st, id);
      OnConnectMakes(st, env, id);
      hide TileInv, OnConnect, DueMode;
    }
  }

  lemma {:induction false} ConnectEachAligned(st: State, env: Env, ids: seq<ScreenId>)
    requires TileInv(st) && Aligned(st) && Numbered(st) && st.callback
    ensures Aligned(ConnectEach(st, env, ids))
    decreases |ids|
  {
    hide TileInv, Aligned, OnConnect, Numbered, Unshared, Inv, Evolves;
    if ids != [] {
      if ids[0] in st.screens {
        assert Inv(st) by { TileInvInv(st); }
        OnConnectTiled(st, env, ids[0]);
        OnConnectAligned(st, env, ids[0]);
        OnConnectRetains(st, env, ids[0]);
        OnConnectInv(st, env, ids[0]);
        EvolvesCallback(st, OnConnect(st, env, ids[0]));
        ConnectEachAligned(OnConnect(st, env, ids[0]), env, ids[1..]);
      } else {
        ConnectEachAligned(st, env, ids[1..]);
      }
    }
  }

  lemma TileInvInv(st: State)
    requires TileInv(st)
    ensures Inv(st)
  {
  }

  lemma RegisterAligned(st: State, env: Env)
    requires Good(st) && TileInv(st) && Aligned(st) && Numbered(st)
    ensures Aligned(RegisterCallback(st, env))
  {
    hide TileInv, Good, ConnectEach, Ascending;
    var s0 := st.(callback := true);
    CallbackTiled(st);
    ConnectEachAligned(s0, env, Ascending(st.screens.Keys));
  }

  // ---------- Orientations ----------

  lemma InStepTrans(a: State, b: State, c: State)
    requires InStep(a, b) && InStep(b, c)
    ensures InStep(a, c)
  {
  }

  lemma ScreenInStep(st: State, id: ScreenId, s: Screen)
    requires id in st.screens && s == st.screens[id].(rotation := s.rotation, orientation := s.orientation, requested := s.requested)
    ensures InStep(st, st.(screens := st.screens[id := s]))
  {
  }

  lemma UpdateInStep(st: State, id: ScreenId, f: Display -> Display)
    requires forall d: Display :: f(d).screenId == d.screenId && f(d).offset == d.offset
    ensures InStep(st, UpdateDisplay(st, id, f))
  {
    hide FirstDisplay;
  }

  lemma RotateStays(d: Display, r: Rotation)
    ensures Rotate(d, r).screenId == d.screenId && Rotate(d, r).offset == d.offset
  {
  }

  lemma TouchInStep(st: State, env: Env, id: ScreenId)
    requires Inv(st)
    ensures InStep(st, Touch(st, env, id))
  {
    TouchInv(st, env, id);
    hide Inv, Evolves, GetDefault;
    if st.groups != map[] {
      ExtendsInStep(st, Touch(st, env, id));
    } else {
      assert Touch(st, env, id) == st;
    }
  }

  lemma SetRotationInStep(st: State, env: Env, id: ScreenId, r: Rotation)
    requires Inv(st)
    ensures InStep(st, SetRotation(st, env, id, r))
  {
    hide Inv, Evolves, InStep, Touch, UpdateDisplay;
    assert InStep(st, st) by { SelfInStep(st); }
    if id in st.screens && st.screens[id].rotation != r {
      var s := st.screens[id].(rotation := r);
      var s0 := st.(screens := st.screens[id := s]);
      TurnInv(st, id, s);
      ScreenInStep(st, id, s);
      TouchInStep(s0, env, id);
      var s1 := Touch(s0, env, id);
      InStepTrans(st, s0, s1);
      var f := (d: Display) => Rotate(d, r);
      forall d: Display ensures f(d).screenId == d.screenId && f(d).offset == d.offset { RotateStays(d, r); }
      UpdateInStep(s1, id, f);
      InStepTrans(st, s1, UpdateDisplay(s1, id, f));
    }
  }

  lemma SelfInStep(st: State)
    ensures InStep(st, st)
  {
  }

  lemma LayOutOneAligned(st: State, id: ScreenId, x: int)
    requires Aligned(st) && id in st.screens && st.screens[id].mode.Some?
    ensures Aligned(LayOutOne(st, id, x).0)
  {
    var r := LayOutOne(st, id, x).0;
    forall k | k in r.displays
      ensures Housed(r, r.displays[k].screenId) && r.displays[k].offset == r.screens[r.displays[k].screenId].start
    {
      assert Housed(st, st.displays[k].screenId);
    }
  }

  lemma {:induction false} LayOutAligned(st: State, order: seq<ScreenId>, x: int)
    requires Aligned(st)
    ensures Aligned(LayOut(st, order, x).0)
    decreases |order|
  {
    hide Aligned, LayOutOne;
    if order != [] {
      if order[0] !in st.screens || st.screens[order[0]].mode.None? {
        LayOutAligned(st, order[1..], x);
      } else {
        LayOutOneAligned(st, order[0], x);
        LayOutAligned(LayOutOne(st, order[0], x).0, order[1..], x + WidthOf(st.screens, order[0]));
      }
    }
  }

  lemma SetOrientationAligned(st: State, env: Env, id: ScreenId, o: Orientation)
    requires Inv(st) && Aligned(st)
    ensures Aligned(SetOrientation(st, env, id, o).0)
  {
    hide Inv, Evolves, Aligned, InStep, Touch, UpdateDisplay, SetRotation, LayOut, ChildrenByX, CalcRotation, Extends, SameGrouping;
    if id in st.screens && !st.screens[id].IsGroup() {
      var s := st.screens[id].(requested := o);
      var s1 := st.(screens := st.screens[id := s]);
      TurnInv(st, id, s);
      ScreenInStep(st, id, s);
      if s1.screens[id].orientation != o {
        var rot := CalcRotation(s1.screens[id].mode, o);
        var s2 := SetRotation(s1, env, id, rot);
        SetRotationInv(s1, env, id, rot);
        SetRotationInStep(s1, env, id, rot);
        InStepTrans(st, s1, s2);
        assert id in s2.screens by { EvolvesPlain(s1, s2, [id]); assert id in [id]; }
        var t := s2.screens[id].(orientation := o);
        var t2 := s2.(screens := s2.screens[id := t]);
        TurnInv(s2, id, t);
        ScreenInStep(s2, id, t);
        InStepTrans(st, s2, t2);
        var s3 := Touch(t2, env, id);
        TouchInStep(t2, env, id);
        InStepTrans(st, t2, s3);
        if id in s3.screens {
          var f := (d: Display) => Rotate(d.(orientation := o), s3.screens[id].rotation);
          forall d: Display ensures f(d).screenId == d.screenId && f(d).offset == d.offset {
            RotateStays(d.(orientation := o), s3.screens[id].rotation);
          }
          UpdateInStep(s3, id, f);
          InStepTrans(st, s3, UpdateDisplay(s3, id, f));
          InStepAligned(st, UpdateDisplay(s3, id, f));
        }
        InStepAligned(st, s3);
        var s4 := if s3.callback && id in s3.screens
                  then UpdateDisplay(s3, id, (d: Display) => Rotate(d.(orientation := o), s3.screens[id].rotation)) else s3;
        assert Aligned(s4);
        if id in s4.screens && s4.screens[id].groupId in s4.groups {
          LayOutAligned(s4, ChildrenByX(s4, s4.screens[id].groupId), 0);
        }
      }
      InStepAligned(st, s1);
    }
  }

  // ---------- What the layout does to displays ----------

  /** The display has the size of the mode, turned like it. */
  predicate Sized(d: Display, m: Mode) {
    d.width == RotatedWidth(m, d.rotation) && d.height == RotatedHeight(m, d.rotation)
  }

  /** e is d in a new place: of the same size if that was the right one, and of the size of the upright mode otherwise. */
  predicate Replaced(d: Display, e: Display, m: Mode, p: Point) {
    && e == d.(offset := p, width := e.width, height := e.height)
    && (Sized(d, m) ==> Sized(e, m))
    && (!Sized(d, m) ==> e.width == m.width && e.height == m.height)
  }

  /** So a display that is not upright does not get the right size, unless it had it or the mode is square. */
  lemma ResizeExact(d: Display, m: Mode, p: Point)
    ensures Replaced(d, Resize(d, m, p), m, p)
    ensures forall e :: Replaced(d, e, m, p) ==>
              (Sized(e, m) <==> Sized(d, m) || IsVertical(d.rotation) || m.width == m.height)
  {
  }

  lemma LayOutOneShows(st: State, id: ScreenId, x: int, k: DisplayId)
    requires Placeable(st, id) && st.callback && k in st.displays
    ensures var r := LayOutOne(st, id, x).0;
            && k in r.displays && r.callback
            && (if st.displays[k].screenId == id && st.screens[id].start.x != x
                then Replaced(st.displays[k], r.displays[k], st.screens[id].mode.value, Point(x, 0))
                else r.displays[k] == st.displays[k])
  {
    ResizeExact(st.displays[k], st.screens[id].mode.value, Point(x, 0));
    hide Resize, Replaced;
  }

  /** The layout replaces the displays of the children it moves, and no others. */
  lemma {:induction false} LayOutShows(st: State, order: seq<ScreenId>, x: int, k: DisplayId)
    requires Distinct(order) && (forall i :: 0 <= i < |order| ==> Placeable(st, order[i])) && st.callback && k in st.displays
    ensures var r := LayOut(st, order, x).0;
            var id := st.displays[k].screenId;
            && k in r.displays && id in st.screens ==>
                 id in r.screens
                 && if id in order && st.screens[id].mode.Some? && r.screens[id].start.x != st.screens[id].start.x
                    then Replaced(st.displays[k], r.displays[k], st.screens[id].mode.value, r.screens[id].start)
                    else r.displays[k] == st.displays[k]
    ensures k in LayOut(st, order, x).0.displays
    decreases |order|
  {
    if order != [] {
      var c, rest := order[0], order[1..];
      var s1 := LayOutOne(st, c, x).0;
      var x1 := x + WidthOf(st.screens, c);
      LayOutEffect(st, order, x);
      LayOutOneEffect(st, c, x);
      LayOutOneShows(st, c, x, k);
      TailElements(order);
      assert forall i :: 0 <= i < |rest| ==> rest[i] == order[i + 1];
      LayOutShows(s1, rest, x1, k);
      LayOutEffect(s1, rest, x1);
      hide LayOutOne, LaidOut, Replaced, Placeable;
    }
  }

  /** The children that a layout in this order moves. */
  ghost function MovedBy(st: State, r: State, order: seq<ScreenId>): set<ScreenId> {
    set c | c in order && StartX(r, c) != StartX(st, c)
  }

  /** The size callback runs once for each child that moves, if it is registered. */
  lemma {:induction false} LayOutCounts(st: State, order: seq<ScreenId>, x: int)
    requires Distinct(order) && forall i :: 0 <= i < |order| ==> Placeable(st, order[i])
    ensures var (r, n) := LayOut(st, order, x);
            n == if st.callback then |MovedBy(st, r, order)| else 0
    decreases |order|
  {
    hide LayOutOne, LayOut, LaidOut, WidthOf, SumWidths, Placeable, Distinct, MovedBy;
    if order == [] {
      NoneMoved(st, x);
    } else {
      LayOutHead(st, order, x);
      var c, rest := order[0], order[1..];
      var s1 := LayOutOne(st, c, x).0;
      var x1 := x + WidthOf(st.screens, c);
      LayOutStep(st, order, x);
      LayOutCounts(s1, rest, x1);
      LayOutEffect(st, order, x);
      var r := LayOut(st, order, x).0;
      FirstTile(st, r, order, x);
      MovedFirst(st, s1, r, c, rest, x);
      assert order == [c] + rest;
    }
  }

  lemma NoneMoved(st: State, x: int)
    ensures LayOut(st, [], x) == (st, 0) && MovedBy(st, st, []) == {}
  {
  }

  lemma LayOutHead(st: State, order: seq<ScreenId>, x: int)
    requires order != [] && Distinct(order) && forall i :: 0 <= i < |order| ==> Placeable(st, order[i])
    ensures order[0] in st.screens && st.screens[order[0]].mode.Some?
    ensures var c, rest := order[0], order[1..];
            var (s1, moved) := LayOutOne(st, c, x);
            && s1.callback == st.callback && Distinct(rest)
            && s1.screens == st.screens[c := st.screens[c].(start := Point(x, 0))]
            && (moved <==> st.callback && st.screens[c].start.x != x)
            && forall i :: 0 <= i < |rest| ==> Placeable(s1, rest[i])
  {
    var c, rest := order[0], order[1..];
    assert Placeable(st, order[0]);
    LayOutOneEffect(st, c, x);
    TailElements(order);
    hide LayOutOne;
    assert forall i :: 0 <= i < |rest| ==> rest[i] == order[i + 1];
  }

  lemma LayOutStep(st: State, order: seq<ScreenId>, x: int)
    requires order != [] && order[0] in st.screens && st.screens[order[0]].mode.Some?
    ensures var (s1, moved) := LayOutOne(st, order[0], x);
            var (s2, n) := LayOut(s1, order[1..], x + WidthOf(st.screens, order[0]));
            LayOut(st, order, x) == (s2, n + if moved then 1 else 0)
  {
    hide LayOutOne;
  }

  lemma FirstTile(st: State, r: State, order: seq<ScreenId>, x: int)
    requires order != [] && Distinct(order) && LaidOut(st, r, order, x)
    ensures order[0] in r.screens && r.screens[order[0]].start.x == x && order[0] !in order[1..]
  {
    assert order[..0] == [];
  }

  lemma MovedFirst(st: State, s1: State, r: State, c: ScreenId, rest: seq<ScreenId>, x: int)
    requires c in st.screens && c !in rest && c in r.screens && r.screens[c].start.x == x
    requires s1.screens == st.screens[c := st.screens[c].(start := Point(x, 0))]
    ensures MovedBy(st, r, [c] + rest) == MovedBy(s1, r, rest) + if st.screens[c].start.x != x then {c} else {}
    ensures c !in MovedBy(s1, r, rest)
  {
    assert forall y :: y in [c] + rest <==> y == c || y in rest;
  }

  /** Laying out an expand group takes the displays of every child that moves with it, and leaves all others alone. */
  lemma UpdateLayoutShows(st: State, g: ScreenId, k: DisplayId)
    requires g in st.groups && st.groups[g].combination.SCREEN_EXPAND? && |st.groups[g].children| > 1
    requires AllPlaceable(st, g) && st.callback && k in st.displays && st.displays[k].screenId in st.screens
    ensures var r := UpdateLayout(st, g).0;
            var id := st.displays[k].screenId;
            && k in r.displays && id in r.screens
            && if id in st.groups[g].children && r.screens[id].start.x != st.screens[id].start.x
               then st.screens[id].mode.Some?
                    && Replaced(st.displays[k], r.displays[k], st.screens[id].mode.value, r.screens[id].start)
               else r.displays[k] == st.displays[k]
  {
    var order := ChildrenByX(st, g);
    ChildrenSorted(st, g);
    forall i | 0 <= i < |order| ensures Placeable(st, order[i]) {
      assert order[i] in Elements(order);
    }
    hide LayOut, ChildrenByX, Replaced;
    LayOutShows(st, order, 0, k);
    var id := st.displays[k].screenId;
    assert id in order <==> id in Elements(order);
    assert id in st.groups[g].children ==> Placeable(st, id);
  }

  // ---------- Every step, every run ----------

  /** Every operation of a tiling run keeps every display where its screen starts. */
  lemma StepAligned(st: State, env: Env, op: Op)
    requires Good(st) && TileInv(st) && Aligned(st) && Numbered(st) && TilingOp(st, env, op)
    ensures Aligned(Step(st, env, op))
  {
    hide Inv, AgentsOk, TileInv, Aligned, Numbered, Connect, CreateVirtual, SetOrientation, GetDefault, RegisterCallback,
         DefaultPlaceable, Unmatched;
    match op
    case OpConnect(rs) =>
      if rs in st.ids.rs2Dms { NothingReconnects(st, env, rs); MappedConnect(st, env, rs); } else { NewAligned(st, env, rs); }
    case OpCreateVirtual(rs, mode, a) => CreateVirtualAligned(st, env, rs, mode, a);
    case OpSetOrientation(id, o) => SetOrientationAligned(st, env, id, o);
    case OpQueryDefault => LookupAligned(st, env);
    case OpRegister => RegisterAligned(st, env);
  }

  lemma MappedConnect(st: State, env: Env, rs: ScreenId)
    requires rs in st.ids.rs2Dms
    ensures Connect(st, env, rs) == Reconnect(st, env, rs)
  {
  }

  lemma {:induction false} RunAligned(st: State, events: seq<Event>)
    requires Good(st) && TileInv(st) && Aligned(st) && Numbered(st)
    requires forall i :: 0 <= i < |events| ==> TilingOp(Run(st, events[..i]), events[i].env, events[i].op)
    ensures Aligned(Run(st, events)) && TileInv(Run(st, events))
    decreases |events|
  {
    hide Good, TileInv, Aligned, Numbered, Step, TilingOp;
    if events != [] {
      var s1 := Step(st, events[0].env, events[0].op);
      var rest := events[1..];
      assert Run(st, events[..0]) == st;
      assert TilingOp(st, events[0].env, events[0].op);
      TilingAdmissible(st, events[0]);
      StepGood(st, events[0].env, events[0].op);
      StepTiled(st, events[0].env, events[0].op);
      StepAligned(st, events[0].env, events[0].op);
      SharingRuns.StepNumbered(st, events[0].env, events[0].op);
      forall i | 0 <= i < |rest| ensures TilingOp(Run(s1, rest[..i]), rest[i].env, rest[i].op) {
        assert rest[i] == events[i + 1];
        assert events[..i + 1][0] == events[0] && events[..i + 1][1..] == rest[..i];
      }
      RunAligned(s1, rest);
    }
  }

  /** The displays of two real children stand side by side, as the children do. */
  lemma DisplaysApart(st: State, j: DisplayId, k: DisplayId)
    requires TileInv(st) && Aligned(st) && DispOk(st) && j in st.displays && k in st.displays && j != k
    requires st.screens[st.displays[j].screenId].kind.REAL? && st.screens[st.displays[k].screenId].kind.REAL?
    ensures var a, b := st.displays[j], st.displays[k];
            && a.offset.y == 0 && b.offset.y == 0
            && (a.offset.x + a.width <= b.offset.x || b.offset.x + b.width <= a.offset.x)
  {
    var x, y := st.displays[j].screenId, st.displays[k].screenId;
    assert Housed(st, x) && Housed(st, y) && ScreenOk(st, x) && ScreenOk(st, y);
    NoInvalidGroup(st);
    var g := st.screens[x].groupId;
    assert st.screens[y].groupId == g;
    var order :| TiledBy(st, g, order);
    assert x in Elements(order) && y in Elements(order);
    var m :| 0 <= m < |order| && order[m] == x;
    var n :| 0 <= n < |order| && order[n] == y;
    if m < n { TilesDisjoint(st, g, order, m, n); } else { TilesDisjoint(st, g, order, n, m); }
    assert Fits(st.displays[j], st.screens[x]) && Fits(st.displays[k], st.screens[y]);
    hide Inv;
  }
}

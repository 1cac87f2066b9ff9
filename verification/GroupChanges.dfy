/** What MakeMirror, MakeExpand and StopScreens do to the group: exactly the listed screens move,
    the target group is never emptied on the way, and a mirror group keeps a usable source. */
module GroupChanges {
  import opened DmTypes
  import opened ScreenState
  import opened ScreenInvariant
  import opened ScreenRuns

  predicate Distinct(ids: seq<ScreenId>) {
    forall i, j :: 0 <= i < j < |ids| ==> ids[i] != ids[j]
  }

  /** The target group exists and holds a child that is not listed. */
  ghost predicate HasAnchor(st: State, g: ScreenId, ids: seq<ScreenId>) {
    g in st.groups && exists a :: a in st.groups[g].children && a !in ids
  }

  /** Only the given screens, all of them plain, leave the group. */
  ghost predicate LeavesOnly(a: State, b: State, g: ScreenId, out: set<ScreenId>) {
    && g in a.groups
    && b.groups == a.groups[g := a.groups[g].(children := a.groups[g].children - out)]
    && (forall d :: d in a.screens && d !in out ==> d in b.screens && b.screens[d] == a.screens[d])
    && (forall d :: d in out ==> d in b.screens && b.screens[d].groupId == SCREEN_ID_INVALID)
  }

  /** Dropping one screen from a group that keeps another child. */
  lemma DropEffect(st: State, env: Env, g: ScreenId, id: ScreenId)
    requires Inv(st) && g in st.groups && id in st.screens && !st.screens[id].IsGroup()
    requires st.groups[g].children != {id}
    ensures var s1 := if st.callback && InGroup(st, id) then OnDisconnect(st, env, id) else st;
            id in s1.screens && LeavesOnly(st, RemoveFromGroup(s1, id).0, g, {id})
  {
    assert ScreenOk(st, id);
    hide Inv, Evolves, OnDisconnect;
    var s1 := if st.callback && InGroup(st, id) then OnDisconnect(st, env, id) else st;
    DropInv(st, env, id);
    if st.callback && InGroup(st, id) { OnDisconnectInv(st, env, id); }
    hide Extends;
    if InGroup(st, id) {
      RemoveOtherInv(s1, g, id);
      hide RemoveChild;
    } else {
      assert st.groups[g].children - {id} == st.groups[g].children;
    }
  }

  lemma LeavesTrans(a: State, b: State, c: State, g: ScreenId, o1: set<ScreenId>, o2: set<ScreenId>)
    requires LeavesOnly(a, b, g, o1) && LeavesOnly(b, c, g, o2)
    ensures LeavesOnly(a, c, g, o1 + o2)
  {
    assert a.groups[g].children - o1 - o2 == a.groups[g].children - (o1 + o2);
  }

  /** The entries ChangeScreenGroup collects, judged in the state it starts from. */
  function TakenOf(st: State, g: ScreenId, ids: seq<ScreenId>, at: seq<Point>, filter: bool): seq<Taken>
    requires |ids| == |at|
  {
    if ids == [] then []
    else (if Moves(st, g, ids[0], filter) then [Taken(ids[0], at[0], InGroup(st, ids[0]))] else [])
         + TakenOf(st, g, ids[1..], at[1..], filter)
  }

  ghost function Movers(st: State, g: ScreenId, ids: seq<ScreenId>, filter: bool): set<ScreenId> {
    set id | id in ids && Moves(st, g, id, filter)
  }

  lemma LeavesMoves(a: State, b: State, g: ScreenId, out: set<ScreenId>, id: ScreenId, filter: bool)
    requires LeavesOnly(a, b, g, out) && id !in out && id in a.screens
    ensures Moves(b, g, id, filter) == Moves(a, g, id, filter) && id in b.screens && InGroup(b, id) == InGroup(a, id)
  {
  }

  lemma {:induction false} LeavesTaken(a: State, b: State, g: ScreenId, out: set<ScreenId>, ids: seq<ScreenId>,
                                       at: seq<Point>, filter: bool)
    requires LeavesOnly(a, b, g, out) && |ids| == |at|
    requires forall id :: id in ids ==> id in a.screens && id !in out
    ensures TakenOf(b, g, ids, at, filter) == TakenOf(a, g, ids, at, filter)
    ensures Movers(b, g, ids, filter) == Movers(a, g, ids, filter)
  {
    hide LeavesOnly, Moves;
    forall id | id in ids ensures Moves(b, g, id, filter) == Moves(a, g, id, filter) {
      LeavesMoves(a, b, g, out, id, filter);
    }
    if ids != [] {
      assert ids[0] in ids;
      LeavesMoves(a, b, g, out, ids[0], filter);
      LeavesTaken(a, b, g, out, ids[1..], at[1..], filter);
    }
  }

  lemma LeavesNone(st: State, g: ScreenId)
    requires g in st.groups
    ensures LeavesOnly(st, st, g, {})
  {
    assert st.groups[g].children - {} == st.groups[g].children;
  }

  lemma TakeOutOneEffect(st: State, env: Env, g: ScreenId, id: ScreenId, filter: bool)
    requires Inv(st) && id in st.screens && !st.screens[id].IsGroup() && g in st.groups && st.groups[g].children != {id}
    ensures LeavesOnly(st, TakeOutOne(st, env, g, id, filter), g, if Moves(st, g, id, filter) then {id} else {})
  {
    hide Inv, OnDisconnect, RemoveFromGroup, LeavesOnly;
    if Moves(st, g, id, filter) {
      DropEffect(st, env, g, id);
    } else {
      LeavesNone(st, g);
    }
  }

  /** The first loop of ChangeScreenGroup takes out exactly the listed screens that are not filtered,
      remembers the start point and the old membership of each, and never empties the group. */
  lemma {:induction false} TakeOutEffect(st: State, env: Env, g: ScreenId, ids: seq<ScreenId>, at: seq<Point>, filter: bool)
    requires Inv(st) && Plain(st, ids) && Distinct(ids) && |ids| == |at| && HasAnchor(st, g, ids)
    ensures var (r, taken) := TakeOut(st, env, g, ids, at, filter);
            && taken == TakenOf(st, g, ids, at, filter)
            && LeavesOnly(st, r, g, Movers(st, g, ids, filter))
            && HasAnchor(r, g, ids)
    decreases |ids|
  {
    hide Inv, Evolves, TakeOutOne, LeavesOnly, Moves;
    if ids == [] {
      assert Movers(st, g, ids, filter) == {};
      LeavesNone(st, g);
    } else {
      var id, rest := ids[0], ids[1..];
      var s1 := TakeOutOne(st, env, g, id, filter);
      var first := if Moves(st, g, id, filter) then {id} else {};
      assert id in ids;
      assert st.groups[g].children != {id};
      TakeOutOneInv(st, env, g, id, filter);
      TakeOutOneEffect(st, env, g, id, filter);
      assert Plain(s1, rest) by { EvolvesPlain(st, s1, rest); }
      AnchorStays(st, s1, g, first, ids);
      TakeOutEffect(s1, env, g, rest, at[1..], filter);
      LeavesTaken(st, s1, g, first, rest, at[1..], filter);
      assert Movers(st, g, ids, filter) == first + Movers(st, g, rest, filter);
      var r := TakeOut(st, env, g, ids, at, filter).0;
      LeavesTrans(st, s1, r, g, first, Movers(s1, g, rest, filter));
      AnchorStays(st, r, g, Movers(st, g, ids, filter), ids);
    }
  }

  lemma AnchorStays(a: State, b: State, g: ScreenId, out: set<ScreenId>, ids: seq<ScreenId>)
    requires HasAnchor(a, g, ids) && LeavesOnly(a, b, g, out) && forall id :: id in out ==> id in ids
    ensures HasAnchor(b, g, ids)
    ensures ids != [] ==> HasAnchor(b, g, ids[1..])
  {
    var x :| x in a.groups[g].children && x !in ids;
    assert x in b.groups[g].children;
  }

  // ---------- Putting screens in ----------

  /** A group whose display nodes need no fall-back source. */
  ghost predicate HasSource(st: State, g: ScreenId) {
    g in st.groups && (st.groups[g].combination.SCREEN_MIRROR? ==> st.groups[g].mirrorId in st.groups[g].children)
  }

  /** Exactly the listed screens join the group, each with the start point it asked for. */
  ghost predicate JoinsOnly(a: State, b: State, env: Env, g: ScreenId, taken: seq<Taken>) {
    && g in a.groups
    && b.groups == a.groups[g := a.groups[g].(children := a.groups[g].children + IdsOf(taken))]
    && (forall d :: d in a.screens && d !in IdsOf(taken) ==> d in b.screens && b.screens[d] == a.screens[d])
    && (forall i :: 0 <= i < |taken| ==>
          && taken[i].id in a.screens && taken[i].id in b.screens
          && b.screens[taken[i].id] == WithNode(a.screens[taken[i].id], env, g, taken[i].at))
  }

  ghost function IdsOf(taken: seq<Taken>): set<ScreenId> {
    set i | 0 <= i < |taken| :: taken[i].id
  }

  ghost predicate Loose(st: State, id: ScreenId) {
    id in st.screens && !st.screens[id].IsGroup() && st.screens[id].groupId == SCREEN_ID_INVALID
  }

  lemma AddChildPlain(st: State, env: Env, g: ScreenId, id: ScreenId, p: Point)
    requires Inv(st) && HasSource(st, g) && Loose(st, id)
    ensures AddChild(st, env, g, id, p) == (PlaceChild(st, env, g, id, p), true)
  {
    AddChildNew(st, env, g, id, p);
  }

  lemma PutInOneEffect(st: State, env: Env, g: ScreenId, t: Taken)
    requires Inv(st) && HasSource(st, g) && Loose(st, t.id)
    ensures var (r, n) := PutInOne(st, env, g, t);
            && JoinsOnly(st, r, env, g, [t]) && HasSource(r, g)
            && n == (if t.wasChild then Notice([], [t.id], []) else Notice([], [], [t.id]))
  {
    var s1 := PlaceChild(st, env, g, t.id, t.at);
    AddChildPlain(st, env, g, t.id, t.at);
    AddChildInv(st, env, g, t.id, t.at);
    PlaceJoins(st, env, g, t);
    hide Inv, Evolves, Extends, Touch, OnConnect, AddChild, PlaceChild, JoinsOnly, SameGrouping, HasSource;
    var s2 := Touch(s1, env, t.id);
    TouchInv(s1, env, t.id);
    GroupingJoins(st, s1, s2, env, g, t);
    OnConnectInv(s2, env, t.id);
    var s3 := if s2.callback then OnConnect(s2, env, t.id) else s2;
    if s2.callback { GroupingJoins(st, s2, s3, env, g, t); }
  }

  lemma PlaceJoins(st: State, env: Env, g: ScreenId, t: Taken)
    requires HasSource(st, g) && t.id in st.screens
    ensures JoinsOnly(st, PlaceChild(st, env, g, t.id, t.at), env, g, [t])
    ensures HasSource(PlaceChild(st, env, g, t.id, t.at), g) && PlaceChild(st, env, g, t.id, t.at).groups != map[]
  {
    assert IdsOf([t]) == {t.id} by { assert [t][0] == t; }
  }

  lemma GroupingJoins(st: State, a: State, b: State, env: Env, g: ScreenId, t: Taken)
    requires JoinsOnly(st, a, env, g, [t]) && HasSource(a, g) && SameGrouping(a, b)
    ensures JoinsOnly(st, b, env, g, [t]) && HasSource(b, g) && b.groups != map[] && t.id in b.screens
  {
    assert [t][0] == t;
  }

  lemma JoinsTrans(a: State, b: State, c: State, env: Env, g: ScreenId, taken: seq<Taken>)
    requires taken != [] && JoinsOnly(a, b, env, g, [taken[0]]) && JoinsOnly(b, c, env, g, taken[1..])
    requires taken[0].id !in IdsOf(taken[1..]) && AllLoose(a, taken)
    ensures JoinsOnly(a, c, env, g, taken)
  {
    var first := [taken[0]];
    var rest := taken[1..];
    assert first[0] == taken[0];
    IdsSplit(taken);
    assert a.groups[g].children + IdsOf(taken) == a.groups[g].children + {taken[0].id} + IdsOf(rest);
    forall i | 0 <= i < |taken|
      ensures taken[i].id in a.screens && taken[i].id in c.screens
      ensures c.screens[taken[i].id] == WithNode(a.screens[taken[i].id], env, g, taken[i].at)
    {
      if i > 0 {
        assert rest[i - 1] == taken[i];
        assert Loose(a, taken[i].id) && taken[i].id in IdsOf(rest) && taken[i].id != taken[0].id;
      }
    }
  }

  lemma IdsSplit(taken: seq<Taken>)
    requires taken != []
    ensures IdsOf(taken) == {taken[0].id} + IdsOf(taken[1..]) && IdsOf([taken[0]]) == {taken[0].id}
  {
    assert [taken[0]][0] == taken[0];
    forall x | x in IdsOf(taken) ensures x in {taken[0].id} + IdsOf(taken[1..]) {
      var i :| 0 <= i < |taken| && taken[i].id == x;
      if i > 0 { assert taken[1..][i - 1].id == x; }
    }
    forall x | x in IdsOf(taken[1..]) ensures x in IdsOf(taken) {
      var i :| 0 <= i < |taken[1..]| && taken[1..][i].id == x;
      assert taken[i + 1].id == x;
    }
  }

  ghost predicate DistinctTaken(taken: seq<Taken>) {
    forall i, j :: 0 <= i < j < |taken| ==> taken[i].id != taken[j].id
  }

  ghost predicate AllLoose(st: State, taken: seq<Taken>) {
    forall i :: 0 <= i < |taken| ==> Loose(st, taken[i].id)
  }

  /** AddScreenToGroup takes every collected screen into the group. */
  lemma {:induction false} PutInEffect(st: State, env: Env, g: ScreenId, taken: seq<Taken>)
    requires Inv(st) && HasSource(st, g) && AllLoose(st, taken) && DistinctTaken(taken)
    ensures var r := PutIn(st, env, g, taken).0;
            Inv(r) && JoinsOnly(st, r, env, g, taken) && HasSource(r, g)
    decreases |taken|
  {
    assert g in st.groups;
    hide Inv, Evolves, PutInOne, JoinsOnly, HasSource, Loose;
    if taken == [] {
      JoinsNone(st, env, g);
    } else {
      var s1 := PutInOne(st, env, g, taken[0]).0;
      assert Loose(st, taken[0].id);
      PutInOneEffect(st, env, g, taken[0]);
      LoosePlain(st, taken[0].id);
      PutInOneInv(st, env, g, taken[0]);
      var rest := taken[1..];
      HeadDistinct(taken);
      StayLoose(st, s1, env, g, taken);
      PutInEffect(s1, env, g, rest);
      JoinsTrans(st, s1, PutIn(st, env, g, taken).0, env, g, taken);
    }
  }

  /** The collected screens that were, or were not, in a group. */
  function Reported(taken: seq<Taken>, wasChild: bool): seq<ScreenId> {
    if taken == [] then []
    else (if taken[0].wasChild == wasChild then [taken[0].id] else []) + Reported(taken[1..], wasChild)
  }

  /** Those that were in a group are reported as changed, the others as added, each in order, and none as removed. */
  lemma {:induction false} PutInReports(st: State, env: Env, g: ScreenId, taken: seq<Taken>)
    requires Inv(st) && HasSource(st, g) && AllLoose(st, taken) && DistinctTaken(taken)
    ensures PutIn(st, env, g, taken).1 == Notice([], Reported(taken, true), Reported(taken, false))
    decreases |taken|
  {
    hide Inv, Evolves, PutInOne, JoinsOnly, HasSource, Loose, PutIn, DistinctTaken, AllLoose;
    if taken == [] {
      PutInNobody(st, env, g);
    } else {
      var t, rest := taken[0], taken[1..];
      FirstLoose(st, taken);
      PutInOneEffect(st, env, g, t);
      LoosePlain(st, t.id);
      PutInOneInv(st, env, g, t);
      HeadDistinct(taken);
      var s1 := PutInOne(st, env, g, t).0;
      StayLoose(st, s1, env, g, taken);
      PutInReports(s1, env, g, rest);
      PutInStep(st, env, g, taken);
    }
  }

  lemma PutInNobody(st: State, env: Env, g: ScreenId)
    ensures PutIn(st, env, g, []) == (st, Notice([], [], []))
  {
  }

  lemma FirstLoose(st: State, taken: seq<Taken>)
    requires taken != [] && AllLoose(st, taken)
    ensures Loose(st, taken[0].id)
  {
  }

  lemma PutInStep(st: State, env: Env, g: ScreenId, taken: seq<Taken>)
    requires taken != []
    ensures var (s1, n1) := PutInOne(st, env, g, taken[0]);
            var (s2, n2) := PutIn(s1, env, g, taken[1..]);
            PutIn(st, env, g, taken) ==
              (s2, Notice(n1.removed + n2.removed, n1.changed + n2.changed, n1.added + n2.added))
  {
    hide PutInOne;
  }

  lemma JoinsNone(st: State, env: Env, g: ScreenId)
    requires g in st.groups
    ensures JoinsOnly(st, st, env, g, [])
  {
    assert IdsOf([]) == {};
    assert st.groups[g].children + {} == st.groups[g].children;
  }

  lemma LoosePlain(st: State, id: ScreenId)
    requires Loose(st, id)
    ensures Plain(st, [id])
  {
  }

  lemma HeadDistinct(taken: seq<Taken>)
    requires taken != [] && DistinctTaken(taken)
    ensures taken[0].id !in IdsOf(taken[1..]) && DistinctTaken(taken[1..])
  {
    forall i | 0 <= i < |taken[1..]| ensures taken[1..][i].id != taken[0].id {
      assert taken[1..][i] == taken[i + 1];
    }
  }

  lemma StayLoose(st: State, s1: State, env: Env, g: ScreenId, taken: seq<Taken>)
    requires taken != [] && AllLoose(st, taken) && taken[0].id !in IdsOf(taken[1..])
    requires JoinsOnly(st, s1, env, g, [taken[0]])
    ensures AllLoose(s1, taken[1..])
  {
    IdsSplit(taken);
    forall i | 0 <= i < |taken[1..]| ensures Loose(s1, taken[1..][i].id) {
      assert taken[1..][i].id in IdsOf(taken[1..]);
      assert taken[1..][i] == taken[i + 1];
      assert Loose(st, taken[i + 1].id);
    }
  }

  // ---------- ChangeScreenGroup as a whole ----------

  /** The outcome promised for moving listed screens into a group: the group takes on the combination
      and gains the movers, nothing else about any other screen changes, and every mover sits at the
      start point given for it as soon as it can have a display node. */
  ghost predicate Moved(a: State, b: State, env: Env, g: ScreenId, ids: seq<ScreenId>, at: seq<Point>, filter: bool,
                        combination: Combination)
    requires |ids| == |at|
  {
    && g in a.groups
    && b.groups == a.groups[g := a.groups[g].(combination := combination,
                                              children := a.groups[g].children + Movers(a, g, ids, filter))]
    && (forall d :: d in a.screens && d !in Movers(a, g, ids, filter) ==> d in b.screens && b.screens[d] == a.screens[d])
    && (forall k :: 0 <= k < |ids| && ids[k] in Movers(a, g, ids, filter) ==>
          && ids[k] in a.screens && ids[k] in b.screens && b.screens[ids[k]].groupId == g
          && (a.screens[ids[k]].rsId !in env.noNode ==> b.screens[ids[k]].hasNode && b.screens[ids[k]].start == at[k]))
  }

  lemma {:induction false} TakenOfIds(st: State, g: ScreenId, ids: seq<ScreenId>, at: seq<Point>, filter: bool)
    requires |ids| == |at| && Distinct(ids)
    ensures IdsOf(TakenOf(st, g, ids, at, filter)) == Movers(st, g, ids, filter)
    ensures DistinctTaken(TakenOf(st, g, ids, at, filter))
  {
    hide Moves;
    var taken := TakenOf(st, g, ids, at, filter);
    if ids == [] {
      assert IdsOf(taken) == {} && Movers(st, g, ids, filter) == {};
    } else {
      TakenOfIds(st, g, ids[1..], at[1..], filter);
      var tail := TakenOf(st, g, ids[1..], at[1..], filter);
      var first := Moves(st, g, ids[0], filter);
      assert Movers(st, g, ids, filter) == (if first then {ids[0]} else {}) + Movers(st, g, ids[1..], filter);
      if first {
        assert taken[1..] == tail;
        IdsSplit(taken);
        assert ids[0] !in IdsOf(tail);
        ConsDistinct(taken);
      } else {
        assert taken == tail;
      }
    }
  }

  lemma ConsDistinct(taken: seq<Taken>)
    requires taken != [] && DistinctTaken(taken[1..]) && taken[0].id !in IdsOf(taken[1..])
    ensures DistinctTaken(taken)
  {
    forall i, j | 0 <= i < j < |taken| ensures taken[i].id != taken[j].id {
      assert taken[1..][j - 1] == taken[j];
      if i > 0 { assert taken[1..][i - 1] == taken[i]; }
    }
  }

  /** Where a mover of the list is found among the collected entries. */
  lemma {:induction false} TakenAt(st: State, g: ScreenId, ids: seq<ScreenId>, at: seq<Point>, filter: bool, k: nat)
    returns (i: nat)
    requires |ids| == |at| && k < |ids| && Moves(st, g, ids[k], filter)
    ensures i < |TakenOf(st, g, ids, at, filter)|
    ensures TakenOf(st, g, ids, at, filter)[i] == Taken(ids[k], at[k], InGroup(st, ids[k]))
  {
    hide Moves;
    if k == 0 {
      i := 0;
    } else {
      i := TakenAt(st, g, ids[1..], at[1..], filter, k - 1);
      if Moves(st, g, ids[0], filter) { i := i + 1; }
    }
  }

  /** Leaving, changing the combination and joining add up to Moved. */
  lemma LeaveThenJoin(st: State, s1: State, r: State, env: Env, g: ScreenId, ids: seq<ScreenId>, at: seq<Point>,
                      filter: bool, combination: Combination)
    requires Plain(st, ids) && Distinct(ids) && |ids| == |at| && Evolves(st, s1)
    requires LeavesOnly(st, s1, g, Movers(st, g, ids, filter))
    requires var s2 := s1.(groups := s1.groups[g := s1.groups[g].(combination := combination)]);
             JoinsOnly(s2, r, env, g, TakenOf(st, g, ids, at, filter))
    ensures Moved(st, r, env, g, ids, at, filter, combination)
  {
    hide Moves, TakenOf, Evolves, Distinct, DistinctTaken, IdsOf, LeavesOnly, JoinsOnly, WithNode;
    var taken := TakenOf(st, g, ids, at, filter);
    var out := Movers(st, g, ids, filter);
    TakenOfIds(st, g, ids, at, filter);
    OthersStay(st, s1, r, env, g, out, taken, combination);
    forall k | 0 <= k < |ids| && ids[k] in out
      ensures ids[k] in st.screens && ids[k] in r.screens && r.screens[ids[k]].groupId == g
      ensures st.screens[ids[k]].rsId !in env.noNode ==> r.screens[ids[k]].hasNode && r.screens[ids[k]].start == at[k]
    {
      var i := TakenAt(st, g, ids, at, filter, k);
      MoverArrives(st, s1, r, env, g, out, taken, combination, i);
    }
  }

  lemma OthersStay(st: State, s1: State, r: State, env: Env, g: ScreenId, out: set<ScreenId>, taken: seq<Taken>,
                   combination: Combination)
    requires LeavesOnly(st, s1, g, out) && IdsOf(taken) == out
    requires JoinsOnly(s1.(groups := s1.groups[g := s1.groups[g].(combination := combination)]), r, env, g, taken)
    ensures g in st.groups
    ensures r.groups == st.groups[g := st.groups[g].(combination := combination, children := st.groups[g].children + out)]
    ensures forall d :: d in st.screens && d !in out ==> d in r.screens && r.screens[d] == st.screens[d]
  {
    hide IdsOf, WithNode;
    assert (st.groups[g].children - out) + out == st.groups[g].children + out;
  }

  lemma MoverArrives(st: State, s1: State, r: State, env: Env, g: ScreenId, out: set<ScreenId>, taken: seq<Taken>,
                     combination: Combination, i: nat)
    requires LeavesOnly(st, s1, g, out) && Evolves(st, s1) && i < |taken| && taken[i].id in st.screens
    requires JoinsOnly(s1.(groups := s1.groups[g := s1.groups[g].(combination := combination)]), r, env, g, taken)
    ensures var id := taken[i].id;
            && id in r.screens && r.screens[id].groupId == g
            && (st.screens[id].rsId !in env.noNode ==> r.screens[id].hasNode && r.screens[id].start == taken[i].at)
  {
    hide IdsOf, Evolves;
    KeptRs(st, s1, taken[i].id);
  }

  /** ChangeScreenGroup, given a child of the target group that is not listed: the listed screens
      move, nothing else does, and no screen taken out is lost. */
  lemma ChangeEffect(st: State, env: Env, g: ScreenId, ids: seq<ScreenId>, at: seq<Point>, filter: bool,
                     combination: Combination)
    requires Inv(st) && Plain(st, ids) && Distinct(ids) && |ids| == |at| && HasAnchor(st, g, ids)
    requires combination.SCREEN_MIRROR? ==> st.groups[g].mirrorId in st.groups[g].children && st.groups[g].mirrorId !in ids
    ensures var (r, n) := ChangeScreenGroup(st, env, g, ids, at, filter, combination);
            && Moved(st, r, env, g, ids, at, filter, combination)
            && n == Notice([], MovedFrom(st, g, ids, filter, true), MovedFrom(st, g, ids, filter, false))
  {
    var (s1, taken) := TakeOut(st, env, g, ids, at, filter);
    TakeOutInv(st, env, g, ids, at, filter);
    TakeOutEffect(st, env, g, ids, at, filter);
    TakenOfIds(st, g, ids, at, filter);
    var s2 := s1.(groups := s1.groups[g := s1.groups[g].(combination := combination)]);
    hide TakeOut, PutIn, TakenOf, Inv, Evolves;
    LeftLoose(st, s1, s2, g, ids, filter, taken);
    CombineInv(s1, g, combination);
    SourceStays(st, s1, g, ids, filter, combination);
    hide Plain, HasAnchor, HasSource, LeavesOnly, Movers, AllLoose, DistinctTaken, JoinsOnly, Moved;
    PutInEffect(s2, env, g, taken);
    PutInReports(s2, env, g, taken);
    ReportedMovers(st, g, ids, at, filter, true);
    ReportedMovers(st, g, ids, at, filter, false);
    LeaveThenJoin(st, s1, PutIn(s2, env, g, taken).0, env, g, ids, at, filter, combination);
  }

  /** The listed screens that move and are, or are not, in a group now. */
  function MovedFrom(st: State, g: ScreenId, ids: seq<ScreenId>, filter: bool, inGroup: bool): seq<ScreenId> {
    if ids == [] then []
    else (if Moves(st, g, ids[0], filter) && InGroup(st, ids[0]) == inGroup then [ids[0]] else [])
         + MovedFrom(st, g, ids[1..], filter, inGroup)
  }

  lemma {:induction false} ReportedMovers(st: State, g: ScreenId, ids: seq<ScreenId>, at: seq<Point>, filter: bool, b: bool)
    requires |ids| == |at|
    ensures Reported(TakenOf(st, g, ids, at, filter), b) == MovedFrom(st, g, ids, filter, b)
  {
    if ids != [] {
      ReportedMovers(st, g, ids[1..], at[1..], filter, b);
      var rest := TakenOf(st, g, ids[1..], at[1..], filter);
      if Moves(st, g, ids[0], filter) {
        var t := Taken(ids[0], at[0], InGroup(st, ids[0]));
        assert ([t] + rest)[1..] == rest;
        assert TakenOf(st, g, ids, at, filter) == [t] + rest;
      } else {
        assert TakenOf(st, g, ids, at, filter) == rest;
      }
      hide Moves, InGroup;
    }
  }

  lemma SourceStays(st: State, s1: State, g: ScreenId, ids: seq<ScreenId>, filter: bool, combination: Combination)
    requires LeavesOnly(st, s1, g, Movers(st, g, ids, filter))
    requires combination.SCREEN_MIRROR? ==> st.groups[g].mirrorId in st.groups[g].children && st.groups[g].mirrorId !in ids
    ensures HasSource(s1.(groups := s1.groups[g := s1.groups[g].(combination := combination)]), g)
  {
  }

  lemma KeptRs(a: State, b: State, d: ScreenId)
    requires Evolves(a, b) && d in a.screens && d in b.screens
    ensures b.screens[d].rsId == a.screens[d].rsId
  {
  }

  lemma LeftLoose(st: State, s1: State, s2: State, g: ScreenId, ids: seq<ScreenId>, filter: bool, taken: seq<Taken>)
    requires Plain(st, ids) && Evolves(st, s1) && LeavesOnly(st, s1, g, Movers(st, g, ids, filter))
    requires s2 == s1.(groups := s2.groups) && IdsOf(taken) == Movers(st, g, ids, filter)
    ensures AllLoose(s2, taken)
  {
    forall i | 0 <= i < |taken| ensures Loose(s2, taken[i].id) {
      assert taken[i].id in IdsOf(taken);
    }
  }

  // ---------- The service operations ----------

  lemma {:induction false} RemoveFirstDistinct(ids: seq<ScreenId>, id: ScreenId)
    requires Distinct(ids)
    ensures Distinct(RemoveFirst(ids, id))
    ensures forall x :: x in RemoveFirst(ids, id) <==> x in ids && x != id
  {
    if ids != [] {
      RemoveFirstDistinct(ids[1..], id);
      var rest := RemoveFirst(ids[1..], id);
      if ids[0] != id {
        forall i, j | 0 <= i < j < |[ids[0]] + rest| ensures ([ids[0]] + rest)[i] != ([ids[0]] + rest)[j] {
          assert rest[j - 1] in rest;
        }
      } else {
        assert forall k :: 0 <= k < |ids[1..]| ==> ids[1..][k] == ids[k + 1];
      }
    }
  }

  /** What the service passes on: the valid listed ids, each once, without the given one. */
  lemma ServiceList(st: State, ids: seq<ScreenId>, id: ScreenId)
    ensures var all := RemoveFirst(ValidIds(st, ids), id);
            && Distinct(all) && Plain(st, all) && id !in all
            && (forall x :: x in all <==> x in Wanted(st, ids, id))
            && (forall k :: 0 <= k < |all| ==> all[k] in ids)
  {
    ValidIdsFilter(st, ids);
    RemoveFirstDistinct(ValidIds(st, ids), id);
    var all := RemoveFirst(ValidIds(st, ids), id);
    forall k | 0 <= k < |all| ensures all[k] in ids {
      var x := all[k];
      assert x in all;
    }
  }

  lemma {:induction false} PointsForAll(ids: seq<ScreenId>, points: map<ScreenId, Point>)
    requires forall k :: 0 <= k < |ids| ==> ids[k] in points
    ensures |PointsFor(ids, points)| == |ids|
    ensures forall k :: 0 <= k < |ids| ==> ids[k] in points && PointsFor(ids, points)[k] == points[ids[k]]
  {
    if ids != [] {
      PointsForAll(ids[1..], points);
    }
  }

  /** FirstPoints gives each id the point at its first place in the list. */
  lemma {:induction false} FirstPointsFirst(ids: seq<ScreenId>, at: seq<Point>, k: nat)
    requires |ids| == |at| && k < |ids| && ids[k] !in ids[..k]
    ensures FirstPoints(ids, at)[ids[k]] == at[k]
  {
    if k > 0 {
      assert ids[0] in ids[..k];
      assert ids[..k][1..] == ids[1..][..k - 1];
      assert ids[1..][k - 1] == ids[k];
      FirstPointsFirst(ids[1..], at[1..], k - 1);
    }
  }

  /** Once the default is known and mapped, looking it up again changes nothing. */
  lemma GetDefaultAgain(st: State, env: Env)
    requires Inv(st) && GetDefault(st, env).1 != SCREEN_ID_INVALID
    ensures GetDefault(GetDefault(st, env).0, env) == GetDefault(st, env)
  {
    var s1 := Learn(st, env);
    if !Settled(st, env) {
      ConnectDefaultRs(s1, env);
    }
  }

  lemma ConnectDefaultRs(st: State, env: Env)
    ensures ConnectDefault(st, env).defaultRs == st.defaultRs
  {
    hide CalcRotation, NewDisplay;
  }

  /** With the default mapped, a lookup is free. */
  lemma KnownLookup(st: State, env: Env)
    requires st.defaultRs != SCREEN_ID_INVALID && st.defaultRs in st.ids.rs2Dms
    ensures GetDefault(st, env) == (st, st.ids.rs2Dms[st.defaultRs])
    ensures forall id :: Touch(st, env, id) == st
  {
  }

  lemma MappedPlain(st: State, rs: ScreenId)
    requires Inv(st) && rs in st.ids.rs2Dms && st.ids.rs2Dms[rs] in st.screens
    ensures !st.screens[st.ids.rs2Dms[rs]].IsGroup() && st.screens[st.ids.rs2Dms[rs]].rsId == rs
  {
    assert ScreenOk(st, st.ids.rs2Dms[rs]);
  }

  lemma AscendingDistinct(s: set<ScreenId>)
    ensures Distinct(Ascending(s))
  {
  }

  lemma GroupedDefault(st: State, d: ScreenId)
    requires Inv(st) && d in st.screens && st.screens[d].groupId in st.groups
    ensures d in st.groups[st.screens[d].groupId].children && !st.screens[d].IsGroup() && d != SCREEN_ID_INVALID
  {
    assert ScreenOk(st, d);
  }

  /** A nested connect maps the default rs id exactly when that screen has modes. */
  lemma ConnectDefaultMaps(st: State, env: Env)
    requires Inv(st) && st.defaultRs != SCREEN_ID_INVALID && st.defaultRs !in st.ids.rs2Dms
    ensures st.defaultRs in env.modes ==> DmsOf(ConnectDefault(st, env).ids, st.defaultRs) == st.ids.count
    ensures st.defaultRs !in env.modes ==> ConnectDefault(st, env).ids.rs2Dms == st.ids.rs2Dms
  {
    InitScreenInv(st, env, st.defaultRs);
    hide Inv, Extends, WithNode, CalcRotation;
  }

  /** The id of the default screen, as far as it is known before an operation connects anything. */
  function KnownDefault(st: State, env: Env): ScreenId {
    DmsOf(st.ids, Learn(st, env).defaultRs)
  }

  /** A lookup that connects the default screen finds a new id, so an old id is found only if it was known. */
  lemma LookupFinds(st: State, env: Env, id: ScreenId)
    requires Inv(st) && id in st.screens
    ensures GetDefault(st, env).1 == id <==> KnownDefault(st, env) == id
  {
    var (s1, d) := GetDefault(st, env);
    assert ScreenOk(st, id);
    if !Settled(st, env) && d == id {
      LookupInv(st, env);
      LookupRs(st, env);
      hide GetDefault, ScreenOk, GroupOk;
    }
  }

  lemma LookupRs(st: State, env: Env)
    requires !Settled(st, env)
    ensures GetDefault(st, env).1 == DmsOf(GetDefault(st, env).0.ids, Learn(st, env).defaultRs)
    ensures GetDefault(st, env).0.defaultRs == Learn(st, env).defaultRs
  {
    hide ConnectDefault;
    ConnectDefaultRs(Learn(st, env), env);
  }

  /** A lookup makes no old screen the default. */
  lemma KnownStays(st: State, env: Env, id: ScreenId)
    requires Inv(st) && id in st.screens
    ensures KnownDefault(GetDefault(st, env).0, env) == id <==> KnownDefault(st, env) == id
  {
    if !Settled(st, env) {
      LookupRs(st, env);
      LookupFinds(st, env, id);
      hide GetDefault, Inv;
    }
  }

  /** A lookup finds a default with a group exactly if there was one, and finds that. */
  lemma LookupGrouped(st: State, env: Env)
    requires Inv(st) && st.groups != map[]
    ensures var (s1, d) := GetDefault(st, env);
            var k := KnownDefault(st, env);
            && (d in s1.screens && s1.screens[d].groupId in s1.groups <==> k in st.screens && st.screens[k].groupId in st.groups)
            && (k in st.screens && st.screens[k].groupId in st.groups ==> d == k && s1.screens[d] == st.screens[k])
            && (d in s1.screens && s1.screens[d].groupId in s1.groups ==> d in st.screens && d != SCREEN_ID_INVALID)
  {
    var (s1, d) := GetDefault(st, env);
    var k := KnownDefault(st, env);
    LookupInv(st, env);
    NoInvalidGroup(st);
    NoInvalid(st);
    if k in st.screens { LookupFinds(st, env, k); }
    if d in st.screens { LookupFinds(st, env, d); }
    hide GetDefault, KnownDefault, Inv;
  }

  /** A lookup that failed fails again. */
  lemma GetDefaultFailsAgain(st: State, env: Env)
    requires Inv(st) && GetDefault(st, env).1 == SCREEN_ID_INVALID
    ensures GetDefault(GetDefault(st, env).0, env).1 == SCREEN_ID_INVALID
  {
    var s1 := Learn(st, env);
    LearnInv(st, env);
    GetDefaultInv(st, env);
    hide Inv, Keeps, Extends, NoNewUnmatched;
    if s1.defaultRs != SCREEN_ID_INVALID {
      if s1.defaultRs in s1.ids.rs2Dms {
        MappedValid(s1);
      } else {
        ConnectDefaultRs(s1, env);
        ConnectDefaultMaps(s1, env);
        var s2 := ConnectDefault(s1, env);
        hide ConnectDefault;
        ConnectDefaultRs(s2, env);
        ConnectDefaultMaps(s2, env);
      }
    }
  }

  lemma MappedValid(st: State)
    requires Inv(st)
    ensures forall rs :: rs in st.ids.rs2Dms ==> st.ids.rs2Dms[rs] != SCREEN_ID_INVALID
  {
  }

  ghost function Wanted(st: State, ids: seq<ScreenId>, d: ScreenId): set<ScreenId> {
    set x | x in ids && x in st.screens && !st.screens[x].IsGroup() && x != d
  }

  lemma WantedEmpty(st: State, ids: seq<ScreenId>, d: ScreenId, all: seq<ScreenId>)
    requires forall x :: x in all <==> x in Wanted(st, ids, d)
    ensures all == [] <==> Wanted(st, ids, d) == {}
  {
    if all != [] {
      var y := all[0];
      assert y in all;
      assert y in Wanted(st, ids, d);
    } else if Wanted(st, ids, d) != {} {
      var x := Pick(Wanted(st, ids, d));
    }
  }

  /** The expand outcome, from the state in which the default has been looked up. */
  ghost predicate Expanded(s1: State, r: State, env: Env, d: ScreenId, ids: seq<ScreenId>, at: seq<Point>)
    requires |ids| == |at| && d in s1.screens && s1.screens[d].groupId in s1.groups
  {
    var g := s1.screens[d].groupId;
    var wanted := Wanted(s1, ids, d);
    && r.groups == s1.groups[g := s1.groups[g].(combination := SCREEN_EXPAND,
                                                children := s1.groups[g].children + wanted)]
    && d in r.groups[g].children
    && (forall x :: x in wanted ==> x in r.screens && r.screens[x].groupId == g)
    && (forall x :: x in s1.screens && !(x in wanted && Moves(s1, g, x, s1.groups[g].combination.SCREEN_EXPAND?)) ==>
          x in r.screens && r.screens[x] == s1.screens[x])
    && (forall k :: (0 <= k < |ids| && ids[k] in wanted && ids[k] !in ids[..k]
                     && Moves(s1, g, ids[k], s1.groups[g].combination.SCREEN_EXPAND?)
                     && s1.screens[ids[k]].rsId !in env.noNode) ==>
          ids[k] in r.screens && r.screens[ids[k]].hasNode && r.screens[ids[k]].start == at[k])
  }

  lemma MovedExpanded(s1: State, r: State, env: Env, d: ScreenId, ids: seq<ScreenId>, at: seq<Point>,
                      all: seq<ScreenId>, points: seq<Point>)
    requires Inv(s1) && |ids| == |at| && d in s1.screens && s1.screens[d].groupId in s1.groups && |points| == |all|
    requires forall x :: x in all <==> x in Wanted(s1, ids, d)
    requires forall k :: 0 <= k < |all| ==> all[k] in ids && points[k] == FirstPoints(ids, at)[all[k]]
    requires var g := s1.screens[d].groupId;
             Moved(s1, r, env, g, all, points, s1.groups[g].combination.SCREEN_EXPAND?, SCREEN_EXPAND)
    ensures Expanded(s1, r, env, d, ids, at)
  {
    var g := s1.screens[d].groupId;
    var filter := s1.groups[g].combination.SCREEN_EXPAND?;
    GroupedDefault(s1, d);
    hide Inv, FirstPoints;
    var wanted := Wanted(s1, ids, d);
    forall x | x in wanted && x !in Movers(s1, g, all, filter) ensures x in s1.groups[g].children && s1.screens[x].groupId == g {
      assert x in all;
    }
    assert s1.groups[g].children + Movers(s1, g, all, filter) == s1.groups[g].children + wanted;
    forall x | x in wanted ensures x in r.screens && r.screens[x].groupId == g {
      var i :| 0 <= i < |all| && all[i] == x;
    }
    forall k | 0 <= k < |ids| && ids[k] in wanted && ids[k] !in ids[..k] && Moves(s1, g, ids[k], filter)
               && s1.screens[ids[k]].rsId !in env.noNode
      ensures ids[k] in r.screens && r.screens[ids[k]].hasNode && r.screens[ids[k]].start == at[k]
    {
      FirstPointsFirst(ids, at, k);
      var i :| 0 <= i < |all| && all[i] == ids[k];
      assert all[i] in Movers(s1, g, all, filter);
    }
  }

  lemma ExpandFromDefault(s1: State, env: Env, d: ScreenId, all: seq<ScreenId>, points: seq<Point>)
    requires Inv(s1) && GetDefault(s1, env) == (s1, d) && d in s1.screens && s1.screens[d].groupId in s1.groups
    requires Distinct(all) && Plain(s1, all) && d !in all && |points| == |all|
    ensures var g := s1.screens[d].groupId;
            var (r, ok, n) := MakeExpand(s1, env, all, points);
            && ok && n.removed == []
            && Moved(s1, r, env, g, all, points, s1.groups[g].combination.SCREEN_EXPAND?, SCREEN_EXPAND)
  {
    var g := s1.screens[d].groupId;
    GroupedDefault(s1, d);
    assert HasAnchor(s1, g, all);
    hide GetDefault, Inv, Plain, ChangeScreenGroup, Moved;
    ChangeEffect(s1, env, g, all, points, s1.groups[g].combination.SCREEN_EXPAND?, SCREEN_EXPAND);
  }

  lemma DefaultTwice(st: State, env: Env)
    requires Inv(st)
    ensures var (s1, d) := GetDefault(st, env);
            && Inv(s1) && SCREEN_ID_INVALID !in s1.screens && SCREEN_ID_INVALID !in GetDefault(s1, env).0.screens
            && GetDefault(s1, env).1 == d && (d != SCREEN_ID_INVALID ==> GetDefault(s1, env) == (s1, d))
            && (forall x :: x in st.screens ==> x in s1.screens && s1.screens[x] == st.screens[x])
  {
    var (s1, d) := GetDefault(st, env);
    GetDefaultInv(st, env);
    assert forall x :: x in st.screens ==> x in s1.screens && s1.screens[x] == st.screens[x];
    hide GetDefault, Keeps, Extends, NoNewUnmatched, Inv;
    if d == SCREEN_ID_INVALID { GetDefaultFailsAgain(st, env); } else { GetDefaultAgain(st, env); }
    NoInvalid(s1);
    GetDefaultInv(s1, env);
    NoInvalid(GetDefault(s1, env).0);
  }

  /** The group of the default screen, judged before a lookup: the one it is in, or a new one if there is none and
      the lookup connects the default. */
  function DefaultTarget(st: State, env: Env): Option<ScreenId> {
    var d := KnownDefault(st, env);
    if d in st.screens && st.screens[d].groupId in st.groups then Some(st.screens[d].groupId)
    else if st.groups == map[] && !Settled(st, env) && Learn(st, env).defaultRs in env.modes then Some(st.ids.count + 1)
    else None
  }

  lemma LookupTarget(st: State, env: Env)
    requires Inv(st)
    ensures var (s1, d) := GetDefault(st, env);
            DefaultTarget(st, env) == (if d in s1.screens && s1.screens[d].groupId in s1.groups
                                       then Some(s1.screens[d].groupId) else None)
  {
    hide ConnectDefault, Inv;
    if st.groups != map[] {
      LookupGrouped(st, env);
      hide GetDefault, KnownDefault;
    } else if !Settled(st, env) {
      LearnInv(st, env);
      FoundTarget(Learn(st, env), env);
    }
  }

  lemma FoundTarget(st: State, env: Env)
    requires Inv(st) && st.groups == map[] && st.defaultRs != SCREEN_ID_INVALID && st.defaultRs !in st.ids.rs2Dms
    ensures var r := ConnectDefault(st, env);
            var d := DmsOf(r.ids, st.defaultRs);
            && r.defaultRs == st.defaultRs
            && (st.defaultRs in env.modes ==>
                  d in r.screens && r.screens[d].groupId == st.ids.count + 1 && st.ids.count + 1 in r.groups)
            && (st.defaultRs !in env.modes ==> r.groups == map[])
  {
    ConnectDefaultRs(st, env);
    ConnectDefaultMaps(st, env);
    FoundMembers(st, env);
    hide ConnectDefault, Inv;
  }

  lemma FoundMembers(st: State, env: Env)
    requires st.groups == map[]
    ensures var r := ConnectDefault(st, env);
            && (st.defaultRs in env.modes ==> st.ids.count in r.screens && st.ids.count + 1 in r.groups
                                              && r.screens[st.ids.count].groupId == st.ids.count + 1)
            && (st.defaultRs !in env.modes ==> r.groups == map[])
  {
    hide CalcRotation, DeleteId, NewDisplay;
  }

  lemma ConnectDefaultScreens(st: State, env: Env, x: ScreenId)
    requires x in ConnectDefault(st, env).screens && x !in st.screens
    ensures x == st.ids.count || ConnectDefault(st, env).screens[x].IsGroup()
  {
    hide CalcRotation, CreateId, DeleteId, NewDisplay;
  }

  lemma LookupWanted(st: State, env: Env, ids: seq<ScreenId>)
    requires Inv(st)
    ensures Wanted(GetDefault(st, env).0, ids, GetDefault(st, env).1) == Wanted(st, ids, KnownDefault(st, env))
  {
    var (s1, d) := GetDefault(st, env);
    var k := KnownDefault(st, env);
    DefaultTwice(st, env);
    forall x ensures x in Wanted(s1, ids, d) <==> x in Wanted(st, ids, k) {
      if x in st.screens {
        LookupFinds(st, env, x);
      } else if x in s1.screens {
        NewScreenWanted(st, env, x);
      }
      hide GetDefault, KnownDefault, Inv;
    }
  }

  lemma NewScreenWanted(st: State, env: Env, x: ScreenId)
    requires Inv(st) && x in GetDefault(st, env).0.screens && x !in st.screens
    ensures x == GetDefault(st, env).1 || GetDefault(st, env).0.screens[x].IsGroup()
  {
    var s1 := Learn(st, env);
    LearnInv(st, env);
    if !Settled(st, env) {
      ConnectDefaultScreens(s1, env, x);
      ConnectDefaultRs(s1, env);
      ConnectDefaultMaps(s1, env);
      if s1.defaultRs !in env.modes {
        ConnectDefaultNone(s1, env);
      }
      hide ConnectDefault, Inv;
    }
  }

  lemma ConnectDefaultNone(st: State, env: Env)
    requires st.defaultRs !in env.modes
    ensures ConnectDefault(st, env).screens == st.screens
  {
  }

  /** MakeExpand at the service. It succeeds exactly when the two lists match, some listed screen other than the
      default is valid, and the default screen has a group or founds one on the way. Every valid listed screen
      is then a child of that group, which the default never leaves; each screen moved that can have a node sits at
      the first point asked for it; and no other screen changes in any way. */
  lemma ServiceMakeExpandMoves(st: State, env: Env, ids: seq<ScreenId>, at: seq<Point>)
    requires Inv(st)
    ensures var (r, res) := ServiceMakeExpand(st, env, ids, at);
            && res == (if ids != [] && |ids| == |at| && Wanted(st, ids, KnownDefault(st, env)) != {}
                       then DefaultTarget(st, env) else None)
            && (res.Some? ==>
                  var (s1, d) := GetDefault(st, env);
                  && d in s1.screens && res.value == s1.screens[d].groupId && res.value in s1.groups
                  && Expanded(s1, r, env, d, ids, at)
                  && (forall x :: x in st.screens && x !in ids ==> x in r.screens && r.screens[x] == st.screens[x]))
  {
    hide GetDefault, MakeExpand, Inv, ValidIds, RemoveFirst, Plain, Distinct, Wanted, Expanded, KnownDefault, DefaultTarget;
    var (s1, d) := GetDefault(st, env);
    DefaultTwice(st, env);
    LookupTarget(st, env);
    LookupWanted(st, env, ids);
    var all := RemoveFirst(ValidIds(s1, ids), d);
    ServiceList(s1, ids, d);
    WantedEmpty(s1, ids, d, all);
    if ids != [] && |ids| == |at| && all != [] {
      PointsForAll(all, FirstPoints(ids, at));
      var points := PointsFor(all, FirstPoints(ids, at));
      hide PointsFor, FirstPoints;
      if d in s1.screens && s1.screens[d].groupId in s1.groups {
        ExpandCall(s1, env, d, ids, at, all, points);
      } else {
        ExpandRefused(s1, env, d, all, points);
      }
    }
  }

  lemma ExpandRefused(s1: State, env: Env, d: ScreenId, all: seq<ScreenId>, points: seq<Point>)
    requires |points| == |all| && GetDefault(s1, env).1 == d && SCREEN_ID_INVALID !in s1.screens
    requires d == SCREEN_ID_INVALID || GetDefault(s1, env).0 == s1
    requires !(d in s1.screens && s1.screens[d].groupId in s1.groups)
    requires d == SCREEN_ID_INVALID ==> SCREEN_ID_INVALID !in GetDefault(s1, env).0.screens
    ensures !MakeExpand(s1, env, all, points).1
  {
    hide GetDefault, ChangeScreenGroup;
  }

  lemma ExpandCall(s1: State, env: Env, d: ScreenId, ids: seq<ScreenId>, at: seq<Point>,
                   all: seq<ScreenId>, points: seq<Point>)
    requires Inv(s1) && |ids| == |at| && GetDefault(s1, env) == (s1, d)
    requires d in s1.screens && s1.screens[d].groupId in s1.groups
    requires Distinct(all) && Plain(s1, all) && d !in all && |points| == |all| && all != []
    requires forall x :: x in all <==> x in Wanted(s1, ids, d)
    requires forall k :: 0 <= k < |all| ==> all[k] in ids && points[k] == FirstPoints(ids, at)[all[k]]
    ensures var (r, ok, n) := MakeExpand(s1, env, all, points);
            && ok && Expanded(s1, r, env, d, ids, at)
            && all[0] in r.screens && r.screens[all[0]].groupId == s1.screens[d].groupId
            && r.screens[all[0]].groupId in r.groups
            && (forall y :: y in s1.screens && y !in ids ==> y in r.screens && r.screens[y] == s1.screens[y])
  {
    hide *;
    ExpandFromDefault(s1, env, d, all, points);
    var r := MakeExpand(s1, env, all, points).0;
    MovedExpanded(s1, r, env, d, ids, at, all, points);
    assert all[0] in all;
    ExpandedFacts(s1, r, env, d, ids, at, all[0]);
  }

  lemma ExpandedFacts(s1: State, r: State, env: Env, d: ScreenId, ids: seq<ScreenId>, at: seq<Point>, x: ScreenId)
    requires |ids| == |at| && d in s1.screens && s1.screens[d].groupId in s1.groups
    requires Expanded(s1, r, env, d, ids, at) && x in Wanted(s1, ids, d)
    ensures x in r.screens && r.screens[x].groupId == s1.screens[d].groupId && s1.screens[d].groupId in r.groups
    ensures forall y :: y in s1.screens && y !in ids ==> y in r.screens && r.screens[y] == s1.screens[y]
  {
  }

  // ---------- MakeMirror ----------

  /** Every screen but one stays exactly as it was; new screens may appear. */
  ghost predicate OthersSame(a: State, b: State, id: ScreenId) {
    forall d :: d in a.screens && d != id ==> d in b.screens && b.screens[d] == a.screens[d]
  }

  lemma AddChildOthers(st: State, env: Env, g: ScreenId, id: ScreenId, p: Point)
    requires Inv(st) && g in st.groups && id in st.screens && !st.screens[id].IsGroup()
    ensures OthersSame(st, AddChild(st, env, g, id, p).0, id)
  {
    NodeConfigInv(st, env, g, id);
    hide Inv, Evolves, NodeConfig;
  }

  lemma OthersTrans(a: State, b: State, c: State, id: ScreenId)
    requires OthersSame(a, b, id) && OthersSame(b, c, id)
    ensures OthersSame(a, c, id)
  {
  }

  lemma GroupingOthers(a: State, b: State, id: ScreenId)
    requires SameGrouping(a, b)
    ensures OthersSame(a, b, id) && b.groups == a.groups && (id in a.screens ==> id in b.screens && b.screens[id] == a.screens[id])
  {
  }

  lemma FirstOthers(st: State, env: Env, id: ScreenId)
    requires Inv(st) && st.groups == map[] && id in st.screens
    ensures OthersSame(st, AddAsFirst(st, env, id).0, id)
  {
    AddAsFirstInv(st, env, id);
    hide AddAsFirst, Inv;
  }

  lemma LookupOthers(st: State, env: Env, id: ScreenId)
    requires Inv(st) && st.groups != map[]
    ensures OthersSame(st, GetDefault(st, env).0, id)
    ensures id in st.screens ==> GetDefault(st, env).0.screens[id] == st.screens[id]
  {
    LookupInv(st, env);
    hide GetDefault, Inv, Evolves;
  }

  lemma AddToGroupOthers(st: State, env: Env, id: ScreenId)
    requires Inv(st) && id in st.screens && !st.screens[id].IsGroup()
    ensures OthersSame(st, AddToGroup(st, env, id).0, id)
  {
    hide Inv, Evolves, GetDefault, AddChild, Extends, OthersSame, AddAsFirst;
    if st.groups == map[] {
      FirstOthers(st, env, id);
    } else {
      var (s1, d) := GetDefault(st, env);
      LookupInv(st, env);
      LookupOthers(st, env, id);
      if d in s1.screens && s1.screens[d].groupId in s1.groups {
        var g := s1.screens[d].groupId;
        var p := if s1.groups[g].combination.SCREEN_EXPAND?
                 then Point(SumWidths(s1.screens, Ascending(s1.groups[g].children)), 0) else ORIGIN;
        AddChildOthers(s1, env, g, id, p);
        OthersTrans(st, s1, AddChild(s1, env, g, id, p).0, id);
      }
    }
  }

  /** The main screen of a mirror ends up in the group returned; no other screen changes. */
  lemma MirrorGroupEffect(st: State, env: Env, id: ScreenId)
    requires Inv(st) && id in st.screens && !st.screens[id].IsGroup()
    ensures var (r, g) := MirrorGroup(st, env, id);
            && OthersSame(st, r, id) && (g == SCREEN_ID_INVALID <==> g !in r.groups)
            && (g in r.groups ==> id in r.screens && r.screens[id].groupId == g && id in r.groups[g].children)
  {
    assert ScreenOk(st, id);
    MirrorGroupInv(st, env, id);
    NoInvalidGroup(st);
    NoInvalidGroup(MirrorGroup(st, env, id).0);
    assert OthersSame(st, st, id);
    hide Inv, Evolves, Extends, AddToGroup, Touch, OnConnect, OthersSame, SameGrouping, ScreenOk;
    if st.screens[id].groupId !in st.groups {
      AddToGroupInv(st, env, id);
      AddToGroupOthers(st, env, id);
      var (s1, g) := AddToGroup(st, env, id);
      if g != SCREEN_ID_INVALID {
        var s2 := Touch(s1, env, id);
        TouchInv(s1, env, id);
        GroupingOthers(s1, s2, id);
        OthersTrans(st, s1, s2, id);
        if s2.callback {
          OnConnectInv(s2, env, id);
          GroupingOthers(s2, OnConnect(s2, env, id), id);
          OthersTrans(st, s2, OnConnect(s2, env, id), id);
        }
      }
    }
  }

  /** The group of the main screen of a mirror, judged before the call: its own, a new one if there is none, or else
      that of the default screen. */
  function MirrorTarget(st: State, env: Env, id: ScreenId): Option<ScreenId>
    requires id in st.screens
  {
    var d := KnownDefault(st, env);
    if st.screens[id].groupId in st.groups then Some(st.screens[id].groupId)
    else if st.groups == map[] then Some(st.ids.count)
    else if d in st.screens && st.screens[d].groupId in st.groups then Some(st.screens[d].groupId)
    else None
  }

  lemma MirrorGroupTarget(st: State, env: Env, id: ScreenId)
    requires Inv(st) && id in st.screens
    ensures var t := MirrorTarget(st, env, id);
            MirrorGroup(st, env, id).1 == if t.Some? then t.value else SCREEN_ID_INVALID
  {
    NoInvalidGroup(st);
    hide Touch, OnConnect, GetDefault, KnownDefault, Inv, AddChild;
    if st.screens[id].groupId !in st.groups && st.groups != map[] {
      LookupGrouped(st, env);
      hide Inv;
    }
  }

  /** The mirror outcome, from the state in which the main screen has its group. */
  ghost predicate Mirrored(s1: State, r: State, env: Env, g: ScreenId, id: ScreenId, wanted: set<ScreenId>) {
    && g in s1.groups
    && r.groups == s1.groups[g := s1.groups[g].(combination := SCREEN_MIRROR, mirrorId := id,
                                                children := s1.groups[g].children + wanted)]
    && id in r.groups[g].children
    && (forall x :: x in wanted ==> x in r.screens && r.screens[x].groupId == g)
    && var filter := s1.groups[g].combination.SCREEN_MIRROR? && s1.groups[g].mirrorId == id;
       && (forall x :: x in s1.screens && !(x in wanted && Moves(s1, g, x, filter)) ==>
             x in r.screens && r.screens[x] == s1.screens[x])
       && (forall x :: x in wanted && Moves(s1, g, x, filter) && s1.screens[x].rsId !in env.noNode ==>
             r.screens[x].hasNode && r.screens[x].start == ORIGIN)
  }

  lemma MovedMirrored(s1: State, s2: State, r: State, env: Env, g: ScreenId, id: ScreenId, all: seq<ScreenId>,
                      filter: bool, wanted: set<ScreenId>)
    requires g in s1.groups && id in s1.groups[g].children && id !in all
    requires s2 == s1.(groups := s1.groups[g := s1.groups[g].(mirrorId := id)])
    requires Moved(s2, r, env, g, all, Origins(|all|), filter, SCREEN_MIRROR)
    requires Plain(s1, all) && forall x :: x in all <==> x in wanted
    requires filter <==> s1.groups[g].combination.SCREEN_MIRROR? && s1.groups[g].mirrorId == id
    ensures Mirrored(s1, r, env, g, id, wanted)
  {
    forall x | x in wanted && x !in Movers(s2, g, all, filter) ensures x in s1.groups[g].children && s1.screens[x].groupId == g {
      assert x in all;
    }
    assert s1.groups[g].children + Movers(s2, g, all, filter) == s1.groups[g].children + wanted;
    assert forall x :: x in s1.screens ==> (Moves(s2, g, x, filter) <==> Moves(s1, g, x, filter));
    forall x | x in wanted
      ensures x in r.screens && r.screens[x].groupId == g
      ensures Moves(s1, g, x, filter) && s1.screens[x].rsId !in env.noNode ==> r.screens[x].hasNode && r.screens[x].start == ORIGIN
    {
      assert x in all;
      var i :| 0 <= i < |all| && all[i] == x;
      assert Origins(|all|)[i] == ORIGIN;
      assert Moves(s1, g, x, filter) ==> all[i] in Movers(s2, g, all, filter);
    }
  }

  /** MakeMirror of the controller, for a real main screen and plain, distinct other screens. */
  lemma MakeMirrorEffect(st: State, env: Env, id: ScreenId, all: seq<ScreenId>, wanted: set<ScreenId>)
    requires Inv(st) && id in st.screens && st.screens[id].kind.REAL?
    requires Plain(st, all) && Distinct(all) && id !in all && forall x :: x in all <==> x in wanted
    ensures var (s1, g) := MirrorGroup(st, env, id);
            var (r, ok, n) := MakeMirror(st, env, id, all);
            && (ok <==> g != SCREEN_ID_INVALID)
            && (!ok ==> r == s1)
            && (ok ==> Mirrored(s1, r, env, g, id, wanted) && n.removed == [])
  {
    hide MirrorGroup, Inv, Plain, Evolves, ChangeScreenGroup, Moved, Mirrored, OthersSame, Distinct;
    var (s1, g) := MirrorGroup(st, env, id);
    MirrorGroupInv(st, env, id);
    assert !st.screens[id].IsGroup();
    MirrorGroupEffect(st, env, id);
    if g in s1.groups {
      var filter := s1.groups[g].combination.SCREEN_MIRROR? && s1.groups[g].mirrorId == id;
      var s2 := s1.(groups := s1.groups[g := s1.groups[g].(mirrorId := id)]);
      SourceInv(s1, g, id);
      EvolvesPlain(st, s1, all);
      PlainShape(s1, s2, all);
      ChangeEffect(s2, env, g, all, Origins(|all|), filter, SCREEN_MIRROR);
      MovedMirrored(s1, s2, ChangeScreenGroup(s2, env, g, all, Origins(|all|), filter, SCREEN_MIRROR).0,
                    env, g, id, all, filter, wanted);
    }
  }

  lemma SourceInv(st: State, g: ScreenId, id: ScreenId)
    requires Inv(st) && g in st.groups
    ensures Inv(st.(groups := st.groups[g := st.groups[g].(mirrorId := id)]))
  {
    ShapeInv(st, st.(groups := st.groups[g := st.groups[g].(mirrorId := id)]));
  }

  lemma PlainShape(a: State, b: State, ids: seq<ScreenId>)
    requires b == a.(groups := b.groups) && Plain(a, ids)
    ensures Plain(b, ids)
  {
  }

  /** MakeMirror at the service. It succeeds exactly when the main screen is real, some other listed
      screen is valid, and the main screen has a group, no group exists, or the default has one. The group is then
      a mirror of the main screen and holds every valid listed screen, and no other screen changes in any way. */
  lemma ServiceMakeMirrorMoves(st: State, env: Env, id: ScreenId, ids: seq<ScreenId>)
    requires Inv(st)
    ensures var (r, res) := ServiceMakeMirror(st, env, id, ids);
            && res == (if id in st.screens && st.screens[id].kind.REAL? && Wanted(st, ids, id) != {}
                       then MirrorTarget(st, env, id) else None)
            && (res.Some? ==>
                  && Mirrored(MirrorGroup(st, env, id).0, r, env, res.value, id, Wanted(st, ids, id))
                  && (forall x :: x in st.screens && x !in ids && x != id ==> x in r.screens && r.screens[x] == st.screens[x]))
  {
    hide Inv, MakeMirror, MirrorGroup, MirrorTarget, ValidIds, RemoveFirst, Plain, Distinct, Wanted, Mirrored, OthersSame;
    var all := RemoveFirst(ValidIds(st, ids), id);
    var wanted := Wanted(st, ids, id);
    ServiceList(st, ids, id);
    WantedEmpty(st, ids, id, all);
    if id in st.screens {
      if st.screens[id].kind.REAL? {
        MakeMirrorEffect(st, env, id, all, wanted);
        MirrorGroupEffect(st, env, id);
        MirrorGroupTarget(st, env, id);
        NoInvalidTarget(st, env, id);
        var (s1, g) := MirrorGroup(st, env, id);
        if g in s1.groups {
          MirroredFacts(st, s1, MakeMirror(st, env, id, all).0, env, g, id, ids);
        }
      } else {
        NotReal(st, env, id, all);
      }
    }
  }

  lemma NoInvalidTarget(st: State, env: Env, id: ScreenId)
    requires Inv(st) && id in st.screens
    ensures MirrorTarget(st, env, id) != Some(SCREEN_ID_INVALID)
  {
    NoInvalidGroup(st);
  }

  lemma NotReal(st: State, env: Env, id: ScreenId, all: seq<ScreenId>)
    requires id in st.screens && !st.screens[id].kind.REAL?
    ensures !MakeMirror(st, env, id, all).1
  {
    hide MirrorGroup, ChangeScreenGroup;
  }

  lemma MirroredFacts(st: State, s1: State, r: State, env: Env, g: ScreenId, id: ScreenId, ids: seq<ScreenId>)
    requires OthersSame(st, s1, id) && Mirrored(s1, r, env, g, id, Wanted(st, ids, id))
    requires id in s1.screens && s1.screens[id].groupId == g
    ensures id in r.screens && r.screens[id].groupId == g && g in r.groups
    ensures forall x :: x in st.screens && x !in ids && x != id ==> x in r.screens && r.screens[x] == st.screens[x]
  {
  }
}

/** The objects of the screen controller: screens with their display node and surfaces, screen groups,
    and the id manager. */
module ScreenObjects {
  import opened DmTypes
  import opened ScreenState

  type SurfaceId = int

  // ---------- Surfaces ----------

  /** The recorded surfaces of a screen, and the children of its display node, if it has one. */
  datatype SurfaceState = SurfaceState(app: seq<SurfaceId>, native: seq<SurfaceId>, tree: Option<set<SurfaceId>>)

  datatype SurfaceOp =
    | Update(surface: SurfaceId, isAdd: bool, record: bool)
    | Add(surface: SurfaceId, record: bool)
    | Remove(surface: SurfaceId)
    | Renew(made: bool)
    | Leave
    | Enter(made: bool)

  function Recorded(x: SurfaceState): (r: set<SurfaceId>)
    ensures forall s :: s in r <==> s in x.app || s in x.native
  {
    (set s | s in x.app) + (set s | s in x.native)
  }

  /** Nothing is recorded. */
  predicate Bare(x: SurfaceState) {
    x.app == [] && x.native == []
  }

  function SurfaceStep(x: SurfaceState, op: SurfaceOp): SurfaceState {
    match op
    case Update(s, isAdd, record) =>
      if x.tree.None? then x
      else if isAdd then x.(tree := Some(x.tree.value + {s}), app := if record then x.app + [s] else x.app)
      else x.(tree := Some(x.tree.value - {s}), app := if record then RemoveFirst(x.app, s) else x.app)
    case Add(s, record) =>
      if x.tree.None? then x
      else x.(tree := Some(x.tree.value + {s}), native := if record then x.native + [s] else x.native)
    case Remove(s) =>
      if x.tree.None? || s !in x.native then x
      else x.(tree := Some(x.tree.value - {s}), native := RemoveFirst(x.native, s))
    case Renew(made) => if made then x.(tree := Some(Recorded(x))) else x
    case Leave => x.(tree := None)
    case Enter(made) => if x.tree.None? && made then x.(tree := Some({})) else x
  }

  function SurfaceRun(x: SurfaceState, ops: seq<SurfaceOp>): SurfaceState
    decreases |ops|
  {
    if ops == [] then x else SurfaceRun(SurfaceStep(x, ops[0]), ops[1..])
  }

  lemma RemoveFirstStep(nodes: seq<SurfaceId>, s: SurfaceId, i: nat)
    requires i <= |nodes|
    ensures i < |nodes| && nodes[i] != s ==>
              nodes[..i] + RemoveFirst(nodes[i..], s) == nodes[..i + 1] + RemoveFirst(nodes[i + 1..], s)
    ensures i < |nodes| && nodes[i] == s ==> RemoveFirst(nodes[i..], s) == nodes[i + 1..]
    ensures i == |nodes| ==> nodes[..i] + RemoveFirst(nodes[i..], s) == nodes
  {
    if i < |nodes| {
      assert nodes[i..][1..] == nodes[i + 1..];
      assert nodes[..i] + [nodes[i]] == nodes[..i + 1];
    }
  }

  /** Erase the first occurrence of an id from a list of ids. */
  method EraseFirst(s: int, nodes: seq<int>) returns (left: seq<int>)
    ensures left == RemoveFirst(nodes, s)
  {
    hide RemoveFirst;
    var i := 0;
    assert nodes[..0] + RemoveFirst(nodes[0..], s) == RemoveFirst(nodes, s) by {
      assert nodes[0..] == nodes;
    }
    while i < |nodes| && nodes[i] != s
      invariant 0 <= i <= |nodes|
      invariant RemoveFirst(nodes, s) == nodes[..i] + RemoveFirst(nodes[i..], s)
    {
      RemoveFirstStep(nodes, s, i);
      i := i + 1;
    }
    RemoveFirstStep(nodes, s, i);
    if i < |nodes| {
      return nodes[..i] + nodes[i + 1..];
    }
    return nodes;
  }

  class RSDisplayNode {
    var children: set<SurfaceId>

    constructor ()
      ensures children == {}
    {
      children := {};
    }

    method AddChild(s: SurfaceId)
      modifies this
      ensures children == old(children) + {s}
    {
      children := children + {s};
    }

    method RemoveChild(s: SurfaceId)
      modifies this
      ensures children == old(children) - {s}
    {
      children := children - {s};
    }
  }

  class AbstractScreen {
    const dmsId: ScreenId
    const rsId: ScreenId
    const kind: ScreenType
    var activeMode: Option<Mode>
    var groupDmsId: ScreenId
    var lastGroupDmsId: ScreenId
    var rsDisplayNode: RSDisplayNode?
    var startPoint: Point
    var rotation: Rotation
    var orientation: Orientation
    var screenRequestedOrientation: Orientation
    var appSurfaceNodes: seq<SurfaceId>
    var nativeSurfaceNodes: seq<SurfaceId>

    function View(): Screen
      reads this
    {
      Screen(rsId, kind, activeMode, groupDmsId, lastGroupDmsId, rsDisplayNode != null, startPoint, rotation,
             orientation, screenRequestedOrientation)
    }

    ghost function Surfaces(): SurfaceState
      reads this, rsDisplayNode
    {
      SurfaceState(appSurfaceNodes, nativeSurfaceNodes,
                             if rsDisplayNode == null then None else Some(rsDisplayNode.children))
    }

    constructor (dmsId: ScreenId, rsId: ScreenId, kind: ScreenType, mode: Option<Mode>)
      ensures this.dmsId == dmsId && View() == NewScreen(rsId, kind, mode)
      ensures Surfaces() == SurfaceState([], [], None)
    {
      this.dmsId, this.rsId, this.kind := dmsId, rsId, kind;
      activeMode := mode;
      groupDmsId, lastGroupDmsId := SCREEN_ID_INVALID, SCREEN_ID_INVALID;
      rsDisplayNode := null;
      startPoint := ORIGIN;
      rotation := ROTATION_0;
      orientation, screenRequestedOrientation := UNSPECIFIED, UNSPECIFIED;
      appSurfaceNodes, nativeSurfaceNodes := [], [];
    }

    method UpdateRSTree(s: SurfaceId, isAdd: bool, needToUpdate: bool)
      modifies this`appSurfaceNodes, rsDisplayNode
      ensures Surfaces() == SurfaceStep(old(Surfaces()), Update(s, isAdd, needToUpdate))
    {
      if rsDisplayNode == null {
        return;
      }
      if isAdd {
        rsDisplayNode.AddChild(s);
      } else {
        rsDisplayNode.RemoveChild(s);
      }
      if needToUpdate {
        if isAdd {
          appSurfaceNodes := appSurfaceNodes + [s];
        } else {
          appSurfaceNodes := EraseFirst(s, appSurfaceNodes);
        }
      }
    }

    /** The boolean is DM_OK. */
    method AddSurfaceNode(s: SurfaceId, needToRecord: bool) returns (ok: bool)
      modifies this`nativeSurfaceNodes, rsDisplayNode
      ensures ok == (rsDisplayNode != null)
      ensures Surfaces() == SurfaceStep(old(Surfaces()), Add(s, needToRecord))
    {
      if rsDisplayNode == null {
        return false;
      }
      rsDisplayNode.AddChild(s);
      if needToRecord {
        nativeSurfaceNodes := nativeSurfaceNodes + [s];
      }
      return true;
    }

    method RemoveSurfaceNode(s: SurfaceId) returns (ok: bool)
      modifies this`nativeSurfaceNodes, rsDisplayNode
      ensures ok == (rsDisplayNode != null && s in old(nativeSurfaceNodes))
      ensures Surfaces() == SurfaceStep(old(Surfaces()), Remove(s))
    {
      if rsDisplayNode == null {
        return false;
      }
      if s !in nativeSurfaceNodes {
        return false;
      }
      rsDisplayNode.RemoveChild(s);
      nativeSurfaceNodes := EraseFirst(s, nativeSurfaceNodes);
      return true;
    }

    /** A display node with nothing on it is made unless there is one already. */
    method InitRSDisplayNode(env: Env, p: Point)
      modifies this`rsDisplayNode, this`startPoint
      ensures var node := old(rsDisplayNode) != null || rsId !in env.noNode;
              View() == old(View()).(hasNode := node, start := if node then p else old(startPoint))
      ensures Surfaces() == SurfaceStep(old(Surfaces()), Enter(rsId !in env.noNode))
      ensures old(rsDisplayNode) != null ==> rsDisplayNode == old(rsDisplayNode)
    {
      if rsDisplayNode == null {
        if rsId in env.noNode {
          return;
        }
        rsDisplayNode := new RSDisplayNode();
      }
      startPoint := p;
    }

    /** The default screen came back: a new node takes over the recorded surfaces. */
    method InitRSDefaultDisplayNode(env: Env, p: Point)
      requires rsDisplayNode != null
      modifies this`rsDisplayNode, this`startPoint, this`appSurfaceNodes, this`nativeSurfaceNodes
      ensures var made := rsId !in env.noNode;
              && View() == old(View()).(start := if made then p else old(startPoint))
              && Surfaces() == SurfaceStep(old(Surfaces()), Renew(made))
    {
      if rsId in env.noNode {
        return;
      }
      var node := new RSDisplayNode();
      rsDisplayNode := node;
      startPoint := p;
      var app, native := appSurfaceNodes, nativeSurfaceNodes;
      for i := 0 to |app|
        invariant rsDisplayNode == node && startPoint == p && appSurfaceNodes == app && nativeSurfaceNodes == native
        invariant node.children == set s | s in app[..i]
      {
        UpdateRSTree(app[i], true, false);
        assert app[..i + 1] == app[..i] + [app[i]];
      }
      assert app[..|app|] == app;
      for i := 0 to |native|
        invariant rsDisplayNode == node && startPoint == p && appSurfaceNodes == app && nativeSurfaceNodes == native
        invariant node.children == (set s | s in app) + set s | s in native[..i]
      {
        var _ := AddSurfaceNode(native[i], false);
        assert native[..i + 1] == native[..i] + [native[i]];
      }
      assert native[..|native|] == native;
    }

    method UpdateRSDisplayNode(p: Point)
      modifies this`startPoint
      ensures View() == if rsDisplayNode == null then old(View()) else old(View()).(start := p)
    {
      if rsDisplayNode == null {
        return;
      }
      startPoint := p;
    }
  }

  /** A group is itself a screen; base is that part of it. */
  class AbstractScreenGroup {
    const base: AbstractScreen
    var combination: Combination
    var mirrorScreenId: ScreenId
    var defaultScreenId: ScreenId
    var screenMap: map<ScreenId, AbstractScreen>

    function View(): Group
      reads this
    {
      Group(combination, mirrorScreenId, defaultScreenId, screenMap.Keys)
    }

    constructor (dmsId: ScreenId, combination: Combination)
      ensures fresh(base) && base.dmsId == dmsId && base.View() == NewScreen(SCREEN_ID_INVALID, UNDEFINED, None)
      ensures View() == Group(combination, SCREEN_ID_INVALID, SCREEN_ID_INVALID, {}) && screenMap == map[]
    {
      base := new AbstractScreen(dmsId, SCREEN_ID_INVALID, UNDEFINED, None);
      this.combination := combination;
      mirrorScreenId, defaultScreenId := SCREEN_ID_INVALID, SCREEN_ID_INVALID;
      screenMap := map[];
    }

    /** The insertion part of AddChild, once the node configuration is known. */
    method InsertChild(screen: AbstractScreen, env: Env, p: Point)
      modifies this`screenMap, screen
      ensures View() == old(View()).(children := old(screenMap.Keys) + {screen.dmsId})
      ensures screen.View() == WithNode(old(screen.View()), env, base.dmsId, p)
      ensures screen.Surfaces() == SurfaceStep(old(screen.Surfaces()), Enter(screen.rsId !in env.noNode))
      ensures screenMap == old(screenMap)[screen.dmsId := if screen.dmsId in old(screenMap) then old(screenMap)[screen.dmsId] else screen]
    {
      screen.InitRSDisplayNode(env, p);
      screen.lastGroupDmsId := screen.groupDmsId;
      screen.groupDmsId := base.dmsId;
      if screen.dmsId !in screenMap {
        screenMap := screenMap[screen.dmsId := screen];
      }
    }

    method RemoveChild(screen: AbstractScreen) returns (removed: bool)
      modifies this`screenMap, screen
      ensures removed == (screen.dmsId in old(screenMap))
      ensures screenMap == old(screenMap) - {screen.dmsId}
      ensures screen.View() == WithoutGroup(old(screen.View()))
      ensures screen.Surfaces() == SurfaceStep(old(screen.Surfaces()), Leave)
    {
      screen.lastGroupDmsId := screen.groupDmsId;
      screen.groupDmsId := SCREEN_ID_INVALID;
      screen.startPoint := ORIGIN;
      screen.rsDisplayNode := null;
      removed := screen.dmsId in screenMap;
      screenMap := screenMap - {screen.dmsId};
    }

    method RemoveDefaultScreen(screen: AbstractScreen)
      modifies this`defaultScreenId, screen`lastGroupDmsId
      ensures View() == old(View()).(defaultId := screen.dmsId)
      ensures screen.View() == old(screen.View()).(lastGroupId := old(screen.groupDmsId))
    {
      screen.lastGroupDmsId := screen.groupDmsId;
      defaultScreenId := screen.dmsId;
    }
  }

  class ScreenIdManager {
    var dmsScreenCount: nat
    var dms2RsScreenIdMap: map<ScreenId, ScreenId>
    var rs2DmsScreenIdMap: map<ScreenId, ScreenId>

    function View(): Ids
      reads this
    {
      Ids(dmsScreenCount, dms2RsScreenIdMap, rs2DmsScreenIdMap)
    }

    constructor ()
      ensures View() == Ids(0, map[], map[])
    {
      dmsScreenCount := 0;
      dms2RsScreenIdMap, rs2DmsScreenIdMap := map[], map[];
    }

    method CreateAndGetNewScreenId(rs: ScreenId) returns (d: ScreenId)
      modifies this
      ensures d == old(dmsScreenCount) && View() == CreateId(old(View()), rs)
    {
      d := dmsScreenCount;
      dmsScreenCount := dmsScreenCount + 1;
      dms2RsScreenIdMap := dms2RsScreenIdMap[d := rs];
      if rs == SCREEN_ID_INVALID {
        return;
      }
      rs2DmsScreenIdMap := rs2DmsScreenIdMap[rs := d];
    }

    method DeleteScreenId(d: ScreenId) returns (found: bool)
      modifies this
      ensures found == (d in old(dms2RsScreenIdMap)) && View() == DeleteId(old(View()), d)
    {
      if d !in dms2RsScreenIdMap {
        return false;
      }
      var rs := dms2RsScreenIdMap[d];
      dms2RsScreenIdMap := dms2RsScreenIdMap - {d};
      rs2DmsScreenIdMap := rs2DmsScreenIdMap - {rs};
      return true;
    }
  }

  // ---------- What a renewed node shows ----------

  predicate NoDuplicates(s: seq<SurfaceId>) {
    forall i, j :: 0 <= i < j < |s| ==> s[i] != s[j]
  }

  /** The node, if there is one, shows exactly the recorded surfaces, and each is recorded once. */
  ghost predicate Synchronous(x: SurfaceState) {
    && (x.tree.Some? ==> forall s :: s in x.tree.value <==> s in x.app || s in x.native)
    && NoDuplicates(x.app) && NoDuplicates(x.native)
    && forall s :: s in x.app ==> s !in x.native
  }

  /** What keeps the records and the node together: a surface is recorded when it is added and was not
      there, and is removed by the route it was added by; and a new node is made for a screen without any. */
  predicate Disciplined(x: SurfaceState, op: SurfaceOp) {
    match op
    case Update(s, isAdd, record) =>
      x.tree.Some? ==> if isAdd then record == (s !in Recorded(x))
                       else if record then s !in x.native else s !in Recorded(x)
    case Add(s, record) => x.tree.Some? ==> record == (s !in Recorded(x))
    case Remove(_) => true
    case Renew(_) => true
    case Leave => true
    case Enter(made) => x.tree.Some? || !made || Bare(x)
  }

  lemma {:induction false} RemoveFirstUnique(ids: seq<SurfaceId>, s: SurfaceId)
    requires NoDuplicates(ids)
    ensures NoDuplicates(RemoveFirst(ids, s))
    ensures forall x :: x in RemoveFirst(ids, s) <==> x in ids && x != s
  {
    if ids != [] {
      assert forall x :: x in ids <==> x == ids[0] || x in ids[1..];
      assert ids[0] !in ids[1..];
      if ids[0] != s {
        RemoveFirstUnique(ids[1..], s);
      }
    }
  }

  lemma AppendUnique(ids: seq<SurfaceId>, s: SurfaceId)
    requires NoDuplicates(ids)
    ensures NoDuplicates(ids + [s]) <==> s !in ids
  {
    var longer := ids + [s];
    if s in ids {
      var i :| 0 <= i < |ids| && ids[i] == s;
      assert longer[i] == longer[|ids|];
    } else {
      assert forall i :: 0 <= i < |ids| ==> longer[i] in ids;
    }
  }

  /** A step keeps the node and the records together if and only if it is disciplined. */
  lemma StepSynchronous(x: SurfaceState, op: SurfaceOp)
    requires Synchronous(x)
    ensures Synchronous(SurfaceStep(x, op)) <==> Disciplined(x, op)
  {
    hide Recorded, NoDuplicates, RemoveFirst;
    match op
    case Update(s, isAdd, record) => UpdateSynchronous(x, s, isAdd, record);
    case Add(s, record) => AddSynchronous(x, s, record);
    case Remove(s) =>
      if s in x.native {
        RemoveFirstUnique(x.native, s);
        assert s !in x.app;
      }
    case Renew(_) =>
    case Leave =>
    case Enter(_) => NothingRecorded(x);
  }

  lemma NothingRecorded(x: SurfaceState)
    ensures Bare(x) <==> forall s :: s !in x.app && s !in x.native
  {
    if Bare(x) {
      assert forall s :: s !in x.app && s !in x.native;
    } else {
      var s := if x.app != [] then x.app[0] else x.native[0];
      assert s in x.app || s in x.native;
    }
  }

  lemma UpdateSynchronous(x: SurfaceState, s: SurfaceId, isAdd: bool, record: bool)
    requires Synchronous(x)
    ensures Synchronous(SurfaceStep(x, Update(s, isAdd, record))) <==> Disciplined(x, Update(s, isAdd, record))
  {
    var y := SurfaceStep(x, Update(s, isAdd, record));
    RemoveFirstUnique(x.app, s);
    AppendUnique(x.app, s);
    hide Recorded, NoDuplicates, RemoveFirst;
    if x.tree.None? {
      return;
    }
    assert forall t :: t in y.tree.value <==> if t == s then isAdd else t in x.tree.value;
    assert s in x.app + [s];
    if isAdd && record {
      assert forall t :: t in y.app <==> t in x.app || t == s;
    }
  }

  lemma AddSynchronous(x: SurfaceState, s: SurfaceId, record: bool)
    requires Synchronous(x)
    ensures Synchronous(SurfaceStep(x, Add(s, record))) <==> Disciplined(x, Add(s, record))
  {
    var y := SurfaceStep(x, Add(s, record));
    AppendUnique(x.native, s);
    hide Recorded, NoDuplicates, RemoveFirst;
    if x.tree.None? {
      return;
    }
    assert forall t :: t in y.tree.value <==> t == s || t in x.tree.value;
    assert s in x.native + [s];
    if record {
      assert forall t :: t in y.native <==> t in x.native || t == s;
    }
  }

  predicate AllDisciplined(x: SurfaceState, ops: seq<SurfaceOp>)
    decreases |ops|
  {
    ops != [] ==> Disciplined(x, ops[0]) && AllDisciplined(SurfaceStep(x, ops[0]), ops[1..])
  }

  /** The node, if there is one, shows exactly the recorded surfaces, however often and in which lists they are
      recorded. */
  ghost predicate Shows(x: SurfaceState) {
    x.tree.Some? ==> forall s :: s in x.tree.value <==> s in Recorded(x)
  }

  /** Renewing the node shows again what it shows now if and only if it shows what is recorded; the records
      stay in any case. */
  lemma RenewalExact(x: SurfaceState)
    requires x.tree.Some?
    ensures var y := SurfaceStep(x, Renew(true));
            && y.tree.Some? && Shows(y) && y.app == x.app && y.native == x.native
            && ((forall s :: s in y.tree.value <==> s in x.tree.value) <==> Shows(x))
  {
    hide Recorded;
  }

  /** A step keeps the node at what is recorded: an added surface is recorded, now or before; a removed one
      was recorded no more often than the step drops it; and a new node is made for a screen without any. */
  predicate KeepsNode(x: SurfaceState, op: SurfaceOp) {
    match op
    case Update(s, isAdd, record) =>
      x.tree.Some? ==> if isAdd then record || s in Recorded(x)
                       else s !in x.native && multiset(x.app)[s] <= if record then 1 else 0
    case Add(s, record) => x.tree.Some? ==> record || s in Recorded(x)
    case Remove(s) => x.tree.Some? && s in x.native ==> multiset(x.native)[s] == 1 && s !in x.app
    case Renew(_) => true
    case Leave => true
    case Enter(made) => x.tree.Some? || !made || Bare(x)
  }

  lemma {:induction false} RemoveFirstCounts(ids: seq<SurfaceId>, s: SurfaceId)
    ensures forall t :: t != s ==> (t in RemoveFirst(ids, s) <==> t in ids)
    ensures s in RemoveFirst(ids, s) <==> multiset(ids)[s] > 1
  {
    if ids != [] {
      assert ids == [ids[0]] + ids[1..];
      assert forall t :: t in ids <==> t == ids[0] || t in ids[1..];
      if ids[0] != s {
        RemoveFirstCounts(ids[1..], s);
        assert forall t :: t in RemoveFirst(ids, s) <==> t == ids[0] || t in RemoveFirst(ids[1..], s);
      }
    }
  }

  /** A node that shows what is recorded does so after a step if and only if the step keeps it. */
  lemma StepShows(x: SurfaceState, op: SurfaceOp)
    requires Shows(x)
    ensures Shows(SurfaceStep(x, op)) <==> KeepsNode(x, op)
  {
    hide RemoveFirst;
    var y := SurfaceStep(x, op);
    if x.tree.None? {
      NothingRecorded(x);
      return;
    }
    match op
    case Update(s, isAdd, record) =>
      RemoveFirstCounts(x.app, s);
      assert forall t :: t in y.tree.value <==> if t == s then isAdd else t in x.tree.value;
      assert s in x.app <==> multiset(x.app)[s] > 0;
      assert forall t :: t in x.app + [s] <==> t in x.app || t == s;
      assert forall t :: t != s ==> (t in Recorded(y) <==> t in Recorded(x));
    case Add(s, record) =>
      assert forall t :: t in y.tree.value <==> t == s || t in x.tree.value;
      assert forall t :: t in x.native + [s] <==> t in x.native || t == s;
    case Remove(s) =>
      RemoveFirstCounts(x.native, s);
      if s in x.native {
        assert forall t :: t in y.tree.value <==> t != s && t in x.tree.value;
        assert forall t :: t != s ==> (t in Recorded(y) <==> t in Recorded(x));
      }
    case Renew(_) =>
    case Leave =>
    case Enter(_) =>
  }

  predicate AllKeep(x: SurfaceState, ops: seq<SurfaceOp>)
    decreases |ops|
  {
    ops != [] ==> KeepsNode(x, ops[0]) && AllKeep(SurfaceStep(x, ops[0]), ops[1..])
  }

  /** After any history of such steps the renewed node shows exactly what is recorded, which is what the old one
      showed if there was one, and the records are unchanged; the first other step ends this. */
  lemma {:induction false} RenewalRestores(x: SurfaceState, ops: seq<SurfaceOp>, next: SurfaceOp)
    requires Shows(x) && AllKeep(x, ops)
    ensures var y := SurfaceRun(x, ops);
            var z := SurfaceStep(y, Renew(true));
            && z.app == y.app && z.native == y.native && z.tree == Some(Recorded(y))
            && (y.tree.Some? ==> forall s :: s in z.tree.value <==> s in y.tree.value)
            && (Shows(SurfaceStep(y, next)) <==> KeepsNode(y, next))
    decreases |ops|
  {
    if ops != [] {
      StepShows(x, ops[0]);
      hide SurfaceStep, KeepsNode, Recorded;
      RenewalRestores(SurfaceStep(x, ops[0]), ops[1..], next);
    } else {
      StepShows(x, next);
    }
  }

  /** Disciplined histories are among them, and keep every surface recorded once. */
  lemma {:induction false} DisciplinedKeeps(x: SurfaceState, ops: seq<SurfaceOp>)
    requires Synchronous(x) && AllDisciplined(x, ops)
    ensures Synchronous(SurfaceRun(x, ops)) && AllKeep(x, ops)
    decreases |ops|
  {
    if ops != [] {
      StepSynchronous(x, ops[0]);
      StepShows(x, ops[0]);
      assert KeepsNode(x, ops[0]) by {
        SynchronousShows(x);
        SynchronousShows(SurfaceStep(x, ops[0]));
      }
      hide SurfaceStep, KeepsNode, Recorded, Synchronous, Disciplined;
      DisciplinedKeeps(SurfaceStep(x, ops[0]), ops[1..]);
    }
  }

  lemma SynchronousShows(x: SurfaceState)
    requires Synchronous(x)
    ensures Shows(x)
  {
    hide NoDuplicates;
  }

  /** Adding a surface twice does no harm by itself, but removing it once then takes it off the node and
      leaves it recorded, and the renewed node shows it again. */
  lemma RemovedComesBack(s: SurfaceId)
    ensures var x0 := SurfaceState([], [], Some({}));
            var twice := SurfaceRun(x0, [Update(s, true, true), Update(s, true, true)]);
            var gone := SurfaceStep(twice, Update(s, false, true));
            var renewed := SurfaceStep(gone, Renew(true));
            && Shows(x0) && Shows(twice) && !Shows(gone)
            && s !in gone.tree.value && s in renewed.tree.value
  {
    var x0 := SurfaceState([], [], Some({}));
    var ops := [Update(s, true, true), Update(s, true, true)];
    var once := SurfaceStep(x0, ops[0]);
    var twice := SurfaceStep(once, ops[1]);
    assert ops[1..] == [ops[1]] && ops[1..][1..] == [];
    assert SurfaceRun(x0, ops) == SurfaceRun(once, [ops[1]]) == SurfaceRun(twice, []) == twice;
    assert twice.app == [s, s] && twice.tree.value == {s};
    assert [s, s][1..] == [s] && RemoveFirst([s, s], s) == [s];
    StepShows(x0, ops[0]);
    StepShows(once, ops[1]);
  }

  /** A screen that leaves its group and enters one again has lost its surfaces, though they are recorded: its new
      node shows nothing, and shows them all again once it is renewed. */
  lemma ReentryExact(x: SurfaceState)
    ensures var y := SurfaceStep(SurfaceStep(x, Leave), Enter(true));
            && y.tree == Some({}) && Recorded(y) == Recorded(x)
            && (Shows(y) <==> Bare(x))
            && SurfaceStep(y, Renew(true)).tree == Some(Recorded(x))
  {
    var y := SurfaceStep(SurfaceStep(x, Leave), Enter(true));
    assert Recorded(y) == Recorded(x);
    NothingRecorded(x);
  }
}

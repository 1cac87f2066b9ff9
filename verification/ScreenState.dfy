/** The state of the screen controller, the id manager and the display controller as one value,
    and the effect of each private step on it. The classes in module ScreenServer are proved to
    compute these functions; the invariants and theorems are proved about them.

    The render service is the environment Env. Every function that ends in a call of
    GetDefaultAbstractScreenId may connect the default screen on the way. */
module ScreenState {
  import opened DmTypes

  /** What the render service and the system parameters answer during one operation. modes holds
      the active mode of every rs screen whose mode list is non-empty and whose active index is in
      range; noNode holds the rs screens for which a display node cannot be created. */
  datatype Env = Env(
    defaultRs: ScreenId,
    expand: bool,
    builtIn: Orientation,
    modes: map<ScreenId, Mode>,
    noNode: set<ScreenId>)

  datatype Ids = Ids(count: nat, dms2Rs: map<ScreenId, ScreenId>, rs2Dms: map<ScreenId, ScreenId>)

  datatype Screen = Screen(
    rsId: ScreenId,
    kind: ScreenType,
    mode: Option<Mode>,
    groupId: ScreenId,
    lastGroupId: ScreenId,
    hasNode: bool,
    start: Point,
    rotation: Rotation,
    orientation: Orientation,
    requested: Orientation)
  {
    /** AbstractScreenGroup is the only screen of type UNDEFINED. */
    predicate IsGroup() { kind.UNDEFINED? }
  }

  datatype Group = Group(
    combination: Combination,
    mirrorId: ScreenId,
    defaultId: ScreenId,
    children: set<ScreenId>)

  datatype Display = Display(
    screenId: ScreenId,
    groupId: ScreenId,
    offset: Point,
    width: int,
    height: int,
    rotation: Rotation,
    orientation: Orientation)

  datatype State = State(
    ids: Ids,
    screens: map<ScreenId, Screen>,
    groups: map<ScreenId, Group>,
    agents: map<AgentId, seq<ScreenId>>,
    defaultRs: ScreenId,
    callback: bool,
    displays: map<DisplayId, Display>,
    displayCount: nat)

  const INITIAL := State(Ids(0, map[], map[]), map[], map[], map[], SCREEN_ID_INVALID, false, map[], 0)

  // ---------- ScreenIdManager ----------

  function CreateId(ids: Ids, rs: ScreenId): Ids {
    Ids(ids.count + 1,
        ids.dms2Rs[ids.count := rs],
        if rs == SCREEN_ID_INVALID then ids.rs2Dms else ids.rs2Dms[rs := ids.count])
  }

  function DeleteId(ids: Ids, d: ScreenId): Ids {
    if d !in ids.dms2Rs then ids
    else Ids(ids.count, ids.dms2Rs - {d}, ids.rs2Dms - {ids.dms2Rs[d]})
  }

  function RsOf(ids: Ids, d: ScreenId): ScreenId {
    if d in ids.dms2Rs then ids.dms2Rs[d] else SCREEN_ID_INVALID
  }

  function DmsOf(ids: Ids, rs: ScreenId): ScreenId {
    if rs in ids.rs2Dms then ids.rs2Dms[rs] else SCREEN_ID_INVALID
  }

  // ---------- Screens, groups and displays ----------

  function NewScreen(rs: ScreenId, kind: ScreenType, mode: Option<Mode>): Screen {
    Screen(rs, kind, mode, SCREEN_ID_INVALID, SCREEN_ID_INVALID, false, ORIGIN, ROTATION_0, UNSPECIFIED, UNSPECIFIED)
  }

  /** InitAndGetScreen: a screen without usable modes loses its fresh id again. */
  function InitScreen(st: State, env: Env, rs: ScreenId): (r: (State, ScreenId))
    ensures st.screens.Keys <= r.0.screens.Keys && r.0.groups == st.groups
    ensures r.1 != SCREEN_ID_INVALID ==> r.1 in r.0.screens
  {
    var d := st.ids.count;
    var ids := CreateId(st.ids, rs);
    if rs in env.modes then
      (st.(ids := ids, screens := st.screens[d := NewScreen(rs, REAL, Some(env.modes[rs]))]), d)
    else
      (st.(ids := DeleteId(ids, d)), SCREEN_ID_INVALID)
  }

  /** InGroup: the group recorded in the screen exists and lists the screen. */
  predicate InGroup(st: State, id: ScreenId)
    requires id in st.screens
  {
    var g := st.screens[id].groupId;
    g in st.groups && id in st.groups[g].children
  }

  function WithNode(s: Screen, env: Env, g: ScreenId, p: Point): Screen {
    var node := s.hasNode || s.rsId !in env.noNode;
    s.(hasNode := node, start := if node then p else s.start, lastGroupId := s.groupId, groupId := g)
  }

  /** The insertion branch of AbstractScreenGroup::AddChild. */
  function PlaceChild(st: State, env: Env, g: ScreenId, id: ScreenId, p: Point): State
    requires g in st.groups && id in st.screens
  {
    st.(screens := st.screens[id := WithNode(st.screens[id], env, g, p)],
        groups := st.groups[g := st.groups[g].(children := st.groups[g].children + {id})])
  }

  function AddAsFirst(st: State, env: Env, id: ScreenId): (r: (State, ScreenId))
    requires id in st.screens
    ensures st.screens.Keys <= r.0.screens.Keys && st.groups.Keys <= r.0.groups.Keys
    ensures r.1 in r.0.groups
  {
    var g := st.ids.count;
    var combination := if env.expand then SCREEN_EXPAND else SCREEN_MIRROR;
    var made := st.(ids := CreateId(st.ids, SCREEN_ID_INVALID),
                    screens := st.screens[g := NewScreen(SCREEN_ID_INVALID, UNDEFINED, None)],
                    groups := st.groups[g := Group(combination, SCREEN_ID_INVALID, SCREEN_ID_INVALID, {})]);
    var placed := PlaceChild(made, env, g, id, ORIGIN);
    (placed.(groups := placed.groups[g := placed.groups[g].(mirrorId := id)]), g)
  }

  /** The orientation configured for the built-in panel, applied when it connects. */
  function BuiltIn(st: State, env: Env, rs: ScreenId, id: ScreenId): State
    requires id in st.screens
  {
    var s := st.screens[id];
    if rs != env.defaultRs || !s.hasNode then st
    else
      var asked := s.(requested := env.builtIn);
      var turned := if s.mode.None? then asked
                    else asked.(rotation := CalcRotation(s.mode, env.builtIn), orientation := env.builtIn);
      st.(screens := st.screens[id := turned])
  }

  /** AbstractDisplay::RequestRotation. */
  function Rotate(d: Display, r: Rotation): Display {
    if d.rotation == r then d
    else if IsVertical(r) != IsVertical(d.rotation) then d.(width := d.height, height := d.width, rotation := r)
    else d.(rotation := r)
  }

  /** The constructor of AbstractDisplay. */
  function NewDisplay(id: ScreenId, s: Screen, m: Mode): Display {
    Rotate(Display(id, s.groupId, ORIGIN, m.width, m.height, ROTATION_0, s.orientation), s.rotation)
  }

  function CreateDisplay(st: State, id: ScreenId, m: Mode, p: Point): State
    requires id in st.screens
  {
    st.(displays := st.displays[st.displayCount := NewDisplay(id, st.screens[id], m).(offset := p)],
        displayCount := st.displayCount + 1)
  }

  /** BindAloneScreenLocked, once the default screen id is known. */
  function Bind(st: State, id: ScreenId, defaultId: ScreenId): State
    requires id in st.screens
  {
    if defaultId == SCREEN_ID_INVALID || defaultId != id || st.screens[id].mode.None? then st
    else CreateDisplay(st, id, st.screens[id].mode.value, ORIGIN)
  }

  // ---------- The default screen ----------

  function Learn(st: State, env: Env): State {
    if st.defaultRs == SCREEN_ID_INVALID then st.(defaultRs := env.defaultRs) else st
  }

  /** Nothing is left for GetDefaultAbstractScreenId to connect. */
  predicate Settled(st: State, env: Env) {
    var rs := Learn(st, env).defaultRs;
    rs == SCREEN_ID_INVALID || rs in st.ids.rs2Dms
  }

  /** The nested connect that GetDefaultAbstractScreenId makes when the default rs id is unmapped,
      with its own re-entrant calls already resolved: with a group present the default screen stays
      without a group; with none it becomes the first child and gets a display. */
  function ConnectDefault(st: State, env: Env): (r: State)
    ensures st.screens.Keys <= r.screens.Keys && st.groups.Keys <= r.groups.Keys
  {
    var (s1, d) := InitScreen(st, env, st.defaultRs);
    if d == SCREEN_ID_INVALID || s1.groups != map[] then s1
    else
      var (s2, g) := AddAsFirst(s1, env, d);
      var s3 := BuiltIn(s2, env, st.defaultRs, d);
      if s3.callback then Bind(s3, d, d) else s3
  }

  function GetDefault(st: State, env: Env): (r: (State, ScreenId))
    ensures st.screens.Keys <= r.0.screens.Keys && st.groups.Keys <= r.0.groups.Keys
  {
    var s1 := Learn(st, env);
    if s1.defaultRs == SCREEN_ID_INVALID then (s1, SCREEN_ID_INVALID)
    else if s1.defaultRs in s1.ids.rs2Dms then (s1, s1.ids.rs2Dms[s1.defaultRs])
    else
      var s2 := ConnectDefault(s1, env);
      (s2, DmsOf(s2.ids, s2.defaultRs))
  }

  /** ConvertToScreenInfo asks for the source mode of the screen, which asks for the default screen
      when the screen has a group. */
  function Touch(st: State, env: Env, id: ScreenId): (r: State)
    ensures st.screens.Keys <= r.screens.Keys && st.groups.Keys <= r.groups.Keys
  {
    if id in st.screens && st.screens[id].groupId in st.groups then GetDefault(st, env).0 else st
  }

  // ---------- AbstractScreenGroup::AddChild ----------

  /** GetRSDisplayNodeConfig: a mirror group without a usable source falls back on the default. */
  function NodeConfig(st: State, env: Env, g: ScreenId, id: ScreenId): (r: State)
    requires g in st.groups
    ensures st.screens.Keys <= r.screens.Keys && st.groups.Keys <= r.groups.Keys
  {
    var grp := st.groups[g];
    if grp.combination.SCREEN_EXPAND? || grp.children == {} || grp.mirrorId == id then st
    else if grp.mirrorId == SCREEN_ID_INVALID || grp.mirrorId !in grp.children then
      var (s1, d) := GetDefault(st, env);
      s1.(groups := s1.groups[g := s1.groups[g].(mirrorId := d)])
    else st
  }

  /** The display node of a real default screen survives its disconnection; adding the screen
      again then renews the node instead of inserting a child. */
  predicate Reconnects(st: State, g: ScreenId, id: ScreenId)
    requires g in st.groups && id in st.screens
  {
    st.screens[id].hasNode && st.screens[id].kind.REAL? && st.groups[g].defaultId == id
  }

  function AddChild(st: State, env: Env, g: ScreenId, id: ScreenId, p: Point): (r: (State, bool))
    requires g in st.groups && id in st.screens
    ensures st.screens.Keys <= r.0.screens.Keys && st.groups.Keys <= r.0.groups.Keys
  {
    if id in st.groups[g].children && !Reconnects(st, g, id) then (st, false)
    else
      var s1 := NodeConfig(st, env, g, id);
      if Reconnects(s1, g, id) then
        var s := s1.screens[id];
        (if s.rsId in env.noNode then s1 else s1.(screens := s1.screens[id := s.(start := p)]), true)
      else (PlaceChild(s1, env, g, id, p), true)
  }

  /** The sum of the widths the children occupy, rotation included. */
  function SumWidths(screens: map<ScreenId, Screen>, order: seq<ScreenId>): nat {
    if order == [] then 0
    else WidthOf(screens, order[0]) + SumWidths(screens, order[1..])
  }

  function WidthOf(screens: map<ScreenId, Screen>, id: ScreenId): nat {
    if id in screens && screens[id].mode.Some? then RotatedWidth(screens[id].mode.value, screens[id].rotation) else 0
  }

  /** The place behind the last child of a group. */
  function PlaceBehind(st: State, g: ScreenId): Point
    requires g in st.groups
  {
    if st.groups[g].combination.SCREEN_EXPAND?
    then Point(SumWidths(st.screens, Ascending(st.groups[g].children)), 0) else ORIGIN
  }

  function AddAsSuccedent(st: State, env: Env, id: ScreenId): (r: (State, ScreenId))
    requires id in st.screens
    ensures st.screens.Keys <= r.0.screens.Keys && st.groups.Keys <= r.0.groups.Keys
  {
    var (s1, d) := GetDefault(st, env);
    if d !in s1.screens || s1.screens[d].groupId !in s1.groups then (s1, SCREEN_ID_INVALID)
    else
      var g := s1.screens[d].groupId;
      var p := if s1.groups[g].combination.SCREEN_EXPAND?
               then Point(SumWidths(s1.screens, Ascending(s1.groups[g].children)), 0) else ORIGIN;
      (AddChild(s1, env, g, id, p).0, g)
  }

  function AddToGroup(st: State, env: Env, id: ScreenId): (r: (State, ScreenId))
    requires id in st.screens
    ensures st.screens.Keys <= r.0.screens.Keys && st.groups.Keys <= r.0.groups.Keys
  {
    if st.groups == map[] then AddAsFirst(st, env, id) else AddAsSuccedent(st, env, id)
  }

  // ---------- AbstractDisplayController ----------

  /** The first display of the map, in id order, bound to the screen. */
  function FirstDisplay(displays: map<DisplayId, Display>, id: ScreenId, from: nat, count: nat): (r: Option<DisplayId>)
    ensures r.Some? ==> r.value in displays && displays[r.value].screenId == id
    decreases count - from
  {
    if from >= count then None
    else if from in displays && displays[from].screenId == id then Some(from)
    else FirstDisplay(displays, id, from + 1, count)
  }

  /** The last such display: the expand loop has no break. */
  function LastDisplay(displays: map<DisplayId, Display>, id: ScreenId, count: nat): (r: Option<DisplayId>)
    ensures r.Some? ==> r.value in displays && displays[r.value].screenId == id
  {
    if count == 0 then None
    else if count - 1 in displays && displays[count - 1].screenId == id then Some(count - 1)
    else LastDisplay(displays, id, count - 1)
  }

  function BindAlone(st: State, env: Env, id: ScreenId): State
    requires id in st.screens
  {
    var (s1, d) := GetDefault(st, env);
    Bind(s1, id, d)
  }

  /** AddScreenToExpandLocked for a screen that has no display yet. */
  function BindExpand(st: State, env: Env, id: ScreenId): State
    requires id in st.screens
  {
    var (s1, d) := GetDefault(st, env);
    var mode := if !s1.screens[id].kind.VIRTUAL? then s1.screens[id].mode
                else if d in s1.screens then s1.screens[d].mode else None;
    if mode.None? then s1 else CreateDisplay(s1, id, mode.value, s1.screens[id].start)
  }

  function AddExpand(st: State, env: Env, id: ScreenId): State
    requires id in st.screens
  {
    if FirstDisplay(st.displays, id, 0, st.displayCount).Some? then st else BindExpand(st, env, id)
  }

  function OnConnect(st: State, env: Env, id: ScreenId): State
    requires id in st.screens
  {
    var g := st.screens[id].groupId;
    if g !in st.groups then st
    else if |st.groups[g].children| == 1 then BindAlone(st, env, id)
    else if st.groups[g].combination.SCREEN_MIRROR? then st
    else AddExpand(st, env, id)
  }

  /** ProcessNormalScreenDisconnected: the display moves to the default screen. */
  function UnbindMirror(st: State, env: Env, id: ScreenId): State {
    var (s1, d) := GetDefault(st, env);
    var found := FirstDisplay(s1.displays, id, 0, s1.displayCount);
    if found.None? || d !in s1.screens || s1.screens[d].mode.None? then s1
    else if s1.screens[d].groupId !in s1.groups then s1
    else
      var s := s1.screens[d];
      var p := if d in s1.groups[s.groupId].children then s.start else ORIGIN;
      s1.(displays := s1.displays[found.value := s1.displays[found.value].(
            offset := p, width := s.mode.value.width, height := s.mode.value.height, screenId := d)])
  }

  function ZeroOthers(displays: map<DisplayId, Display>, id: ScreenId): map<DisplayId, Display> {
    map k | k in displays :: if displays[k].screenId == id then displays[k] else displays[k].(offset := ORIGIN)
  }

  /** ProcessExpandScreenDisconnected zeroes the offset of every other display; the display of the
      screen is then erased. */
  function UnbindExpand(st: State, env: Env, id: ScreenId): State {
    var zeroed := ZeroOthers(st.displays, id);
    var found := LastDisplay(st.displays, id, st.displayCount);
    if found.None? then st.(displays := zeroed)
    else
      var s1 := GetDefault(st.(displays := zeroed), env).0;
      s1.(displays := s1.displays - {found.value})
  }

  function OnDisconnect(st: State, env: Env, id: ScreenId): (r: State)
    requires id in st.screens
    ensures st.screens.Keys <= r.screens.Keys && st.groups.Keys <= r.groups.Keys
  {
    var g := st.screens[id].groupId;
    if g !in st.groups then st
    else if st.groups[g].combination.SCREEN_MIRROR? then UnbindMirror(st, env, id)
    else UnbindExpand(st, env, id)
  }

  // ---------- Connecting and disconnecting ----------

  function Reconnect(st: State, env: Env, rs: ScreenId): State {
    if rs != st.defaultRs || rs == SCREEN_ID_INVALID || rs !in st.ids.rs2Dms then st
    else
      var d := st.ids.rs2Dms[rs];
      if d !in st.screens || st.screens[d].lastGroupId !in st.groups then st
      else AddChild(st, env, st.screens[d].lastGroupId, d, ORIGIN).0
  }

  /** ProcessScreenConnected. */
  function Connect(st: State, env: Env, rs: ScreenId): State {
    if rs in st.ids.rs2Dms then Reconnect(st, env, rs)
    else
      var (s1, d) := InitScreen(st, env, rs);
      if d == SCREEN_ID_INVALID then s1
      else
        var (s2, g) := AddToGroup(s1, env, d);
        if g == SCREEN_ID_INVALID then s2
        else
          var s3 := Touch(BuiltIn(s2, env, rs, d), env, d);
          if s3.callback then OnConnect(s3, env, d) else s3
  }

  function WithoutGroup(s: Screen): Screen {
    s.(lastGroupId := s.groupId, groupId := SCREEN_ID_INVALID, start := ORIGIN, hasNode := false)
  }

  /** RemoveChildFromGroup: the last child takes the group with it. */
  function RemoveChild(st: State, g: ScreenId, id: ScreenId): (State, bool)
    requires g in st.groups && id in st.screens
  {
    var left := st.groups[g].children - {id};
    var screens := st.screens[id := WithoutGroup(st.screens[id])];
    if id !in st.groups[g].children then (st.(screens := screens), false)
    else if left == {} then (st.(screens := screens - {g}, groups := st.groups - {g}), true)
    else (st.(screens := screens, groups := st.groups[g := st.groups[g].(children := left)]), true)
  }

  /** RemoveFromGroupLocked; the id returned is SCREEN_ID_INVALID where the source returns null. */
  function RemoveFromGroup(st: State, id: ScreenId): (State, ScreenId)
    requires id in st.screens
  {
    var g := st.screens[id].groupId;
    if g !in st.groups then (st, SCREEN_ID_INVALID)
    else
      var (s1, removed) := RemoveChild(st, g, id);
      (s1, if removed then g else SCREEN_ID_INVALID)
  }

  /** RemoveDefaultScreen: the default screen stays a child while it is unplugged. */
  function RemoveDefaultScreen(st: State, g: ScreenId, id: ScreenId): State
    requires g in st.groups && id in st.screens
  {
    st.(screens := st.screens[id := st.screens[id].(lastGroupId := st.screens[id].groupId)],
        groups := st.groups[g := st.groups[g].(defaultId := id)])
  }

  // ---------- Changing groups ----------

  datatype Taken = Taken(id: ScreenId, at: Point, wasChild: bool)

  /** The three notification lists of AddScreenToGroup. */
  datatype Notice = Notice(removed: seq<ScreenId>, changed: seq<ScreenId>, added: seq<ScreenId>)

  /** The first loop of ChangeScreenGroup, for one listed screen. */
  function TakeOutOne(st: State, env: Env, g: ScreenId, id: ScreenId, filter: bool): State
  {
    if !Moves(st, g, id, filter) then st
    else
      var s1 := if st.callback && InGroup(st, id) then OnDisconnect(st, env, id) else st;
      RemoveFromGroup(s1, id).0
  }

  predicate Moves(st: State, g: ScreenId, id: ScreenId, filter: bool) {
    id in st.screens
    && !(filter && st.screens[id].groupId == g && g in st.groups && id in st.groups[g].children)
  }

  function TakeOut(st: State, env: Env, g: ScreenId, ids: seq<ScreenId>, at: seq<Point>, filter: bool): (State, seq<Taken>)
    requires |ids| == |at|
    decreases |ids|
  {
    if ids == [] then (st, [])
    else
      var s1 := TakeOutOne(st, env, g, ids[0], filter);
      var (s2, rest) := TakeOut(s1, env, g, ids[1..], at[1..], filter);
      if Moves(st, g, ids[0], filter)
      then (s2, [Taken(ids[0], at[0], InGroup(st, ids[0]))] + rest)
      else (s2, rest)
  }

  /** AddScreenToGroup, for one screen: AddChild, the screen info, the connect callback. */
  function PutInOne(st: State, env: Env, g: ScreenId, t: Taken): (State, Notice)
  {
    if t.id !in st.screens || g !in st.groups then (st, Notice([], [], []))
    else
      var (s1, added) := AddChild(st, env, g, t.id, t.at);
      var s2 := if t.wasChild || added then Touch(s1, env, t.id) else s1;
      var s3 := if s2.callback then OnConnect(s2, env, t.id) else s2;
      (s3, if t.wasChild && added then Notice([], [t.id], [])
           else if t.wasChild then Notice([t.id], [], [])
           else if added then Notice([], [], [t.id])
           else Notice([], [], []))
  }

  function PutIn(st: State, env: Env, g: ScreenId, taken: seq<Taken>): (State, Notice)
    decreases |taken|
  {
    if taken == [] then (st, Notice([], [], []))
    else
      var (s1, n1) := PutInOne(st, env, g, taken[0]);
      var (s2, n2) := PutIn(s1, env, g, taken[1..]);
      (s2, Notice(n1.removed + n2.removed, n1.changed + n2.changed, n1.added + n2.added))
  }

  function ChangeScreenGroup(st: State, env: Env, g: ScreenId, ids: seq<ScreenId>, at: seq<Point>, filter: bool,
                             combination: Combination): (State, Notice)
    requires |ids| == |at|
  {
    var (s1, taken) := TakeOut(st, env, g, ids, at, filter);
    if g !in s1.groups then (s1, Notice([], [], []))
    else PutIn(s1.(groups := s1.groups[g := s1.groups[g].(combination := combination)]), env, g, taken)
  }

  /** The group of the main screen of a mirror, made if it has none; SCREEN_ID_INVALID for failure. */
  function MirrorGroup(st: State, env: Env, id: ScreenId): (State, ScreenId)
    requires id in st.screens
  {
    if st.screens[id].groupId in st.groups then (st, st.screens[id].groupId)
    else
      var (s1, g) := AddToGroup(st, env, id);
      if g == SCREEN_ID_INVALID then (s1, g)
      else
        var s2 := Touch(s1, env, id);
        (if s2.callback then OnConnect(s2, env, id) else s2, g)
  }

  function Origins(n: nat): (r: seq<Point>)
    ensures |r| == n
  {
    seq(n, i => ORIGIN)
  }

  /** AbstractScreenController::MakeMirror; false for DM_ERROR_NULLPTR. */
  function MakeMirror(st: State, env: Env, id: ScreenId, ids: seq<ScreenId>): (State, bool, Notice)
  {
    if id !in st.screens || !st.screens[id].kind.REAL? then (st, false, Notice([], [], []))
    else
      var (s1, g) := MirrorGroup(st, env, id);
      if g !in s1.groups then (s1, false, Notice([], [], []))
      else
        var filter := s1.groups[g].combination.SCREEN_MIRROR? && s1.groups[g].mirrorId == id;
        var s2 := s1.(groups := s1.groups[g := s1.groups[g].(mirrorId := id)]);
        var (s3, notice) := ChangeScreenGroup(s2, env, g, ids, Origins(|ids|), filter, SCREEN_MIRROR);
        (s3, true, notice)
  }

  function MakeExpand(st: State, env: Env, ids: seq<ScreenId>, at: seq<Point>): (State, bool, Notice)
    requires |ids| == |at|
  {
    var (s1, d) := GetDefault(st, env);
    if d !in s1.screens || s1.screens[d].groupId !in s1.groups then (s1, false, Notice([], [], []))
    else
      var g := s1.screens[d].groupId;
      var filter := s1.groups[g].combination.SCREEN_EXPAND?;
      var (s2, notice) := ChangeScreenGroup(s1, env, g, ids, at, filter, SCREEN_EXPAND);
      (s2, true, notice)
  }

  /** Everything in the list except the given id, once. */
  function RemoveFirst(ids: seq<ScreenId>, id: ScreenId): (r: seq<ScreenId>)
    ensures |r| <= |ids|
  {
    if ids == [] then []
    else if ids[0] == id then ids[1..]
    else [ids[0]] + RemoveFirst(ids[1..], id)
  }

  function Without(ids: seq<ScreenId>, id: ScreenId): seq<ScreenId> {
    if ids == [] then []
    else if ids[0] == id then Without(ids[1..], id)
    else [ids[0]] + Without(ids[1..], id)
  }

  /** When the source of a mirror group is gone, the default screen becomes the source. */
  function Remirror(st: State, env: Env, g: ScreenId, gone: ScreenId): State
  {
    if g !in st.groups || st.groups[g].combination.SCREEN_EXPAND? || st.groups[g].mirrorId != gone then st
    else
      var (s1, d) := GetDefault(st, env);
      if g !in s1.groups then s1
      else MakeMirror(s1, env, d, Without(Ascending(s1.groups[g].children), d)).0
  }

  /** ProcessScreenDisconnected. */
  function Disconnect(st: State, env: Env, rs: ScreenId): State {
    if rs !in st.ids.rs2Dms then st
    else
      var d := st.ids.rs2Dms[rs];
      if d !in st.screens then st.(ids := DeleteId(st.ids, d))
      else if st.callback && InGroup(st, d) && rs == st.defaultRs then
        RemoveDefaultScreen(st, st.screens[d].groupId, d)
      else
        var s1 := if st.callback && InGroup(st, d) then OnDisconnect(st, env, d) else st;
        var (s2, g) := RemoveFromGroup(s1, d);
        var s3 := Remirror(s2.(screens := s2.screens - {d}), env, g, d);
        s3.(ids := DeleteId(s3.ids, d))
  }

  function StopOne(st: State, env: Env, id: ScreenId, combination: Combination): State {
    if id !in st.screens || st.screens[id].groupId !in st.groups then st
    else
      var g := st.screens[id].groupId;
      var grp := st.groups[g];
      if grp.combination != combination || (grp.combination.SCREEN_MIRROR? && grp.mirrorId == id) then st
      else
        var s1 := if st.callback && InGroup(st, id) then OnDisconnect(st, env, id) else st;
        RemoveChild(s1, g, id).0
  }

  function StopScreens(st: State, env: Env, ids: seq<ScreenId>, combination: Combination): State
    decreases |ids|
  {
    if ids == [] then st
    else StopScreens(StopOne(st, env, ids[0], combination), env, ids[1..], combination)
  }

  function RemoveVirtualOne(st: State, env: Env, id: ScreenId): State {
    if id !in st.screens || !st.screens[id].kind.VIRTUAL? || !InGroup(st, id) then st
    else
      var s1 := if st.callback then OnDisconnect(st, env, id) else st;
      RemoveFromGroup(s1, id).0
  }

  function RemoveVirtual(st: State, env: Env, ids: seq<ScreenId>): State
    decreases |ids|
  {
    if ids == [] then st
    else RemoveVirtual(RemoveVirtualOne(st, env, ids[0]), env, ids[1..])
  }

  // ---------- Virtual screens and their agents ----------

  function AgentList(st: State, a: AgentId): seq<ScreenId> {
    if a in st.agents then st.agents[a] else []
  }

  /** Drop one occurrence of the id from the first agent that lists it; an agent with nothing left
      is dropped too. */
  function Disown(agents: map<AgentId, seq<ScreenId>>, id: ScreenId): map<AgentId, seq<ScreenId>> {
    var owners := set a: int | a in agents && id in agents[a];
    if owners == {} then agents
    else
      var a: AgentId := Least(owners);
      var left := RemoveFirst(agents[a], id);
      if left == [] then agents - {a} else agents[a := left]
  }

  /** CreateVirtualScreen, for the rs id the render service returned. */
  function CreateVirtual(st: State, env: Env, rs: ScreenId, mode: Mode, a: AgentId): (State, ScreenId) {
    if rs == SCREEN_ID_INVALID then (st, SCREEN_ID_INVALID)
    else if rs in st.ids.rs2Dms then (st, st.ids.rs2Dms[rs])
    else
      var d := st.ids.count;
      var s1 := GetDefault(st.(ids := CreateId(st.ids, rs)), env).0;
      (s1.(screens := s1.screens[d := NewScreen(rs, VIRTUAL, Some(mode))],
           agents := s1.agents[a := AgentList(s1, a) + [d]]), d)
  }

  /** DestroyVirtualScreen refuses the screen that carries the default rs id. */
  predicate Refuses(st: State, id: ScreenId) {
    RsOf(st.ids, id) == st.defaultRs
  }

  function DestroyVirtual(st: State, env: Env, id: ScreenId): (State, bool) {
    if Refuses(st, id) then (st, false)
    else
      var rs := RsOf(st.ids, id);
      var s1 := st.(agents := Disown(st.agents, id));
      var s2 := if rs != SCREEN_ID_INVALID && id in s1.screens then Disconnect(s1, env, rs) else s1;
      var s3 := s2.(ids := DeleteId(s2.ids, id));
      if rs == SCREEN_ID_INVALID then (s3, false)
      else (if s3.defaultRs == rs then s3.(defaultRs := SCREEN_ID_INVALID) else s3, true)
  }

  /** OnRemoteDied: None when the loop cannot make progress and so never ends. */
  function OnRemoteDied(st: State, env: Env, a: AgentId): Option<State>
    decreases |AgentList(st, a)|
  {
    if AgentList(st, a) == [] then Some(st.(agents := st.agents - {a}))
    else
      var s1 := DestroyVirtual(st, env, AgentList(st, a)[0]).0;
      if |AgentList(s1, a)| < |AgentList(st, a)| then OnRemoteDied(s1, env, a) else None
  }

  function SetVirtualAsDefault(st: State, env: Env, id: ScreenId): (State, bool) {
    var rs := RsOf(st.ids, id);
    if rs == SCREEN_ID_INVALID || id !in st.screens || st.screens[id].kind.REAL? then (st, false)
    else
      var (s1, g) := AddToGroup(st, env, id);
      if g == SCREEN_ID_INVALID then (s1, false)
      else
        var s2 := Touch(s1, env, id);
        if !s2.callback then (s2, false)
        else (OnConnect(s2.(defaultRs := rs, agents := Disown(s2.agents, id)), env, id), true)
  }

  // ---------- The display-manager service ----------

  /** GetAllValidScreenIds: known, not a group, first occurrence only. */
  function ValidIds(st: State, ids: seq<ScreenId>): seq<ScreenId> {
    if ids == [] then []
    else
      var init := ValidIds(st, ids[..|ids| - 1]);
      var id := ids[|ids| - 1];
      if id !in init && id in st.screens && !st.screens[id].IsGroup() then init + [id] else init
  }

  function ServiceMakeMirror(st: State, env: Env, id: ScreenId, ids: seq<ScreenId>): (State, Option<ScreenId>) {
    var all := RemoveFirst(ValidIds(st, ids), id);
    if id !in st.screens || all == [] then (st, None)
    else
      var (s1, ok, _) := MakeMirror(st, env, id, all);
      if !ok || id !in s1.screens || s1.screens[id].groupId !in s1.groups then (s1, None)
      else (s1, Some(s1.screens[id].groupId))
  }

  /** The start point asked for first is the one that counts. */
  function FirstPoints(ids: seq<ScreenId>, at: seq<Point>): (r: map<ScreenId, Point>)
    requires |ids| == |at|
    ensures forall id :: id in r <==> id in ids
  {
    if ids == [] then map[] else FirstPoints(ids[1..], at[1..])[ids[0] := at[0]]
  }

  function PointsFor(ids: seq<ScreenId>, points: map<ScreenId, Point>): seq<Point> {
    if ids == [] then []
    else if ids[0] in points then [points[ids[0]]] + PointsFor(ids[1..], points)
    else PointsFor(ids[1..], points)
  }

  function ServiceMakeExpand(st: State, env: Env, ids: seq<ScreenId>, at: seq<Point>): (State, Option<ScreenId>) {
    if ids == [] || at == [] || |ids| != |at| then (st, None)
    else
      var (s1, d) := GetDefault(st, env);
      var all := RemoveFirst(ValidIds(s1, ids), d);
      var points := PointsFor(all, FirstPoints(ids, at));
      if all == [] || |points| != |all| then (s1, None)
      else
        var (s2, ok, _) := MakeExpand(s1, env, all, points);
        if !ok || all[0] !in s2.screens || s2.screens[all[0]].groupId !in s2.groups then (s2, None)
        else (s2, Some(s2.screens[all[0]].groupId))
  }

  function ServiceStop(st: State, env: Env, ids: seq<ScreenId>, combination: Combination): State {
    StopScreens(st, env, ValidIds(st, ids), combination)
  }

  // ---------- Rotation and layout ----------

  function UpdateDisplay(st: State, id: ScreenId, f: Display -> Display): State {
    var found := FirstDisplay(st.displays, id, 0, st.displayCount);
    if id !in st.screens || st.screens[id].groupId !in st.groups || found.None? then st
    else st.(displays := st.displays[found.value := f(st.displays[found.value])])
  }

  /** SetRotation with waterfall compression switched off; module DisplayCompression has that part. */
  function SetRotation(st: State, env: Env, id: ScreenId, r: Rotation): State {
    if id !in st.screens || st.screens[id].rotation == r then st
    else
      var s1 := Touch(st.(screens := st.screens[id := st.screens[id].(rotation := r)]), env, id);
      if s1.callback then UpdateDisplay(s1, id, (d: Display) => Rotate(d, r)) else s1
  }

  /** UpdateDisplaySize: the unrotated size of the display is compared with the mode. */
  function Resize(d: Display, m: Mode, p: Point): Display {
    var upright := IsVertical(d.rotation);
    var same := m.width == (if upright then d.width else d.height)
                && m.height == (if upright then d.height else d.width);
    (if same then d else d.(width := m.width, height := m.height)).(offset := p)
  }

  function ResizeAll(st: State, id: ScreenId): State
    requires id in st.screens && st.screens[id].mode.Some?
  {
    st.(displays := map k | k in st.displays ::
          if st.displays[k].screenId == id then Resize(st.displays[k], st.screens[id].mode.value, st.screens[id].start)
          else st.displays[k])
  }

  /** One child of the layout loop, and whether the size callback ran for it. */
  function LayOutOne(st: State, id: ScreenId, x: int): (State, bool)
    requires id in st.screens && st.screens[id].mode.Some?
  {
    var s := st.screens[id];
    if s.start.x == x then (st, false)
    else
      var s1 := if s.hasNode then st.(screens := st.screens[id := s.(start := Point(x, 0))]) else st;
      (if s1.callback then ResizeAll(s1, id) else s1, s1.callback)
  }

  function LayOut(st: State, order: seq<ScreenId>, x: int): (State, nat)
    decreases |order|
  {
    if order == [] then (st, 0)
    else if order[0] !in st.screens || st.screens[order[0]].mode.None? then LayOut(st, order[1..], x)
    else
      var (s1, moved) := LayOutOne(st, order[0], x);
      var (s2, n) := LayOut(s1, order[1..], x + WidthOf(st.screens, order[0]));
      (s2, n + if moved then 1 else 0)
  }

  function StartX(st: State, id: ScreenId): int {
    if id in st.screens then st.screens[id].start.x else 0
  }

  function InsertByX(st: State, sorted: seq<ScreenId>, id: ScreenId): seq<ScreenId> {
    if sorted == [] then [id]
    else if StartX(st, id) < StartX(st, sorted[|sorted| - 1])
    then InsertByX(st, sorted[..|sorted| - 1], id) + [sorted[|sorted| - 1]]
    else sorted + [id]
  }

  function SortByX(st: State, ids: seq<ScreenId>): seq<ScreenId> {
    if ids == [] then [] else InsertByX(st, SortByX(st, ids[..|ids| - 1]), ids[|ids| - 1])
  }

  function ChildrenByX(st: State, g: ScreenId): seq<ScreenId>
    requires g in st.groups
  {
    SortByX(st, Ascending(st.groups[g].children))
  }

  /** UpdateScreenGroupLayout, with the number of size callbacks it fired. */
  function UpdateLayout(st: State, g: ScreenId): (State, nat)
    requires g in st.groups
  {
    if st.groups[g].combination.SCREEN_MIRROR? || |st.groups[g].children| <= 1 then (st, 0)
    else LayOut(st, ChildrenByX(st, g), 0)
  }

  /** SetOrientation as the service calls it, not from a window; the boolean is DM_OK. */
  function SetOrientation(st: State, env: Env, id: ScreenId, o: Orientation): (State, bool) {
    if id !in st.screens || st.screens[id].IsGroup() then (st, false)
    else
      var s1 := st.(screens := st.screens[id := st.screens[id].(requested := o)]);
      if s1.screens[id].orientation == o then (s1, true)
      else
        var s2 := SetRotation(s1, env, id, CalcRotation(s1.screens[id].mode, o));
        var s3 := if id in s2.screens
                  then Touch(s2.(screens := s2.screens[id := s2.screens[id].(orientation := o)]), env, id) else s2;
        var s4 := if s3.callback && id in s3.screens
                  then UpdateDisplay(s3, id, (d: Display) => Rotate(d.(orientation := o), s3.screens[id].rotation))
                  else s3;
        if id in s4.screens && s4.screens[id].groupId in s4.groups
        then (UpdateLayout(s4, s4.screens[id].groupId).0, true) else (s4, true)
  }

  /** RegisterAbstractScreenCallback: the connect callback runs for every screen already known. */
  function ConnectEach(st: State, env: Env, ids: seq<ScreenId>): State
    decreases |ids|
  {
    if ids == [] then st
    else ConnectEach(if ids[0] in st.screens then OnConnect(st, env, ids[0]) else st, env, ids[1..])
  }

  function RegisterCallback(st: State, env: Env): State {
    ConnectEach(st.(callback := true), env, Ascending(st.screens.Keys))
  }

  // ---------- Operations and runs ----------

  datatype Op =
    | OpConnect(rs: ScreenId)
    | OpDisconnect(rs: ScreenId)
    | OpQueryDefault
    | OpCreateVirtual(rs: ScreenId, mode: Mode, agent: AgentId)
    | OpDestroyVirtual(id: ScreenId)
    | OpAgentDied(agent: AgentId)
    | OpMakeMirror(id: ScreenId, ids: seq<ScreenId>)
    | OpMakeExpand(ids: seq<ScreenId>, at: seq<Point>)
    | OpStop(ids: seq<ScreenId>, combination: Combination)
    | OpRemoveVirtual(ids: seq<ScreenId>)
    | OpSetVirtualAsDefault(id: ScreenId)
    | OpSetRotation(id: ScreenId, rotation: Rotation)
    | OpSetOrientation(id: ScreenId, orientation: Orientation)
    | OpRegister

  function Step(st: State, env: Env, op: Op): State {
    match op
    case OpConnect(rs) => Connect(st, env, rs)
    case OpDisconnect(rs) => Disconnect(st, env, rs)
    case OpQueryDefault => GetDefault(st, env).0
    case OpCreateVirtual(rs, mode, a) => CreateVirtual(st, env, rs, mode, a).0
    case OpDestroyVirtual(id) => DestroyVirtual(st, env, id).0
    case OpAgentDied(a) => (match OnRemoteDied(st, env, a) case Some(s) => s case None => st)
    case OpMakeMirror(id, ids) => ServiceMakeMirror(st, env, id, ids).0
    case OpMakeExpand(ids, at) => ServiceMakeExpand(st, env, ids, at).0
    case OpStop(ids, combination) => ServiceStop(st, env, ids, combination)
    case OpRemoveVirtual(ids) => RemoveVirtual(st, env, ids)
    case OpSetVirtualAsDefault(id) => SetVirtualAsDefault(st, env, id).0
    case OpSetRotation(id, r) => SetRotation(st, env, id, r)
    case OpSetOrientation(id, o) => SetOrientation(st, env, id, o).0
    case OpRegister => RegisterCallback(st, env)
  }

  datatype Event = Event(env: Env, op: Op)

  function Run(st: State, events: seq<Event>): State
    decreases |events|
  {
    if events == [] then st
    else Run(Step(st, events[0].env, events[0].op), events[1..])
  }
}

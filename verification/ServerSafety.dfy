/** The steps of the other half of the server, as the objects take them one after the other, with the
    invariant at each point in between. */
module ServerSafety {
  import opened DmTypes
  import opened ScreenState
  import opened ScreenInvariant
  import opened AgentOwnership
  import opened GroupChanges
  import opened ScreenRuns
  import opened DefaultScreen
  import opened ServerBounds

  // ---------- Displays ----------

  /** The effect of the zeroing loop on the displays before an index. */
  ghost function ZeroBelow(displays: map<DisplayId, Display>, id: ScreenId, count: nat): map<DisplayId, Display> {
    map k | k in displays ::
      if k < count && displays[k].screenId != id then displays[k].(offset := ORIGIN) else displays[k]
  }

  lemma ZeroBelowNone(displays: map<DisplayId, Display>, id: ScreenId)
    ensures ZeroBelow(displays, id, 0) == displays
  {
  }

  lemma ZeroBelowStep(displays: map<DisplayId, Display>, id: ScreenId, k: nat)
    ensures ZeroBelow(displays, id, k + 1) ==
              if k in displays && displays[k].screenId != id
              then ZeroBelow(displays, id, k)[k := displays[k].(offset := ORIGIN)] else ZeroBelow(displays, id, k)
  {
  }

  lemma ZeroBelowAt(displays: map<DisplayId, Display>, id: ScreenId, k: nat)
    ensures ZeroBelow(displays, id, k).Keys == displays.Keys
    ensures k in displays ==> ZeroBelow(displays, id, k)[k] == displays[k]
  {
  }

  lemma LastStep(displays: map<DisplayId, Display>, id: ScreenId, k: nat)
    ensures LastDisplay(displays, id, 0) == None
    ensures LastDisplay(displays, id, k + 1) ==
              if k in displays && displays[k].screenId == id then Some(k) else LastDisplay(displays, id, k)
  {
  }

  lemma ZeroBelowAll(displays: map<DisplayId, Display>, id: ScreenId, count: nat)
    requires forall k :: k in displays ==> k < count
    ensures ZeroBelow(displays, id, count) == ZeroOthers(displays, id)
  {
  }

  lemma ZeroedInv(st: State, id: ScreenId)
    requires Inv(st)
    ensures Inv(st.(displays := ZeroOthers(st.displays, id)))
  {
    ShapeInv(st, st.(displays := ZeroOthers(st.displays, id)));
  }

  lemma UnbindExpandInv(st: State, env: Env, id: ScreenId)
    requires Inv(st)
    ensures Inv(UnbindExpand(st, env, id))
  {
    ZeroedInv(st, id);
    CallbackInv(st.(displays := ZeroOthers(st.displays, id)), env, UnbindExpand(st, env, id));
  }

  lemma UnbindMirrorInv(st: State, env: Env, id: ScreenId)
    requires Inv(st)
    ensures Inv(UnbindMirror(st, env, id)) && Inv(GetDefault(st, env).0)
  {
    LookupInv(st, env);
    hide GetDefault, Inv, Evolves, Extends;
    CallbackInv(st, env, UnbindMirror(st, env, id));
  }

  /** The disconnect callback, if it is registered and the screen is in a group. */
  function Unhook(st: State, env: Env, id: ScreenId): State
    requires id in st.screens
  {
    if st.callback && InGroup(st, id) then OnDisconnect(st, env, id) else st
  }

  lemma UnhookInv(st: State, env: Env, id: ScreenId)
    requires Inv(st) && id in st.screens
    ensures var r := Unhook(st, env, id);
            Inv(r) && id in r.screens && (!st.screens[id].IsGroup() ==> !r.screens[id].IsGroup())
  {
    OnDisconnectInv(st, env, id);
    hide OnDisconnect, Inv, Extends;
  }

  // ---------- Leaving a group ----------

  /** Under the invariant a screen that names a group is its child. */
  lemma MemberOfGroup(st: State, id: ScreenId)
    requires Inv(st) && id in st.screens && !st.screens[id].IsGroup() && st.screens[id].groupId in st.groups
    ensures InGroup(st, id)
  {
    assert ScreenOk(st, id);
    NoInvalidGroup(st);
  }

  lemma OnlyGroup(st: State, g: ScreenId)
    requires Inv(st) && g in st.groups
    ensures forall h :: h in st.groups ==> h == g
    ensures forall c :: c in st.groups[g].children ==> c != g && c in st.screens
  {
    assert GroupOk(st, g);
  }

  /** RemoveChild in two steps: the child leaves, and an empty group is dropped. */
  function Left(st: State, g: ScreenId, id: ScreenId): State
    requires g in st.groups && id in st.screens
  {
    st.(screens := st.screens[id := WithoutGroup(st.screens[id])],
        groups := st.groups[g := st.groups[g].(children := st.groups[g].children - {id})])
  }

  function Dropped(st: State, g: ScreenId): State {
    st.(screens := st.screens - {g}, groups := st.groups - {g})
  }

  lemma RemoveChildSteps(st: State, g: ScreenId, id: ScreenId)
    requires Inv(st) && g in st.groups && id in st.groups[g].children
    ensures id in st.screens && id != g
    ensures var s1 := Left(st, g, id);
            && RemoveChild(st, g, id) == (if s1.groups[g].children == {} then Dropped(s1, g) else s1, true)
            && Inv(RemoveChild(st, g, id).0)
  {
    RemoveChildInv(st, g, id);
    var s1 := Left(st, g, id);
    hide Inv, Evolves;
    assert s1.groups[g].children == st.groups[g].children - {id};
    assert Dropped(s1, g).groups == st.groups - {g};
  }

  lemma RemoveFromGroupSteps(st: State, id: ScreenId)
    requires Inv(st) && id in st.screens && !st.screens[id].IsGroup()
    ensures var g := st.screens[id].groupId;
            && (g in st.groups ==> id in st.groups[g].children)
            && RemoveFromGroup(st, id) ==
                 (if g in st.groups then (RemoveChild(st, g, id).0, g) else (st, SCREEN_ID_INVALID))
            && Inv(RemoveFromGroup(st, id).0) && SCREEN_ID_INVALID !in st.groups
  {
    var g := st.screens[id].groupId;
    RemoveFromGroupInv(st, id);
    NoInvalidGroup(st);
    if g in st.groups {
      MemberOfGroup(st, id);
      RemoveChildSteps(st, g, id);
    }
    hide Inv, Evolves, RemoveChild;
  }

  lemma RemoveDefaultScreenInv(st: State, g: ScreenId, id: ScreenId)
    requires Inv(st) && g in st.groups && id in st.screens
    ensures Inv(RemoveDefaultScreen(st, g, id))
  {
    ShapeInv(st, RemoveDefaultScreen(st, g, id));
  }

  // ---------- Changing groups ----------

  lemma TakeOutOneSteps(st: State, env: Env, g: ScreenId, id: ScreenId, filter: bool)
    requires Inv(st) && id in st.screens && !st.screens[id].IsGroup()
    ensures TakeOutOne(st, env, g, id, filter) ==
              if !Moves(st, g, id, filter) then st else RemoveFromGroup(Unhook(st, env, id), id).0
    ensures Inv(TakeOutOne(st, env, g, id, filter)) && Evolves(st, TakeOutOne(st, env, g, id, filter))
    ensures (Unhook(st, env, id).screens[id].groupId in Unhook(st, env, id).groups) == InGroup(st, id)
  {
    UnhookInv(st, env, id);
    DropInv(st, env, id);
    assert Plain(st, [id]) by { assert forall x :: x in [id] ==> x == id; }
    TakeOutOneInv(st, env, g, id, filter);
    if st.screens[id].groupId in st.groups {
      MemberOfGroup(st, id);
    }
    hide OnDisconnect, RemoveFromGroup, Inv, Evolves;
  }

  lemma TakeOutStep(st: State, env: Env, g: ScreenId, ids: seq<ScreenId>, at: seq<Point>, filter: bool, i: nat)
    requires |ids| == |at| && i < |ids|
    ensures var s1 := TakeOutOne(st, env, g, ids[i], filter);
            var (r, rest) := TakeOut(s1, env, g, ids[i + 1..], at[i + 1..], filter);
            TakeOut(st, env, g, ids[i..], at[i..], filter) ==
              (r, (if Moves(st, g, ids[i], filter) then [Taken(ids[i], at[i], InGroup(st, ids[i]))] else []) + rest)
  {
    hide TakeOutOne, Moves, InGroup;
    assert ids[i..][1..] == ids[i + 1..] && at[i..][1..] == at[i + 1..];
    var rest := TakeOut(TakeOutOne(st, env, g, ids[i], filter), env, g, ids[i + 1..], at[i + 1..], filter).1;
    assert [] + rest == rest;
  }

  lemma ListedBefore(taken: seq<Taken>, t: Taken, rest: seq<Taken>)
    ensures (taken + [t]) + rest == taken + ([t] + rest)
  {
  }

  function Both(a: Notice, b: Notice): Notice {
    Notice(a.removed + b.removed, a.changed + b.changed, a.added + b.added)
  }

  const NOTHING := Notice([], [], [])

  lemma BothNothing(a: Notice)
    ensures Both(a, NOTHING) == a && Both(NOTHING, a) == a
  {
  }

  lemma BothAssociative(a: Notice, b: Notice, c: Notice)
    ensures Both(Both(a, b), c) == Both(a, Both(b, c))
  {
    assert (a.removed + b.removed) + c.removed == a.removed + (b.removed + c.removed);
    assert (a.changed + b.changed) + c.changed == a.changed + (b.changed + c.changed);
    assert (a.added + b.added) + c.added == a.added + (b.added + c.added);
  }

  lemma PutInStep(st: State, env: Env, g: ScreenId, taken: seq<Taken>, i: nat)
    requires i < |taken|
    ensures var (s1, n1) := PutInOne(st, env, g, taken[i]);
            var (r, n2) := PutIn(s1, env, g, taken[i + 1..]);
            PutIn(st, env, g, taken[i..]) == (r, Both(n1, n2))
  {
    hide PutInOne;
    assert taken[i..][1..] == taken[i + 1..];
  }

  function NoticeOf(t: Taken, added: bool): Notice {
    if t.wasChild && added then Notice([], [t.id], [])
    else if t.wasChild then Notice([t.id], [], [])
    else if added then Notice([], [], [t.id])
    else NOTHING
  }

  /** The screen info of a screen that moved, and the connect callback. */
  function Inform(st: State, env: Env, id: ScreenId, info: bool): State
    requires id in st.screens
  {
    var s1 := if info then Touch(st, env, id) else st;
    if s1.callback then OnConnect(s1, env, id) else s1
  }

  lemma InformParts(st: State, env: Env, id: ScreenId)
    requires Bounded(st) && id in st.screens
    ensures Bounded(Touch(st, env, id))
  {
    TouchOnward(st, env, id);
  }

  lemma PutInOneSteps(st: State, env: Env, g: ScreenId, t: Taken)
    requires Inv(st) && t.id in st.screens && !st.screens[t.id].IsGroup() && g in st.groups
    ensures var (s1, added) := AddChild(st, env, g, t.id, t.at);
            var s3 := Inform(s1, env, t.id, t.wasChild || added);
            PutInOne(st, env, g, t) == (s3, NoticeOf(t, added)) && Inv(s3) && Evolves(st, s3) && g in s3.groups
  {
    assert Plain(st, [t.id]) by { assert forall x :: x in [t.id] ==> x == t.id; }
    PutInOneInv(st, env, g, t);
    hide AddChild, Touch, OnConnect, Inv, Evolves;
  }

  lemma PlainAfter(a: State, b: State, ids: seq<ScreenId>, i: nat)
    requires Evolves(a, b) && Plain(a, ids) && i < |ids|
    ensures Plain(b, ids) && ids[i] in b.screens && !b.screens[ids[i]].IsGroup()
  {
    var x := ids[i];
    assert x in ids;
  }

  lemma PlainAt(st: State, ids: seq<ScreenId>, i: nat)
    requires Plain(st, ids) && i < |ids|
    ensures ids[i] in st.screens && !st.screens[ids[i]].IsGroup()
  {
    var x := ids[i];
    assert x in ids;
  }

  /** Every listed screen is known and no group. */
  ghost predicate AllPlain(st: State, taken: seq<Taken>) {
    forall i :: 0 <= i < |taken| ==> taken[i].id in st.screens && !st.screens[taken[i].id].IsGroup()
  }

  lemma AllPlainAfter(a: State, b: State, taken: seq<Taken>)
    requires Evolves(a, b) && AllPlain(a, taken)
    ensures AllPlain(b, taken)
  {
  }

  lemma AllPlainAt(st: State, taken: seq<Taken>, i: nat)
    requires AllPlain(st, taken) && i < |taken|
    ensures taken[i].id in st.screens && !st.screens[taken[i].id].IsGroup()
  {
  }

  lemma TakeOutDone(st: State, env: Env, g: ScreenId, ids: seq<ScreenId>, at: seq<Point>, filter: bool, taken: seq<Taken>)
    requires |ids| == |at|
    ensures TakeOut(st, env, g, ids[|ids|..], at[|ids|..], filter) == (st, []) && taken + [] == taken
  {
  }

  lemma PutInDone(st: State, env: Env, g: ScreenId, taken: seq<Taken>, notice: Notice)
    ensures PutIn(st, env, g, taken[|taken|..]) == (st, NOTHING) && Both(notice, NOTHING) == notice
  {
    BothNothing(notice);
  }

  lemma ChangeParts(st: State, env: Env, g: ScreenId, ids: seq<ScreenId>, at: seq<Point>, filter: bool,
                    combination: Combination)
    requires Inv(st) && Plain(st, ids) && |ids| == |at|
    ensures var (s1, taken) := TakeOut(st, env, g, ids, at, filter);
            && Inv(s1) && Inv(ChangeScreenGroup(st, env, g, ids, at, filter, combination).0)
            && (g in s1.groups ==>
                  var s2 := WithCombination(s1, g, combination);
                  Inv(s2) && AllPlain(s2, taken))
            && ChangeScreenGroup(st, env, g, ids, at, filter, combination) ==
                 (if g !in s1.groups then (s1, NOTHING) else PutIn(WithCombination(s1, g, combination), env, g, taken))
  {
    hide Inv, Evolves, Plain, TakeOut, PutIn;
    ChangeScreenGroupInv(st, env, g, ids, at, filter, combination);
    TakeOutInv(st, env, g, ids, at, filter);
    var (s1, taken) := TakeOut(st, env, g, ids, at, filter);
    TakenPlain(st, s1, ids, taken);
    if g in s1.groups {
      CombineInv(s1, g, combination);
    }
  }

  function WithCombination(st: State, g: ScreenId, combination: Combination): State
    requires g in st.groups
  {
    st.(groups := st.groups[g := st.groups[g].(combination := combination)])
  }

  lemma TakenPlain(a: State, b: State, ids: seq<ScreenId>, taken: seq<Taken>)
    requires Evolves(a, b) && Plain(a, ids) && forall i :: 0 <= i < |taken| ==> taken[i].id in ids
    ensures AllPlain(b, taken)
  {
  }

  lemma MirrorGroupParts(st: State, env: Env, id: ScreenId)
    requires Inv(st) && id in st.screens && !st.screens[id].IsGroup()
    ensures Inv(MirrorGroup(st, env, id).0) && Evolves(st, MirrorGroup(st, env, id).0)
    ensures MirrorGroup(st, env, id) ==
              if st.screens[id].groupId in st.groups then (st, st.screens[id].groupId)
              else
                var (s1, g) := AddToGroup(st, env, id);
                if g == SCREEN_ID_INVALID then (s1, g) else (Inform(s1, env, id, true), g)
  {
    MirrorGroupInv(st, env, id);
    hide Inv, Evolves, AddToGroup, Touch, OnConnect;
  }

  /** MakeMirror, once the main screen has a group. */
  function MirrorOnto(st: State, env: Env, g: ScreenId, id: ScreenId, ids: seq<ScreenId>): (State, Notice)
    requires g in st.groups
  {
    var filter := st.groups[g].combination.SCREEN_MIRROR? && st.groups[g].mirrorId == id;
    ChangeScreenGroup(WithSource(st, g, id), env, g, ids, Origins(|ids|), filter, SCREEN_MIRROR)
  }

  lemma WithSourceParts(st: State, g: ScreenId, id: ScreenId, ids: seq<ScreenId>)
    requires Inv(st) && Plain(st, ids) && g in st.groups
    ensures Inv(WithSource(st, g, id)) && Plain(WithSource(st, g, id), ids)
  {
    SourceInv(st, g, id);
    PlainShape(st, WithSource(st, g, id), ids);
  }

  /** MakeMirror for a real main screen. */
  function MirrorReal(st: State, env: Env, id: ScreenId, ids: seq<ScreenId>): (State, bool, Notice)
    requires id in st.screens
  {
    var (s1, g) := MirrorGroup(st, env, id);
    if g in s1.groups then (MirrorOnto(s1, env, g, id, ids).0, true, MirrorOnto(s1, env, g, id, ids).1)
    else (s1, false, NOTHING)
  }

  lemma MakeMirrorParts(st: State, env: Env, id: ScreenId, ids: seq<ScreenId>)
    ensures MakeMirror(st, env, id, ids) ==
              if id in st.screens && st.screens[id].kind.REAL? then MirrorReal(st, env, id, ids) else (st, false, NOTHING)
  {
    hide MirrorGroup, ChangeScreenGroup, Origins;
  }

  lemma MirrorRealParts(st: State, env: Env, id: ScreenId, ids: seq<ScreenId>)
    requires Inv(st) && Plain(st, ids) && id in st.screens && !st.screens[id].IsGroup()
    ensures Inv(MirrorGroup(st, env, id).0) && Plain(MirrorGroup(st, env, id).0, ids)
  {
    MirrorGroupInv(st, env, id);
    EvolvesPlain(st, MirrorGroup(st, env, id).0, ids);
    hide Inv, Evolves, Plain, MirrorGroup;
  }

  lemma MakeExpandParts(st: State, env: Env, ids: seq<ScreenId>, at: seq<Point>)
    requires Inv(st) && Plain(st, ids) && |ids| == |at|
    ensures var (s1, d) := GetDefault(st, env);
            && Inv(s1) && Plain(s1, ids) && Inv(MakeExpand(st, env, ids, at).0)
            && MakeExpand(st, env, ids, at) ==
                 if d !in s1.screens || s1.screens[d].groupId !in s1.groups then (s1, false, NOTHING)
                 else
                   var g := s1.screens[d].groupId;
                   var (s2, notice) := ChangeScreenGroup(s1, env, g, ids, at, s1.groups[g].combination.SCREEN_EXPAND?, SCREEN_EXPAND);
                   (s2, true, notice)
  {
    MakeExpandInv(st, env, ids, at);
    LookupInv(st, env);
    EvolvesPlain(st, GetDefault(st, env).0, ids);
    hide Inv, Evolves, Extends, Plain, GetDefault, ChangeScreenGroup;
  }

  // ---------- Stopping and removing ----------

  /** What StopOne asks before it removes anything. */
  predicate Stops(st: State, id: ScreenId, combination: Combination)
    requires id in st.screens
  {
    var g := st.screens[id].groupId;
    g in st.groups && st.groups[g].combination == combination
    && !(st.groups[g].combination.SCREEN_MIRROR? && st.groups[g].mirrorId == id)
  }

  lemma StopOneSteps(st: State, env: Env, id: ScreenId, combination: Combination)
    requires Inv(st) && id in st.screens && !st.screens[id].IsGroup()
    ensures Inv(StopOne(st, env, id, combination)) && Evolves(st, StopOne(st, env, id, combination))
    ensures !Stops(st, id, combination) ==> StopOne(st, env, id, combination) == st
    ensures Stops(st, id, combination) ==>
              var g := st.screens[id].groupId;
              var s1 := Unhook(st, env, id);
              && Inv(s1) && g in s1.groups && id in s1.groups[g].children
              && StopOne(st, env, id, combination) == RemoveChild(s1, g, id).0
  {
    assert Plain(st, [id]) by { assert forall x :: x in [id] ==> x == id; }
    StopOneInv(st, env, id, combination);
    if Stops(st, id, combination) {
      MemberOfGroup(st, id);
      DropInv(st, env, id);
      UnhookInv(st, env, id);
    }
    hide Inv, Evolves, OnDisconnect, RemoveChild, RemoveFromGroup;
  }

  lemma RemoveVirtualOneSteps(st: State, env: Env, id: ScreenId)
    requires Inv(st) && id in st.screens && st.screens[id].kind.VIRTUAL? && InGroup(st, id)
    ensures RemoveVirtualOne(st, env, id) == RemoveFromGroup(Unhook(st, env, id), id).0
    ensures Inv(RemoveVirtualOne(st, env, id))
  {
    DropInv(st, env, id);
    hide Inv, Evolves, OnDisconnect, RemoveFromGroup;
  }

  lemma StopStep(st: State, env: Env, ids: seq<ScreenId>, combination: Combination, i: nat)
    requires i < |ids|
    ensures StopScreens(st, env, ids[i..], combination) ==
              StopScreens(StopOne(st, env, ids[i], combination), env, ids[i + 1..], combination)
  {
    hide StopOne;
    assert ids[i..][1..] == ids[i + 1..];
  }

  lemma StopDone(st: State, env: Env, ids: seq<ScreenId>, combination: Combination)
    ensures StopScreens(st, env, ids[|ids|..], combination) == st
  {
  }

  lemma RemoveVirtualStep(st: State, env: Env, ids: seq<ScreenId>, i: nat)
    requires i < |ids|
    ensures RemoveVirtual(st, env, ids[i..]) == RemoveVirtual(RemoveVirtualOne(st, env, ids[i]), env, ids[i + 1..])
  {
    hide RemoveVirtualOne;
    assert ids[i..][1..] == ids[i + 1..];
  }

  lemma RemoveVirtualDone(st: State, env: Env, ids: seq<ScreenId>)
    ensures RemoveVirtual(st, env, ids[|ids|..]) == st
  {
  }

  // ---------- Disconnecting ----------

  function WithoutScreen(st: State, d: ScreenId): State {
    st.(screens := st.screens - {d})
  }

  function Forgotten(st: State, d: ScreenId): State {
    st.(ids := DeleteId(st.ids, d))
  }

  /** ProcessScreenDisconnected for a screen that is not the default one in its group. */
  function Detach(st: State, env: Env, d: ScreenId): State
    requires d in st.screens
  {
    var (s1, g) := RemoveFromGroup(Unhook(st, env, d), d);
    Remirror(WithoutScreen(s1, d), env, g, d)
  }

  lemma DisconnectSteps(st: State, env: Env, rs: ScreenId)
    requires Inv(st) && rs in st.ids.rs2Dms
    ensures rs != SCREEN_ID_INVALID && Inv(Disconnect(st, env, rs))
    ensures var d := st.ids.rs2Dms[rs];
            && (d in st.screens ==> !st.screens[d].IsGroup())
            && Disconnect(st, env, rs) ==
                 if d !in st.screens then Forgotten(st, d)
                 else if st.callback && InGroup(st, d) && rs == st.defaultRs then
                   RemoveDefaultScreen(st, st.screens[d].groupId, d)
                 else Forgotten(Detach(st, env, d), d)
  {
    var d := st.ids.rs2Dms[rs];
    DisconnectInv(st, env, rs);
    assert d in st.screens ==> ScreenOk(st, d);
    hide Inv, OnDisconnect, RemoveFromGroup, Remirror, RemoveDefaultScreen;
  }

  /** Nothing but its own id names a screen without a group. */
  lemma DetachSteps(st: State, env: Env, d: ScreenId)
    requires Inv(st) && d in st.screens && !st.screens[d].IsGroup()
    ensures var s1 := Unhook(st, env, d);
            var (s2, g) := RemoveFromGroup(s1, d);
            && Inv(s1) && d in s1.screens && !s1.screens[d].IsGroup()
            && Inv(s2) && d in s2.screens && d !in s2.groups
            && (forall h :: h in s2.groups ==> d !in s2.groups[h].children)
            && Inv(WithoutScreen(s2, d)) && Inv(Remirror(WithoutScreen(s2, d), env, g, d))
            && Detach(st, env, d) == Remirror(WithoutScreen(s2, d), env, g, d)
  {
    DropInv(st, env, d);
    var s1 := Unhook(st, env, d);
    var (s2, g) := RemoveFromGroup(s1, d);
    assert !s2.screens[d].IsGroup() by {
      assert Plain(s2, [d]) by { assert forall x :: x in [d] ==> x == d; EvolvesPlain(st, s2, [d]); }
      var x := [d][0];
      assert x in [d];
    }
    NoInvalidGroup(s2);
    LooseIsNoChild(s2, d);
    EraseScreenInv(s2, d);
    RemirrorInv(WithoutScreen(s2, d), env, g, d);
    hide Inv, Evolves, OnDisconnect, RemoveFromGroup, Remirror;
  }

  lemma LooseIsNoChild(st: State, d: ScreenId)
    requires Inv(st) && d in st.screens && !st.screens[d].IsGroup() && st.screens[d].groupId == SCREEN_ID_INVALID
    requires SCREEN_ID_INVALID !in st.groups
    ensures d !in st.groups && forall h :: h in st.groups ==> d !in st.groups[h].children
  {
    assert d in st.groups ==> GroupOk(st, d);
    forall h | h in st.groups ensures d !in st.groups[h].children {
      assert GroupOk(st, h);
    }
  }

  /** All other children of the group mirror the default screen. */
  function MirrorDefault(st: State, env: Env, g: ScreenId): State
  {
    var (s1, d) := GetDefault(st, env);
    if g !in s1.groups then s1 else MakeMirror(s1, env, d, Without(Ascending(s1.groups[g].children), d)).0
  }

  lemma RemirrorSteps(st: State, env: Env, g: ScreenId, gone: ScreenId)
    requires Inv(st)
    ensures Inv(Remirror(st, env, g, gone))
    ensures g in st.groups ==> st.groups[g].children != {}
    ensures Remirror(st, env, g, gone) ==
              if g in st.groups && st.groups[g].combination.SCREEN_MIRROR? && st.groups[g].mirrorId == gone
              then MirrorDefault(st, env, g) else st
  {
    RemirrorInv(st, env, g, gone);
    assert g in st.groups ==> GroupOk(st, g);
    hide Inv, GetDefault, MakeMirror, Ascending, Without;
  }

  lemma MirrorDefaultSteps(st: State, env: Env, g: ScreenId)
    requires Inv(st) && g in st.groups
    ensures var (s1, d) := GetDefault(st, env);
            && Inv(s1) && g in s1.groups && Plain(s1, Without(Ascending(s1.groups[g].children), d))
  {
    LookupInv(st, env);
    ChildrenPlain(GetDefault(st, env).0, g, GetDefault(st, env).1);
    hide Inv, Plain, GetDefault, Ascending, Without;
  }

  lemma WithoutStep(ids: seq<ScreenId>, d: ScreenId, i: nat)
    requires i < |ids|
    ensures Without(ids[i..], d) == (if ids[i] == d then [] else [ids[i]]) + Without(ids[i + 1..], d)
  {
    assert ids[i..][1..] == ids[i + 1..];
  }

  // ---------- Virtual screens ----------

  lemma CreateVirtualSteps(st: State, env: Env, rs: ScreenId, mode: Mode, a: AgentId)
    requires Inv(st) && AgentsOk(st)
    ensures Inv(CreateVirtual(st, env, rs, mode, a).0)
    ensures rs == SCREEN_ID_INVALID ==> CreateVirtual(st, env, rs, mode, a) == (st, SCREEN_ID_INVALID)
    ensures rs != SCREEN_ID_INVALID && rs in st.ids.rs2Dms ==> CreateVirtual(st, env, rs, mode, a) == (st, st.ids.rs2Dms[rs])
    ensures rs != SCREEN_ID_INVALID && rs !in st.ids.rs2Dms ==>
            var d := st.ids.count;
            var s0 := st.(ids := CreateId(st.ids, rs));
            var s1 := GetDefault(s0, env).0;
            && Inv(s0) && d !in s1.screens
            && CreateVirtual(st, env, rs, mode, a) == (WithVirtual(s1, d, rs, mode, a), d)
  {
    CreateVirtualInv(st, env, rs, mode, a);
    if rs != SCREEN_ID_INVALID && rs !in st.ids.rs2Dms {
      NewIdInv(st, rs);
      var s0 := st.(ids := CreateId(st.ids, rs));
      LookupInv(s0, env);
      assert st.ids.count !in st.screens by { assert st.ids.count in st.screens ==> ScreenOk(st, st.ids.count); }
    }
    hide GetDefault, Inv, AgentsOk;
  }

  function WithVirtual(st: State, d: ScreenId, rs: ScreenId, mode: Mode, a: AgentId): State {
    st.(screens := st.screens[d := NewScreen(rs, VIRTUAL, Some(mode))],
        agents := st.agents[a := AgentList(st, a) + [d]])
  }

  /** DestroyVirtualScreen, up to deleting the id. */
  function Discard(st: State, env: Env, id: ScreenId, rs: ScreenId): State {
    var s1 := st.(agents := Disown(st.agents, id));
    if rs != SCREEN_ID_INVALID && id in s1.screens then Disconnect(s1, env, rs) else s1
  }

  lemma DiscardSteps(st: State, env: Env, id: ScreenId, rs: ScreenId)
    requires Inv(st)
    ensures Inv(st.(agents := Disown(st.agents, id))) && Inv(Discard(st, env, id, rs))
  {
    var s1 := st.(agents := Disown(st.agents, id));
    AgentsInv(st, s1.agents);
    DisconnectInv(s1, env, rs);
    hide Inv, Disconnect, Disown;
  }

  lemma DestroySteps(st: State, env: Env, id: ScreenId)
    requires Inv(st) && AgentsOk(st)
    ensures Inv(DestroyVirtual(st, env, id).0) && AgentsOk(DestroyVirtual(st, env, id).0)
    ensures RsOf(st.ids, id) == st.defaultRs ==> DestroyVirtual(st, env, id) == (st, false)
    ensures RsOf(st.ids, id) != st.defaultRs ==>
              var rs := RsOf(st.ids, id);
              var s3 := Forgotten(Discard(st, env, id, rs), id);
              DestroyVirtual(st, env, id) ==
                if rs == SCREEN_ID_INVALID then (s3, false)
                else (if s3.defaultRs == rs then s3.(defaultRs := SCREEN_ID_INVALID) else s3, true)
  {
    DestroyInv(st, env, id);
    hide Inv, AgentsOk, Disconnect, Disown;
  }

  /** One turn of the loop of OnRemoteDied. */
  lemma DiedStep(st: State, env: Env, a: AgentId)
    requires OnRemoteDied(st, env, a).Some? && AgentList(st, a) != []
    ensures var s1 := DestroyVirtual(st, env, AgentList(st, a)[0]).0;
            && |AgentList(s1, a)| < |AgentList(st, a)|
            && OnRemoteDied(s1, env, a) == OnRemoteDied(st, env, a)
  {
    hide DestroyVirtual;
  }

  lemma DiedInv(st: State, env: Env, a: AgentId)
    requires Inv(st) && AgentsOk(st) && OnRemoteDied(st, env, a).Some?
    ensures Inv(OnRemoteDied(st, env, a).value)
  {
    OnRemoteDiedInv(st, env, a);
  }

  /** The agents in the order of the map. */
  function AgentKeys(agents: map<AgentId, seq<ScreenId>>): (keys: seq<AgentId>)
    ensures forall a :: a in keys <==> a in agents
    ensures forall i, j :: 0 <= i < j < |keys| ==> keys[i] < keys[j]
  {
    var ids := set a: int | a in agents;
    var keys := Ascending(ids);
    assert forall i :: 0 <= i < |keys| ==> keys[i] in keys && keys[i] in ids;
    keys
  }

  /** The first agent that lists the id. */
  lemma DisownFirst(agents: map<AgentId, seq<ScreenId>>, id: ScreenId, i: nat)
    requires i < |AgentKeys(agents)| && id in agents[AgentKeys(agents)[i]]
    requires forall j :: 0 <= j < i ==> id !in agents[AgentKeys(agents)[j]]
    ensures var a := AgentKeys(agents)[i];
            var left := RemoveFirst(agents[a], id);
            Disown(agents, id) == if left == [] then agents - {a} else agents[a := left]
  {
    var keys := AgentKeys(agents);
    var a := keys[i];
    assert a in keys;
    forall b | b in agents && id in agents[b] ensures a <= b {
      assert b in keys;
      var j :| 0 <= j < |keys| && keys[j] == b;
    }
    hide AgentKeys;
    DisownLeast(agents, id, a);
  }

  lemma DisownLeast(agents: map<AgentId, seq<ScreenId>>, id: ScreenId, a: AgentId)
    requires a in agents && id in agents[a] && forall b :: b in agents && id in agents[b] ==> a <= b
    ensures var left := RemoveFirst(agents[a], id);
            Disown(agents, id) == if left == [] then agents - {a} else agents[a := left]
  {
    var owners := set a: int | a in agents && id in agents[a];
    assert a in owners;
    assert IsLeast(owners, a);
    assert IsLeast(owners, Least(owners));
  }

  lemma DisownNowhere(agents: map<AgentId, seq<ScreenId>>, id: ScreenId)
    requires forall j :: 0 <= j < |AgentKeys(agents)| ==> id !in agents[AgentKeys(agents)[j]]
    ensures Disown(agents, id) == agents
  {
    var keys := AgentKeys(agents);
    var owners := set a: int | a in agents && id in agents[a];
    forall a | a in agents ensures id !in agents[a] {
      assert a in keys;
      var j :| 0 <= j < |keys| && keys[j] == a;
    }
    hide AgentKeys;
    assert owners == {};
  }

  /** SetVirtualScreenAsDefault, once the screen may become the default. */
  function Enthrone(st: State, env: Env, id: ScreenId, rs: ScreenId): (State, bool)
    requires id in st.screens
  {
    var s1 := Touch(st, env, id);
    if !s1.callback then (s1, false)
    else (OnConnect(s1.(defaultRs := rs, agents := Disown(s1.agents, id)), env, id), true)
  }

  lemma SetVirtualSteps(st: State, env: Env, id: ScreenId)
    requires Inv(st) && AgentsOk(st)
    ensures Inv(SetVirtualAsDefault(st, env, id).0)
    ensures var rs := RsOf(st.ids, id);
            if rs == SCREEN_ID_INVALID || id !in st.screens || st.screens[id].kind.REAL? then
              SetVirtualAsDefault(st, env, id) == (st, false)
            else
              var (s1, g) := AddToGroup(st, env, id);
              SetVirtualAsDefault(st, env, id) == if g == SCREEN_ID_INVALID then (s1, false) else Enthrone(s1, env, id, rs)
  {
    SetVirtualAsDefaultInv(st, env, id);
    hide Inv, AgentsOk, AddToGroup, Touch, OnConnect, Disown;
  }

  lemma EnthroneParts(st: State, env: Env, id: ScreenId, rs: ScreenId)
    requires Bounded(st) && id in st.screens
    ensures var s1 := Touch(st, env, id);
            Bounded(s1) && Bounded(s1.(defaultRs := rs, agents := Disown(s1.agents, id)))
  {
    TouchOnward(st, env, id);
    hide Touch, Disown;
  }

  // ---------- Rotation ----------

  function WithRotation(st: State, id: ScreenId, r: Rotation): State
    requires id in st.screens
  {
    st.(screens := st.screens[id := st.screens[id].(rotation := r)])
  }

  function WithOrientation(st: State, id: ScreenId, o: Orientation): State
    requires id in st.screens
  {
    st.(screens := st.screens[id := st.screens[id].(orientation := o)])
  }

  function WithRequest(st: State, id: ScreenId, o: Orientation): State
    requires id in st.screens
  {
    st.(screens := st.screens[id := st.screens[id].(requested := o)])
  }

  /** The display of a screen in a group. */
  function DisplayOf(st: State, id: ScreenId): (k: Option<DisplayId>)
    ensures k.Some? ==> k.value in st.displays
  {
    if id !in st.screens || st.screens[id].groupId !in st.groups then None
    else FirstDisplay(st.displays, id, 0, st.displayCount)
  }

  /** The display takes over the rotation of its screen. */
  function TurnDisplay(st: State, id: ScreenId): State
    requires id in st.screens
  {
    match DisplayOf(st, id)
    case None => st
    case Some(k) => st.(displays := st.displays[k := Rotate(st.displays[k], st.screens[id].rotation)])
  }

  /** The display takes over the orientation and the rotation of its screen. */
  function OrientDisplay(st: State, id: ScreenId): State
    requires id in st.screens
  {
    match DisplayOf(st, id)
    case None => st
    case Some(k) =>
      st.(displays := st.displays[k := Rotate(st.displays[k].(orientation := st.screens[id].orientation), st.screens[id].rotation)])
  }

  lemma TouchKeeps(st: State, env: Env, id: ScreenId)
    requires Inv(st) && id in st.screens
    ensures var r := Touch(st, env, id); Inv(r) && id in r.screens && r.screens[id] == st.screens[id]
  {
    TouchInv(st, env, id);
    hide Inv, Evolves, GetDefault;
    if st.groups == map[] {
      assert Touch(st, env, id) == st;
    } else {
      hide Touch;
    }
  }

  lemma SetRotationSteps(st: State, env: Env, id: ScreenId, r: Rotation)
    requires Inv(st)
    ensures Inv(SetRotation(st, env, id, r))
    ensures id !in st.screens || st.screens[id].rotation == r ==> SetRotation(st, env, id, r) == st
    ensures id in st.screens && st.screens[id].rotation != r ==>
              var s1 := WithRotation(st, id, r);
              var s2 := Touch(s1, env, id);
              && Inv(s1) && Inv(s2) && id in s2.screens
              && SetRotation(st, env, id, r) == if s2.callback then TurnDisplay(s2, id) else s2
  {
    SetRotationInv(st, env, id, r);
    if id in st.screens && st.screens[id].rotation != r {
      TurnInv(st, id, st.screens[id].(rotation := r));
      var s1 := WithRotation(st, id, r);
      TouchKeeps(s1, env, id);
      hide Inv, Evolves, Touch, Rotate;
    }
  }

  /** SetOrientation between the rotation and the layout. */
  function Orient(st: State, env: Env, id: ScreenId, o: Orientation): State
    requires id in st.screens
  {
    var s1 := Touch(WithOrientation(st, id, o), env, id);
    if s1.callback then OrientDisplay(s1, id) else s1
  }

  lemma OrientSteps(st: State, env: Env, id: ScreenId, o: Orientation)
    requires Inv(st) && id in st.screens
    ensures var s1 := WithOrientation(st, id, o);
            var s2 := Touch(s1, env, id);
            && Inv(s1) && Inv(s2) && id in s2.screens && s2.screens[id].orientation == o && Inv(Orient(st, env, id, o))
            && id in Orient(st, env, id, o).screens
  {
    TurnInv(st, id, st.screens[id].(orientation := o));
    var s1 := WithOrientation(st, id, o);
    TouchKeeps(s1, env, id);
    DisplaysInv(Touch(s1, env, id), Orient(st, env, id, o));
  }

  lemma DisplaysInv(a: State, b: State)
    requires Inv(a) && b == a.(displays := b.displays)
    ensures Inv(b)
  {
    ShapeInv(a, b);
  }

  lemma SetRotationKeeps(st: State, env: Env, id: ScreenId, r: Rotation)
    requires Inv(st) && id in st.screens && !st.screens[id].IsGroup()
    ensures id in SetRotation(st, env, id, r).screens
  {
    SetRotationInv(st, env, id, r);
    hide SetRotation, Inv;
  }

  lemma RequestInv(st: State, id: ScreenId, o: Orientation)
    requires Inv(st) && id in st.screens
    ensures Inv(WithRequest(st, id, o))
  {
    TurnInv(st, id, st.screens[id].(requested := o));
  }

  lemma SetOrientationEquation(st: State, env: Env, id: ScreenId, o: Orientation)
    requires id in st.screens && !st.screens[id].IsGroup() && st.screens[id].orientation != o
    requires var s2 := SetRotation(WithRequest(st, id, o), env, id, CalcRotation(st.screens[id].mode, o));
             id in s2.screens && id in Touch(WithOrientation(s2, id, o), env, id).screens
             && Touch(WithOrientation(s2, id, o), env, id).screens[id].orientation == o
    ensures var s2 := SetRotation(WithRequest(st, id, o), env, id, CalcRotation(st.screens[id].mode, o));
            SetOrientation(st, env, id, o) == (LayOutGroupOf(Orient(s2, env, id, o), id), true)
  {
    hide Touch, SetRotation, UpdateLayout, Rotate, CalcRotation;
  }

  lemma SetOrientationSteps(st: State, env: Env, id: ScreenId, o: Orientation)
    requires Inv(st) && id in st.screens && !st.screens[id].IsGroup()
    ensures Inv(SetOrientation(st, env, id, o).0)
    ensures var s1 := WithRequest(st, id, o);
            && Inv(s1)
            && (st.screens[id].orientation == o ==> SetOrientation(st, env, id, o) == (s1, true))
            && (st.screens[id].orientation != o ==>
                  var s2 := SetRotation(s1, env, id, CalcRotation(st.screens[id].mode, o));
                  && Inv(s2) && id in s2.screens && Inv(Orient(s2, env, id, o))
                  && id in Orient(s2, env, id, o).screens
                  && SetOrientation(st, env, id, o) == (LayOutGroupOf(Orient(s2, env, id, o), id), true))
  {
    SetOrientationInv(st, env, id, o);
    RequestInv(st, id, o);
    var s1 := WithRequest(st, id, o);
    assert st.screens[id].orientation == o ==> SetOrientation(st, env, id, o) == (s1, true);
    assert !s1.screens[id].IsGroup();
    hide Inv, Evolves, Touch, SetRotation, LayOutGroupOf, Orient, CalcRotation, SetOrientation, WithRequest;
    if st.screens[id].orientation != o {
      var r := CalcRotation(st.screens[id].mode, o);
      SetRotationSteps(s1, env, id, r);
      SetRotationKeeps(s1, env, id, r);
      OrientSteps(SetRotation(s1, env, id, r), env, id, o);
      OrientKeeps(SetRotation(s1, env, id, r), env, id, o);
      SetOrientationEquation(st, env, id, o);
    }
  }

  lemma OrientKeeps(st: State, env: Env, id: ScreenId, o: Orientation)
    requires id in st.screens
    ensures id in Orient(st, env, id, o).screens
  {
    hide Touch, Rotate;
  }

  /** UpdateScreenGroupLayout for the group of a screen, if it has one. */
  function LayOutGroupOf(st: State, id: ScreenId): State
    requires id in st.screens
  {
    if st.screens[id].groupId in st.groups then UpdateLayout(st, st.screens[id].groupId).0 else st
  }

  // ---------- Layout ----------

  /** The effect of the size callback on the displays before an index. */
  ghost function ResizeBelow(displays: map<DisplayId, Display>, id: ScreenId, m: Mode, p: Point, count: nat): map<DisplayId, Display> {
    map k | k in displays ::
      if k < count && displays[k].screenId == id then Resize(displays[k], m, p) else displays[k]
  }

  lemma ResizeBelowStep(displays: map<DisplayId, Display>, id: ScreenId, m: Mode, p: Point, k: nat)
    ensures ResizeBelow(displays, id, m, p, k + 1) ==
              if k in displays && displays[k].screenId == id
              then ResizeBelow(displays, id, m, p, k)[k := Resize(displays[k], m, p)] else ResizeBelow(displays, id, m, p, k)
    ensures ResizeBelow(displays, id, m, p, 0) == displays
    ensures ResizeBelow(displays, id, m, p, k).Keys == displays.Keys
    ensures k in displays ==> ResizeBelow(displays, id, m, p, k)[k] == displays[k]
  {
    hide Resize;
  }

  lemma ResizeBelowAll(st: State, id: ScreenId)
    requires id in st.screens && st.screens[id].mode.Some? && forall k :: k in st.displays ==> k < st.displayCount
    ensures st.(displays := ResizeBelow(st.displays, id, st.screens[id].mode.value, st.screens[id].start, st.displayCount))
         == ResizeAll(st, id)
    ensures ResizeBelow(st.displays, id, st.screens[id].mode.value, st.screens[id].start, 0) == st.displays
  {
    hide Resize;
  }

  /** Insertion from the right, as the sort inserts a child. */
  lemma {:induction false} InsertAt(st: State, sorted: seq<ScreenId>, id: ScreenId, k: nat)
    requires k <= |sorted|
    requires forall j :: k <= j < |sorted| ==> StartX(st, id) < StartX(st, sorted[j])
    requires k == 0 || !(StartX(st, id) < StartX(st, sorted[k - 1]))
    ensures InsertByX(st, sorted, id) == sorted[..k] + [id] + sorted[k..]
    decreases |sorted|
  {
    if k < |sorted| {
      var n := |sorted| - 1;
      InsertAt(st, sorted[..n], id, k);
      assert sorted[..n][..k] == sorted[..k];
      assert sorted[..n][k..] + [sorted[n]] == sorted[k..];
    } else if sorted != [] {
      assert sorted[..k] + [id] + sorted[k..] == sorted + [id];
    }
  }

  lemma SortStep(st: State, ids: seq<ScreenId>, i: nat)
    requires i < |ids|
    ensures SortByX(st, ids[..i + 1]) == InsertByX(st, SortByX(st, ids[..i]), ids[i])
    ensures SortByX(st, ids[..0]) == []
  {
    assert ids[..i + 1][..i] == ids[..i];
  }

  lemma {:induction false} InsertMembers(st: State, sorted: seq<ScreenId>, id: ScreenId, s: set<ScreenId>)
    requires id in s && forall i :: 0 <= i < |sorted| ==> sorted[i] in s
    ensures forall i :: 0 <= i < |InsertByX(st, sorted, id)| ==> InsertByX(st, sorted, id)[i] in s
  {
    if sorted != [] {
      InsertMembers(st, sorted[..|sorted| - 1], id, s);
    }
  }

  lemma {:induction false} SortMembers(st: State, ids: seq<ScreenId>, s: set<ScreenId>)
    requires forall i :: 0 <= i < |ids| ==> ids[i] in s
    ensures forall i :: 0 <= i < |SortByX(st, ids)| ==> SortByX(st, ids)[i] in s
  {
    if ids != [] {
      SortMembers(st, ids[..|ids| - 1], s);
      InsertMembers(st, SortByX(st, ids[..|ids| - 1]), ids[|ids| - 1], s);
    }
  }

  lemma LayOutStep(st: State, order: seq<ScreenId>, x: int, i: nat)
    requires i < |order|
    ensures LayOut(st, order[i..], x) ==
              if order[i] !in st.screens || st.screens[order[i]].mode.None? then LayOut(st, order[i + 1..], x)
              else
                var (s1, moved) := LayOutOne(st, order[i], x);
                var (s2, n) := LayOut(s1, order[i + 1..], x + WidthOf(st.screens, order[i]));
                (s2, n + if moved then 1 else 0)
  {
    assert order[i..][1..] == order[i + 1..];
    hide LayOutOne, WidthOf;
  }

  lemma LayOutDone(st: State, order: seq<ScreenId>, x: int)
    ensures LayOut(st, order[|order|..], x) == (st, 0)
  {
  }

  lemma LayOutOneSteps(st: State, id: ScreenId, x: int)
    requires Inv(st) && id in st.screens && st.screens[id].mode.Some?
    ensures var s1 := Shifted(st, id, x);
            && Inv(LayOutOne(st, id, x).0) && LayOutOne(st, id, x).0.screens.Keys == st.screens.Keys
            && LayOutOne(st, id, x).0.groups == st.groups
            && LayOutOne(st, id, x) ==
                 if st.screens[id].start.x == x then (st, false)
                 else (if s1.callback then ResizeAll(s1, id) else s1, s1.callback)
  {
    LayOutOneInv(st, id, x);
    hide Inv, Evolves, Resize;
  }

  /** UpdateRSDisplayNode. */
  function Shifted(st: State, id: ScreenId, x: int): (r: State)
    requires id in st.screens
    ensures id in r.screens && r.screens[id].mode == st.screens[id].mode
  {
    if st.screens[id].hasNode then st.(screens := st.screens[id := st.screens[id].(start := Point(x, 0))]) else st
  }

  // ---------- Registration and the service ----------

  lemma RegisterInv(st: State)
    requires Inv(st)
    ensures Inv(st.(callback := true))
  {
    ShapeInv(st, st.(callback := true));
  }

  lemma ConnectEachStep(st: State, env: Env, ids: seq<ScreenId>, i: nat)
    requires i < |ids|
    ensures ConnectEach(st, env, ids[i..]) ==
              ConnectEach(if ids[i] in st.screens then OnConnect(st, env, ids[i]) else st, env, ids[i + 1..])
  {
    assert ids[i..][1..] == ids[i + 1..];
    hide OnConnect;
  }

  lemma ConnectEachDone(st: State, env: Env, ids: seq<ScreenId>)
    ensures ConnectEach(st, env, ids[|ids|..]) == st
  {
  }

  lemma OnConnectKeeps(st: State, env: Env, id: ScreenId)
    requires Inv(st) && id in st.screens
    ensures Inv(OnConnect(st, env, id))
  {
    OnConnectInv(st, env, id);
  }

  lemma UpdateLayoutSteps(st: State, g: ScreenId)
    requires Inv(st) && g in st.groups
    ensures UpdateLayout(st, g) ==
              if st.groups[g].combination.SCREEN_MIRROR? || |st.groups[g].children| <= 1 then (st, 0)
              else LayOut(st, ChildrenByX(st, g), 0)
    ensures Inv(UpdateLayout(st, g).0)
  {
    LayOutInv(st, ChildrenByX(st, g), 0);
    hide Inv, Evolves, LayOut;
  }

  // ---------- The service ----------

  lemma ValidIdsStep(st: State, ids: seq<ScreenId>, i: nat)
    requires i < |ids|
    ensures var init := ValidIds(st, ids[..i]);
            ValidIds(st, ids[..i + 1]) ==
              if ids[i] !in init && ids[i] in st.screens && !st.screens[ids[i]].IsGroup() then init + [ids[i]] else init
  {
    assert ids[..i + 1][..i] == ids[..i];
  }

  lemma ValidIdsDone(st: State, ids: seq<ScreenId>)
    ensures ValidIds(st, ids[..|ids|]) == ValidIds(st, ids) && ValidIds(st, ids[..0]) == []
  {
    assert ids[..|ids|] == ids;
  }

  lemma FirstPointsCons(ids: seq<ScreenId>, at: seq<Point>, i: nat)
    requires 0 < i <= |ids| == |at|
    ensures FirstPoints(ids[..i], at[..i]) == FirstPoints(ids[1..][..i - 1], at[1..][..i - 1])[ids[0] := at[0]]
  {
    assert ids[..i][1..] == ids[1..][..i - 1];
    assert at[..i][1..] == at[1..][..i - 1];
  }

  lemma FirstPointsNone(ids: seq<ScreenId>, at: seq<Point>)
    requires |ids| == |at| == 0
    ensures FirstPoints(ids, at) == map[]
  {
  }

  /** The points of a prefix, the first one asked for a screen winning. */
  lemma {:induction false} FirstPointsStep(ids: seq<ScreenId>, at: seq<Point>, i: nat)
    requires i < |ids| == |at|
    ensures var m := FirstPoints(ids[..i], at[..i]);
            FirstPoints(ids[..i + 1], at[..i + 1]) == if ids[i] in m then m else m[ids[i] := at[i]]
  {
    hide FirstPoints;
    FirstPointsCons(ids, at, i + 1);
    if i == 0 {
      FirstPointsNone(ids[..0], at[..0]);
      FirstPointsNone(ids[1..][..0], at[1..][..0]);
    } else {
      FirstPointsCons(ids, at, i);
      FirstPointsStep(ids[1..], at[1..], i - 1);
    }
  }

  lemma PointsForStep(ids: seq<ScreenId>, points: map<ScreenId, Point>, i: nat)
    requires i < |ids|
    ensures PointsFor(ids[i..], points) ==
              (if ids[i] in points then [points[ids[i]]] else []) + PointsFor(ids[i + 1..], points)
    ensures PointsFor([], points) == []
  {
    assert ids[i..][1..] == ids[i + 1..];
  }

  /** ServiceMakeMirror around the call of the controller. */
  lemma ServiceMirrorSteps(st: State, env: Env, id: ScreenId, ids: seq<ScreenId>)
    requires Inv(st)
    ensures var all := RemoveFirst(ValidIds(st, ids), id);
            && Plain(st, all) && Inv(ServiceMakeMirror(st, env, id, ids).0)
            && ServiceMakeMirror(st, env, id, ids) ==
                 if id !in st.screens || all == [] then (st, None)
                 else
                   var (s1, ok, _) := MakeMirror(st, env, id, all);
                   (s1, if !ok then None else GroupFound(s1, id))
  {
    ValidPlain(st, ids, id);
    ServiceInv(st, env, id, ids, [], SCREEN_MIRROR);
    hide Inv, Evolves, Plain, ValidIds, RemoveFirst, MakeMirror;
  }

  function GroupFound(st: State, id: ScreenId): Option<ScreenId> {
    if id !in st.screens || st.screens[id].groupId !in st.groups then None else Some(st.screens[id].groupId)
  }

  lemma ServiceExpandSteps(st: State, env: Env, ids: seq<ScreenId>, at: seq<Point>)
    requires Inv(st)
    ensures Inv(ServiceMakeExpand(st, env, ids, at).0)
    ensures ids == [] || at == [] || |ids| != |at| ==> ServiceMakeExpand(st, env, ids, at) == (st, None)
    ensures !(ids == [] || at == [] || |ids| != |at|) ==>
              var (s1, d) := GetDefault(st, env);
              var all := RemoveFirst(ValidIds(s1, ids), d);
              var points := PointsFor(all, FirstPoints(ids, at));
              && Inv(s1) && Plain(s1, all) && |points| == |all|
              && ServiceMakeExpand(st, env, ids, at) ==
                   if all == [] then (s1, None)
                   else
                     var (s2, ok, _) := MakeExpand(s1, env, all, points);
                     (s2, if !ok then None else GroupFound(s2, all[0]))
  {
    hide Inv, Evolves, Plain, ValidIds, RemoveFirst, MakeExpand, GetDefault, FirstPoints, PointsFor;
    ServiceInv(st, env, SCREEN_ID_INVALID, ids, at, SCREEN_EXPAND);
    if !(ids == [] || at == [] || |ids| != |at|) {
      LookupInv(st, env);
      var (s1, d) := GetDefault(st, env);
      ValidPlain(s1, ids, d);
      var all := RemoveFirst(ValidIds(s1, ids), d);
      ListedIds(s1, ids, d);
      PointsForAll(all, FirstPoints(ids, at));
    }
  }

  lemma ListedIds(st: State, ids: seq<ScreenId>, d: ScreenId)
    ensures forall i :: 0 <= i < |RemoveFirst(ValidIds(st, ids), d)| ==> RemoveFirst(ValidIds(st, ids), d)[i] in ids
  {
    var valid := ValidIds(st, ids);
    var all := RemoveFirst(valid, d);
    ValidIdsFilter(st, ids);
    RemoveFirstIn(valid, d);
    hide ValidIds, RemoveFirst;
    forall i | 0 <= i < |all| ensures all[i] in ids {
      var x := all[i];
      assert x in all;
      assert x in valid;
    }
  }

  lemma ServiceStopSteps(st: State, env: Env, ids: seq<ScreenId>, combination: Combination)
    requires Inv(st)
    ensures Plain(st, ValidIds(st, ids))
    ensures ValidIds(st, ids) == [] ==> ServiceStop(st, env, ids, combination) == st
  {
    ValidPlain(st, ids, SCREEN_ID_INVALID);
  }
}

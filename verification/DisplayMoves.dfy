/** What moving screens does to displays in an expand group: a screen that moves in is shown where it was asked to
    be, and a screen that leaves sends the displays of all others to the origin. */
module DisplayMoves {
  import opened DmTypes
  import opened ScreenState
  import opened ScreenInvariant
  import opened ScreenRuns
  import opened GroupChanges
  import opened ExpandDisplays
  import opened DisplaySharing
  import opened DisplayPlaces
  import opened DisplayTiling
  import DefaultScreen
  import ExpandRoundTrip
  import SharingOps
  import SharingSteps
  import SharingRuns

  // ---------- Moving in ----------

  /** d is the default screen. */
  ghost predicate KnownAs(st: State, d: ScreenId) {
    && st.defaultRs != SCREEN_ID_INVALID && st.defaultRs in st.ids.rs2Dms && st.ids.rs2Dms[st.defaultRs] == d
    && d in st.screens && !st.screens[d].IsGroup()
  }

  /** The mode that a display of the screen gets: a virtual screen takes that of the default. */
  function ModeFor(st: State, d: ScreenId, x: ScreenId): Option<Mode> {
    if x !in st.screens || d !in st.screens then None
    else if st.screens[x].kind.VIRTUAL? then st.screens[d].mode
    else st.screens[x].mode
  }

  /** All displays of a stay, and the new ones in b show screens of out, each where it starts itself. */
  ghost predicate Drawn(a: State, b: State, d: ScreenId, out: set<ScreenId>) {
    && a.displayCount <= b.displayCount
    && (forall k :: k in a.displays ==> k in b.displays && b.displays[k] == a.displays[k])
    && (forall k :: k in b.displays && k !in a.displays ==>
          var x := b.displays[k].screenId;
          && a.displayCount <= k && x in out && ModeFor(b, d, x).Some?
          && b.displays[k] == DisplayOf(x, b.screens[x], ModeFor(b, d, x).value, b.screens[x].start))
  }

  /** Every screen of out with a mode for it has a display. */
  ghost predicate AllShown(st: State, d: ScreenId, out: set<ScreenId>) {
    st.callback ==> forall x :: x in out && ModeFor(st, d, x).Some? ==> !NoDisplay(st, x)
  }

  lemma KnownLater(a: State, b: State, d: ScreenId)
    requires KnownAs(a, d) && Evolves(a, b)
    ensures KnownAs(b, d)
  {
  }

  lemma KnownMode(st: State, env: Env, d: ScreenId)
    requires KnownAs(st, d)
    ensures DefaultMode(st, env) == st.screens[d].mode && KnownDefault(st, env) == d
  {
  }

  lemma PutInOneDraws(st: State, env: Env, g: ScreenId, t: Taken, d: ScreenId, anchor: ScreenId)
    requires Inv(st) && Numbered(st) && g in st.groups && HasSource(st, g) && Loose(st, t.id) && KnownAs(st, d) && d != t.id
    requires st.groups[g].combination.SCREEN_EXPAND? && anchor in st.groups[g].children && anchor != t.id
    ensures var r := PutInOne(st, env, g, t).0;
            Drawn(st, r, d, {t.id}) && AllShown(r, d, {t.id}) && KnownAs(r, d) && r.callback == st.callback
  {
    hide Inv, AddChild, Touch, OnConnect, Loose, HasSource, KnownAs, DisplayOf, Evolves;
    LooseAt(st, t.id);
    var s1 := PlaceChild(st, env, g, t.id, t.at);
    AddChildPlain(st, env, g, t.id, t.at);
    AddChildInv(st, env, g, t.id, t.at);
    KnownLater(st, s1, d);
    ExpandRoundTrip.TwoChildren(s1.groups[g].children, anchor, t.id);
    JoinedShown(s1, env, t.id);
    KnownMode(s1, env, d);
    PutsIn(st, env, g, t, s1);
    var r := PutInOne(st, env, g, t).0;
    KnownLater(s1, r, d);
    EvolvesCallback(s1, r);
    DrawnDue(st, s1, r, env, t.id, d);
  }

  lemma LooseAt(st: State, id: ScreenId)
    requires Loose(st, id)
    ensures id in st.screens && !st.screens[id].IsGroup()
  {
  }

  lemma PutsIn(st: State, env: Env, g: ScreenId, t: Taken, s1: State)
    requires g in st.groups && t.id in st.screens && AddChild(st, env, g, t.id, t.at) == (s1, true)
    requires t.id in Touch(s1, env, t.id).screens
    ensures var s2 := Touch(s1, env, t.id);
            PutInOne(st, env, g, t).0 == if s2.callback then OnConnect(s2, env, t.id) else s2
  {
    hide AddChild, Touch, OnConnect;
  }

  lemma DrawnDue(st: State, s1: State, r: State, env: Env, id: ScreenId, d: ScreenId)
    requires Numbered(st) && s1.displays == st.displays && s1.displayCount == st.displayCount && s1.callback == st.callback
    requires KnownAs(s1, d) && id != d && id in s1.screens && s1.screens[id].groupId in s1.groups && !s1.screens[id].IsGroup()
    requires var grp := s1.groups[s1.screens[id].groupId]; |grp.children| != 1 && grp.combination.SCREEN_EXPAND?
    requires SameGrouping(s1, r) && r.callback == st.callback
    requires r.displays == (if st.callback then WithDue(s1, env, id) else st.displays) && st.displayCount <= r.displayCount
    ensures Drawn(st, r, d, {id}) && AllShown(r, d, {id})
  {
    KnownMode(s1, env, d);
    assert ModeFor(r, d, id) == ModeFor(s1, d, id);
    hide DefaultMode, KnownDefault, DisplayOf;
    var m := ModeFor(s1, d, id);
    if st.callback {
      if NoDisplay(s1, id) && m.Some? {
        assert r.displays[st.displayCount].screenId == id by {
          DisplayOfId(id, s1.screens[id], m.value, s1.screens[id].start);
        }
      } else {
        assert NoDisplay(r, id) ==> NoDisplay(s1, id);
      }
    }
  }

  lemma DisplayOfId(id: ScreenId, s: Screen, m: Mode, p: Point)
    ensures DisplayOf(id, s, m, p).screenId == id
  {
  }

  /** Old displays and their screens stay, so what was drawn before is drawn still. */
  lemma DrawnTrans(a: State, b: State, c: State, d: ScreenId, o1: set<ScreenId>, o2: set<ScreenId>)
    requires Drawn(a, b, d, o1) && Drawn(b, c, d, o2)
    requires forall x :: x in b.screens && x !in o2 ==> x in c.screens && c.screens[x] == b.screens[x]
    requires o1 !! o2 && d !in o2 && d in b.screens && forall x :: x in o1 ==> x in b.screens
    ensures Drawn(a, c, d, o1 + o2)
    ensures AllShown(b, d, o1) && AllShown(c, d, o2) && b.callback == c.callback ==> AllShown(c, d, o1 + o2)
  {
    hide DisplayOf;
    forall k | k in c.displays && k !in a.displays
      ensures var x := c.displays[k].screenId;
              && a.displayCount <= k && x in o1 + o2 && ModeFor(c, d, x).Some?
              && c.displays[k] == DisplayOf(x, c.screens[x], ModeFor(c, d, x).value, c.screens[x].start)
    {
      if k in b.displays {
        assert c.displays[k] == b.displays[k];
      }
    }
    forall x | x in o1 ensures NoDisplay(c, x) ==> NoDisplay(b, x) {
      if !NoDisplay(b, x) {
        var k :| k in b.displays && b.displays[k].screenId == x;
        assert c.displays[k] == b.displays[k];
      }
    }
    assert forall x :: x in o1 ==> ModeFor(c, d, x) == ModeFor(b, d, x);
    hide NoDisplay, ModeFor;
  }

  lemma {:induction false} PutInDraws(st: State, env: Env, g: ScreenId, taken: seq<Taken>, d: ScreenId)
    requires Inv(st) && Numbered(st) && g in st.groups && HasSource(st, g) && AllLoose(st, taken) && DistinctTaken(taken)
    requires KnownAs(st, d) && d in st.groups[g].children && d !in IdsOf(taken) && st.groups[g].combination.SCREEN_EXPAND?
    ensures var r := PutIn(st, env, g, taken).0;
            Drawn(st, r, d, IdsOf(taken)) && AllShown(r, d, IdsOf(taken)) && r.callback == st.callback
    decreases |taken|
  {
    hide Inv, Evolves, PutInOne, HasSource, Loose, Numbered, Unshared, Drawn, AllShown, KnownAs, ModeFor, JoinsOnly;
    if taken == [] {
      NothingDrawn(st, d, taken);
    } else {
      var t, rest := taken[0], taken[1..];
      var s1 := PutInOne(st, env, g, t).0;
      IdsSplit(taken);
      assert Loose(st, t.id);
      HeadDistinct(taken);
      LoosePlain(st, t.id);
      PutInOneDraws(st, env, g, t, d, d);
      PutInOneEffect(st, env, g, t);
      PutInOneInv(st, env, g, t);
      SharingSteps.PutInOneShares(st, env, g, t, d);
      StayLoose(st, s1, env, g, taken);
      PutInDraws(s1, env, g, rest, d);
      var r := PutIn(s1, env, g, rest).0;
      PutInEffect(s1, env, g, rest);
      RestKept(st, s1, r, env, g, t, rest, d);
      DrawnTrans(st, s1, r, d, {t.id}, IdsOf(rest));
    }
  }

  lemma NothingDrawn(st: State, d: ScreenId, taken: seq<Taken>)
    requires taken == []
    ensures Drawn(st, st, d, IdsOf(taken)) && AllShown(st, d, IdsOf(taken))
  {
  }

  lemma RestKept(st: State, s1: State, r: State, env: Env, g: ScreenId, t: Taken, rest: seq<Taken>, d: ScreenId)
    requires JoinsOnly(st, s1, env, g, [t]) && JoinsOnly(s1, r, env, g, rest) && KnownAs(s1, d)
    ensures forall x :: x in s1.screens && x !in IdsOf(rest) ==> x in r.screens && r.screens[x] == s1.screens[x]
    ensures d in s1.screens && t.id in s1.screens
  {
    assert [t][0].id == t.id;
  }

  /** Taking screens out makes no display, and binds one anew to the default at most. */
  ghost predicate Rebound(a: State, b: State, d: ScreenId) {
    && b.displayCount == a.displayCount && a.ids.count <= b.ids.count
    && (forall k :: k in b.displays ==>
          k in a.displays && (b.displays[k].screenId == a.displays[k].screenId || b.displays[k].screenId == d))
  }

  lemma UnhookRebinds(st: State, env: Env, id: ScreenId, d: ScreenId)
    requires Inv(st) && KnownAs(st, d) && id in st.screens && st.screens[id].groupId in st.groups
    ensures Rebound(st, OnDisconnect(st, env, id), d)
  {
    assert GetDefault(st, env) == (st, d);
    var zeroed := st.(displays := ZeroOthers(st.displays, id));
    assert GetDefault(zeroed, env) == (zeroed, d);
    hide Inv, FirstDisplay, LastDisplay, GetDefault;
  }

  lemma TakeOutOneRebinds(st: State, env: Env, g: ScreenId, id: ScreenId, filter: bool, d: ScreenId)
    requires Inv(st) && KnownAs(st, d) && Plain(st, [id])
    ensures var r := TakeOutOne(st, env, g, id, filter); Rebound(st, r, d) && r.callback == st.callback
  {
    assert id in [id];
    if st.callback && InGroup(st, id) {
      UnhookRebinds(st, env, id, d);
      OnDisconnectInv(st, env, id);
    }
    hide Inv, OnDisconnect;
  }

  lemma {:induction false} TakeOutRebinds(st: State, env: Env, g: ScreenId, ids: seq<ScreenId>, at: seq<Point>, filter: bool,
                                          d: ScreenId)
    requires Inv(st) && KnownAs(st, d) && Plain(st, ids) && |ids| == |at|
    ensures var r := TakeOut(st, env, g, ids, at, filter).0;
            Rebound(st, r, d) && KnownAs(r, d) && r.callback == st.callback
    decreases |ids|
  {
    hide Inv, Evolves, TakeOutOne, Moves, KnownAs;
    if ids != [] {
      var s1 := TakeOutOne(st, env, g, ids[0], filter);
      assert Plain(st, [ids[0]]);
      TakeOutOneRebinds(st, env, g, ids[0], filter, d);
      TakeOutOneInv(st, env, g, ids[0], filter);
      KnownLater(st, s1, d);
      EvolvesPlain(st, s1, ids[1..]);
      TakeOutRebinds(s1, env, g, ids[1..], at[1..], filter, d);
    }
  }

  /** The two loops together, for a group that is to expand. */
  lemma ChangeDraws(st: State, env: Env, g: ScreenId, ids: seq<ScreenId>, at: seq<Point>, filter: bool, d: ScreenId)
    requires Inv(st) && Numbered(st) && KnownAs(st, d) && g in st.groups && d in st.groups[g].children && d !in ids
    requires Plain(st, ids) && Distinct(ids) && |ids| == |at|
    ensures var r := ChangeScreenGroup(st, env, g, ids, at, filter, SCREEN_EXPAND).0;
            exists mid :: Rebound(st, mid, d) && (filter ==> mid.displays == st.displays)
                          && Drawn(mid, r, d, Movers(st, g, ids, filter))
    ensures var r := ChangeScreenGroup(st, env, g, ids, at, filter, SCREEN_EXPAND).0;
            AllShown(r, d, Movers(st, g, ids, filter)) && r.callback == st.callback
  {
    hide Inv, Evolves, TakeOut, PutIn, TakenOf, Unshared, Numbered, Drawn, AllShown, KnownAs, Rebound;
    assert HasAnchor(st, g, ids);
    var (s1, taken) := TakeOut(st, env, g, ids, at, filter);
    TakeOutInv(st, env, g, ids, at, filter);
    TakeOutRebinds(st, env, g, ids, at, filter, d);
    TakeOutEffect(st, env, g, ids, at, filter);
    TakenOfIds(st, g, ids, at, filter);
    var s2 := s1.(groups := s1.groups[g := s1.groups[g].(combination := SCREEN_EXPAND)]);
    LeftLoose(st, s1, s2, g, ids, filter, taken);
    CombineInv(s1, g, SCREEN_EXPAND);
    SourceStays(st, s1, g, ids, filter, SCREEN_EXPAND);
    ReboundNumbered(st, s1, s2, d);
    assert KnownAs(s2, d) by { SameKnownAs(s1, s2, d); }
    hide Plain, HasAnchor, HasSource, Movers, AllLoose, DistinctTaken;
    assert d !in IdsOf(taken) by { UnlistedStays(st, g, ids, filter, d); }
    if filter { SharingSteps.FilteredStay(st, g, ids); SharingSteps.TakeOutNobody(st, env, g, ids, at, true); }
    PutInDraws(s2, env, g, taken, d);
  }

  lemma UnlistedStays(st: State, g: ScreenId, ids: seq<ScreenId>, filter: bool, d: ScreenId)
    requires d !in ids
    ensures d !in Movers(st, g, ids, filter)
  {
  }

  lemma SameKnownAs(a: State, b: State, d: ScreenId)
    requires KnownAs(a, d) && b == a.(groups := b.groups)
    ensures KnownAs(b, d)
  {
  }

  lemma ReboundNumbered(a: State, b: State, c: State, d: ScreenId)
    requires Inv(a) && Numbered(a) && KnownAs(a, d) && Rebound(a, b, d) && c == b.(groups := c.groups)
    ensures Numbered(c) && Rebound(a, c, d)
  {
    assert ScreenOk(a, d);
  }

  /** MakeExpand of the service makes displays only for the screens that move, each where its screen starts; and every
      one of them has a display afterwards, if it has a mode for it. */
  lemma MakeExpandDraws(st: State, env: Env, ids: seq<ScreenId>, at: seq<Point>)
    requires Inv(st) && Numbered(st) && |ids| == |at| && ServiceMakeExpand(st, env, ids, at).1.Some?
    ensures var (s1, d) := GetDefault(st, env);
            var r := ServiceMakeExpand(st, env, ids, at).0;
            && KnownAs(s1, d) && s1.screens[d].groupId in s1.groups
            && var g := s1.screens[d].groupId;
               var out := Wanted(s1, ids, d) * Movers(s1, g, ids, s1.groups[g].combination.SCREEN_EXPAND?);
               && AllShown(r, d, out) && r.callback == s1.callback && Evolves(s1, r)
               && exists mid :: Rebound(s1, mid, d) && Drawn(mid, r, d, out)
                                && (s1.groups[g].combination.SCREEN_EXPAND? ==> mid.displays == s1.displays)
  {
    hide Inv, Evolves, GetDefault, MakeExpand, ChangeScreenGroup, ValidIds, RemoveFirst, Plain, Distinct, Wanted, Expanded, KnownDefault,
         DefaultTarget, PointsFor, FirstPoints, Drawn, AllShown, Rebound, Movers, Numbered, KnownAs;
    ServiceMakeExpandMoves(st, env, ids, at);
    var (s1, d) := GetDefault(st, env);
    DefaultTwice(st, env);
    LookupInv(st, env);
    SharingOps.LookupShares(st, env);
    assert Numbered(s1) by { OutcomeNumbered(st, s1); }
    DefaultKnown(st, env);
    var g := s1.screens[d].groupId;
    GroupedDefault(s1, d);
    var all := RemoveFirst(ValidIds(s1, ids), d);
    ServiceList(s1, ids, d);
    var points := PointsFor(all, FirstPoints(ids, at));
    var filter := s1.groups[g].combination.SCREEN_EXPAND?;
    ChangeDraws(s1, env, g, all, points, filter, d);
    MakeExpandInv(s1, env, all, points);
    SameMovers(s1, g, ids, d, all, filter);
    assert MakeExpand(s1, env, all, points).0 == ChangeScreenGroup(s1, env, g, all, points, filter, SCREEN_EXPAND).0 by {
      ExpandIsChange(s1, env, d, all, points);
    }
  }

  lemma ExpandIsChange(s1: State, env: Env, d: ScreenId, all: seq<ScreenId>, points: seq<Point>)
    requires GetDefault(s1, env) == (s1, d) && d in s1.screens && s1.screens[d].groupId in s1.groups && |points| == |all|
    ensures var g := s1.screens[d].groupId;
            MakeExpand(s1, env, all, points).0
            == ChangeScreenGroup(s1, env, g, all, points, s1.groups[g].combination.SCREEN_EXPAND?, SCREEN_EXPAND).0
  {
    hide GetDefault, ChangeScreenGroup;
  }

  lemma SameMovers(st: State, g: ScreenId, ids: seq<ScreenId>, d: ScreenId, all: seq<ScreenId>, filter: bool)
    requires forall x :: x in all <==> x in Wanted(st, ids, d)
    ensures Wanted(st, ids, d) * Movers(st, g, ids, filter) == Movers(st, g, all, filter)
  {
    hide Moves;
    assert forall x :: x in Wanted(st, ids, d) ==> x in ids;
  }

  lemma DefaultKnown(st: State, env: Env)
    requires Inv(st)
    ensures var (s1, d) := GetDefault(st, env);
            d in s1.screens && s1.screens[d].groupId in s1.groups ==> KnownAs(s1, d)
  {
    var (s1, d) := GetDefault(st, env);
    LookupInv(st, env);
    NoInvalid(s1);
    if d in s1.screens && s1.screens[d].groupId in s1.groups {
      DefaultScreen.LookupMapsBack(st, env);
      GroupedDefault(s1, d);
      assert s1.ids.rs2Dms[s1.defaultRs] == d;
    }
    hide Inv, GetDefault;
  }

  lemma OutcomeNumbered(a: State, b: State)
    requires SharingSteps.Outcome(a, b, false)
    ensures Numbered(b)
  {
  }

  /** A listed screen that moves, has no display yet, can have a node and has a mode for it, is shown after MakeExpand
      at the first point asked for it, in that mode and turned like it. */
  lemma MakeExpandShows(st: State, env: Env, ids: seq<ScreenId>, at: seq<Point>, i: nat) returns (k: DisplayId)
    requires Inv(st) && Numbered(st) && |ids| == |at| && ServiceMakeExpand(st, env, ids, at).1.Some?
    requires i < |ids| && ids[i] !in ids[..i]
    requires var (s1, d) := GetDefault(st, env);
             && ids[i] in Wanted(s1, ids, d) && d in s1.screens && s1.screens[d].groupId in s1.groups
             && Moves(s1, s1.screens[d].groupId, ids[i], s1.groups[s1.screens[d].groupId].combination.SCREEN_EXPAND?)
             && s1.screens[ids[i]].rsId !in env.noNode && s1.callback && NoDisplay(s1, ids[i])
             && ModeFor(s1, d, ids[i]).Some?
    ensures var (s1, d) := GetDefault(st, env);
            var r := ServiceMakeExpand(st, env, ids, at).0;
            && k in r.displays && k !in s1.displays && ids[i] in r.screens
            && r.displays[k] == DisplayOf(ids[i], r.screens[ids[i]], ModeFor(s1, d, ids[i]).value, at[i])
  {
    hide Inv, GetDefault, ServiceMakeExpand, DisplayOf, Moves, KnownDefault, DefaultTarget, Numbered, KnownAs;
    var (s1, d) := GetDefault(st, env);
    var r := ServiceMakeExpand(st, env, ids, at).0;
    var x := ids[i];
    ServiceMakeExpandMoves(st, env, ids, at);
    MakeExpandDraws(st, env, ids, at);
    SharingOps.LookupShares(st, env);
    OutcomeNumbered(st, s1);
    assert Expanded(s1, r, env, d, ids, at);
    assert r.screens[x].start == at[i] && x in r.screens;
    assert x in Movers(s1, s1.screens[d].groupId, ids, s1.groups[s1.screens[d].groupId].combination.SCREEN_EXPAND?);
    hide Expanded, Wanted, Movers;
    ModeStays(s1, r, d, x);
    assert !NoDisplay(r, x) && x != d;
    k :| k in r.displays && r.displays[k].screenId == x;
    var out := Wanted(s1, ids, d) * Movers(s1, s1.screens[d].groupId, ids,
                                           s1.groups[s1.screens[d].groupId].combination.SCREEN_EXPAND?);
    var mid :| Rebound(s1, mid, d) && Drawn(mid, r, d, out);
    NewlyDrawn(s1, mid, r, d, out, k);
  }

  lemma NewlyDrawn(a: State, mid: State, r: State, d: ScreenId, out: set<ScreenId>, k: DisplayId)
    requires Numbered(a) && Rebound(a, mid, d) && Drawn(mid, r, d, out)
    requires k in r.displays && r.displays[k].screenId != d && NoDisplay(a, r.displays[k].screenId)
    ensures k !in a.displays && k !in mid.displays
  {
  }

  lemma ModeStays(a: State, b: State, d: ScreenId, x: ScreenId)
    requires Evolves(a, b) && ModeFor(a, d, x).Some? && d in b.screens && x in b.screens
    ensures ModeFor(b, d, x) == ModeFor(a, d, x)
  {
  }

  // ---------- Leaving ----------

  lemma {:induction false} LastIsGreatest(displays: map<DisplayId, Display>, id: ScreenId, count: nat)
    ensures var found := LastDisplay(displays, id, count);
            found.Some? ==> found.value < count
                            && forall k :: k in displays && displays[k].screenId == id && k < count ==> k <= found.value
  {
    if count > 0 && !(count - 1 in displays && displays[count - 1].screenId == id) {
      LastIsGreatest(displays, id, count - 1);
    }
  }

  /** The last display of the screen. */
  ghost predicate IsLast(st: State, id: ScreenId, k: DisplayId) {
    && k in st.displays && st.displays[k].screenId == id
    && forall j :: j in st.displays && st.displays[j].screenId == id ==> j <= k
  }

  /** The disconnect callback of an expand group takes away the last display of the screen, and sends the displays of
      all other screens to the origin, wherever their screens are. */
  lemma LeaveSends(st: State, env: Env, id: ScreenId)
    requires Inv(st) && id in st.screens && st.screens[id].groupId in st.groups
    requires st.groups[st.screens[id].groupId].combination.SCREEN_EXPAND?
    requires forall k :: k in st.displays ==> k < st.displayCount
    ensures var r := OnDisconnect(st, env, id);
            && (forall k :: k in r.displays <==> k in st.displays && !IsLast(st, id, k))
            && (forall k :: k in r.displays ==>
                  r.displays[k] == if st.displays[k].screenId == id then st.displays[k]
                                   else st.displays[k].(offset := ORIGIN))
            && SameGrouping(st, r) && r.callback == st.callback
  {
    hide Inv, GetDefault, LastDisplay, Evolves, IsLast, Extends, ZeroOthers;
    OnDisconnectInv(st, env, id);
    EvolvesCallback(st, OnDisconnect(st, env, id));
    FindsLast(st, id);
    var zeroed := st.(displays := ZeroOthers(st.displays, id));
    ZeroedLookup(st, zeroed, env);
    ZeroedAt(st, id);
    var found := LastDisplay(st.displays, id, st.displayCount);
    hide SameGrouping;
  }

  lemma FindsLast(st: State, id: ScreenId)
    requires forall k :: k in st.displays ==> k < st.displayCount
    ensures var found := LastDisplay(st.displays, id, st.displayCount);
            forall k: DisplayId :: IsLast(st, id, k) <==> found == Some(k)
  {
    LastFinds(st.displays, id, st.displayCount);
    LastIsGreatest(st.displays, id, st.displayCount);
    hide LastDisplay;
  }

  lemma ZeroedLookup(st: State, zeroed: State, env: Env)
    requires Inv(st) && st.groups != map[] && zeroed == st.(displays := zeroed.displays)
    ensures GetDefault(zeroed, env).0.displays == zeroed.displays
  {
    ShapeInv(st, zeroed);
    LookupInv(zeroed, env);
    hide Inv, GetDefault, Evolves;
  }

  lemma ZeroedAt(st: State, id: ScreenId)
    ensures var z := ZeroOthers(st.displays, id);
            && (forall k :: k in z <==> k in st.displays)
            && (forall k :: k in z ==> z[k] == if st.displays[k].screenId == id then st.displays[k]
                                               else st.displays[k].(offset := ORIGIN))
  {
  }

  /** So the displays that are left lie where their screens start if and only if those screens start at the origin. */
  lemma LeaveAligned(st: State, env: Env, id: ScreenId)
    requires Inv(st) && Aligned(st) && Numbered(st) && Unshared(st.displays) && st.callback
    requires id in st.screens && InGroup(st, id) && !st.screens[id].IsGroup()
    requires st.groups[st.screens[id].groupId].combination.SCREEN_EXPAND?
    ensures Aligned(RemoveFromGroup(OnDisconnect(st, env, id), id).0) <==>
              forall k :: k in st.displays && st.displays[k].screenId != id ==> st.screens[st.displays[k].screenId].start == ORIGIN
  {
    hide Inv, OnDisconnect, Evolves, Extends, Numbered, RemoveChild;
    var s1 := OnDisconnect(st, env, id);
    assert forall k :: k in st.displays ==> k < st.displayCount by { NumberedKeys(st); }
    LeaveSends(st, env, id);
    OnlyLast(st, id);
    OnDisconnectInv(st, env, id);
    GroupedStart(st, s1, id);
    var r := RemoveFromGroup(s1, id).0;
    RemovalShows(s1, id);
    hide RemoveFromGroup, IsLast, SameGrouping, Unshared;
    forall k | k in r.displays
      ensures var x := st.displays[k].screenId;
              && x != id && Housed(r, x) && r.screens[x].start == st.screens[x].start && r.displays[k].offset == ORIGIN
              && r.displays[k].screenId == x
    {
      assert Housed(st, st.displays[k].screenId);
    }
  }

  lemma RemovalShows(st: State, id: ScreenId)
    requires id in st.screens
    ensures var r := RemoveFromGroup(st, id).0; r.displays == st.displays && r.callback == st.callback
  {
  }

  lemma NumberedKeys(st: State)
    requires Numbered(st)
    ensures forall k :: k in st.displays ==> k < st.displayCount
  {
  }

  lemma OnlyLast(st: State, id: ScreenId)
    requires Unshared(st.displays)
    ensures forall k :: k in st.displays ==> (IsLast(st, id, k) <==> st.displays[k].screenId == id)
  {
  }

  /** Those that share the group with the screen that leaves stay in it, where they are. */
  lemma GroupedStart(st: State, s1: State, id: ScreenId)
    requires Inv(st) && Inv(s1) && SameGrouping(st, s1) && id in st.screens && InGroup(st, id)
    ensures id in s1.screens
    ensures var r := RemoveFromGroup(s1, id).0;
            forall x :: Housed(st, x) && x != id ==> Housed(r, x) && r.screens[x].start == st.screens[x].start
  {
    var g := st.screens[id].groupId;
    RemoveChildInv(s1, g, id);
    forall x | Housed(st, x) && x != id ensures x in st.groups[g].children {
      assert ScreenOk(st, x);
      NoInvalidGroup(st);
    }
    hide Inv, RemoveChild;
    assert s1.groups[g].children == {id} ==> forall x :: Housed(st, x) ==> x == id;
  }
}

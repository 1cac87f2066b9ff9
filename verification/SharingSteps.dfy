/** No two displays on one screen: what every operation does to that, exactly. A screen gets a second display
    when the connect callback binds a default screen that has one already, or when the displays of screens that
    leave a mirror group pile up on the default. */
module SharingSteps {
  import opened DmTypes
  import opened ScreenState
  import opened ScreenInvariant
  import opened ScreenRuns
  import opened GroupChanges
  import opened ExpandDisplays
  import opened DisplaySharing

  /** b is numbered, and if no two displays of a are on one screen, two of b are exactly if shared. */
  ghost predicate Outcome(a: State, b: State, shared: bool) {
    Numbered(b) && (Unshared(a.displays) ==> (Unshared(b.displays) <==> !shared))
  }

  /** The default screen takes over the displays of those that leave its mirror group. */
  predicate Receives(st: State, env: Env) {
    && DefaultHoused(st, env)
    && st.groups[st.screens[KnownDefault(st, env)].groupId].combination.SCREEN_MIRROR?
  }

  ghost predicate Gives(st: State, x: ScreenId) {
    x in st.screens && InGroup(st, x) && !NoDisplay(st, x)
  }

  /** When these screens leave, some display goes over to the default, which has one or gets another. */
  ghost predicate Piles(st: State, env: Env, leavers: set<ScreenId>) {
    && Receives(st, env)
    && exists x :: x in leavers && Gives(st, x)
         && (!NoDisplay(st, KnownDefault(st, env)) || exists y :: y in leavers && y != x && Gives(st, y))
  }

  /** Two displays are bound to this screen. */
  ghost predicate Doubled(st: State, d: ScreenId) {
    exists j, k :: j in st.displays && k in st.displays && j != k
      && st.displays[j].screenId == d && st.displays[k].screenId == d
  }

  lemma DoubledShares(st: State, d: ScreenId)
    requires Doubled(st, d)
    ensures !Unshared(st.displays)
  {
    var j, k :| j in st.displays && k in st.displays && j != k
      && st.displays[j].screenId == d && st.displays[k].screenId == d;
    assert st.displays[j].screenId == st.displays[k].screenId;
  }

  // ---------- One screen leaves ----------

  /** The display of x goes over to the default screen. */
  ghost predicate HandsOver(st: State, env: Env, x: ScreenId) {
    Receives(st, env) && x != KnownDefault(st, env) && Gives(st, x)
  }

  /** What the leaving of x does to the displays of all screens. */
  ghost predicate Unhooked(st: State, env: Env, x: ScreenId, r: State) {
    var d := KnownDefault(st, env);
    && (HandsOver(st, env, x) ==> !NoDisplay(r, d) && NoDisplay(r, x)) && (NoDisplay(st, x) ==> NoDisplay(r, x))
    && (if HandsOver(st, env, x) && !NoDisplay(st, d) then Doubled(r, d) else Unshared(r.displays))
    && (forall y :: y != x && !(y == d && HandsOver(st, env, x)) ==> (NoDisplay(r, y) <==> NoDisplay(st, y)))
  }

  lemma OnlyFirst(st: State, x: ScreenId, k: DisplayId)
    requires Unshared(st.displays) && k in st.displays && st.displays[k].screenId == x
    ensures IsFirst(st, x, k)
  {
  }

  lemma SameUnhooked(st: State, env: Env, x: ScreenId, r: State)
    requires Unshared(st.displays) && !HandsOver(st, env, x) && r.displays == st.displays
    ensures Unhooked(st, env, x, r)
  {
    hide HandsOver, Unshared;
  }

  /** There is only one group. */
  lemma OneGroup(st: State, env: Env, x: ScreenId)
    requires Inv(st) && x in st.screens && InGroup(st, x) && DefaultHoused(st, env)
    ensures st.screens[KnownDefault(st, env)].groupId == st.screens[x].groupId
  {
    hide KnownDefault;
  }

  lemma MirrorUnhooks(st: State, env: Env, x: ScreenId)
    requires Inv(st) && Numbered(st) && Unshared(st.displays) && x in st.screens && InGroup(st, x)
    requires st.groups[st.screens[x].groupId].combination.SCREEN_MIRROR?
    ensures Unhooked(st, env, x, OnDisconnect(st, env, x))
  {
    hide OnDisconnect, Inv, KnownDefault, Unshared, Unhooked;
    var r := OnDisconnect(st, env, x);
    if NoDisplay(st, x) {
      NothingToUnhook(st, env, x);
      SameUnhooked(st, env, x, r);
    } else {
      var k :| k in st.displays && st.displays[k].screenId == x;
      assert IsFirst(st, x, k) by { OnlyFirst(st, x, k); }
      HandoverExact(st, env, x, k);
      if DefaultHoused(st, env) {
        OneGroup(st, env, x);
        Rebound(st, env, x, k, r);
      } else {
        SameUnhooked(st, env, x, r);
      }
    }
  }

  lemma NothingToUnhook(st: State, env: Env, x: ScreenId)
    requires Inv(st) && x in st.screens && InGroup(st, x) && NoDisplay(st, x)
    requires st.groups[st.screens[x].groupId].combination.SCREEN_MIRROR?
    ensures OnDisconnect(st, env, x).displays == st.displays
  {
    LookupInv(st, env);
    hide Inv, GetDefault;
  }

  lemma Rebound(st: State, env: Env, x: ScreenId, k: DisplayId, r: State)
    requires Unshared(st.displays) && Receives(st, env) && x in st.screens && InGroup(st, x)
    requires k in st.displays && st.displays[k].screenId == x
    requires k in r.displays && r.displays == st.displays[k := r.displays[k]]
    requires var d := KnownDefault(st, env);
             r.displays[k].screenId == d && (Unshared(r.displays) <==> d == x || NoDisplay(st, d))
    ensures Unhooked(st, env, x, r)
  {
    hide KnownDefault, Receives;
    var d := KnownDefault(st, env);
    assert Gives(st, x);
    forall y | y != x && y != d ensures NoDisplay(r, y) <==> NoDisplay(st, y) {
      if j :| j in st.displays && st.displays[j].screenId == y {
        assert j != k && r.displays[j] == st.displays[j];
      }
    }
    if d != x && !NoDisplay(st, d) {
      var j :| j in st.displays && st.displays[j].screenId == d;
      assert j != k && r.displays[j].screenId == d;
    }
  }

  /** In an expand group only the display of the screen itself goes. */
  lemma ExpandErases(st: State, env: Env, x: ScreenId)
    requires Inv(st) && x in st.screens && InGroup(st, x)
    requires st.groups[st.screens[x].groupId].combination.SCREEN_EXPAND?
    ensures var r := OnDisconnect(st, env, x);
            && r.displayCount == st.displayCount && st.ids.count <= r.ids.count
            && (forall k :: k in r.displays ==> k in st.displays && r.displays[k].screenId == st.displays[k].screenId)
            && (forall k :: k in st.displays && st.displays[k].screenId != x ==> k in r.displays)
  {
    hide Inv, Evolves, Extends, GetDefault, LastDisplay;
    var zeroed := st.(displays := ZeroOthers(st.displays, x));
    ZeroedInv(st, zeroed);
    LookupInv(zeroed, env);
    ExtendsAt(zeroed, GetDefault(zeroed, env).0, x);
  }

  lemma ExpandUnhooks(st: State, env: Env, x: ScreenId)
    requires Inv(st) && Numbered(st) && Unshared(st.displays) && x in st.screens && InGroup(st, x)
    requires st.groups[st.screens[x].groupId].combination.SCREEN_EXPAND?
    ensures Unhooked(st, env, x, OnDisconnect(st, env, x))
  {
    hide Inv, KnownDefault, OnDisconnect;
    var r := OnDisconnect(st, env, x);
    if DefaultHoused(st, env) { OneGroup(st, env, x); }
    ExpandErases(st, env, x);
    forall y | y != x ensures NoDisplay(r, y) <==> NoDisplay(st, y) {
      if j :| j in st.displays && st.displays[j].screenId == y {
        assert r.displays[j].screenId == y;
      }
    }
  }

  lemma ZeroedInv(st: State, r: State)
    requires Inv(st) && r == st.(displays := r.displays)
    ensures Inv(r)
  {
    ShapeInv(st, r);
  }

  lemma OnDisconnectUnhooks(st: State, env: Env, x: ScreenId)
    requires Inv(st) && Numbered(st) && Unshared(st.displays) && x in st.screens && InGroup(st, x)
    ensures Unhooked(st, env, x, OnDisconnect(st, env, x))
  {
    hide OnDisconnect, Inv, Numbered, Unshared, Unhooked;
    if st.groups[st.screens[x].groupId].combination.SCREEN_MIRROR? {
      MirrorUnhooks(st, env, x);
    } else {
      ExpandUnhooks(st, env, x);
    }
  }

  lemma OnDisconnectNumbered(st: State, env: Env, x: ScreenId)
    requires Inv(st) && Numbered(st) && x in st.screens && InGroup(st, x)
    ensures Numbered(OnDisconnect(st, env, x))
  {
    hide Inv, Evolves, Extends, SameGrouping, OnDisconnect;
    if st.groups[st.screens[x].groupId].combination.SCREEN_MIRROR? {
      MirrorNumbered(st, env, x);
    } else {
      ExpandErases(st, env, x);
    }
  }

  lemma MirrorNumbered(st: State, env: Env, x: ScreenId)
    requires Inv(st) && Numbered(st) && x in st.screens && InGroup(st, x)
    requires st.groups[st.screens[x].groupId].combination.SCREEN_MIRROR?
    ensures Numbered(OnDisconnect(st, env, x))
  {
    hide Inv, Evolves, Extends, GetDefault, FirstDisplay;
    var (s1, d) := GetDefault(st, env);
    LookupInv(st, env);
    ExtendsAt(st, s1, x);
    assert d in s1.screens ==> d < s1.ids.count by { if d in s1.screens { InvScreen(s1, d); } }
  }

  /** The disconnect callback and the removal, as in every operation that takes a screen out of its group. */
  function Leave(st: State, env: Env, x: ScreenId): State {
    TakeOutOne(st, env, SCREEN_ID_INVALID, x, false)
  }

  /** Apart from its children a group of b is one of a, and x has left it. */
  ghost predicate LeftBy(a: State, b: State, x: ScreenId) {
    && x in b.screens && b.screens[x].groupId == SCREEN_ID_INVALID && !b.screens[x].IsGroup()
    && b.callback == a.callback && a.ids.count <= b.ids.count
    && (forall g :: g in b.groups ==>
          g in a.groups && b.groups[g] == a.groups[g].(children := a.groups[g].children - {x}))
    && (forall g, c :: g in a.groups && c in a.groups[g].children && c != x ==> g in b.groups)
    && (forall y :: y in a.screens && !a.screens[y].IsGroup() && y != x ==> y in b.screens && b.screens[y] == a.screens[y])
  }

  lemma RemoveLeaves(st: State, x: ScreenId)
    requires Inv(st) && x in st.screens && !st.screens[x].IsGroup()
    ensures var r := RemoveFromGroup(st, x).0;
            LeftBy(st, r, x) && r == st.(screens := r.screens, groups := r.groups)
  {
    assert ScreenOk(st, x);
    var g := st.screens[x].groupId;
    NoInvalidGroup(st);
    hide Evolves;
    if g in st.groups {
      OnlyOneGroup(st, g);
      hide Inv, RemoveChild;
      RemoveChildInv(st, g, x);
      var r := RemoveChild(st, g, x).0;
      assert forall y :: y in st.screens && !st.screens[y].IsGroup() ==> y != g by { GroupIsGroup(st, g); }
    } else {
      forall h | h in st.groups ensures st.groups[h].children == st.groups[h].children - {x} {
        assert GroupOk(st, h);
      }
    }
  }

  lemma OnlyOneGroup(st: State, g: ScreenId)
    requires Inv(st) && g in st.groups
    ensures forall h :: h in st.groups ==> h == g
  {
  }

  lemma GroupIsGroup(st: State, g: ScreenId)
    requires Inv(st) && g in st.groups
    ensures g in st.screens && st.screens[g].IsGroup()
  {
    assert GroupOk(st, g);
  }

  lemma OnDisconnectLooks(st: State, env: Env, x: ScreenId)
    requires x in st.screens
    ensures var r := OnDisconnect(st, env, x);
            var zeroed := st.(displays := ZeroOthers(st.displays, x));
            var (a, b) := (GetDefault(st, env).0, GetDefault(zeroed, env).0);
            || (r.ids == st.ids && r.defaultRs == st.defaultRs)
            || (r.ids == a.ids && r.defaultRs == a.defaultRs)
            || (r.ids == b.ids && r.defaultRs == b.defaultRs)
  {
    hide GetDefault, FirstDisplay, LastDisplay, ZeroOthers;
  }

  lemma OnDisconnectKnown(st: State, env: Env, x: ScreenId, y: ScreenId)
    requires Inv(st) && x in st.screens && y in st.screens
    ensures KnownDefault(OnDisconnect(st, env, x), env) == y <==> KnownDefault(st, env) == y
  {
    hide Inv, GetDefault, OnDisconnect, ZeroOthers;
    var zeroed := st.(displays := ZeroOthers(st.displays, x));
    ZeroedInv(st, zeroed);
    KnownStays(st, env, y);
    KnownStays(zeroed, env, y);
    OnDisconnectLooks(st, env, x);
  }

  lemma LeaveShape(st: State, env: Env, x: ScreenId)
    requires Inv(st) && x in st.screens && !st.screens[x].IsGroup()
    ensures var r := Leave(st, env, x);
            && Inv(r) && Evolves(st, r) && LeftBy(st, r, x)
            && var s1 := if st.callback && InGroup(st, x) then OnDisconnect(st, env, x) else st;
               r.displays == s1.displays && r.displayCount == s1.displayCount && r.ids == s1.ids && r.defaultRs == s1.defaultRs
  {
    hide Inv, Evolves, Extends, OnDisconnect, RemoveFromGroup;
    var s1 := if st.callback && InGroup(st, x) then OnDisconnect(st, env, x) else st;
    DropInv(st, env, x);
    if st.callback && InGroup(st, x) { OnDisconnectInv(st, env, x); }
    EvolvesCount(st, s1);
    RemoveLeaves(s1, x);
  }

  lemma EvolvesCount(a: State, b: State)
    requires Evolves(a, b)
    ensures a.ids.count <= b.ids.count && b.callback == a.callback
  {
  }

  lemma LeaveKnown(st: State, env: Env, x: ScreenId, y: ScreenId)
    requires Inv(st) && x in st.screens && !st.screens[x].IsGroup() && y in st.screens
    ensures KnownDefault(Leave(st, env, x), env) == y <==> KnownDefault(st, env) == y
  {
    LeaveShape(st, env, x);
    OnDisconnectKnown(st, env, x, y);
    hide Inv, Evolves, LeftBy, OnDisconnect, Leave;
  }

  /** The default receives as before, unless it is the one that left. */
  lemma LeaveReceives(st: State, env: Env, x: ScreenId)
    requires Inv(st) && x in st.screens && !st.screens[x].IsGroup()
    ensures var r := Leave(st, env, x);
            var d := KnownDefault(st, env);
            && (Receives(r, env) <==> Receives(st, env) && d != x)
            && (Receives(r, env) ==> KnownDefault(r, env) == d)
  {
    hide Evolves, Leave;
    var r := Leave(st, env, x);
    var d, e := KnownDefault(st, env), KnownDefault(r, env);
    LeaveShape(st, env, x);
    NoInvalidGroup(st);
    if d in st.screens { LeaveKnown(st, env, x, d); assert ScreenOk(st, d); }
    if Receives(r, env) {
      assert ScreenOk(r, e);
      assert e in r.groups[r.screens[e].groupId].children;
      assert GroupOk(st, r.screens[e].groupId);
      LeaveKnown(st, env, x, e);
    }
    hide KnownDefault, Inv;
  }

  lemma LeaveNumbered(st: State, env: Env, x: ScreenId)
    requires Inv(st) && Numbered(st) && x in st.screens && !st.screens[x].IsGroup()
    ensures Numbered(Leave(st, env, x)) && (!st.callback ==> Leave(st, env, x).displays == st.displays)
  {
    hide Inv, Evolves, OnDisconnect, Leave;
    LeaveShape(st, env, x);
    if st.callback && InGroup(st, x) { OnDisconnectNumbered(st, env, x); }
  }

  lemma LeaveUnhooks(st: State, env: Env, x: ScreenId)
    requires Inv(st) && Numbered(st) && Unshared(st.displays) && st.callback && x in st.screens && !st.screens[x].IsGroup()
    ensures Unhooked(st, env, x, Leave(st, env, x))
  {
    hide Inv, Evolves, OnDisconnect, Leave, KnownDefault, Receives, Unshared, LeftBy;
    LeaveShape(st, env, x);
    if InGroup(st, x) {
      OnDisconnectUnhooks(st, env, x);
      SameDisplayed(st, env, x, OnDisconnect(st, env, x), Leave(st, env, x));
    } else {
      SameUnhooked(st, env, x, Leave(st, env, x));
    }
  }

  lemma SameDisplayed(st: State, env: Env, x: ScreenId, a: State, b: State)
    requires Unhooked(st, env, x, a) && b.displays == a.displays
    ensures Unhooked(st, env, x, b)
  {
    hide Unshared, HandsOver;
    assert forall y :: NoDisplay(b, y) <==> NoDisplay(a, y);
  }

  lemma GivesAfter(st: State, env: Env, x: ScreenId, r: State, y: ScreenId)
    requires LeftBy(st, r, x) && Unhooked(st, env, x, r) && y != x && y != KnownDefault(st, env)
    requires y in st.screens && !st.screens[y].IsGroup()
    ensures Gives(r, y) <==> Gives(st, y)
  {
    hide NoDisplay, Unshared, HandsOver;
  }

  lemma NotGrouped(st: State, x: ScreenId)
    requires Inv(st) && x in st.screens && st.screens[x].groupId == SCREEN_ID_INVALID
    ensures !Gives(st, x)
  {
    NoInvalidGroup(st);
  }

  lemma TogetherPile(st: State, env: Env, x: ScreenId, rest: set<ScreenId>, r: State)
    requires Unhooked(st, env, x, r) && !Gives(r, x) && x != KnownDefault(st, env) && KnownDefault(st, env) !in rest
    requires Receives(r, env) <==> Receives(st, env)
    requires Receives(r, env) ==> KnownDefault(r, env) == KnownDefault(st, env)
    requires forall y :: y in rest && y != x ==> (Gives(r, y) <==> Gives(st, y))
    ensures Piles(st, env, {x} + rest) <==> !Unshared(r.displays) || Piles(r, env, rest)
    ensures !Unshared(r.displays) ==> Receives(st, env) && Doubled(r, KnownDefault(st, env))
  {
    hide KnownDefault, Receives, NoDisplay, Unshared, Doubled;
    if Doubled(r, KnownDefault(st, env)) { DoubledShares(r, KnownDefault(st, env)); }
  }

  /** Leaving in turn: what x does and what the rest then does is what they do together. */
  lemma LeaveStep(st: State, env: Env, x: ScreenId, rest: set<ScreenId>)
    requires Inv(st) && Numbered(st) && x in st.screens && !st.screens[x].IsGroup()
    requires forall y :: y in rest ==> y in st.screens && !st.screens[y].IsGroup()
    ensures var r := Leave(st, env, x);
            var d := KnownDefault(st, env);
            && Numbered(r)
            && (!st.callback ==> r.displays == st.displays)
            && (st.callback && Unshared(st.displays) && x == d ==> Unshared(r.displays))
            && (st.callback && Unshared(st.displays) && x != d && d !in rest ==>
                  && (Piles(st, env, {x} + rest) <==> !Unshared(r.displays) || Piles(r, env, rest))
                  && (!Unshared(r.displays) ==> Receives(st, env) && Doubled(r, d)))
  {
    hide Inv, Evolves, OnDisconnect, Leave, KnownDefault, Receives, Unshared;
    var r := Leave(st, env, x);
    LeaveShape(st, env, x);
    LeaveReceives(st, env, x);
    LeaveNumbered(st, env, x);
    if st.callback && Unshared(st.displays) {
      LeaveUnhooks(st, env, x);
      if x != KnownDefault(st, env) && KnownDefault(st, env) !in rest {
        forall y | y in rest && y != x ensures Gives(r, y) <==> Gives(st, y) {
          GivesAfter(st, env, x, r, y);
        }
        assert !Gives(r, x) by { NotGrouped(r, x); }
        TogetherPile(st, env, x, rest, r);
      }
    }
  }

  // ---------- Several screens leave in turn ----------

  function LeaveAll(st: State, env: Env, out: seq<ScreenId>): State
    decreases |out|
  {
    if out == [] then st else LeaveAll(Leave(st, env, out[0]), env, out[1..])
  }

  /** The screens of the list that leave while the default is still there to receive. */
  ghost function Before(out: seq<ScreenId>, d: ScreenId): (r: set<ScreenId>)
    ensures d !in r && forall x :: x in r ==> x in out
    decreases |out|
  {
    if out == [] || out[0] == d then {} else {out[0]} + Before(out[1..], d)
  }

  ghost predicate AllMirror(st: State) {
    forall g :: g in st.groups ==> st.groups[g].combination.SCREEN_MIRROR?
  }

  lemma ReceivesMirror(st: State, env: Env)
    requires Inv(st) && Receives(st, env)
    ensures AllMirror(st) && KnownDefault(st, env) in st.screens && !st.screens[KnownDefault(st, env)].IsGroup()
  {
    hide KnownDefault;
    var d := KnownDefault(st, env);
    assert ScreenOk(st, d);
    NoInvalidGroup(st);
  }

  /** The default keeps its two displays while others leave a mirror group. */
  lemma LeavePersists(st: State, env: Env, x: ScreenId, d: ScreenId)
    requires Inv(st) && x in st.screens && !st.screens[x].IsGroup() && d in st.screens && !st.screens[d].IsGroup()
    requires KnownDefault(st, env) == d && Doubled(st, d) && AllMirror(st)
    ensures var r := Leave(st, env, x);
            KnownDefault(r, env) == d && Doubled(r, d) && AllMirror(r) && d in r.screens && !r.screens[d].IsGroup()
  {
    hide Inv, Evolves, OnDisconnect, Leave, KnownDefault;
    LeaveShape(st, env, x);
    LeaveKnown(st, env, x, d);
    if st.callback && InGroup(st, x) { RebindKeeps(st, env, x, d); }
  }

  lemma RebindKeeps(st: State, env: Env, x: ScreenId, d: ScreenId)
    requires Inv(st) && x in st.screens && InGroup(st, x) && d in st.screens
    requires KnownDefault(st, env) == d && Doubled(st, d) && AllMirror(st)
    ensures Doubled(OnDisconnect(st, env, x), d)
  {
    hide Inv, Evolves, Extends, KnownDefault, FirstDisplay, GetDefault;
    LookupInv(st, env);
    LookupFinds(st, env, d);
    ExtendsAt(st, GetDefault(st, env).0, d);
    var r := OnDisconnect(st, env, x);
    var j, k :| j in st.displays && k in st.displays && j != k
      && st.displays[j].screenId == d && st.displays[k].screenId == d;
    assert j in r.displays && k in r.displays && r.displays[j].screenId == d && r.displays[k].screenId == d;
  }

  lemma PlainParts(st: State, ids: seq<ScreenId>)
    requires Plain(st, ids) && ids != []
    ensures ids[0] in st.screens && !st.screens[ids[0]].IsGroup() && Plain(st, ids[1..])
  {
    var x := ids[0];
    assert x in ids;
    assert x in st.screens;
  }

  lemma {:induction false} LeaveAllInv(st: State, env: Env, out: seq<ScreenId>)
    requires Inv(st) && Numbered(st) && Plain(st, out)
    ensures var r := LeaveAll(st, env, out);
            Inv(r) && Evolves(st, r) && Numbered(r) && (!st.callback ==> r.displays == st.displays)
    decreases |out|
  {
    hide Inv, Evolves, Numbered, Leave, Plain;
    EvolvesRefl(st);
    if out != [] {
      PlainParts(st, out);
      var s1 := Leave(st, env, out[0]);
      LeaveShape(st, env, out[0]);
      LeaveNumbered(st, env, out[0]);
      EvolvesPlain(st, s1, out[1..]);
      EvolvesCount(st, s1);
      LeaveAllInv(s1, env, out[1..]);
      EvolvesTrans(st, s1, LeaveAll(s1, env, out[1..]));
    }
  }

  lemma {:induction false} LeaveAllPersists(st: State, env: Env, out: seq<ScreenId>, d: ScreenId)
    requires Inv(st) && Plain(st, out) && d in st.screens && !st.screens[d].IsGroup()
    requires KnownDefault(st, env) == d && Doubled(st, d) && AllMirror(st)
    ensures Doubled(LeaveAll(st, env, out), d)
    decreases |out|
  {
    hide Inv, Evolves, Leave, Plain, Doubled, AllMirror, KnownDefault;
    if out != [] {
      PlainParts(st, out);
      var s1 := Leave(st, env, out[0]);
      LeaveShape(st, env, out[0]);
      LeavePersists(st, env, out[0], d);
      EvolvesPlain(st, s1, out[1..]);
      LeaveAllPersists(s1, env, out[1..], d);
    }
  }

  /** When screens leave in turn, two displays end on one screen if and only if those that leave before the
      default pile up. */
  lemma {:induction false} LeaveAllShares(st: State, env: Env, out: seq<ScreenId>)
    requires Inv(st) && Numbered(st) && Plain(st, out) && Unshared(st.displays) && st.callback
    ensures var r := LeaveAll(st, env, out);
            var piles := Piles(st, env, Before(out, KnownDefault(st, env)));
            (Unshared(r.displays) <==> !piles) && (piles ==> Doubled(r, KnownDefault(st, env)))
    decreases |out|
  {
    hide Inv, Evolves, Numbered, Unshared, Leave, Plain, Doubled, KnownDefault, Receives, Gives;
    if out != [] {
      var x, rest := out[0], out[1..];
      var d := KnownDefault(st, env);
      var s1 := Leave(st, env, x);
      var e := KnownDefault(s1, env);
      PlainParts(st, out);
      LeaveShape(st, env, x);
      LeaveReceives(st, env, x);
      LeaveNumbered(st, env, x);
      EvolvesPlain(st, s1, out[1..]);
      EvolvesCount(st, s1);
      BeforePlain(st, rest, d);
      LeaveStep(st, env, x, Before(rest, d));
      if Unshared(s1.displays) {
        LeaveAllShares(s1, env, rest);
      } else {
        ReceivesMirror(st, env);
        LeaveStays(st, env, x, d);
        LeaveAllPersists(s1, env, rest, d);
        DoubledShares(LeaveAll(s1, env, rest), d);
      }
    }
  }

  lemma BeforePlain(st: State, ids: seq<ScreenId>, d: ScreenId)
    requires Plain(st, ids)
    ensures forall y :: y in Before(ids, d) ==> y in st.screens && !st.screens[y].IsGroup()
  {
  }

  lemma LeaveStays(st: State, env: Env, x: ScreenId, d: ScreenId)
    requires Inv(st) && x in st.screens && !st.screens[x].IsGroup() && d in st.screens && !st.screens[d].IsGroup()
    requires KnownDefault(st, env) == d && AllMirror(st)
    ensures var r := Leave(st, env, x);
            KnownDefault(r, env) == d && AllMirror(r) && d in r.screens && !r.screens[d].IsGroup()
  {
    hide Inv, Evolves, Leave, KnownDefault;
    LeaveShape(st, env, x);
    LeaveKnown(st, env, x, d);
  }

  // ---------- Changing groups ----------

  lemma PutInOneShares(st: State, env: Env, g: ScreenId, t: Taken, c: ScreenId)
    requires Inv(st) && Numbered(st) && g in st.groups && c in st.groups[g].children && c != t.id && Plain(st, [t.id])
    ensures var r := PutInOne(st, env, g, t).0;
            && Numbered(r) && (Unshared(r.displays) <==> Unshared(st.displays))
            && g in r.groups && c in r.groups[g].children && r.groups[g].combination == st.groups[g].combination
            && (st.groups[g].combination.SCREEN_MIRROR? ==> r.displays == st.displays)
  {
    hide Inv, Evolves, Extends, SameGrouping, AddChild, Touch, OnConnect, Unshared, NoDisplay, KnownDefault;
    assert t.id in [t.id];
    var (s1, added) := AddChild(st, env, g, t.id, t.at);
    AddChildInv(st, env, g, t.id, t.at);
    AddChildAlone(st, env, g, t.id, t.at);
    AddChildCombination(st, env, g, t.id, t.at);
    EvolvesCount(st, s1);
    var s2 := if t.wasChild || added then Touch(s1, env, t.id) else s1;
    TouchInv(s1, env, t.id);
    ExtendsAt(s1, Touch(s1, env, t.id), t.id);
    if s2.callback {
      NotOnly(s2, g, t.id, c);
      if Unshared(s2.displays) { OnConnectShares(s2, env, t.id); }
      OnConnectRetains(s2, env, t.id);
      OnConnectInv(s2, env, t.id);
      KeepsGroups(s2, OnConnect(s2, env, t.id));
      if s2.groups[g].combination.SCREEN_MIRROR? { MirrorIdle(s2, env, t.id); }
    }
  }

  lemma AddChildCombination(st: State, env: Env, g: ScreenId, id: ScreenId, p: Point)
    requires Inv(st) && g in st.groups && id in st.screens
    ensures var r := AddChild(st, env, g, id, p).0; g in r.groups && r.groups[g].combination == st.groups[g].combination
  {
    hide Inv, Evolves, Extends, NodeConfig;
    NodeConfigInv(st, env, g, id);
  }

  lemma NotOnly(st: State, g: ScreenId, id: ScreenId, c: ScreenId)
    requires g in st.groups && id in st.screens && st.screens[id].groupId == g
    requires id in st.groups[g].children && c in st.groups[g].children && c != id
    ensures !OnlyChild(st, id)
  {
    if |st.groups[g].children| == 1 { OneElement(st.groups[g].children, id, c); }
  }

  lemma KeepsGroups(a: State, b: State)
    requires SameGrouping(a, b)
    ensures b.groups == a.groups
  {
  }

  lemma {:induction false} PutInShares(st: State, env: Env, g: ScreenId, taken: seq<Taken>, c: ScreenId)
    requires Inv(st) && Numbered(st) && g in st.groups && c in st.groups[g].children
    requires forall i :: 0 <= i < |taken| ==> taken[i].id != c && Plain(st, [taken[i].id])
    ensures var r := PutIn(st, env, g, taken).0;
            && Numbered(r) && (Unshared(r.displays) <==> Unshared(st.displays))
            && (st.groups[g].combination.SCREEN_MIRROR? ==> r.displays == st.displays)
    decreases |taken|
  {
    hide Inv, Evolves, PutInOne, Plain, Unshared, Numbered;
    if taken != [] {
      var s1 := PutInOne(st, env, g, taken[0]).0;
      PutInOneInv(st, env, g, taken[0]);
      PutInOneShares(st, env, g, taken[0], c);
      var rest := taken[1..];
      forall i | 0 <= i < |rest| ensures rest[i].id != c && Plain(s1, [rest[i].id]) {
        assert rest[i] == taken[i + 1];
        EvolvesPlain(st, s1, [rest[i].id]);
      }
      PutInShares(s1, env, g, rest, c);
    }
  }

  lemma {:induction false} TakeOutLeaves(st: State, env: Env, g: ScreenId, ids: seq<ScreenId>, at: seq<Point>)
    requires |ids| == |at|
    ensures TakeOut(st, env, g, ids, at, false).0 == LeaveAll(st, env, ids)
    decreases |ids|
  {
    if ids != [] {
      assert TakeOutOne(st, env, g, ids[0], false) == Leave(st, env, ids[0]);
      TakeOutLeaves(Leave(st, env, ids[0]), env, g, ids[1..], at[1..]);
      hide TakeOutOne, Leave;
    }
  }

  /** Nobody moves when every listed screen is filtered or in no group. */
  lemma {:induction false} TakeOutNobody(st: State, env: Env, g: ScreenId, ids: seq<ScreenId>, at: seq<Point>, filter: bool)
    requires |ids| == |at|
    requires forall id :: id in ids && Moves(st, g, id, filter) ==> st.screens[id].groupId !in st.groups
    ensures TakeOut(st, env, g, ids, at, filter).0 == st
    decreases |ids|
  {
    hide OnDisconnect;
    if ids != [] {
      assert ids[0] in ids;
      assert TakeOutOne(st, env, g, ids[0], filter) == st;
      hide TakeOutOne, Moves;
      TakeOutNobody(st, env, g, ids[1..], at[1..], filter);
    }
  }

  lemma {:induction false} LeaveAllKeeps(st: State, env: Env, out: seq<ScreenId>, g: ScreenId, c: ScreenId)
    requires Inv(st) && Plain(st, out) && g in st.groups && c in st.groups[g].children && c !in out
    ensures var r := LeaveAll(st, env, out); g in r.groups && c in r.groups[g].children
    decreases |out|
  {
    hide Inv, Evolves, Leave, Plain;
    if out != [] {
      PlainParts(st, out);
      var s1 := Leave(st, env, out[0]);
      LeaveShape(st, env, out[0]);
      EvolvesPlain(st, s1, out[1..]);
      assert c != out[0];
      LeaveAllKeeps(s1, env, out[1..], g, c);
    }
  }

  /** Changing groups shares displays only through those that leave; the group keeps a child c. */
  lemma ChangeShares(st: State, env: Env, g: ScreenId, ids: seq<ScreenId>, at: seq<Point>, filter: bool,
                     combination: Combination, c: ScreenId)
    requires Inv(st) && Numbered(st) && Plain(st, ids) && |ids| == |at|
    requires g in st.groups && c in st.groups[g].children && c !in ids
    ensures var r := ChangeScreenGroup(st, env, g, ids, at, filter, combination).0;
            var s1 := TakeOut(st, env, g, ids, at, filter).0;
            && Numbered(r) && (Unshared(r.displays) <==> Unshared(s1.displays))
            && (filter ==> s1 == st) && (!filter ==> s1 == LeaveAll(st, env, ids))
            && (combination.SCREEN_MIRROR? ==> r.displays == s1.displays)
  {
    hide Inv, Evolves, TakeOut, PutIn, Plain, Unshared, Numbered, LeaveAll;
    var (s1, taken) := TakeOut(st, env, g, ids, at, filter);
    TakeOutInv(st, env, g, ids, at, filter);
    if filter {
      FilteredStay(st, g, ids);
      TakeOutNobody(st, env, g, ids, at, true);
    } else {
      TakeOutLeaves(st, env, g, ids, at);
      LeaveAllInv(st, env, ids);
      LeaveAllKeeps(st, env, ids, g, c);
    }
    var s2 := s1.(groups := s1.groups[g := s1.groups[g].(combination := combination)]);
    CombineInv(s1, g, combination);
    EvolvesPlain(st, s1, ids);
    EvolvesPlain(s1, s2, ids);
    forall i | 0 <= i < |taken| ensures taken[i].id != c && Plain(s2, [taken[i].id]) {
      PlainOne(s2, ids, taken[i].id);
    }
    SameNumbered(s1, s2);
    PutInShares(s2, env, g, taken, c);
  }

  lemma SameNumbered(a: State, b: State)
    requires b.displays == a.displays && b.displayCount == a.displayCount && a.ids.count <= b.ids.count
    ensures Numbered(a) ==> Numbered(b)
  {
  }

  lemma FilteredStay(st: State, g: ScreenId, ids: seq<ScreenId>)
    requires Inv(st) && Plain(st, ids) && g in st.groups
    ensures forall id :: id in ids && Moves(st, g, id, true) ==> st.screens[id].groupId !in st.groups
  {
    forall id | id in ids && Moves(st, g, id, true) ensures st.screens[id].groupId !in st.groups {
      assert ScreenOk(st, id);
      NoInvalidGroup(st);
    }
  }

  // ---------- MakeMirror ----------

  /** The main screen founds a group, and is the default with a display already. */
  ghost predicate Founds(st: State, env: Env, id: ScreenId) {
    && st.callback && st.groups == map[] && KnownDefault(st, env) == id
    && id in st.screens && st.screens[id].mode.Some? && !NoDisplay(st, id)
  }

  /** The main screen of the mirror in its group: what has changed on the way there. */
  ghost predicate Hosted(st: State, env: Env, id: ScreenId, r: State, g: ScreenId) {
    && g in r.groups && id in r.groups[g].children
    && if st.groups == map[] then r.groups[g].children == {id} else
       && g in st.groups && r.groups[g].combination == st.groups[g].combination
       && r.groups[g].children == st.groups[g].children + {id}
       && (r.groups[g].combination.SCREEN_MIRROR? ==>
             && r.displays == st.displays
             && (Receives(r, env) <==> Receives(st, env))
             && (Receives(r, env) ==> KnownDefault(r, env) == KnownDefault(st, env)))
  }

  ghost predicate SameSource(st: State, id: ScreenId, r: State, g: ScreenId) {
    g in st.groups && g in r.groups ==> (r.groups[g].mirrorId == id <==> st.groups[g].mirrorId == id)
  }

  lemma FoundKnown(st: State, env: Env, id: ScreenId)
    requires Inv(st) && st.groups == map[] && id in st.screens
    ensures var r := AddAsFirst(st, env, id).0;
            && KnownDefault(r, env) == KnownDefault(st, env) && r.screens[id].mode == st.screens[id].mode
            && r.groups.Keys == {AddAsFirst(st, env, id).1} && r.groups[AddAsFirst(st, env, id).1].children == {id}
            && st.ids.count <= r.ids.count
  {
    assert ScreenOk(st, id);
  }

  lemma FoundMirror(st: State, env: Env, id: ScreenId)
    requires Inv(st) && Numbered(st) && st.groups == map[] && id in st.screens && !st.screens[id].IsGroup()
    ensures var (r, g) := MirrorGroup(st, env, id);
            && Outcome(st, r, Founds(st, env, id)) && (!Unshared(st.displays) ==> !Unshared(r.displays))
            && Hosted(st, env, id, r, g) && r.callback == st.callback
  {
    hide Inv, Evolves, Extends, SameGrouping, AddAsFirst, Touch, OnConnect, Unshared, NoDisplay, KnownDefault, OnlyChild, Receives;
    var (s1, g) := AddAsFirst(st, env, id);
    FoundAlone(st, env, id);
    FoundKnown(st, env, id);
    AddToGroupInv(st, env, id);
    var s2 := Touch(s1, env, id);
    TouchInv(s1, env, id);
    ExtendsAt(s1, s2, id);
    TouchKnown(s1, env, id, id);
    EqualDisplays(st, s2, id);
    OnlySame(s1, s2, id);
    if s2.callback {
      if Unshared(s2.displays) { OnConnectShares(s2, env, id); }
      OnConnectRetains(s2, env, id);
      OnConnectInv(s2, env, id);
      KeepsGroups(s2, OnConnect(s2, env, id));
      EvolvesCount(s2, OnConnect(s2, env, id));
    }
  }

  lemma OnlySame(a: State, b: State, id: ScreenId)
    requires id in a.screens && id in b.screens && b.screens[id] == a.screens[id] && b.groups == a.groups
    ensures OnlyChild(a, id) <==> OnlyChild(b, id)
  {
  }

  lemma TouchKnown(st: State, env: Env, id: ScreenId, y: ScreenId)
    requires Inv(st) && y in st.screens
    ensures KnownDefault(Touch(st, env, id), env) == y <==> KnownDefault(st, env) == y
  {
    KnownStays(st, env, y);
    hide GetDefault, KnownDefault;
  }

  /** Joining a group: the source of a mirror group does not become the newcomer. */
  ghost predicate Joined(st: State, env: Env, id: ScreenId, r: State, g: ScreenId) {
    && g in st.groups && g in r.groups && r.groups[g].combination == st.groups[g].combination
    && r.groups[g].children == st.groups[g].children + {id} && (r.groups[g].mirrorId == id <==> st.groups[g].mirrorId == id)
    && (forall y :: y in st.screens && y != id ==> y in r.screens && r.screens[y] == st.screens[y])
    && (forall y :: y in st.screens ==> (KnownDefault(r, env) == y <==> KnownDefault(st, env) == y))
    && id in st.screens && id in r.screens && r.screens[id].groupId == g && r.screens[id].mode == st.screens[id].mode
    && r.displays == st.displays && r.displayCount == st.displayCount && r.callback == st.callback
    && st.ids.count <= r.ids.count
  }

  lemma AddChildJoins(st: State, env: Env, g: ScreenId, id: ScreenId, p: Point)
    requires Inv(st) && g in st.groups && Loose(st, id) && GetDefault(st, env).0 == st && GetDefault(st, env).1 != id
    ensures Joined(st, env, id, AddChild(st, env, g, id, p).0, g)
  {
    hide Inv, GetDefault, KnownDefault;
    AddChildNew(st, env, g, id, p);
    assert NodeConfig(st, env, g, id) == st.(groups := st.groups[g := st.groups[g].(
             mirrorId := NodeConfig(st, env, g, id).groups[g].mirrorId)]);
    hide AddChild;
    SameKnown(st, AddChild(st, env, g, id, p).0, env);
  }

  lemma SameKnown(a: State, b: State, env: Env)
    requires b.ids == a.ids && b.defaultRs == a.defaultRs
    ensures KnownDefault(b, env) == KnownDefault(a, env)
  {
  }

  /** A newcomer is accepted exactly when the default has a group. */
  lemma SucceedJoins(st: State, env: Env, id: ScreenId)
    requires Inv(st) && st.groups != map[] && Loose(st, id)
    ensures var (r, g) := AddAsSuccedent(st, env, id);
            var d := KnownDefault(st, env);
            && (g != SCREEN_ID_INVALID <==> d in st.screens && st.screens[d].groupId in st.groups)
            && (g == SCREEN_ID_INVALID ==> r.displays == st.displays && r.displayCount == st.displayCount
                                           && r.callback == st.callback && st.ids.count <= r.ids.count)
            && (g != SCREEN_ID_INVALID ==> d != id && g == st.screens[d].groupId && Joined(st, env, id, r, g))
  {
    hide Inv, Evolves, GetDefault, KnownDefault, AddChild;
    var (s1, d) := GetDefault(st, env);
    LookupInv(st, env);
    LookupGrouped(st, env);
    ExtendsAt(st, s1, id);
    NoInvalidGroup(st);
    LooseExtends(st, s1, id);
    if d in s1.screens && s1.screens[d].groupId in s1.groups {
      var g := s1.screens[d].groupId;
      var p := if s1.groups[g].combination.SCREEN_EXPAND?
               then Point(SumWidths(s1.screens, Ascending(s1.groups[g].children)), 0) else ORIGIN;
      DefaultTwice(st, env);
      AddChildJoins(s1, env, g, id, p);
      forall y | y in st.screens ensures KnownDefault(s1, env) == y <==> KnownDefault(st, env) == y {
        KnownStays(st, env, y);
      }
    }
  }

  lemma LooseExtends(a: State, b: State, id: ScreenId)
    requires Extends(a, b) && Loose(a, id)
    ensures Loose(b, id)
  {
  }

  lemma MirrorIdle(st: State, env: Env, id: ScreenId)
    requires id in st.screens && st.screens[id].groupId in st.groups && !OnlyChild(st, id)
    requires st.groups[st.screens[id].groupId].combination.SCREEN_MIRROR?
    ensures OnConnect(st, env, id) == st
  {
  }

  /** The default is a member already, so a newcomer does not change what it receives. */
  lemma JoinedReceives(st: State, env: Env, id: ScreenId, r: State, g: ScreenId)
    requires Inv(st) && Inv(r) && Loose(st, id) && Joined(st, env, id, r, g) && KnownDefault(st, env) != id
    ensures (Receives(r, env) <==> Receives(st, env))
            && (Receives(r, env) ==> KnownDefault(r, env) == KnownDefault(st, env))
  {
    var d, e := KnownDefault(st, env), KnownDefault(r, env);
    OnlyOneGroup(st, g);
    OnlyOneGroup(r, g);
    NoInvalidGroup(st);
    if d in st.screens { assert ScreenOk(st, d); }
    if e in r.screens {
      assert ScreenOk(r, e);
      if e in st.screens { assert ScreenOk(st, e); }
    }
    assert GroupOk(st, g);
    hide KnownDefault, Inv;
  }

  lemma TouchJoins(st: State, env: Env, id: ScreenId, s1: State, g: ScreenId)
    requires Inv(st) && Inv(s1) && Joined(st, env, id, s1, g)
    ensures Inv(Touch(s1, env, id)) && Joined(st, env, id, Touch(s1, env, id), g)
  {
    hide Inv, Evolves, KnownDefault, Touch;
    TouchInv(s1, env, id);
    forall y | y in st.screens ensures KnownDefault(Touch(s1, env, id), env) == y <==> KnownDefault(s1, env) == y {
      assert y in s1.screens;
      TouchKnown(s1, env, id, y);
    }
  }

  /** The callback for a newcomer neither shares nor, in a mirror group, changes anything. */
  lemma CallbackJoins(st: State, env: Env, id: ScreenId, s2: State, g: ScreenId)
    requires Inv(st) && Inv(s2) && Numbered(st) && Loose(st, id) && Joined(st, env, id, s2, g)
    requires KnownDefault(st, env) != id
    ensures var r := if s2.callback then OnConnect(s2, env, id) else s2;
            && Outcome(st, r, false) && (!Unshared(st.displays) ==> !Unshared(r.displays))
            && r.callback == st.callback && Hosted(st, env, id, r, g) && SameSource(st, id, r, g)
  {
    hide Inv, Evolves, Extends, OnConnect, Unshared, KnownDefault, OnlyChild, Receives, NoDisplay;
    JoinedReceives(st, env, id, s2, g);
    SameNumbered(st, s2);
    var c := OtherChild(st, g, id);
    NotOnly(s2, g, id, c);
    if s2.callback {
      if Unshared(s2.displays) { OnConnectShares(s2, env, id); }
      OnConnectRetains(s2, env, id);
      OnConnectInv(s2, env, id);
      EvolvesCount(s2, OnConnect(s2, env, id));
      if s2.groups[g].combination.SCREEN_MIRROR? { MirrorIdle(s2, env, id); }
    }
  }

  lemma OtherChild(st: State, g: ScreenId, id: ScreenId) returns (c: ScreenId)
    requires Inv(st) && g in st.groups && Loose(st, id)
    ensures c in st.groups[g].children && c != id
  {
    assert GroupOk(st, g);
    NoInvalidGroup(st);
    c := Pick(st.groups[g].children);
  }

  lemma SucceedMirror(st: State, env: Env, id: ScreenId)
    requires Inv(st) && Numbered(st) && st.groups != map[] && Loose(st, id)
    ensures var (r, g) := MirrorGroup(st, env, id);
            && Outcome(st, r, false) && (!Unshared(st.displays) ==> !Unshared(r.displays)) && r.callback == st.callback
            && (g in r.groups ==> Hosted(st, env, id, r, g) && SameSource(st, id, r, g))
            && (Receives(st, env) ==> g in r.groups)
  {
    hide Inv, Evolves, AddAsSuccedent, Touch, OnConnect, Unshared, KnownDefault, Joined;
    NoInvalidGroup(st);
    var (s1, g) := AddAsSuccedent(st, env, id);
    SucceedJoins(st, env, id);
    AddToGroupInv(st, env, id);
    NoInvalidGroup(s1);
    if g == SCREEN_ID_INVALID {
      SameNumbered(st, s1);
    } else {
      TouchJoins(st, env, id, s1, g);
      CallbackJoins(st, env, id, Touch(s1, env, id), g);
    }
  }

  lemma PilesFrame(a: State, b: State, env: Env, leavers: set<ScreenId>)
    requires b.displays == a.displays && (Receives(b, env) <==> Receives(a, env))
    requires Receives(b, env) ==> KnownDefault(b, env) == KnownDefault(a, env)
    requires forall y :: y in leavers ==> (Gives(b, y) <==> Gives(a, y))
    ensures Piles(b, env, leavers) <==> Piles(a, env, leavers)
  {
    hide KnownDefault, Receives, Gives;
    assert forall y :: NoDisplay(b, y) <==> NoDisplay(a, y);
  }

  lemma PilesNeeds(st: State, env: Env, leavers: set<ScreenId>)
    requires Inv(st) && Piles(st, env, leavers)
    ensures Receives(st, env) && AllMirror(st) && st.groups != map[]
  {
    ReceivesMirror(st, env);
  }

  /** The listed screens leave a mirror group when another screen becomes its source. */
  ghost predicate MirrorPiles(st: State, env: Env, id: ScreenId, ids: seq<ScreenId>) {
    && st.callback && (forall g :: g in st.groups ==> st.groups[g].mirrorId != id)
    && Piles(st, env, Before(ids, KnownDefault(st, env)))
  }

  lemma MirrorGroupHosts(st: State, env: Env, id: ScreenId)
    requires Inv(st) && Numbered(st) && id in st.screens && !st.screens[id].IsGroup()
    ensures var (r, g) := MirrorGroup(st, env, id);
            && Inv(r) && Evolves(st, r) && Outcome(st, r, Founds(st, env, id))
            && (!Unshared(st.displays) ==> !Unshared(r.displays)) && r.callback == st.callback
            && (g in r.groups ==> Hosted(st, env, id, r, g) && SameSource(st, id, r, g))
            && (st.groups == map[] || Receives(st, env) ==> g in r.groups)
  {
    hide Inv, Evolves, AddToGroup, Touch, OnConnect, Unshared, KnownDefault;
    MirrorGroupInv(st, env, id);
    NoInvalidGroup(st);
    if st.screens[id].groupId in st.groups {
      StaysHosted(st, env, id);
    } else if st.groups == map[] {
      hide MirrorGroup;
      FoundMirror(st, env, id);
    } else {
      UngroupedLoose(st, id);
      hide MirrorGroup;
      SucceedMirror(st, env, id);
    }
  }

  lemma UngroupedLoose(st: State, id: ScreenId)
    requires Inv(st) && id in st.screens && !st.screens[id].IsGroup() && st.screens[id].groupId !in st.groups
    ensures Loose(st, id)
  {
    assert ScreenOk(st, id);
  }

  lemma StaysHosted(st: State, env: Env, id: ScreenId)
    requires Inv(st) && id in st.screens && !st.screens[id].IsGroup() && st.screens[id].groupId in st.groups
    ensures Hosted(st, env, id, st, st.screens[id].groupId) && SameSource(st, id, st, st.screens[id].groupId)
  {
    assert ScreenOk(st, id);
    NoInvalidGroup(st);
    var g := st.screens[id].groupId;
    assert st.groups[g].children + {id} == st.groups[g].children;
    hide Receives, KnownDefault, Inv;
  }

  lemma GroupedMeans(st: State, g: ScreenId, y: ScreenId)
    requires Inv(st) && g in st.groups && y in st.screens && !st.screens[y].IsGroup()
    ensures InGroup(st, y) <==> y in st.groups[g].children
    ensures st.screens[y].groupId in st.groups <==> InGroup(st, y)
  {
    assert ScreenOk(st, y);
    NoInvalidGroup(st);
    assert GroupOk(st, g);
  }

  /** The main screen joining changes nothing about who gives and who receives. */
  lemma HostedPiles(st: State, env: Env, id: ScreenId, ids: seq<ScreenId>, s2: State, g: ScreenId)
    requires Inv(st) && Inv(s2) && st.groups != map[] && Hosted(st, env, id, s2, g) && Plain(st, ids) && Plain(s2, ids)
    requires id !in ids && s2.groups[g].combination.SCREEN_MIRROR?
    ensures Piles(s2, env, Before(ids, KnownDefault(s2, env))) <==> Piles(st, env, Before(ids, KnownDefault(st, env)))
  {
    hide Inv, KnownDefault, Receives;
    if Receives(st, env) {
      var leavers := Before(ids, KnownDefault(st, env));
      BeforePlain(st, ids, KnownDefault(st, env));
      BeforePlain(s2, ids, KnownDefault(st, env));
      forall y | y in leavers ensures Gives(s2, y) <==> Gives(st, y) {
        GroupedMeans(st, g, y);
        GroupedMeans(s2, g, y);
        assert y in ids;
        assert NoDisplay(s2, y) <==> NoDisplay(st, y);
      }
      PilesFrame(st, s2, env, leavers);
    }
  }

  lemma HostedSource(st: State, env: Env, id: ScreenId, s1: State, s2: State, g: ScreenId)
    requires Hosted(st, env, id, s1, g) && s2 == s1.(groups := s1.groups[g := s1.groups[g].(mirrorId := id)])
    ensures Hosted(st, env, id, s2, g)
  {
    SameKnown(s1, s2, env);
    hide KnownDefault;
  }

  lemma MoversShare(st: State, env: Env, id: ScreenId, ids: seq<ScreenId>, s2: State, g: ScreenId, filter: bool, t: State)
    requires Inv(st) && Inv(s2) && Numbered(s2) && Hosted(st, env, id, s2, g) && Plain(st, ids) && Plain(s2, ids)
    requires id !in ids && s2.callback == st.callback && Outcome(st, s2, Founds(st, env, id)) && Unshared(st.displays)
    requires st.groups != map[] && s2.groups[g].combination.SCREEN_MIRROR? ==> (filter <==> st.groups[g].mirrorId == id)
    requires filter ==> s2.groups[g].combination.SCREEN_MIRROR?
    requires t == if filter then s2 else LeaveAll(s2, env, ids)
    requires st.groups == map[] ==> t == s2
    ensures Unshared(t.displays) <==> !(Founds(st, env, id) || MirrorPiles(st, env, id, ids))
    ensures MirrorPiles(st, env, id, ids) ==> Doubled(t, KnownDefault(st, env))
  {
    hide Inv, Evolves, Plain, Unshared, KnownDefault, Receives, Piles, LeaveAll, Doubled;
    if Piles(st, env, Before(ids, KnownDefault(st, env))) { PilesNeeds(st, env, Before(ids, KnownDefault(st, env))); }
    if st.groups != map[] {
      OnlyOneGroup(st, g);
      if !filter {
        LeaveAllInv(s2, env, ids);
        if st.callback {
          LeaveAllShares(s2, env, ids);
          if s2.groups[g].combination.SCREEN_MIRROR? {
            HostedPiles(st, env, id, ids, s2, g);
            if Piles(s2, env, Before(ids, KnownDefault(s2, env))) { PilesNeeds(s2, env, Before(ids, KnownDefault(s2, env))); }
          } else if Piles(s2, env, Before(ids, KnownDefault(s2, env))) {
            PilesNeeds(s2, env, Before(ids, KnownDefault(s2, env)));
          }
        }
      }
    }
  }

  lemma FounderAlone(st: State, env: Env, id: ScreenId, ids: seq<ScreenId>, s2: State, g: ScreenId, filter: bool)
    requires Inv(s2) && g in s2.groups && s2.groups[g].children == {id} && Plain(s2, ids) && id !in ids
    ensures TakeOut(s2, env, g, ids, Origins(|ids|), filter).0 == s2
  {
    hide Inv, TakeOut;
    forall y | y in ids && Moves(s2, g, y, filter) ensures s2.screens[y].groupId !in s2.groups {
      GroupedMeans(s2, g, y);
    }
    TakeOutNobody(s2, env, g, ids, Origins(|ids|), filter);
  }

  /** MakeMirror leaves two displays on one screen if and only if its main screen founds a group as a default
      with a display, or the screens that leave the mirror group pile up on the default. */
  lemma MakeMirrorShares(st: State, env: Env, id: ScreenId, ids: seq<ScreenId>)
    requires Inv(st) && Numbered(st) && Plain(st, ids) && id !in ids
    ensures var main := id in st.screens && st.screens[id].kind.REAL?;
            && Outcome(st, MakeMirror(st, env, id, ids).0,
                       main && (Founds(st, env, id) || MirrorPiles(st, env, id, ids)))
            && (main && Unshared(st.displays) && MirrorPiles(st, env, id, ids) ==>
                  Doubled(MakeMirror(st, env, id, ids).0, KnownDefault(st, env)))
  {
    hide Inv, Evolves, MirrorGroup, ChangeScreenGroup, Plain, Unshared, KnownDefault, Receives, Founds, Piles, TakeOut, Doubled;
    if id in st.screens && st.screens[id].kind.REAL? {
      var (s1, g) := MirrorGroup(st, env, id);
      MirrorGroupHosts(st, env, id);
      if Piles(st, env, Before(ids, KnownDefault(st, env))) { PilesNeeds(st, env, Before(ids, KnownDefault(st, env))); }
      if g in s1.groups {
        var filter := s1.groups[g].combination.SCREEN_MIRROR? && s1.groups[g].mirrorId == id;
        var s2 := s1.(groups := s1.groups[g := s1.groups[g].(mirrorId := id)]);
        SourceInv(s1, g, id);
        EvolvesPlain(st, s1, ids);
        PlainShape(s1, s2, ids);
        SameNumbered(s1, s2);
        ChangeShares(s2, env, g, ids, Origins(|ids|), filter, SCREEN_MIRROR, id);
        HostedSource(st, env, id, s1, s2, g);
        if st.groups == map[] { FounderAlone(st, env, id, ids, s2, g, filter); }
        if Unshared(st.displays) {
          var t := TakeOut(s2, env, g, ids, Origins(|ids|), filter).0;
          MoversShare(st, env, id, ids, s2, g, filter, t);
          SameDoubled(t, MakeMirror(st, env, id, ids).0, KnownDefault(st, env));
        }
      }
    }
  }

  // ---------- Disconnecting ----------

  lemma MakeMirrorPersists(st: State, env: Env, d: ScreenId, ids: seq<ScreenId>)
    requires Inv(st) && Numbered(st) && Plain(st, ids) && d !in ids && d in st.screens && !st.screens[d].IsGroup()
    requires st.screens[d].groupId in st.groups && KnownDefault(st, env) == d && Doubled(st, d) && AllMirror(st)
    ensures Doubled(MakeMirror(st, env, d, ids).0, d)
  {
    hide Inv, Evolves, ChangeScreenGroup, Plain, Unshared, KnownDefault, Doubled, TakeOut;
    var g := st.screens[d].groupId;
    GroupedMeans(st, g, d);
    var filter := st.groups[g].combination.SCREEN_MIRROR? && st.groups[g].mirrorId == d;
    var s2 := st.(groups := st.groups[g := st.groups[g].(mirrorId := d)]);
    SourceInv(st, g, d);
    PlainShape(st, s2, ids);
    SameNumbered(st, s2);
    ChangeShares(s2, env, g, ids, Origins(|ids|), filter, SCREEN_MIRROR, d);
    SameKnown(st, s2, env);
    SameDoubled(st, s2, d);
    if !filter {
      LeaveAllPersists(s2, env, ids, d);
    }
    if st.screens[d].kind.REAL? {
      assert MirrorGroup(st, env, d) == (st, g);
      assert MakeMirror(st, env, d, ids).0 == ChangeScreenGroup(s2, env, g, ids, Origins(|ids|), filter, SCREEN_MIRROR).0;
      SameDoubled(TakeOut(s2, env, g, ids, Origins(|ids|), filter).0, MakeMirror(st, env, d, ids).0, d);
    } else {
      assert MakeMirror(st, env, d, ids).0 == st;
    }
  }

  lemma SameDoubled(a: State, b: State, d: ScreenId)
    requires b.displays == a.displays
    ensures Doubled(a, d) ==> Doubled(b, d)
  {
  }

  /** The children of a mirror group leave with its source and come back, except a real default, which becomes
      the source. */
  ghost predicate RemirrorPiles(st: State, env: Env, g: ScreenId, gone: ScreenId) {
    var d := KnownDefault(st, env);
    && st.callback && g in st.groups && st.groups[g].mirrorId == gone
    && d in st.screens && st.screens[d].kind.REAL? && Piles(st, env, st.groups[g].children - {d})
  }

  /** Before the default a list without it is the whole list. */
  lemma {:induction false} BeforeAll(ids: seq<ScreenId>, d: ScreenId)
    requires d !in ids
    ensures forall x :: x in Before(ids, d) <==> x in ids
    decreases |ids|
  {
    if ids != [] { BeforeAll(ids[1..], d); }
  }

  lemma PilesOver(st: State, env: Env, a: set<ScreenId>, b: set<ScreenId>)
    requires forall x :: x in a <==> x in b
    ensures Piles(st, env, a) <==> Piles(st, env, b)
  {
    hide Receives, KnownDefault, Gives, NoDisplay;
  }

  lemma ExtendsPiles(a: State, b: State, env: Env, leavers: set<ScreenId>)
    requires Inv(a) && Inv(b) && Extends(a, b) && a.groups != map[] && b == GetDefault(a, env).0
    requires forall y :: y in leavers ==> y in a.screens
    ensures Piles(b, env, leavers) <==> Piles(a, env, leavers)
    ensures Receives(b, env) <==> Receives(a, env)
    ensures Receives(a, env) ==> KnownDefault(b, env) == KnownDefault(a, env)
  {
    var d, e := KnownDefault(a, env), KnownDefault(b, env);
    if d in a.screens { KnownStays(a, env, d); }
    if e in a.screens { KnownStays(a, env, e); }
    NoInvalidGroup(b);
    if e in b.screens { assert ScreenOk(b, e); }
    assert forall g, c :: g in a.groups && c in a.groups[g].children ==> c in a.screens by {
      forall g, c | g in a.groups && c in a.groups[g].children ensures c in a.screens { assert GroupOk(a, g); }
    }
    hide KnownDefault, Inv, GetDefault;
    PilesFrame(a, b, env, leavers);
  }

  lemma RemirrorShares(st: State, env: Env, g: ScreenId, gone: ScreenId)
    requires Inv(st) && Numbered(st) && gone !in st.screens
    ensures Outcome(st, Remirror(st, env, g, gone), RemirrorPiles(st, env, g, gone))
    ensures Unshared(st.displays) && RemirrorPiles(st, env, g, gone) ==>
              Doubled(Remirror(st, env, g, gone), KnownDefault(st, env))
  {
    hide Inv, Evolves, GetDefault, MakeMirror, Unshared, KnownDefault, Plain, Piles, Receives, Founds, Extends, Doubled;
    if g in st.groups {
      var (s1, d) := GetDefault(st, env);
      LookupInv(st, env);
      LookupSame(st, env);
      SameNumbered(st, s1);
      var ids := Without(Ascending(st.groups[g].children), d);
      ChildrenPlain(s1, g, d);
      WithoutIn(Ascending(st.groups[g].children), d);
      if st.groups[g].combination.SCREEN_EXPAND? {
        if RemirrorPiles(st, env, g, gone) { PilesNeeds(st, env, st.groups[g].children - {KnownDefault(st, env)}); }
      } else if st.groups[g].mirrorId == gone {
        MakeMirrorShares(s1, env, d, ids);
        NoFounder(s1, env, d);
        RemirrorMeans(st, env, g, gone, s1, d, ids);
      }
    }
  }

  lemma LookupSame(st: State, env: Env)
    requires Inv(st) && st.groups != map[]
    ensures var s1 := GetDefault(st, env).0;
            && s1.displays == st.displays && s1.displayCount == st.displayCount && s1.callback == st.callback
            && s1.groups == st.groups && st.ids.count <= s1.ids.count
  {
    LookupInv(st, env);
    hide GetDefault, Inv;
  }

  lemma NoFounder(st: State, env: Env, id: ScreenId)
    requires st.groups != map[]
    ensures !Founds(st, env, id)
  {
  }

  lemma RemirrorMeans(st: State, env: Env, g: ScreenId, gone: ScreenId, s1: State, d: ScreenId, ids: seq<ScreenId>)
    requires Inv(st) && Inv(s1) && g in st.groups && (s1, d) == GetDefault(st, env) && Extends(st, s1)
    requires st.groups[g].mirrorId == gone && gone !in st.screens
    requires forall x :: x in ids <==> x in st.groups[g].children && x != d
    ensures RemirrorPiles(st, env, g, gone) ==> KnownDefault(s1, env) == KnownDefault(st, env)
    ensures RemirrorPiles(st, env, g, gone) <==>
              (d in s1.screens && s1.screens[d].kind.REAL? && MirrorPiles(s1, env, d, ids))
  {
    hide Inv, Evolves, GetDefault, KnownDefault, Piles, Receives;
    var k, e := KnownDefault(st, env), KnownDefault(s1, env);
    var leavers := st.groups[g].children - {k};
    assert forall y :: y in leavers ==> y in st.screens by { ChildrenKnown(st, g); }
    ExtendsPiles(st, s1, env, leavers);
    OnlyOneGroup(s1, g);
    if Piles(st, env, leavers) { PilesNeeds(st, env, leavers); }
    if Piles(s1, env, Before(ids, e)) { PilesNeeds(s1, env, Before(ids, e)); }
    if Receives(st, env) {
      ReceiverFound(st, env);
      BeforeAll(ids, k);
      PilesOver(s1, env, Before(ids, k), leavers);
    }
  }

  lemma ReceiverFound(st: State, env: Env)
    requires Inv(st) && Receives(st, env)
    ensures var (s1, d) := GetDefault(st, env);
            && d == KnownDefault(st, env) && d in st.screens && d in s1.screens && s1.screens[d] == st.screens[d]
            && d in st.groups[st.screens[d].groupId].children
  {
    HousedKnown(st, env);
    hide KnownDefault, GetDefault;
  }

  lemma ChildrenKnown(st: State, g: ScreenId)
    requires Inv(st) && g in st.groups
    ensures forall y :: y in st.groups[g].children ==> y in st.screens
  {
    assert GroupOk(st, g);
  }

  lemma RemirrorPersists(st: State, env: Env, g: ScreenId, gone: ScreenId, d: ScreenId)
    requires Inv(st) && Numbered(st) && Receives(st, env) && KnownDefault(st, env) == d && Doubled(st, d)
    ensures Doubled(Remirror(st, env, g, gone), d)
  {
    hide Inv, Evolves, GetDefault, MakeMirror, Unshared, KnownDefault, Plain, Receives, Extends, Doubled;
    ReceivesMirror(st, env);
    ReceivesKnown(st, env);
    if g in st.groups {
      var s1 := GetDefault(st, env).0;
      LookupInv(st, env);
      LookupSame(st, env);
      SameNumbered(st, s1);
      ReceiverFound(st, env);
      SameDoubled(st, s1, d);
      KnownStays(st, env, d);
      ChildrenPlain(s1, g, d);
      WithoutIn(Ascending(st.groups[g].children), d);
      MakeMirrorPersists(s1, env, d, Without(Ascending(st.groups[g].children), d));
    }
  }

  /** Who leaves the group when x is disconnected: x, and if it was the source that a real default then
      replaces, all children but that default. */
  ghost function Goers(st: State, env: Env, x: ScreenId): set<ScreenId>
    requires x in st.screens
  {
    var d := KnownDefault(st, env);
    if x == d then {} else {x} + Followers(st, env, x)
  }

  ghost function Followers(st: State, env: Env, x: ScreenId): set<ScreenId>
    requires x in st.screens
  {
    var d, g := KnownDefault(st, env), st.screens[x].groupId;
    if InGroup(st, x) && st.groups[g].mirrorId == x && d in st.screens && st.screens[d].kind.REAL?
    then st.groups[g].children - {d} else {}
  }

  /** A disconnected screen leaves its mirror group, unless it is kept as the default, and its display and those
      of its followers pile up. */
  ghost predicate UnplugPiles(st: State, env: Env, rs: ScreenId) {
    && rs in st.ids.rs2Dms && st.ids.rs2Dms[rs] in st.screens && st.callback
    && !(InGroup(st, st.ids.rs2Dms[rs]) && rs == st.defaultRs)
    && Piles(st, env, Goers(st, env, st.ids.rs2Dms[rs]))
  }

  lemma ErasedReceives(st: State, env: Env, x: ScreenId, r: State)
    requires Inv(st) && x in st.screens && st.screens[x].groupId == SCREEN_ID_INVALID && r == st.(screens := st.screens - {x})
    ensures Receives(r, env) <==> Receives(st, env)
    ensures KnownDefault(r, env) == KnownDefault(st, env)
    ensures Receives(st, env) ==> KnownDefault(st, env) != x
  {
    NoInvalidGroup(st);
    SameKnown(st, r, env);
    hide KnownDefault, Inv;
  }

  /** What is left to pile up after x has gone, seen before and after it is forgotten. */
  lemma FollowersPile(st: State, env: Env, x: ScreenId, s2: State, s3: State, g: ScreenId)
    requires Inv(st) && Inv(s2) && Inv(s3) && x in st.screens && !st.screens[x].IsGroup() && s2 == Leave(st, env, x)
    requires LeftBy(st, s2, x) && s3 == s2.(screens := s2.screens - {x})
    requires g == if InGroup(st, x) then st.screens[x].groupId else SCREEN_ID_INVALID
    requires x != KnownDefault(st, env) && st.callback
    ensures RemirrorPiles(s3, env, g, x) <==> Piles(s2, env, Followers(st, env, x))
  {
    hide Inv, Evolves, Leave, KnownDefault, NoDisplay;
    LeaveReceives(st, env, x);
    ErasedReceives(s2, env, x, s3);
    NoInvalidGroup(s3);
    var d := KnownDefault(st, env);
    if Receives(s2, env) {
      ReceivesKnown(st, env);
      assert KnownDefault(s3, env) == d && d in s3.screens && s3.screens[d] == st.screens[d];
      if InGroup(st, x) && st.groups[g].mirrorId == x && st.screens[d].kind.REAL? {
        OneGroup(st, env, x);
        FollowersFrame(st, env, x, s2, s3, g, d);
      }
    }
  }

  lemma ReceivesKnown(st: State, env: Env)
    requires Inv(st) && Receives(st, env)
    ensures var d := KnownDefault(st, env);
            && d in st.screens && !st.screens[d].IsGroup() && st.screens[d].groupId in st.groups
            && d in st.groups[st.screens[d].groupId].children
  {
    ReceivesMirror(st, env);
    GroupedDefault(st, KnownDefault(st, env));
  }

  lemma FollowersFrame(st: State, env: Env, x: ScreenId, s2: State, s3: State, g: ScreenId, d: ScreenId)
    requires Inv(s2) && Receives(s2, env) && LeftBy(st, s2, x) && s3 == s2.(screens := s2.screens - {x}) && g in s2.groups
    requires Receives(s3, env) && KnownDefault(s2, env) == d && KnownDefault(s3, env) == d
    ensures Piles(s3, env, s3.groups[g].children - {d}) <==> Piles(s2, env, st.groups[g].children - {d})
  {
    hide Inv, KnownDefault, Receives;
    assert forall y :: NoDisplay(s3, y) <==> NoDisplay(s2, y);
    assert !Gives(s2, x) by { NotGrouped(s2, x); }
    hide NoDisplay;
    assert forall y :: y != x ==> (Gives(s3, y) <==> Gives(s2, y));
    assert forall y :: y != x ==> (y in s3.groups[g].children <==> y in st.groups[g].children);
    assert !Gives(s3, x);
    hide Gives;
  }

  lemma UnplugShares(st: State, env: Env, x: ScreenId, s2: State, s3: State, g: ScreenId)
    requires Inv(st) && Numbered(st) && Inv(s3) && x in st.screens && !st.screens[x].IsGroup() && s2 == Leave(st, env, x)
    requires s3 == s2.(screens := s2.screens - {x})
    requires g == if InGroup(st, x) then st.screens[x].groupId else SCREEN_ID_INVALID
    ensures Outcome(st, Remirror(s3, env, g, x), st.callback && Piles(st, env, Goers(st, env, x)))
    ensures st.callback && Unshared(st.displays) && Piles(st, env, Goers(st, env, x)) ==>
              Doubled(Remirror(s3, env, g, x), KnownDefault(st, env))
  {
    hide Inv, Evolves, Leave, LeftBy, Remirror, Unshared, KnownDefault, Receives, Piles, Doubled;
    var d := KnownDefault(st, env);
    LeaveShape(st, env, x);
    LeftCallback(st, s2, x);
    LeaveNumbered(st, env, x);
    LeaveReceives(st, env, x);
    SameNumbered(s2, s3);
    RemirrorShares(s3, env, g, x);
    ErasedReceives(s2, env, x, s3);
    if x == d {
      NobodyPiles(st, env);
      LeaveStep(st, env, x, {});
      NobodyReceives(s3, env, g, x);
    } else if st.callback {
      FollowersKnown(st, env, x);
      LeaveStep(st, env, x, Followers(st, env, x));
      FollowersPile(st, env, x, s2, s3, g);
      if Piles(st, env, Goers(st, env, x)) { PilesNeeds(st, env, Goers(st, env, x)); }
      if Unshared(st.displays) && !Unshared(s2.displays) {
        SameDoubled(s2, s3, d);
        RemirrorPersists(s3, env, g, x, d);
        DoubledShares(Remirror(s3, env, g, x), d);
      }
    }
  }

  lemma LeftCallback(a: State, b: State, x: ScreenId)
    requires LeftBy(a, b, x)
    ensures b.callback == a.callback && a.ids.count <= b.ids.count && x in b.screens && b.screens[x].groupId == SCREEN_ID_INVALID
  {
  }

  lemma NobodyPiles(st: State, env: Env)
    ensures !Piles(st, env, {})
  {
  }

  lemma NobodyReceives(st: State, env: Env, g: ScreenId, gone: ScreenId)
    requires !Receives(st, env)
    ensures !RemirrorPiles(st, env, g, gone)
  {
    hide Receives;
  }

  lemma FollowersKnown(st: State, env: Env, x: ScreenId)
    requires Inv(st) && x in st.screens
    ensures forall y :: y in Followers(st, env, x) ==> y in st.screens && !st.screens[y].IsGroup()
    ensures KnownDefault(st, env) !in Followers(st, env, x)
  {
    var g := st.screens[x].groupId;
    if g in st.groups { assert GroupOk(st, g); }
  }

  lemma RemovedGroup(st: State, x: ScreenId)
    requires Inv(st) && x in st.screens && !st.screens[x].IsGroup()
    ensures RemoveFromGroup(st, x).1 == if InGroup(st, x) then st.screens[x].groupId else SCREEN_ID_INVALID
  {
    assert ScreenOk(st, x);
    NoInvalidGroup(st);
    hide Inv;
  }

  lemma DisconnectShares(st: State, env: Env, rs: ScreenId)
    requires Inv(st) && Numbered(st)
    ensures Outcome(st, Disconnect(st, env, rs), UnplugPiles(st, env, rs))
    ensures Unshared(st.displays) && UnplugPiles(st, env, rs) ==> Doubled(Disconnect(st, env, rs), KnownDefault(st, env))
  {
    hide Inv, Evolves, OnDisconnect, RemoveFromGroup, Remirror, Unshared, KnownDefault, Receives, Piles, Goers, Doubled;
    if rs in st.ids.rs2Dms && st.ids.rs2Dms[rs] in st.screens
       && !(st.callback && InGroup(st, st.ids.rs2Dms[rs]) && rs == st.defaultRs) {
      var x := st.ids.rs2Dms[rs];
      MappedPlain(st, rs);
      var s1 := if st.callback && InGroup(st, x) then OnDisconnect(st, env, x) else st;
      DropInv(st, env, x);
      var (s2, g) := RemoveFromGroup(s1, x);
      var s3 := s2.(screens := s2.screens - {x});
      LeaveShape(st, env, x);
      EraseScreenInv(s2, x);
      RemovedGroup(s1, x);
      UnplugShares(st, env, x, s2, s3, g);
      SameNumbered(Remirror(s3, env, g, x), Disconnect(st, env, rs));
      SameDoubled(Remirror(s3, env, g, x), Disconnect(st, env, rs), KnownDefault(st, env));
    }
  }
}

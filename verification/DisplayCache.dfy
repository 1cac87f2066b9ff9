/** The client's cache of display information. */
module DisplayCache {
  import opened DmTypes

  /** A display id as the client sees it; DISPLAY_ID_INVALID is the all-ones id. */
  type Id = int
  const DISPLAY_ID_INVALID: Id := -1

  const SCB_GET_DISPLAY_INTERVAL_US := 5000
  const APP_GET_DISPLAY_INTERVAL_US := 25000

  /** What the server answered, and when it did, in nanoseconds of the steady clock. */
  datatype Info = Info(id: Id, at: int, data: nat)

  /** A display entry may hold a null pointer. */
  datatype Cache = Cache(displays: map<Id, Option<Info>>, updated: map<Id, int>, need: bool)

  const EMPTY := Cache(map[], map[], false)

  /** Get: GetDisplayById, with the answer the server gives if it is asked. Fetch: the other getters, when
      they ask the server. Changed: a display was created or changed. */
  datatype Event =
    | Get(id: Id, now: int, answer: Option<Info>)
    | Fetch(info: Info)
    | Changed
    | Destroyed(id: Id)

  /** The whole microseconds of a duration, truncated towards zero. */
  function Micros(d: int): int {
    if d >= 0 then d / 1000 else -(-d / 1000)
  }

  predicate Hits(c: Cache, interval: nat, id: Id, now: int) {
    && id != DISPLAY_ID_INVALID && id in c.updated
    && Micros(now - c.updated[id]) < interval && !c.need
    && id in c.displays
  }

  predicate Valid(answer: Option<Info>) {
    answer.Some? && answer.value.id != DISPLAY_ID_INVALID
  }

  /** Reading a missing key of the map inserts a null pointer. */
  function Read(displays: map<Id, Option<Info>>, id: Id): map<Id, Option<Info>> {
    if id in displays then displays else displays[id := None]
  }

  /** A fetch for an id, with the answer of the server. */
  function Stored(c: Cache, id: Id, now: int, info: Info): Cache {
    if info.id == DISPLAY_ID_INVALID then c.(displays := c.displays - {id}, updated := c.updated - {id})
    else Cache(Read(c.displays[info.id := Some(info)], id), c.updated[id := now], false)
  }

  function Step(c: Cache, interval: nat, e: Event): Cache {
    match e
    case Get(id, now, answer) =>
      if Hits(c, interval, id, now) || answer.None? then c else Stored(c, id, now, answer.value)
    case Fetch(info) =>
      if info.id == DISPLAY_ID_INVALID then c.(displays := c.displays - {info.id})
      else c.(displays := c.displays[info.id := Some(info)])
    case Changed => c.(need := true)
    case Destroyed(id) => c.(displays := c.displays - {id})
  }

  /** What GetDisplayById returns: null, or a display with this information. */
  function Got(c: Cache, interval: nat, id: Id, now: int, answer: Option<Info>): Option<Info> {
    if Hits(c, interval, id, now) then c.displays[id]
    else if Valid(answer) then Stored(c, id, now, answer.value).displays[id]
    else None
  }

  function Run(c: Cache, interval: nat, es: seq<Event>): Cache
    decreases |es|
  {
    if es == [] then c else Run(Step(c, interval, es[0]), interval, es[1..])
  }

  // ---------- The objects ----------

  class Display {
    var info: Info

    constructor (info: Info)
      ensures this.info == info
    {
      this.info := info;
    }
  }

  class DisplayManagerImpl {
    var displayMap: map<Id, Display?>
    var displayUpdateTimeMap: map<Id, int>
    var needUpdateDisplayFromDMS: bool
    const interval: nat

    static ghost function InfoOf(d: Display?): Option<Info>
      reads d
    {
      if d == null then None else Some(d.info)
    }

    /** Two entries never share a display object. */
    ghost predicate Distinct()
      reads this`displayMap
    {
      forall a, b :: a in displayMap && b in displayMap && displayMap[a] != null && displayMap[a] == displayMap[b] ==> a == b
    }

    ghost function Objects(): set<Display?>
      reads this`displayMap
    {
      displayMap.Values
    }

    ghost function Infos(): (m: map<Id, Option<Info>>)
      reads this`displayMap, Objects()
    {
      map id | id in displayMap :: InfoOf(displayMap[id])
    }

    ghost function View(): Cache
      reads this, Objects()
    {
      Cache(Infos(), displayUpdateTimeMap, needUpdateDisplayFromDMS)
    }

    constructor (isSceneBoard: bool)
      ensures Distinct() && View() == EMPTY && fresh(Objects())
      ensures interval == if isSceneBoard then SCB_GET_DISPLAY_INTERVAL_US else APP_GET_DISPLAY_INTERVAL_US
    {
      displayMap, displayUpdateTimeMap, needUpdateDisplayFromDMS := map[], map[], false;
      interval := if isSceneBoard then SCB_GET_DISPLAY_INTERVAL_US else APP_GET_DISPLAY_INTERVAL_US;
    }

    /** A display object that is cached already is updated in place, so whoever holds it sees the change. */
    method UpdateDisplayInfoLocked(info: Info) returns (ok: bool)
      requires Distinct()
      modifies this`displayMap, Objects()
      ensures Distinct() && fresh(Objects() - old(Objects()) - {null})
      ensures ok == (info.id != DISPLAY_ID_INVALID)
      ensures Infos() == if ok then old(Infos())[info.id := Some(info)] else old(Infos())
    {
      if info.id == DISPLAY_ID_INVALID {
        return false;
      }
      if info.id in displayMap {
        var d := displayMap[info.id];
        if d != null {
          d.info := info;
          assert forall id :: id in displayMap && displayMap[id] == d ==> id == info.id;
          assert Infos() == old(Infos())[info.id := Some(info)];
          return true;
        }
      }
      var d := new Display(info);
      displayMap := displayMap[info.id := d];
      assert Infos() == old(Infos())[info.id := Some(info)];
      return true;
    }

    method Erase(id: Id)
      requires Distinct()
      modifies this`displayMap
      ensures Distinct() && Objects() <= old(Objects())
      ensures Infos() == old(Infos()) - {id}
    {
      displayMap := displayMap - {id};
    }

    /** Reading the map inserts a null pointer for a missing key. */
    method Entry(id: Id) returns (display: Display?)
      requires Distinct()
      modifies this`displayMap
      ensures Distinct() && Objects() <= old(Objects()) + {null}
      ensures Infos() == Read(old(Infos()), id)
      ensures id in Infos() && Infos()[id] == InfoOf(display)
      ensures display in Objects()
    {
      if id !in displayMap {
        displayMap := displayMap[id := null];
      }
      return displayMap[id];
    }

    /** The first, locked block of GetDisplayById. */
    method Lookup(id: Id, now: int) returns (hit: bool, display: Display?)
      ensures hit == Hits(View(), interval, id, now)
      ensures hit ==> id in Infos() && InfoOf(display) == Infos()[id] && display in Objects()
    {
      if id != DISPLAY_ID_INVALID && id in displayUpdateTimeMap {
        var elapsed := Micros(now - displayUpdateTimeMap[id]);
        if elapsed < interval && !needUpdateDisplayFromDMS {
          if id in displayMap {
            return true, displayMap[id];
          }
        }
      }
      return false, null;
    }

    /** The second one. */
    method Store(id: Id, now: int, info: Info) returns (display: Display?)
      requires Distinct()
      modifies this`displayMap, this`displayUpdateTimeMap, this`needUpdateDisplayFromDMS, Objects()
      ensures Distinct() && fresh(Objects() - old(Objects()) - {null})
      ensures View() == Stored(old(View()), id, now, info)
      ensures InfoOf(display) == if id in Infos() then Infos()[id] else None
      ensures display != null ==> display in Objects()
    {
      hide Infos, Distinct;
      var ok := UpdateDisplayInfoLocked(info);
      if !ok {
        Erase(id);
        displayUpdateTimeMap := displayUpdateTimeMap - {id};
        return null;
      }
      needUpdateDisplayFromDMS := false;
      displayUpdateTimeMap := displayUpdateTimeMap[id := now];
      display := Entry(id);
    }

    method GetDisplayById(id: Id, now: int, answer: Option<Info>) returns (display: Display?)
      requires Distinct()
      modifies this`displayMap, this`displayUpdateTimeMap, this`needUpdateDisplayFromDMS, Objects()
      ensures Distinct() && fresh(Objects() - old(Objects()) - {null})
      ensures View() == Step(old(View()), interval, Get(id, now, answer))
      ensures InfoOf(display) == Got(old(View()), interval, id, now, answer)
      ensures display != null ==> display in Objects()
    {
      var hit, cached := Lookup(id, now);
      if hit {
        return cached;
      }
      if answer.None? {
        return null;
      }
      display := Store(id, now, answer.value);
    }

    /** The fetching part of GetDefaultDisplay and its like. */
    method StoreFetched(info: Info)
      requires Distinct()
      modifies this`displayMap, Objects()
      ensures Distinct() && fresh(Objects() - old(Objects()) - {null})
      ensures View() == Step(old(View()), interval, Fetch(info))
    {
      var ok := UpdateDisplayInfoLocked(info);
      if !ok {
        Erase(info.id);
      }
    }

    method NotifyDisplayCreateOrChange()
      modifies this`needUpdateDisplayFromDMS
      ensures View() == Step(old(View()), interval, Changed)
    {
      needUpdateDisplayFromDMS := true;
    }

    method NotifyDisplayDestroy(id: Id)
      requires Distinct()
      modifies this`displayMap
      ensures Distinct() && Objects() <= old(Objects())
      ensures View() == Step(old(View()), interval, Destroyed(id))
    {
      Erase(id);
    }
  }

  // ---------- Answers ----------

  /** A request that is not a hit returns what the server answers about the display asked for, and that is what is
      cached for it afterwards. No answer, or one without a display, returns null; and an answer about another
      display, the entry there was. */
  lemma AskedIsAnswered(c: Cache, interval: nat, id: Id, now: int, answer: Option<Info>)
    requires !Hits(c, interval, id, now)
    ensures var got := Got(c, interval, id, now, answer);
            var r := Step(c, interval, Get(id, now, answer));
            && (Valid(answer) && answer.value.id == id ==> got == answer && id in r.displays && r.displays[id] == answer)
            && (Valid(answer) && answer.value.id != id ==>
                  got == (if id in c.displays then c.displays[id] else None) && r.displays[answer.value.id] == answer)
            && (!Valid(answer) ==> got == None && (answer.None? ==> r == c))
            && (Valid(answer) ==> !r.need && id in r.updated && r.updated[id] == now
                                  && (forall i :: i in r.updated <==> i == id || i in c.updated)
                                  && forall i :: i in c.updated && i != id ==> r.updated[i] == c.updated[i])
  {
  }

  /** An answer without a display takes the entry away, and nothing else. */
  lemma RefusedForgets(c: Cache, interval: nat, id: Id, now: int, info: Info)
    requires !Hits(c, interval, id, now) && info.id == DISPLAY_ID_INVALID
    ensures var r := Step(c, interval, Get(id, now, Some(info)));
            && id !in r.displays && id !in r.updated && r.need == c.need
            && (forall i :: i != id ==> (i in r.displays <==> i in c.displays) && (i in r.updated <==> i in c.updated))
            && (forall i :: i in r.displays ==> r.displays[i] == c.displays[i])
            && (forall i :: i in r.updated ==> r.updated[i] == c.updated[i])
  {
  }

  /** A display that was destroyed, and that another getter fetches again, counts as asked for when it was last asked for
      before. */
  lemma ReturnsWithOldTime(c: Cache, interval: nat, id: Id, since: int, old1: Info, new1: Info, later: int)
    requires Holds(c, id, since, old1) && id != DISPLAY_ID_INVALID && new1.id == id
    ensures var r := Run(c, interval, [Destroyed(id), Fetch(new1)]);
            && (Hits(r, interval, id, later) <==> Micros(later - since) < interval)
            && (Hits(r, interval, id, later) ==> Got(r, interval, id, later, None) == Some(new1))
  {
    var e1, e2 := Destroyed(id), Fetch(new1);
    assert [e1, e2][1..] == [e2] && [e2][1..] == [];
    var c2 := Step(Step(c, interval, e1), interval, e2);
    assert Run(c, interval, [e1, e2]) == Run(Step(c, interval, e1), interval, [e2]) == Run(c2, interval, []) == c2;
  }

  /** The event leaves alone what a request for the id cached at that time: no notification comes, the display is
      not destroyed, nobody is told about it, and it is not asked for when the interval is over. */
  predicate Leaves(e: Event, interval: nat, id: Id, since: int) {
    match e
    case Get(i, now, answer) =>
      if i == id then Micros(now - since) < interval else !Valid(answer) || answer.value.id != id
    case Fetch(info) => info.id != id
    case Changed => false
    case Destroyed(i) => i != id
  }

  ghost predicate Holds(c: Cache, id: Id, since: int, info: Info) {
    !c.need && id in c.updated && c.updated[id] == since && id in c.displays && c.displays[id] == Some(info)
  }

  lemma {:induction false} HoldsOn(c: Cache, interval: nat, es: seq<Event>, id: Id, since: int, info: Info)
    requires id != DISPLAY_ID_INVALID && Holds(c, id, since, info)
    requires forall j :: 0 <= j < |es| ==> Leaves(es[j], interval, id, since)
    ensures Holds(Run(c, interval, es), id, since, info)
    decreases |es|
  {
    if es != [] {
      assert Leaves(es[0], interval, id, since);
      HoldsOn(Step(c, interval, es[0]), interval, es[1..], id, since, info);
    }
  }

  /** After an answered request, whatever happens that leaves it alone, a second request is a hit if and only if the
      interval is not over; it then returns the same information, whatever the server would answer, and changes
      nothing. */
  lemma SecondRequest(c: Cache, interval: nat, id: Id, now: int, info: Info, es: seq<Event>, later: int, answer: Option<Info>)
    requires !Hits(c, interval, id, now) && info.id == id && id != DISPLAY_ID_INVALID
    requires forall j :: 0 <= j < |es| ==> Leaves(es[j], interval, id, now)
    ensures var r := Run(Step(c, interval, Get(id, now, Some(info))), interval, es);
            && (Hits(r, interval, id, later) <==> Micros(later - now) < interval)
            && (Micros(later - now) < interval ==>
                  Got(r, interval, id, later, answer) == Some(info) && Step(r, interval, Get(id, later, answer)) == r)
  {
    HoldsOn(Step(c, interval, Get(id, now, Some(info))), interval, es, id, now, info);
    hide Run;
  }

  // ---------- Freshness ----------

  lemma WithinInterval(d: int, interval: nat)
    requires interval > 0
    ensures Micros(d) < interval <==> d < 1000 * interval
  {
  }

  /** The time of an event, or the given one for an event that has none. */
  function TimeOf(e: Event, clock: int): int {
    match e
    case Get(_, now, _) => now
    case Fetch(info) => info.at
    case _ => clock
  }

  /** The server answers after it was asked, about the display it was asked for (or with no display). */
  predicate Sound(e: Event) {
    e.Get? && e.answer.Some? ==>
      e.now <= e.answer.value.at && (e.answer.value.id == e.id || e.answer.value.id == DISPLAY_ID_INVALID)
  }

  /** The clock never runs backwards. */
  predicate Timed(es: seq<Event>, clock: int) {
    es != [] ==> Sound(es[0]) && clock <= TimeOf(es[0], clock) && Timed(es[1..], TimeOf(es[0], clock))
  }

  function End(es: seq<Event>, clock: int): int {
    if es == [] then clock else End(es[1..], TimeOf(es[0], clock))
  }

  /** Every recorded request is over, and what is cached for an id is about that id and no older than the
      request that recorded a time for it. */
  ghost predicate Ordered(c: Cache, clock: int) {
    && (forall id :: id in c.updated ==> c.updated[id] <= clock)
    && (forall id :: id in c.displays ==> c.displays[id].Some? && c.displays[id].value.id == id)
    && (forall id :: id in c.updated && id in c.displays ==> c.updated[id] <= c.displays[id].value.at)
  }

  lemma {:induction false} OrderedRun(c: Cache, interval: nat, es: seq<Event>, clock: int)
    requires Ordered(c, clock) && Timed(es, clock)
    ensures Ordered(Run(c, interval, es), End(es, clock))
    decreases |es|
  {
    if es != [] {
      OrderedRun(Step(c, interval, es[0]), interval, es[1..], TimeOf(es[0], clock));
    }
  }

  /** On every run from the empty cache with a monotone clock, a hit returns a display with the information
      of the id asked for, fetched less than the interval ago. */
  lemma HitIsYoung(interval: nat, es: seq<Event>, start: int, id: Id, now: int, answer: Option<Info>)
    requires Timed(es, start) && interval > 0
    requires Hits(Run(EMPTY, interval, es), interval, id, now)
    ensures var got := Got(Run(EMPTY, interval, es), interval, id, now, answer);
            got.Some? && got.value.id == id && now - got.value.at < 1000 * interval
  {
    var c := Run(EMPTY, interval, es);
    OrderedRun(EMPTY, interval, es, start);
    WithinInterval(now - c.updated[id], interval);
  }

  /** A GetDisplayById that asks the server and is told about a display. */
  predicate Refreshes(e: Event) {
    e.Get? && Valid(e.answer)
  }

  /** After a create or change notification nothing hits until some GetDisplayById is answered; and, if no
      further notification comes, the first answer ends this. */
  lemma {:induction false} NoHitUntilRefreshed(c: Cache, interval: nat, es: seq<Event>)
    requires c.need
    ensures (forall j :: 0 <= j < |es| ==> !Refreshes(es[j])) ==>
              forall id, now :: !Hits(Run(c, interval, es), interval, id, now)
    ensures (forall j :: 0 <= j < |es| ==> !es[j].Changed?) ==>
              (Run(c, interval, es).need <==> forall j :: 0 <= j < |es| ==> !Refreshes(es[j]))
    decreases |es|
  {
    if es != [] {
      var c1 := Step(c, interval, es[0]);
      var rest := es[1..];
      assert (forall j :: 0 <= j < |es| ==> !Refreshes(es[j])) <==>
               !Refreshes(es[0]) && forall j :: 0 <= j < |rest| ==> !Refreshes(rest[j]) by {
        assert forall j :: 0 < j < |es| ==> es[j] == rest[j - 1];
      }
      if c1.need {
        NoHitUntilRefreshed(c1, interval, rest);
      } else if forall j :: 0 <= j < |es| ==> !es[j].Changed? {
        NeedStaysOff(c1, interval, rest);
      }
    }
  }

  lemma {:induction false} NeedStaysOff(c: Cache, interval: nat, es: seq<Event>)
    requires !c.need && forall j :: 0 <= j < |es| ==> !es[j].Changed?
    ensures !Run(c, interval, es).need
    decreases |es|
  {
    if es != [] {
      NeedStaysOff(Step(c, interval, es[0]), interval, es[1..]);
    }
  }

  /** The event puts an entry for the id into the map. */
  predicate Stores(c: Cache, interval: nat, e: Event, id: Id) {
    match e
    case Get(i, now, answer) =>
      !Hits(c, interval, i, now) && Valid(answer) && (answer.value.id == id || (i == id && id !in c.displays))
    case Fetch(info) => info.id == id && id != DISPLAY_ID_INVALID
    case _ => false
  }

  predicate StoredIn(c: Cache, interval: nat, es: seq<Event>, id: Id)
    decreases |es|
  {
    es != [] && (Stores(c, interval, es[0], id) || StoredIn(Step(c, interval, es[0]), interval, es[1..], id))
  }

  /** A display that was destroyed is not hit until some fetch puts its entry back. */
  lemma {:induction false} NoHitUntilStored(c: Cache, interval: nat, es: seq<Event>, id: Id)
    requires !StoredIn(Step(c, interval, Destroyed(id)), interval, es, id)
    ensures forall now :: !Hits(Run(c, interval, [Destroyed(id)] + es), interval, id, now)
  {
    assert ([Destroyed(id)] + es)[1..] == es;
    StaysOut(Step(c, interval, Destroyed(id)), interval, es, id);
  }

  lemma {:induction false} StaysOut(c: Cache, interval: nat, es: seq<Event>, id: Id)
    requires id !in c.displays && !StoredIn(c, interval, es, id)
    ensures id !in Run(c, interval, es).displays
    decreases |es|
  {
    if es != [] {
      StaysOut(Step(c, interval, es[0]), interval, es[1..], id);
    }
  }

  /** A hit after a notification returns information from after it exactly if some fetch since then stored
      this id: the flag is one for all displays, so a fetch for another display ends the waiting. */
  lemma {:induction false} FreshIffStored(c: Cache, interval: nat, es: seq<Event>, clock: int, noticed: int, id: Id)
    requires Timed(es, clock) && noticed <= clock && Ordered(c, clock)
    requires id in c.displays ==> c.displays[id].value.at < noticed
    requires id in Run(c, interval, es).displays && Run(c, interval, es).displays[id].Some?
    ensures Run(c, interval, es).displays[id].value.at >= noticed <==> StoredIn(c, interval, es, id)
    decreases |es|
  {
    if es != [] {
      var c1 := Step(c, interval, es[0]);
      var t1 := TimeOf(es[0], clock);
      StoredNow(c, interval, es[0], clock, noticed, id);
      hide Step, Stores, Ordered, TimeOf, Sound;
      if Stores(c, interval, es[0], id) {
        StaysFresh(c1, interval, es[1..], t1, noticed, id);
      } else {
        FreshIffStored(c1, interval, es[1..], t1, noticed, id);
      }
    }
  }

  lemma StoredNow(c: Cache, interval: nat, e: Event, clock: int, noticed: int, id: Id)
    requires Sound(e) && clock <= TimeOf(e, clock) && noticed <= clock && Ordered(c, clock)
    requires id in c.displays ==> c.displays[id].value.at < noticed
    ensures var c1 := Step(c, interval, e);
            && Ordered(c1, TimeOf(e, clock))
            && (id in c1.displays ==> c1.displays[id].Some?
                                      && (c1.displays[id].value.at >= noticed <==> Stores(c, interval, e, id)))
  {
  }

  lemma {:induction false} StaysFresh(c: Cache, interval: nat, es: seq<Event>, clock: int, noticed: int, id: Id)
    requires Timed(es, clock) && noticed <= clock
    requires id in c.displays ==> c.displays[id].Some? && c.displays[id].value.at >= noticed
    ensures var r := Run(c, interval, es); id in r.displays ==> r.displays[id].Some? && r.displays[id].value.at >= noticed
    decreases |es|
  {
    if es != [] {
      StaysFresh(Step(c, interval, es[0]), interval, es[1..], TimeOf(es[0], clock), noticed, id);
    }
  }

  /** A stale hit: display 1 changes, display 2 is asked for, and display 1 is answered from the cache with
      the information from before the change. */
  lemma StaleHit(old1: Info, new2: Info)
    requires old1.id == 1 && new2.id == 2 && old1.at == 0 && new2.at == 2000
    ensures var es := [Get(1, 0, Some(old1)), Changed, Get(2, 2000, Some(new2))];
            var c := Run(EMPTY, APP_GET_DISPLAY_INTERVAL_US, es);
            && Timed(es, 0) && Hits(c, APP_GET_DISPLAY_INTERVAL_US, 1, 3000)
            && Got(c, APP_GET_DISPLAY_INTERVAL_US, 1, 3000, None) == Some(old1)
  {
    var i := APP_GET_DISPLAY_INTERVAL_US;
    var e1, e2, e3 := Get(1, 0, Some(old1)), Changed, Get(2, 2000, Some(new2));
    var es := [e1, e2, e3];
    assert es[1..] == [e2, e3] && es[1..][1..] == [e3] && es[1..][1..][1..] == [];
    assert Timed([e3], 0) && Timed([e2, e3], 0);
    var c1 := Step(EMPTY, i, e1);
    var c3 := Step(Step(c1, i, e2), i, e3);
    assert Run(EMPTY, i, es) == Run(c1, i, [e2, e3]) == Run(Step(c1, i, e2), i, [e3]) == Run(c3, i, []) == c3;
  }
}

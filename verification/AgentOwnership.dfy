/** Which agent owns which virtual screen, and what happens when an agent dies. */
module AgentOwnership {
  import opened DmTypes
  import opened ScreenState
  import opened ScreenInvariant

  /** Every id an agent lists was handed out, belongs to a virtual screen if to any, and is listed
      once over all agents. */
  ghost predicate AgentsOk(st: State) {
    && (forall a, i :: a in st.agents && 0 <= i < |st.agents[a]| ==>
          && 0 <= st.agents[a][i] < st.ids.count
          && (st.agents[a][i] in st.screens ==> st.screens[st.agents[a][i]].kind.VIRTUAL?))
    && (forall a, i, b, j ::
          (a in st.agents && 0 <= i < |st.agents[a]| && b in st.agents && 0 <= j < |st.agents[b]|
           && st.agents[a][i] == st.agents[b][j]) ==> a == b && i == j)
  }

  /** The list is the other one with a single occurrence of the id cut out. */
  lemma {:induction false} RemoveFirstCuts(ids: seq<ScreenId>, id: ScreenId) returns (k: nat)
    requires id in ids
    ensures k < |ids| && ids[k] == id && RemoveFirst(ids, id) == ids[..k] + ids[k + 1..]
    ensures id !in ids[..k]
  {
    if ids[0] == id {
      k := 0;
    } else {
      var k' := RemoveFirstCuts(ids[1..], id);
      k := k' + 1;
      assert ids[..k] == [ids[0]] + ids[1..][..k'];
      assert ids[1..][k' + 1..] == ids[k + 1..];
    }
  }

  lemma DisownNone(agents: map<AgentId, seq<ScreenId>>, id: ScreenId)
    requires forall a :: a in agents ==> id !in agents[a]
    ensures Disown(agents, id) == agents
  {
  }

  /** Only one agent lists the id, so that one is found. */
  lemma DisownFinds(st: State, a: AgentId, id: ScreenId)
    requires AgentsOk(st) && a in st.agents && id in st.agents[a]
    ensures forall b :: b in st.agents && b != a ==> id !in st.agents[b]
    ensures Disown(st.agents, id) == var left := RemoveFirst(st.agents[a], id);
                                     if left == [] then st.agents - {a} else st.agents[a := left]
  {
    var i :| 0 <= i < |st.agents[a]| && st.agents[a][i] == id;
    forall b | b in st.agents && id in st.agents[b] ensures b == a {
      var j :| 0 <= j < |st.agents[b]| && st.agents[b][j] == id;
      assert st.agents[a][i] == st.agents[b][j];
    }
    var owners := set b: int | b in st.agents && id in st.agents[b];
    assert a in owners;
    assert Least(owners) == a;
  }

  /** Cutting one entry out of a list keeps the lists disjoint and free of repetition. */
  lemma CutOk(st: State, a: AgentId, k: nat, left: seq<ScreenId>)
    requires AgentsOk(st) && a in st.agents && k < |st.agents[a]|
    requires left == st.agents[a][..k] + st.agents[a][k + 1..]
    ensures AgentsOk(st.(agents := st.agents[a := left]))
    ensures AgentsOk(st.(agents := st.agents - {a}))
    ensures st.agents[a][k] !in left
  {
    var ids := st.agents[a];
    var r := st.(agents := st.agents[a := left]);
    assert forall i :: 0 <= i < |left| ==> left[i] == ids[if i < k then i else i + 1];
    forall b, i, c, j |
      b in r.agents && 0 <= i < |r.agents[b]| && c in r.agents && 0 <= j < |r.agents[c]|
      && r.agents[b][i] == r.agents[c][j]
      ensures b == c && i == j
    {
      var i' := if b == a && i >= k then i + 1 else i;
      var j' := if c == a && j >= k then j + 1 else j;
      assert st.agents[b][i'] == st.agents[c][j'];
    }
  }

  /** Disown keeps AgentsOk, drops the id from every list, and leaves the other lists as they are. */
  lemma DisownOk(st: State, id: ScreenId)
    requires AgentsOk(st)
    ensures AgentsOk(st.(agents := Disown(st.agents, id)))
    ensures forall a :: AgentList(st.(agents := Disown(st.agents, id)), a)
                        == if id in AgentList(st, a) then RemoveFirst(AgentList(st, a), id) else AgentList(st, a)
    ensures forall a :: id !in AgentList(st.(agents := Disown(st.agents, id)), a)
  {
    if a :| a in st.agents && id in st.agents[a] {
      DisownFinds(st, a, id);
      var k := RemoveFirstCuts(st.agents[a], id);
      CutOk(st, a, k, RemoveFirst(st.agents[a], id));
      hide AgentsOk, Disown;
    } else {
      DisownNone(st.agents, id);
    }
  }

  /** No listed id carries the default rs id. */
  ghost predicate AgentsAway(st: State) {
    forall a, i :: a in st.agents && 0 <= i < |st.agents[a]| ==> RsOf(st.ids, st.agents[a][i]) != st.defaultRs
  }

  lemma LosesAgents(a: State, b: State, gone: set<ScreenId>)
    requires AgentsOk(a) && Loses(a, b, gone)
    ensures AgentsOk(b.(agents := a.agents))
  {
  }

  /** An id handed out earlier keeps its rs id or loses it for good. */
  lemma LosesRs(a: State, b: State, gone: set<ScreenId>, d: ScreenId)
    requires Loses(a, b, gone) && d < a.ids.count
    ensures RsOf(b.ids, d) == if d in gone then SCREEN_ID_INVALID else RsOf(a.ids, d)
  {
  }

  lemma LosesAway(a: State, b: State, gone: set<ScreenId>)
    requires AgentsOk(a) && AgentsAway(a) && a.defaultRs != SCREEN_ID_INVALID && Loses(a, b, gone)
    ensures AgentsAway(b.(agents := a.agents))
  {
    forall x, i | x in a.agents && 0 <= i < |a.agents[x]| ensures RsOf(b.ids, a.agents[x][i]) != b.defaultRs {
      LosesRs(a, b, gone, a.agents[x][i]);
    }
  }

  // ---------- DestroyVirtualScreen ----------

  lemma AgentsInv(st: State, agents: map<AgentId, seq<ScreenId>>)
    requires Inv(st)
    ensures Inv(st.(agents := agents)) && NoNewUnmatched(st, st.(agents := agents))
  {
    ShapeInv(st, st.(agents := agents));
  }

  lemma DestroyInv(st: State, env: Env, id: ScreenId)
    requires Inv(st) && AgentsOk(st)
    ensures var r := DestroyVirtual(st, env, id).0;
            Inv(r) && NoNewUnmatched(st, r) && AgentsOk(r)
  {
    if !Refuses(st, id) {
      var s1 := st.(agents := Disown(st.agents, id));
      var rs := RsOf(st.ids, id);
      DisownOk(st, id);
      AgentsInv(st, s1.agents);
      if rs != SCREEN_ID_INVALID && id in s1.screens {
        assert st.ids.rs2Dms[rs] == id;
        hide Inv, AgentsOk, Disown, Disconnect, Unmatched;
        var s2 := Disconnect(s1, env, rs);
        DisconnectInv(s1, env, rs);
        DisconnectLoses(s1, env, rs);
        LosesAgents(s1, s2, {id});
        assert id !in s2.ids.dms2Rs && id !in s2.screens by { LosesGone(s1, s2, id); }
        DestroyEnds(s2, id, rs);
      } else {
        assert id in st.screens ==> ScreenOk(st, id);
        hide Inv, AgentsOk, Disown, Unmatched;
        DeleteIdInv(s1, id);
        var s2 := s1.(ids := DeleteId(s1.ids, id));
        SameAgentsOk(s1, s2);
        DestroyEnds(s2, id, rs);
      }
    }
  }

  lemma LosesGone(a: State, b: State, id: ScreenId)
    requires Inv(a) && id in a.screens && Loses(a, b, {id})
    ensures id !in b.ids.dms2Rs && id !in b.screens
  {
    assert ScreenOk(a, id);
  }

  lemma SameAgentsOk(a: State, b: State)
    requires AgentsOk(a) && b.agents == a.agents && b.ids.count == a.ids.count && b.screens == a.screens
    ensures AgentsOk(b)
  {
  }

  /** The last two statements: the id is deleted once more, and a default learned meanwhile is
      forgotten if it was this screen. */
  lemma DestroyEnds(st: State, id: ScreenId, rs: ScreenId)
    requires Inv(st) && AgentsOk(st) && id !in st.ids.dms2Rs
    ensures var s3 := st.(ids := DeleteId(st.ids, id));
            && s3 == st
            && Inv(s3.(defaultRs := SCREEN_ID_INVALID)) && AgentsOk(s3.(defaultRs := SCREEN_ID_INVALID))
            && NoNewUnmatched(st, s3.(defaultRs := SCREEN_ID_INVALID))
  {
    ShapeInv(st, st.(defaultRs := SCREEN_ID_INVALID));
  }

  /** Destroying a listed screen: the id loses its mapping and its screen, nothing else is lost, the id
      leaves the one list that had it, and a default that is known stays. */
  lemma DestroyListed(st: State, env: Env, a: AgentId, id: ScreenId)
    requires Inv(st) && AgentsOk(st) && id in AgentList(st, a)
    requires !Refuses(st, id)
    ensures var r := DestroyVirtual(st, env, id).0;
            && Loses(st, r, {id}) && r.agents == Disown(st.agents, id)
            && (st.defaultRs != SCREEN_ID_INVALID ==> r.defaultRs == st.defaultRs)
  {
    hide Disown, Disconnect;
    var s1 := st.(agents := Disown(st.agents, id));
    var rs := RsOf(st.ids, id);
    AgentsInv(st, s1.agents);
    ListedScreen(st, a, id);
    hide Inv, AgentsOk;
    if rs != SCREEN_ID_INVALID && id in s1.screens {
      DisconnectLoses(s1, env, rs);
    }
  }

  lemma ListedScreen(st: State, a: AgentId, id: ScreenId)
    requires Inv(st) && AgentsOk(st) && id in AgentList(st, a)
    ensures 0 <= id < st.ids.count && (id in st.screens ==> st.screens[id].kind.VIRTUAL?)
    ensures var rs := RsOf(st.ids, id);
            rs != SCREEN_ID_INVALID ==> rs in st.ids.rs2Dms && st.ids.rs2Dms[rs] == id
  {
    var i :| 0 <= i < |st.agents[a]| && st.agents[a][i] == id;
    assert 0 <= st.agents[a][i] < st.ids.count;
    assert id in st.screens ==> ScreenOk(st, id);
  }

  /** A refused id stays in its list, and nothing else happens: the loop of OnRemoteDied spins. */
  lemma RefusedSpins(st: State, env: Env, a: AgentId)
    requires AgentList(st, a) != [] && Refuses(st, AgentList(st, a)[0])
    ensures DestroyVirtual(st, env, AgentList(st, a)[0]).0 == st
    ensures OnRemoteDied(st, env, a) == None
  {
  }

  lemma {:induction false} OnRemoteDiedInv(st: State, env: Env, a: AgentId)
    requires Inv(st) && AgentsOk(st) && OnRemoteDied(st, env, a).Some?
    ensures var r := OnRemoteDied(st, env, a).value;
            Inv(r) && NoNewUnmatched(st, r) && AgentsOk(r)
    decreases |AgentList(st, a)|
  {
    hide Inv, AgentsOk, NoNewUnmatched, DestroyVirtual;
    if AgentList(st, a) == [] {
      AgentsInv(st, st.agents - {a});
      DropAgentOk(st, a);
    } else {
      var s1 := DestroyVirtual(st, env, AgentList(st, a)[0]).0;
      DestroyInv(st, env, AgentList(st, a)[0]);
      OnRemoteDiedInv(s1, env, a);
      UnmatchedTrans(st, s1, OnRemoteDied(st, env, a).value);
    }
  }

  lemma DropAgentOk(st: State, a: AgentId)
    requires AgentsOk(st)
    ensures AgentsOk(st.(agents := st.agents - {a}))
  {
  }

  lemma UnmatchedTrans(a: State, b: State, c: State)
    requires NoNewUnmatched(a, b) && NoNewUnmatched(b, c)
    ensures NoNewUnmatched(a, c)
  {
  }

  ghost function Listed(ids: seq<ScreenId>): set<ScreenId> {
    set id | id in ids
  }

  /** One turn of the loop that is not refused. */
  lemma DestroyHead(st: State, env: Env, a: AgentId)
    requires Inv(st) && AgentsOk(st) && AgentList(st, a) != [] && !Refuses(st, AgentList(st, a)[0])
    ensures var ids := AgentList(st, a);
            var s1 := DestroyVirtual(st, env, ids[0]).0;
            && Inv(s1) && AgentsOk(s1) && Loses(st, s1, {ids[0]})
            && (st.defaultRs != SCREEN_ID_INVALID ==> s1.defaultRs == st.defaultRs)
            && AgentList(s1, a) == ids[1..]
            && (forall b :: b != a ==> AgentList(s1, b) == AgentList(st, b))
            && (forall id :: id in ids[1..] ==> RsOf(s1.ids, id) == RsOf(st.ids, id))
            && (forall id :: id in ids ==> id < st.ids.count)
  {
    var ids := AgentList(st, a);
    var s1 := DestroyVirtual(st, env, ids[0]).0;
    DestroyListed(st, env, a, ids[0]);
    DestroyInv(st, env, ids[0]);
    DisownOk(st, ids[0]);
    assert AgentList(s1, a) == AgentList(st.(agents := Disown(st.agents, ids[0])), a) == ids[1..];
    OthersKeep(st, s1, a, ids);
    assert forall i :: 0 <= i < |ids| ==> 0 <= st.agents[a][i] < st.ids.count;
    hide Inv, AgentsOk, DestroyVirtual, Disown;
    forall id | id in ids[1..] ensures RsOf(s1.ids, id) == RsOf(st.ids, id) {
      LosesRs(st, s1, {ids[0]}, id);
    }
  }

  /** With a known default OnRemoteDied ends exactly when no listed id carries the default rs id. */
  lemma {:induction false} KnownDeathEnds(st: State, env: Env, a: AgentId)
    requires Inv(st) && AgentsOk(st) && st.defaultRs != SCREEN_ID_INVALID
    ensures OnRemoteDied(st, env, a).Some? <==>
              forall id :: id in AgentList(st, a) ==> RsOf(st.ids, id) != st.defaultRs
    decreases |AgentList(st, a)|
  {
    hide Inv, AgentsOk, DestroyVirtual, Disown, Loses;
    var ids := AgentList(st, a);
    if ids != [] {
      if Refuses(st, ids[0]) {
        RefusedSpins(st, env, a);
      } else {
        DestroyHead(st, env, a);
        KnownDeathEnds(DestroyVirtual(st, env, ids[0]).0, env, a);
        assert ids == [ids[0]] + ids[1..];
        assert forall i :: 0 <= i < |ids| ==> ids[i] in ids;
      }
    }
  }

  /** If the loop ends it leaves the agent without an entry, every listed id unmapped and without a screen,
      and every other agent, id and screen as it was. */
  lemma {:induction false} DeathEffect(st: State, env: Env, a: AgentId)
    requires Inv(st) && AgentsOk(st) && OnRemoteDied(st, env, a).Some?
    ensures var r := OnRemoteDied(st, env, a).value;
            && a !in r.agents
            && (forall b :: b != a ==> AgentList(r, b) == AgentList(st, b))
            && (forall id :: id in AgentList(st, a) ==> id !in r.ids.dms2Rs && id !in r.screens)
            && Loses(st, r, Listed(AgentList(st, a)))
    decreases |AgentList(st, a)|
  {
    hide Inv, AgentsOk, DestroyVirtual, Disown;
    var ids := AgentList(st, a);
    if ids == [] {
      assert Listed(ids) == {};
      hide Loses;
      AgentsLose(st, st.agents - {a});
    } else if Refuses(st, ids[0]) {
      RefusedSpins(st, env, a);
    } else {
      hide Loses;
      var s1 := DestroyVirtual(st, env, ids[0]).0;
      DestroyHead(st, env, a);
      DeathEffect(s1, env, a);
      assert ids == [ids[0]] + ids[1..];
      assert forall i :: 0 <= i < |ids| ==> ids[i] in ids;
      var r := OnRemoteDied(s1, env, a).value;
      LosesTrans(st, s1, r, {ids[0]}, Listed(ids[1..]));
      assert {ids[0]} + Listed(ids[1..]) == Listed(ids);
      ListedGone(st, r, ids);
    }
  }

  lemma AgentsLose(st: State, agents: map<AgentId, seq<ScreenId>>)
    ensures Loses(st, st.(agents := agents), {})
  {
  }

  lemma ListedGone(st: State, r: State, ids: seq<ScreenId>)
    requires Loses(st, r, Listed(ids)) && forall i :: 0 <= i < |ids| ==> ids[i] < st.ids.count
    ensures forall id :: id in ids ==> id !in r.ids.dms2Rs && id !in r.screens
  {
  }

  /** The lists are disjoint and free of repetition, so only the head of one list goes. */
  lemma OthersKeep(st: State, s1: State, a: AgentId, ids: seq<ScreenId>)
    requires AgentsOk(st) && ids == AgentList(st, a) && ids != [] && s1.agents == Disown(st.agents, ids[0])
    ensures forall b :: b != a ==> AgentList(s1, b) == AgentList(st, b)
    ensures ids[0] !in ids[1..]
  {
    DisownFinds(st, a, ids[0]);
    forall i | 0 <= i < |ids[1..]| ensures ids[1..][i] != ids[0] {
      assert ids[1..][i] == st.agents[a][i + 1] && ids[0] == st.agents[a][0];
    }
  }

  // ---------- CreateVirtualScreen and SetVirtualScreenAsDefault ----------

  lemma NewIdInv(st: State, rs: ScreenId)
    requires Inv(st) && rs != SCREEN_ID_INVALID && rs !in st.ids.rs2Dms
    ensures Inv(st.(ids := CreateId(st.ids, rs)))
    ensures forall d :: Unmatched(st.(ids := CreateId(st.ids, rs)), d) ==> Unmatched(st, d) || d == st.ids.count
  {
    var r := st.(ids := CreateId(st.ids, rs));
    forall e | e in r.screens ensures ScreenOk(r, e) { assert ScreenOk(st, e); }
    forall g | g in r.groups ensures GroupOk(r, g) { assert GroupOk(st, g); }
  }

  lemma NewVirtualInv(st: State, d: ScreenId, rs: ScreenId, mode: Mode)
    requires Inv(st) && rs != SCREEN_ID_INVALID && RsOf(st.ids, d) == rs && d !in st.screens
    ensures Inv(st.(screens := st.screens[d := NewScreen(rs, VIRTUAL, Some(mode))]))
    ensures forall e :: Unmatched(st.(screens := st.screens[d := NewScreen(rs, VIRTUAL, Some(mode))]), e) ==>
                          Unmatched(st, e) && e != d
  {
    var r := st.(screens := st.screens[d := NewScreen(rs, VIRTUAL, Some(mode))]);
    forall e | Unmatched(r, e) ensures Unmatched(st, e) && e != d {
      assert d in r.screens;
    }
    forall e | e in r.screens ensures ScreenOk(r, e) { assert e != d ==> ScreenOk(st, e); }
    forall g | g in r.groups ensures GroupOk(r, g) { assert GroupOk(st, g); }
  }

  /** A new entry at the end of one list, larger than every id listed so far. */
  lemma ListNewOk(st: State, a: AgentId, d: ScreenId)
    requires AgentsOk(st) && 0 <= d < st.ids.count && (d in st.screens ==> st.screens[d].kind.VIRTUAL?)
    requires forall b, i :: b in st.agents && 0 <= i < |st.agents[b]| ==> st.agents[b][i] != d
    ensures AgentsOk(st.(agents := st.agents[a := AgentList(st, a) + [d]]))
  {
    var r := st.(agents := st.agents[a := AgentList(st, a) + [d]]);
    forall b, i | b in r.agents && 0 <= i < |r.agents[b]|
      ensures r.agents[b][i] == d <==> b == a && i == |r.agents[a]| - 1
    {
      if !(b == a && i == |r.agents[a]| - 1) {
        assert r.agents[b][i] == st.agents[b][i];
      }
    }
    forall b, i, c, j |
      b in r.agents && 0 <= i < |r.agents[b]| && c in r.agents && 0 <= j < |r.agents[c]|
      && r.agents[b][i] == r.agents[c][j]
      ensures b == c && i == j
    {
      if r.agents[b][i] != d {
        assert r.agents[b][i] == st.agents[b][i] && r.agents[c][j] == st.agents[c][j];
      }
    }
  }

  /** The lists only speak of ids older than d, about which nothing changes. */
  lemma VirtualAgentsOk(st: State, s0: State, s1: State, rs: ScreenId, mode: Mode, a: AgentId)
    requires AgentsOk(st) && s0 == st.(ids := CreateId(st.ids, rs)) && Evolves(s0, s1)
    ensures var d := st.ids.count;
            var s2 := s1.(screens := s1.screens[d := NewScreen(rs, VIRTUAL, Some(mode))]);
            && AgentsOk(s2)
            && (forall b, i :: b in s2.agents && 0 <= i < |s2.agents[b]| ==> s2.agents[b][i] != d)
  {
  }

  lemma VirtualAway(st: State, s0: State, s1: State, rs: ScreenId, a: AgentId)
    requires AgentsOk(st) && AgentsAway(st) && st.defaultRs != SCREEN_ID_INVALID && rs != st.defaultRs
    requires s0 == st.(ids := CreateId(st.ids, rs)) && Evolves(s0, s1)
    ensures AgentsAway(s1.(agents := s1.agents[a := AgentList(s1, a) + [st.ids.count]]))
  {
    var r := s1.(agents := s1.agents[a := AgentList(s1, a) + [st.ids.count]]);
    forall b, i | b in r.agents && 0 <= i < |r.agents[b]| ensures RsOf(r.ids, r.agents[b][i]) != r.defaultRs {
      if r.agents[b][i] != st.ids.count {
        assert r.agents[b][i] == st.agents[b][i];
      }
    }
  }

  /** The id that CreateVirtualScreen answers is the one under the rs id that the render service returned; a new screen
      is virtual, has that mode, is in no group, and comes last in the list of its agent. No other list changes. */
  lemma CreateVirtualAnswers(st: State, env: Env, rs: ScreenId, mode: Mode, a: AgentId)
    requires Inv(st)
    ensures var (r, d) := CreateVirtual(st, env, rs, mode, a);
            && d == DmsOf(r.ids, rs)
            && (rs == SCREEN_ID_INVALID || rs in st.ids.rs2Dms ==> r == st)
            && (rs != SCREEN_ID_INVALID && rs !in st.ids.rs2Dms ==>
                  && d in r.screens && r.screens[d].kind.VIRTUAL? && r.screens[d].mode == Some(mode)
                  && r.screens[d].groupId == SCREEN_ID_INVALID && r.screens[d].rsId == rs
                  && AgentList(r, a) == AgentList(st, a) + [d]
                  && (forall b :: b != a ==> AgentList(r, b) == AgentList(st, b)))
  {
    if rs != SCREEN_ID_INVALID && rs !in st.ids.rs2Dms {
      var s0 := st.(ids := CreateId(st.ids, rs));
      NewIdInv(st, rs);
      LookupInv(s0, env);
      hide Inv, GetDefault, Extends;
      assert rs in s0.ids.rs2Dms && s0.ids.rs2Dms[rs] == st.ids.count;
    }
  }

  /** DestroyVirtualScreen answers true exactly for an id with an rs id that is not the default, and then the id and the
      screen are gone. Refused, it changes nothing; and for an id without rs id it takes the id off the lists. */
  lemma DestroyAnswers(st: State, env: Env, id: ScreenId)
    requires Inv(st) && AgentsOk(st)
    ensures var (r, ok) := DestroyVirtual(st, env, id);
            && (ok <==> RsOf(st.ids, id) != SCREEN_ID_INVALID && RsOf(st.ids, id) != st.defaultRs)
            && (ok ==> id !in r.ids.dms2Rs && id !in r.screens)
            && (RsOf(st.ids, id) == st.defaultRs ==> r == st)
            && (!ok && RsOf(st.ids, id) != st.defaultRs ==>
                  r == st.(agents := r.agents, ids := r.ids) && id !in r.ids.dms2Rs
                  && forall b :: id !in AgentList(r, b))
  {
    var rs := RsOf(st.ids, id);
    if !Refuses(st, id) {
      var s1 := st.(agents := Disown(st.agents, id));
      DisownOk(st, id);
      AgentsInv(st, s1.agents);
      hide Disown, Disconnect, AgentsOk;
      if rs != SCREEN_ID_INVALID {
        assert st.ids.rs2Dms[rs] == id;
        if id in s1.screens { DisconnectLoses(s1, env, rs); }
      }
      hide Inv, Loses;
      if rs == SCREEN_ID_INVALID {
        forall b ensures id !in AgentList(DestroyVirtual(st, env, id).0, b) {
          assert AgentList(DestroyVirtual(st, env, id).0, b) == AgentList(s1, b);
        }
      }
    }
  }

  lemma CreateVirtualInv(st: State, env: Env, rs: ScreenId, mode: Mode, a: AgentId)
    requires Inv(st) && AgentsOk(st)
    ensures var r := CreateVirtual(st, env, rs, mode, a).0;
            && Inv(r) && NoNewUnmatched(st, r) && AgentsOk(r)
            && (st.defaultRs != SCREEN_ID_INVALID && rs != st.defaultRs && AgentsAway(st) ==>
                  AgentsAway(r) && r.defaultRs == st.defaultRs)
  {
    if rs != SCREEN_ID_INVALID && rs !in st.ids.rs2Dms {
      var d := st.ids.count;
      var s0 := st.(ids := CreateId(st.ids, rs));
      NewIdInv(st, rs);
      var s1 := GetDefault(s0, env).0;
      LookupInv(s0, env);
      assert d !in s0.screens by { assert d in st.screens ==> ScreenOk(st, d); }
      assert RsOf(s1.ids, d) == rs && d !in s1.screens;
      EvolvesUnmatched(s0, s1);
      var s2 := s1.(screens := s1.screens[d := NewScreen(rs, VIRTUAL, Some(mode))]);
      NewVirtualInv(s1, d, rs, mode);
      assert s2.agents == st.agents;
      hide GetDefault, Inv;
      VirtualAgentsOk(st, s0, s1, rs, mode, a);
      ListNewOk(s2, a, d);
      AgentsInv(s2, s2.agents[a := AgentList(s1, a) + [d]]);
      if st.defaultRs != SCREEN_ID_INVALID && rs != st.defaultRs && AgentsAway(st) {
        VirtualAway(st, s0, s1, rs, a);
      }
    }
  }

  /** A new virtual screen that is given the default rs id puts the default on its agent's list, and the
      death of that agent never ends. */
  lemma CreatedDefaultSpins(st: State, env: Env, mode: Mode, a: AgentId, later: Env)
    requires Inv(st) && AgentsOk(st)
    requires var rs := Learn(st, env).defaultRs; rs != SCREEN_ID_INVALID && rs !in st.ids.rs2Dms
    ensures var rs := Learn(st, env).defaultRs;
            var r := CreateVirtual(st, env, rs, mode, a).0;
            r.defaultRs == rs && !AgentsAway(r) && OnRemoteDied(r, later, a) == None
  {
    hide Inv, AgentsOk, CreateVirtual, OnRemoteDied;
    var rs := Learn(st, env).defaultRs;
    var r := CreateVirtual(st, env, rs, mode, a).0;
    CreateVirtualInv(st, env, rs, mode, a);
    CreatedDefault(st, env, mode, a);
    assert st.ids.count in AgentList(r, a);
    KnownDeathEnds(r, later, a);
  }

  lemma CreatedDefault(st: State, env: Env, mode: Mode, a: AgentId)
    requires var rs := Learn(st, env).defaultRs; rs != SCREEN_ID_INVALID && rs !in st.ids.rs2Dms
    ensures var rs := Learn(st, env).defaultRs;
            var r := CreateVirtual(st, env, rs, mode, a).0;
            && r.defaultRs == rs && r.agents == st.agents[a := AgentList(st, a) + [st.ids.count]]
            && RsOf(r.ids, st.ids.count) == rs && !AgentsAway(r)
  {
    hide ConnectDefault;
    var rs := Learn(st, env).defaultRs;
    var s0 := st.(ids := CreateId(st.ids, rs));
    assert GetDefault(s0, env) == (Learn(s0, env), st.ids.count);
    hide GetDefault;
    var r := CreateVirtual(st, env, rs, mode, a).0;
    assert r.agents[a][|AgentList(st, a)|] == st.ids.count;
  }

  /** The server gets there in one step: the render service names no default, a virtual screen is made, and
      its own id is the default when it is asked for next. */
  lemma DeathSpins(env: Env, mode: Mode, a: AgentId)
    requires env.defaultRs != SCREEN_ID_INVALID
    ensures OnRemoteDied(Run(INITIAL, [Event(env, OpCreateVirtual(env.defaultRs, mode, a))]), env, a) == None
  {
    var events := [Event(env, OpCreateVirtual(env.defaultRs, mode, a))];
    CreatedDefaultSpins(INITIAL, env, mode, a, env);
    hide OnRemoteDied, CreateVirtual;
    var st := Step(INITIAL, env, events[0].op);
    assert events[1..] == [] && Run(INITIAL, events) == Run(st, []) == st;
  }

  lemma EvolvesAgents(a: State, b: State)
    requires AgentsOk(a) && Evolves(a, b)
    ensures AgentsOk(b)
    ensures AgentsAway(a) && a.defaultRs != SCREEN_ID_INVALID ==> AgentsAway(b)
  {
  }

  /** The new default leaves the list that had it; its rs id belongs to no other id. */
  lemma NewDefaultAway(st: State, id: ScreenId, rs: ScreenId)
    requires Inv(st) && AgentsOk(st) && rs != SCREEN_ID_INVALID && RsOf(st.ids, id) == rs
    ensures AgentsOk(st.(defaultRs := rs, agents := Disown(st.agents, id)))
    ensures AgentsAway(st.(defaultRs := rs, agents := Disown(st.agents, id)))
  {
    DisownOk(st, id);
    var r := st.(defaultRs := rs, agents := Disown(st.agents, id));
    assert AgentsOk(st.(agents := r.agents));
    hide Disown;
    forall a, i | a in r.agents && 0 <= i < |r.agents[a]| ensures RsOf(r.ids, r.agents[a][i]) != rs {
      var list := AgentList(st.(agents := r.agents), a);
      assert r.agents[a][i] in list && id !in list;
    }
  }

  lemma SetVirtualAsDefaultInv(st: State, env: Env, id: ScreenId)
    requires Inv(st) && AgentsOk(st)
    ensures var (r, done) := SetVirtualAsDefault(st, env, id);
            && Inv(r) && NoNewUnmatched(st, r) && AgentsOk(r)
            && (done || (AgentsAway(st) && st.defaultRs != SCREEN_ID_INVALID) ==> AgentsAway(r))
            && (done ==> r.defaultRs == RsOf(st.ids, id) != SCREEN_ID_INVALID)
            && (!done && st.defaultRs != SCREEN_ID_INVALID ==> r.defaultRs == st.defaultRs)
  {
    var rs := RsOf(st.ids, id);
    if rs != SCREEN_ID_INVALID && id in st.screens && !st.screens[id].kind.REAL? {
      assert ScreenOk(st, id);
      hide Inv, Evolves, AgentsOk, AgentsAway, AddToGroup, Touch, OnConnect, Disown, Unmatched, NoNewUnmatched, Extends;
      var (s1, g) := AddToGroup(st, env, id);
      AddToGroupInv(st, env, id);
      EvolvesUnmatched(st, s1);
      EvolvesAgents(st, s1);
      if st.defaultRs != SCREEN_ID_INVALID { EvolvesDefault(st, s1); }
      if g != SCREEN_ID_INVALID {
        var s2 := Touch(s1, env, id);
        TouchInv(s1, env, id);
        EvolvesTrans(st, s1, s2);
        EvolvesUnmatched(st, s2);
        EvolvesAgents(st, s2);
        if st.defaultRs != SCREEN_ID_INVALID { EvolvesDefault(st, s2); }
        if s2.callback {
          var s3 := s2.(defaultRs := rs, agents := Disown(s2.agents, id));
          EvolvesRs(st, s2, id);
          NewDefaultAway(s2, id, rs);
          ShapeInv(s2, s3);
          UnmatchedTrans(st, s2, s3);
          OnConnectInv(s3, env, id);
          EvolvesUnmatched(s3, OnConnect(s3, env, id));
          UnmatchedTrans(st, s3, OnConnect(s3, env, id));
          EvolvesAgents(s3, OnConnect(s3, env, id));
          EvolvesDefault(s3, OnConnect(s3, env, id));
        }
      }
    } else {
      hide Inv, AgentsOk, AgentsAway;
    }
  }

  lemma EvolvesRs(a: State, b: State, id: ScreenId)
    requires Evolves(a, b) && id in a.ids.dms2Rs
    ensures RsOf(b.ids, id) == RsOf(a.ids, id)
  {
  }

  lemma EvolvesDefault(a: State, b: State)
    requires Evolves(a, b) && a.defaultRs != SCREEN_ID_INVALID
    ensures b.defaultRs == a.defaultRs
  {
  }
}

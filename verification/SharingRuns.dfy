/** No two displays on one screen: the exact condition for every operation, and over every run. */
module SharingRuns {
  import opened DmTypes
  import opened ScreenState
  import opened ScreenInvariant
  import opened AgentOwnership
  import opened ScreenRuns
  import opened GroupChanges
  import opened ExpandDisplays
  import opened DisplaySharing
  import opened SharingSteps
  import opened SharingOps
  import opened AgentDeath

  // ---------- Every operation ----------

  /** The operation leaves two displays on one screen, judged in the state before it. */
  ghost predicate Shares(st: State, env: Env, op: Op) {
    match op
    case OpDisconnect(rs) => UnplugPiles(st, env, rs)
    case OpDestroyVirtual(id) => DestroyPiles(st, env, id)
    case OpAgentDied(a) => DeathEnds(st, env, a) && st.callback && Piles(st, env, DiedGoers(st, env, AgentList(st, a)))
    case OpMakeMirror(id, ids) => MirrorsShare(st, env, id, ids)
    case OpMakeExpand(ids, at) => ExpandPiles(st, env, ids, at)
    case OpStop(ids, combination) => StopPiles(st, env, ids, combination)
    case OpRemoveVirtual(ids) => RemovePiles(st, env, ids)
    case OpSetVirtualAsDefault(id) => ChosenDoubles(st, env, id)
    case OpRegister => RegisterDoubles(st, env)
    case _ => false
  }

  lemma StepOutcome(st: State, env: Env, op: Op)
    requires Good(st) && Numbered(st) && Admissible(op)
    ensures Outcome(st, Step(st, env, op), Shares(st, env, op))
  {
    hide Inv, AgentsOk, Numbered, Connect, GetDefault, Disconnect, CreateVirtual, DestroyVirtual, OnRemoteDied,
         ServiceMakeMirror, ServiceMakeExpand, ServiceStop, RemoveVirtual, SetRotation, SetOrientation, SetVirtualAsDefault,
         RegisterCallback, Unmatched, Outcome, SameBinding, UnplugPiles, DestroyPiles, DeathEnds, Piles, DiedGoers,
         MirrorsShare, ExpandPiles, StopPiles, RemovePiles, ChosenDoubles, RegisterDoubles;
    match op
    case OpConnect(rs) => ConnectShares(st, env, rs);
    case OpDisconnect(rs) => DisconnectShares(st, env, rs);
    case OpQueryDefault => LookupShares(st, env);
    case OpCreateVirtual(rs, mode, a) => CreateVirtualShares(st, env, rs, mode, a);
    case OpDestroyVirtual(id) => DestroyShares(st, env, id);
    case OpAgentDied(a) =>
      OnRemoteDiedEnds(st, env, a);
      if OnRemoteDied(st, env, a).Some? { DeathShares(st, env, a); } else { SameOutcome(st); }
    case OpMakeMirror(id, ids) => ServiceMirrorShares(st, env, id, ids);
    case OpMakeExpand(ids, at) => ServiceExpandShares(st, env, ids, at);
    case OpStop(ids, combination) => StopShares(st, env, ids, combination);
    case OpRemoveVirtual(ids) => RemoveShares(st, env, ids);
    case OpSetVirtualAsDefault(id) => SetVirtualOutcome(st, env, id);
    case OpSetRotation(id, r) =>
      SetRotationBinding(st, env, id, r);
      BindingOutcome(st, SetRotation(st, env, id, r));
    case OpSetOrientation(id, o) =>
      SetOrientationBinding(st, env, id, o);
      BindingOutcome(st, SetOrientation(st, env, id, o).0);
    case OpRegister => RegisterOutcome(st, env);
  }

  lemma SameOutcome(st: State)
    requires Numbered(st)
    ensures Outcome(st, st, false)
  {
  }

  /** From a state in which no two displays are on one screen, an operation ends that if and only if it shares. */
  lemma StepShares(st: State, env: Env, op: Op)
    requires Good(st) && Numbered(st) && Unshared(st.displays) && Admissible(op)
    ensures Unshared(Step(st, env, op).displays) <==> !Shares(st, env, op)
  {
    hide Good, Numbered, Unshared, Step, Shares;
    StepOutcome(st, env, op);
  }

  // ---------- Every run ----------

  lemma StepNumbered(st: State, env: Env, op: Op)
    requires Good(st) && Numbered(st) && Admissible(op)
    ensures Numbered(Step(st, env, op))
  {
    hide Good, Numbered, Unshared, Step, Shares;
    StepOutcome(st, env, op);
  }

  /** Every display of a reachable state was numbered by the counter, for a screen whose id was handed out. */
  lemma {:induction false} RunNumbered(st: State, events: seq<Event>)
    requires Good(st) && Numbered(st) && forall e :: e in events ==> Admissible(e.op)
    ensures Numbered(Run(st, events))
    decreases |events|
  {
    hide Good, Numbered, Unshared, Step, Shares;
    if events != [] {
      StepGood(st, events[0].env, events[0].op);
      StepOutcome(st, events[0].env, events[0].op);
      RunNumbered(Step(st, events[0].env, events[0].op), events[1..]);
    }
  }

  /** In every reachable state no two displays are on one screen, as long as no operation so far shared; and
      the first that does ends it. */
  lemma {:induction false} RunUnshared(st: State, events: seq<Event>, next: Event)
    requires Good(st) && Numbered(st) && Unshared(st.displays) && Admissible(next.op)
    requires forall e :: e in events ==> Admissible(e.op)
    requires forall i :: 0 <= i < |events| ==> !Shares(Run(st, events[..i]), events[i].env, events[i].op)
    ensures var last := Run(st, events);
            && Unshared(last.displays)
            && (Unshared(Step(last, next.env, next.op).displays) <==> !Shares(last, next.env, next.op))
    decreases |events|
  {
    hide Good, Numbered, Unshared, Step, Shares;
    if events == [] {
      StepShares(st, next.env, next.op);
    } else {
      var s1 := Step(st, events[0].env, events[0].op);
      var rest := events[1..];
      assert Run(st, events[..0]) == st;
      StepGood(st, events[0].env, events[0].op);
      StepOutcome(st, events[0].env, events[0].op);
      forall i | 0 <= i < |rest| ensures !Shares(Run(s1, rest[..i]), rest[i].env, rest[i].op) {
        assert rest[i] == events[i + 1];
        assert events[..i + 1][0] == events[0] && events[..i + 1][1..] == rest[..i];
      }
      RunUnshared(s1, rest, next);
    }
  }
}

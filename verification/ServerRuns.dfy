/** Runs of the objects: the service performing one operation after the other from a new server. */
module ServerRuns {
  import opened DmTypes
  import opened ScreenState
  import opened ScreenRuns
  import opened AgentOwnership
  import opened ScreenServer
  import ReachableStates

  /** No agent dies while the loop of OnRemoteDied would not end. */
  ghost predicate DeathsEnd(st: State, events: seq<Event>) {
    forall i :: 0 <= i < |events| && events[i].op.OpAgentDied? ==>
      OnRemoteDied(Run(st, events[..i]), events[i].env, events[i].op.agent).Some?
  }

  /** The objects go through the states of the run. */
  method PerformAll(service: DisplayManagerService, events: seq<Event>)
    requires service.abstractScreenController.Wired() && Good(service.abstractScreenController.View())
    requires forall i :: 0 <= i < |events| ==> Admissible(events[i].op)
    requires DeathsEnd(service.abstractScreenController.View(), events)
    modifies service.abstractScreenController.Repr
    ensures service.abstractScreenController.Wired() && Good(service.abstractScreenController.View())
    ensures fresh(service.abstractScreenController.Repr - old(service.abstractScreenController.Repr))
    ensures service.abstractScreenController.View() == Run(old(service.abstractScreenController.View()), events)
  {
    hide AbstractScreenController.View, AbstractScreenController.Wired, Good, Step, OnRemoteDied;
    var c := service.abstractScreenController;
    ghost var st := c.View();
    assert events[..0] == [];
    for i := 0 to |events|
      invariant c.Wired() && Good(c.View()) && fresh(c.Repr - old(c.Repr))
      invariant c.View() == Run(st, events[..i])
    {
      RunAppend(st, events[..i], events[i]);
      assert events[..i + 1] == events[..i] + [events[i]];
      service.Perform(events[i].env, events[i].op);
    }
    assert events[..|events|] == events;
  }

  /** A new server after any run: it is in the state of the run, so its group lists exactly the screens that
      name it, by the very objects of the screen map, and a screen with a display node is such a child. */
  method Serve(events: seq<Event>) returns (service: DisplayManagerService)
    requires forall i :: 0 <= i < |events| ==> Admissible(events[i].op)
    requires DeathsEnd(INITIAL, events)
    ensures fresh(service) && fresh(service.abstractScreenController.Repr)
    ensures service.abstractScreenController.Wired()
    ensures service.abstractScreenController.View() == Run(INITIAL, events)
    ensures var c := service.abstractScreenController;
            forall g, h :: g in c.dmsScreenGroupMap && h in c.dmsScreenGroupMap ==> g == h
    ensures var c := service.abstractScreenController;
            forall g, d :: g in c.dmsScreenGroupMap && d in c.dmsScreenGroupMap[g].screenMap ==>
              && d in c.dmsScreenMap && c.dmsScreenMap[d] == c.dmsScreenGroupMap[g].screenMap[d]
              && c.dmsScreenMap[d].groupDmsId == g
    ensures var c := service.abstractScreenController;
            forall d :: d in c.dmsScreenMap && c.dmsScreenMap[d].rsDisplayNode != null ==>
              && c.dmsScreenMap[d].groupDmsId in c.dmsScreenGroupMap
              && d in c.dmsScreenGroupMap[c.dmsScreenMap[d].groupDmsId].screenMap
  {
    hide AbstractScreenController.View, AbstractScreenController.Wired, Good, Run;
    var c := new AbstractScreenController();
    service := new DisplayManagerService(c);
    InitialGood();
    PerformAll(service, events);
    ServedShape(c, events);
  }

  lemma ServedShape(c: AbstractScreenController, events: seq<Event>)
    requires forall i :: 0 <= i < |events| ==> Admissible(events[i].op)
    requires c.Wired() && c.View() == Run(INITIAL, events)
    ensures forall g, h :: g in c.dmsScreenGroupMap && h in c.dmsScreenGroupMap ==> g == h
    ensures forall g, d :: g in c.dmsScreenGroupMap && d in c.dmsScreenGroupMap[g].screenMap ==>
              && d in c.dmsScreenMap && c.dmsScreenMap[d] == c.dmsScreenGroupMap[g].screenMap[d]
              && c.dmsScreenMap[d].groupDmsId == g
    ensures forall d :: d in c.dmsScreenMap && c.dmsScreenMap[d].rsDisplayNode != null ==>
              && c.dmsScreenMap[d].groupDmsId in c.dmsScreenGroupMap
              && d in c.dmsScreenGroupMap[c.dmsScreenMap[d].groupDmsId].screenMap
  {
    hide Run, Good;
    forall e | e in events ensures Admissible(e.op) {
      var i :| 0 <= i < |events| && events[i] == e;
    }
    ReachableStates.ReachableShape(events);
    var st := c.View();
    forall g, d | g in c.dmsScreenGroupMap && d in c.dmsScreenGroupMap[g].screenMap
      ensures d in c.dmsScreenMap && c.dmsScreenMap[d].groupDmsId == g
    {
      assert g in st.groups && st.groups[g] == c.dmsScreenGroupMap[g].View() && d in st.groups[g].children;
      assert st.screens[d] == c.dmsScreenMap[d].View();
    }
    forall d | d in c.dmsScreenMap && c.dmsScreenMap[d].rsDisplayNode != null
      ensures c.dmsScreenMap[d].groupDmsId in c.dmsScreenGroupMap
      ensures d in c.dmsScreenGroupMap[c.dmsScreenMap[d].groupDmsId].screenMap
    {
      assert st.screens[d] == c.dmsScreenMap[d].View();
      var g := c.dmsScreenMap[d].groupDmsId;
      assert g in st.groups && st.groups[g] == c.dmsScreenGroupMap[g].View();
    }
  }
}

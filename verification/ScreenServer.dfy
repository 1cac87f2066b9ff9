/** The screen controller and the display controller as objects. Every method is proved to take the value
    View() of the whole server from one state of module ScreenState to the next, so what is proved about
    those states and their runs holds for the objects. */
module ScreenServer {
  import opened DmTypes
  import opened ScreenState
  import opened ScreenInvariant
  import opened AgentOwnership
  import opened DefaultScreen
  import opened ServerBounds
  import opened ServerSafety
  import opened ScreenRuns
  import opened ScreenObjects
  import opened DisplayObject

  // ---------- The objects ----------

  class AbstractDisplayController {
    var abstractDisplayMap: map<DisplayId, AbstractDisplay>
    var displayCount: nat

    constructor ()
      ensures abstractDisplayMap == map[] && displayCount == 0
    {
      abstractDisplayMap, displayCount := map[], 0;
    }

    /** The first display bound to the screen, in the order of the ids. */
    method FindDisplay(id: ScreenId) returns (found: Option<DisplayId>)
      ensures found == FirstDisplay(map k | k in abstractDisplayMap :: abstractDisplayMap[k].View(), id, 0, displayCount)
    {
      ghost var displays := map k | k in abstractDisplayMap :: abstractDisplayMap[k].View();
      var k := 0;
      while k < displayCount
        invariant k <= displayCount
        invariant FirstDisplay(displays, id, k, displayCount) == FirstDisplay(displays, id, 0, displayCount)
      {
        if k in abstractDisplayMap && abstractDisplayMap[k].screenId == id {
          return Some(k);
        }
        k := k + 1;
      }
      return None;
    }
  }

  class AbstractScreenController {
    const screenIdManager: ScreenIdManager
    const displayController: AbstractDisplayController
    var dmsScreenMap: map<ScreenId, AbstractScreen>
    var dmsScreenGroupMap: map<ScreenId, AbstractScreenGroup>
    var screenAgentMap: map<AgentId, seq<ScreenId>>
    var defaultRsScreenId: ScreenId
    /** Whether the callback of the display controller is registered. */
    var abstractScreenCallback: bool
    ghost var Repr: set<object>

    // ---------- The value of the server ----------

    /** Each map lists its objects under their own ids, a group is listed as a screen too, and the
        children of a group are the very objects of the screen map. */
    ghost predicate Wired()
      reads this, Repr
    {
      && this in Repr && screenIdManager in Repr && displayController in Repr
      && (forall d :: d in dmsScreenMap ==> dmsScreenMap[d] in Repr && dmsScreenMap[d].dmsId == d)
      && (forall g :: g in dmsScreenGroupMap ==> dmsScreenGroupMap[g] in Repr && dmsScreenGroupMap[g].base.dmsId == g)
      && (forall g :: g in dmsScreenGroupMap ==> g in dmsScreenMap && dmsScreenMap[g] == dmsScreenGroupMap[g].base)
      && (forall g, c :: g in dmsScreenGroupMap && c in dmsScreenGroupMap[g].screenMap ==>
            c in dmsScreenMap && dmsScreenMap[c] == dmsScreenGroupMap[g].screenMap[c])
      && (forall k :: k in displayController.abstractDisplayMap ==>
            && k < displayController.displayCount
            && displayController.abstractDisplayMap[k] in Repr && displayController.abstractDisplayMap[k].id == k)
    }

    ghost function View(): (v: State)
      requires Wired()
      reads this, Repr
      ensures v.ids == screenIdManager.View() && v.agents == screenAgentMap
      ensures v.defaultRs == defaultRsScreenId && v.callback == abstractScreenCallback
      ensures v.screens.Keys == dmsScreenMap.Keys && v.groups.Keys == dmsScreenGroupMap.Keys
      ensures v.displayCount == displayController.displayCount
      ensures v.displays.Keys == displayController.abstractDisplayMap.Keys
    {
      State(screenIdManager.View(),
            map d | d in dmsScreenMap :: dmsScreenMap[d].View(),
            map g | g in dmsScreenGroupMap :: dmsScreenGroupMap[g].View(),
            screenAgentMap, defaultRsScreenId, abstractScreenCallback,
            map k | k in displayController.abstractDisplayMap :: displayController.abstractDisplayMap[k].View(),
            displayController.displayCount)
    }

    ghost predicate Valid()
      reads this, Repr
    {
      Wired() && Bounded(View())
    }

    ghost predicate Holds(s: AbstractScreen)
      reads this
    {
      s.dmsId in dmsScreenMap && dmsScreenMap[s.dmsId] == s
    }

    ghost predicate HoldsGroup(g: AbstractScreenGroup)
      reads this
    {
      g.base.dmsId in dmsScreenGroupMap && dmsScreenGroupMap[g.base.dmsId] == g
    }

    constructor ()
      ensures Valid() && fresh(Repr) && View() == INITIAL
    {
      screenIdManager := new ScreenIdManager();
      displayController := new AbstractDisplayController();
      dmsScreenMap, dmsScreenGroupMap, screenAgentMap := map[], map[], map[];
      defaultRsScreenId := SCREEN_ID_INVALID;
      abstractScreenCallback := false;
      new;
      Repr := {this, screenIdManager, displayController};
    }

    // ---------- What one change does to the value ----------

    lemma Own()
      requires Wired()
      ensures this in Repr && screenIdManager in Repr && displayController in Repr
    {
    }

    lemma OwnDisplays()
      requires Wired()
      ensures displayController.abstractDisplayMap.Values <= Repr
    {
    }

    lemma ScreenAt(d: ScreenId)
      requires Wired() && d in dmsScreenMap
      ensures View().screens[d] == dmsScreenMap[d].View() && dmsScreenMap[d] in Repr && dmsScreenMap[d].dmsId == d
      ensures var s, screen := View().screens[d], dmsScreenMap[d];
              && s.rsId == screen.rsId && s.kind == screen.kind && s.mode == screen.activeMode
              && s.groupId == screen.groupDmsId && s.lastGroupId == screen.lastGroupDmsId
              && s.hasNode == (screen.rsDisplayNode != null) && s.start == screen.startPoint
              && s.rotation == screen.rotation && s.orientation == screen.orientation
    {
    }

    lemma GroupAt(g: ScreenId)
      requires Wired() && g in dmsScreenGroupMap
      ensures View().groups[g] == dmsScreenGroupMap[g].View() && dmsScreenGroupMap[g] in Repr
      ensures dmsScreenGroupMap[g].base.dmsId == g
      ensures var grp, group := View().groups[g], dmsScreenGroupMap[g];
              && grp.combination == group.combination && grp.mirrorId == group.mirrorScreenId
              && grp.defaultId == group.defaultScreenId && grp.children == group.screenMap.Keys
    {
    }

    twostate lemma SameScreens()
      requires old(Wired()) && Wired() && dmsScreenMap == old(dmsScreenMap)
      requires forall d :: d in dmsScreenMap ==> unchanged(dmsScreenMap[d])
      ensures View().screens == old(View()).screens
    {
      forall d | d in dmsScreenMap ensures View().screens[d] == old(View()).screens[d] {
        assert dmsScreenMap[d].View() == old(dmsScreenMap[d].View());
      }
    }

    twostate lemma SameGroups()
      requires old(Wired()) && Wired() && dmsScreenGroupMap == old(dmsScreenGroupMap)
      requires forall g :: g in dmsScreenGroupMap ==> unchanged(dmsScreenGroupMap[g])
      ensures View().groups == old(View()).groups
    {
      forall g | g in dmsScreenGroupMap ensures View().groups[g] == old(View()).groups[g] {
        assert dmsScreenGroupMap[g].View() == old(dmsScreenGroupMap[g].View());
      }
    }

    twostate lemma SameDisplays()
      requires old(Wired()) && Wired()
      requires displayController.abstractDisplayMap == old(displayController.abstractDisplayMap)
      requires forall k :: k in displayController.abstractDisplayMap ==> unchanged(displayController.abstractDisplayMap[k])
      ensures View().displays == old(View()).displays
    {
      forall k | k in displayController.abstractDisplayMap ensures View().displays[k] == old(View()).displays[k] {
        assert displayController.abstractDisplayMap[k].View() == old(displayController.abstractDisplayMap[k].View());
      }
    }

    twostate lemma ScreensBut(s: AbstractScreen)
      requires old(Wired()) && Wired() && dmsScreenMap == old(dmsScreenMap) && Holds(s)
      requires forall d :: d in dmsScreenMap && d != s.dmsId ==> unchanged(dmsScreenMap[d])
      ensures View().screens == old(View()).screens[s.dmsId := s.View()]
    {
      forall d | d in dmsScreenMap && d != s.dmsId ensures View().screens[d] == old(View()).screens[d] {
        assert dmsScreenMap[d].View() == old(dmsScreenMap[d].View());
      }
    }

    twostate lemma GroupsBut(group: AbstractScreenGroup)
      requires old(Wired()) && Wired() && dmsScreenGroupMap == old(dmsScreenGroupMap) && HoldsGroup(group)
      requires forall g :: g in dmsScreenGroupMap && g != group.base.dmsId ==> unchanged(dmsScreenGroupMap[g])
      ensures View().groups == old(View()).groups[group.base.dmsId := group.View()]
    {
      forall g | g in dmsScreenGroupMap && g != group.base.dmsId ensures View().groups[g] == old(View()).groups[g] {
        assert dmsScreenGroupMap[g].View() == old(dmsScreenGroupMap[g].View());
      }
    }

    twostate lemma ScreenSet(s: AbstractScreen)
      requires old(Wired()) && old(Holds(s)) && unchanged(old(Repr) - {s})
      ensures Wired() && View() == old(View()).(screens := old(View()).screens[s.dmsId := s.View()])
    {
      assert Wired();
      SameGroups();
      SameDisplays();
      ScreensBut(s);
      hide View;
    }

    twostate lemma GroupSet(group: AbstractScreenGroup)
      requires old(Wired()) && old(HoldsGroup(group))
      requires unchanged(old(Repr) - {group}) && group.screenMap == old(group.screenMap)
      ensures Wired() && View() == old(View()).(groups := old(View()).groups[group.base.dmsId := group.View()])
    {
      assert Wired();
      SameScreens();
      SameDisplays();
      GroupsBut(group);
      hide View;
    }

    twostate lemma DisplaysBut(k: DisplayId)
      requires old(Wired()) && Wired() && k in displayController.abstractDisplayMap
      requires displayController.abstractDisplayMap == old(displayController.abstractDisplayMap)
      requires forall j :: j in displayController.abstractDisplayMap && j != k ==> unchanged(displayController.abstractDisplayMap[j])
      ensures View().displays == old(View()).displays[k := displayController.abstractDisplayMap[k].View()]
    {
      ghost var m := displayController.abstractDisplayMap;
      forall j | j in m && j != k ensures View().displays[j] == old(View()).displays[j] {
        assert m[j].View() == old(m[j].View());
      }
    }

    twostate lemma DisplaySet(k: DisplayId)
      requires old(Wired()) && k in old(displayController.abstractDisplayMap)
      requires unchanged(old(Repr) - {old(displayController.abstractDisplayMap[k])})
      ensures Wired()
      ensures View() == old(View()).(displays := old(View()).displays[k := displayController.abstractDisplayMap[k].View()])
    {
      assert Wired();
      SameScreens();
      SameGroups();
      DisplaysBut(k);
      hide View;
    }

    /** For changes of the fields of the server itself and of the id manager. */
    twostate lemma MapsSet()
      requires old(Wired()) && Wired() && unchanged(old(Repr) - {this, screenIdManager})
      ensures View().displays == old(View()).displays && View().displayCount == old(View()).displayCount
      ensures dmsScreenMap == old(dmsScreenMap) ==> View().screens == old(View()).screens
      ensures dmsScreenGroupMap == old(dmsScreenGroupMap) ==> View().groups == old(View()).groups
    {
      SameDisplays();
      if dmsScreenMap == old(dmsScreenMap) {
        SameScreens();
      }
      if dmsScreenGroupMap == old(dmsScreenGroupMap) {
        SameGroups();
      }
    }

    method CreateScreenId(rs: ScreenId) returns (d: ScreenId)
      requires Wired()
      modifies screenIdManager
      ensures Wired() && d == old(View()).ids.count
      ensures View() == old(View()).(ids := CreateId(old(View()).ids, rs))
    {
      d := screenIdManager.CreateAndGetNewScreenId(rs);
      MapsSet();
    }

    method DeleteScreenId(d: ScreenId)
      requires Wired()
      modifies screenIdManager
      ensures Wired() && View() == old(View()).(ids := DeleteId(old(View()).ids, d))
    {
      var _ := screenIdManager.DeleteScreenId(d);
      MapsSet();
    }

    method InsertScreen(s: AbstractScreen)
      requires Wired() && s.dmsId !in dmsScreenMap && s !in Repr
      modifies this`dmsScreenMap, this`Repr
      ensures Wired() && Repr == old(Repr) + {s} && Holds(s)
      ensures dmsScreenMap == old(dmsScreenMap)[s.dmsId := s]
      ensures View() == old(View()).(screens := old(View()).screens[s.dmsId := s.View()])
    {
      dmsScreenMap := dmsScreenMap[s.dmsId := s];
      Repr := Repr + {s};
      MapsSet();
      assert View().screens == old(View()).screens[s.dmsId := s.View()];
    }

    method InsertGroup(group: AbstractScreenGroup)
      requires Wired() && group !in Repr && group.base !in Repr
      requires group.base.dmsId !in dmsScreenMap && group.base.dmsId !in dmsScreenGroupMap
      requires forall c :: c in group.screenMap ==> c in dmsScreenMap && dmsScreenMap[c] == group.screenMap[c]
      modifies this`dmsScreenMap, this`dmsScreenGroupMap, this`Repr
      ensures Wired() && Repr == old(Repr) + {group, group.base} && HoldsGroup(group)
      ensures dmsScreenMap == old(dmsScreenMap)[group.base.dmsId := group.base]
      ensures dmsScreenGroupMap == old(dmsScreenGroupMap)[group.base.dmsId := group]
      ensures View() == old(View()).(screens := old(View()).screens[group.base.dmsId := group.base.View()],
                                     groups := old(View()).groups[group.base.dmsId := group.View()])
    {
      InsertScreen(group.base);
      label Listed:
      dmsScreenGroupMap := dmsScreenGroupMap[group.base.dmsId := group];
      Repr := Repr + {group};
      assert Wired();
      MapsSet@Listed();
      assert View().groups == old@Listed(View()).groups[group.base.dmsId := group.View()];
    }

    method SetMirrorSource(g: ScreenId, id: ScreenId)
      requires Wired() && g in dmsScreenGroupMap
      modifies dmsScreenGroupMap[g]
      ensures Wired() && View() == WithSource(old(View()), g, id)
    {
      dmsScreenGroupMap[g].mirrorScreenId := id;
      GroupSet(dmsScreenGroupMap[g]);
    }

    /** The first child of a group that is not registered yet. */
    method InsertFirst(env: Env, group: AbstractScreenGroup, id: ScreenId)
      requires Wired() && id in dmsScreenMap && group !in Repr && group.screenMap == map[]
      modifies group`screenMap, dmsScreenMap[id]
      ensures Wired() && group.screenMap == map[id := dmsScreenMap[id]]
      ensures group.View() == old(group.View()).(children := {id})
      ensures var st := old(View());
              View() == st.(screens := st.screens[id := WithNode(st.screens[id], env, group.base.dmsId, ORIGIN)])
      ensures var screen := dmsScreenMap[id];
              screen.Surfaces() == SurfaceStep(old(dmsScreenMap[id].Surfaces()), Enter(screen.rsId !in env.noNode))
    {
      group.InsertChild(dmsScreenMap[id], env, ORIGIN);
      assert {} + {id} == {id};
      hide WithNode;
      ScreenSet(dmsScreenMap[id]);
    }

    method FoundGroup(env: Env, g: ScreenId, id: ScreenId)
      requires Wired() && id in dmsScreenMap && g !in dmsScreenMap && g !in dmsScreenGroupMap
      modifies this`dmsScreenMap, this`dmsScreenGroupMap, this`Repr, dmsScreenMap[id]
      ensures Wired() && fresh(Repr - old(Repr)) && g in dmsScreenGroupMap && fresh(dmsScreenGroupMap[g])
      ensures View() == Founded(old(View()), env, g, id)
    {
      hide View, Wired, WithNode;
      var group := new AbstractScreenGroup(g, if env.expand then SCREEN_EXPAND else SCREEN_MIRROR);
      InsertFirst(env, group, id);
      InsertGroup(group);
    }

    method RegisterGroup(env: Env, g: ScreenId, id: ScreenId)
      requires Wired() && id in dmsScreenMap && g !in dmsScreenMap && g !in dmsScreenGroupMap
      modifies this`dmsScreenMap, this`dmsScreenGroupMap, this`Repr, dmsScreenMap[id]
      ensures Wired() && fresh(Repr - old(Repr))
      ensures View() == WithSource(Founded(old(View()), env, g, id), g, id)
    {
      hide View, Wired, Founded, WithSource;
      FoundGroup(env, g, id);
      SetMirrorSource(g, id);
    }

    method Place(env: Env, g: ScreenId, id: ScreenId, p: Point)
      requires Wired() && g in dmsScreenGroupMap && id in dmsScreenMap
      modifies dmsScreenGroupMap[g], dmsScreenMap[id]
      ensures Wired() && View() == PlaceChild(old(View()), env, g, id, p)
      ensures var screen := dmsScreenMap[id];
              screen.Surfaces() == SurfaceStep(old(dmsScreenMap[id].Surfaces()), Enter(screen.rsId !in env.noNode))
    {
      dmsScreenGroupMap[g].InsertChild(dmsScreenMap[id], env, p);
      assert Wired();
      SameDisplays();
      ScreensBut(dmsScreenMap[id]);
      GroupsBut(dmsScreenGroupMap[g]);
      hide View;
    }

    /** The reconnect branch of AddChild: the new node takes over the recorded surfaces. */
    method RenewNode(env: Env, id: ScreenId, p: Point)
      requires Wired() && id in dmsScreenMap && dmsScreenMap[id].rsDisplayNode != null
      modifies dmsScreenMap[id]
      ensures Wired()
      ensures var st := old(View());
              View() == if st.screens[id].rsId in env.noNode then st
                        else st.(screens := st.screens[id := st.screens[id].(start := p)])
      ensures dmsScreenMap[id].Surfaces() ==
                SurfaceStep(old(dmsScreenMap[id].Surfaces()), Renew(dmsScreenMap[id].rsId !in env.noNode))
    {
      var screen := dmsScreenMap[id];
      screen.InitRSDefaultDisplayNode(env, p);
      ScreenSet(screen);
      assert View().screens == if screen.rsId in env.noNode then old(View()).screens else View().screens;
    }

    method LearnDefault(env: Env)
      requires Wired()
      modifies this`defaultRsScreenId
      ensures Wired() && View() == Learn(old(View()), env)
    {
      if defaultRsScreenId == SCREEN_ID_INVALID {
        defaultRsScreenId := env.defaultRs;
      }
      MapsSet();
    }

    /** The rotation that the configured orientation of the built-in panel asks for. */
    method TurnBuiltIn(env: Env, rs: ScreenId, id: ScreenId)
      requires Wired() && id in dmsScreenMap
      modifies dmsScreenMap[id]
      ensures Wired() && View() == BuiltIn(old(View()), env, rs, id)
    {
      var screen := dmsScreenMap[id];
      if rs == env.defaultRs && screen.rsDisplayNode != null {
        screen.screenRequestedOrientation := env.builtIn;
        var rotationAfter := CalcRotation(screen.activeMode, screen.screenRequestedOrientation);
        if screen.activeMode.Some? {
          screen.rotation := rotationAfter;
          screen.orientation := screen.screenRequestedOrientation;
        }
        ScreenSet(screen);
      }
    }

    method AddDisplay(id: ScreenId, m: Mode, p: Point)
      requires Wired() && id in dmsScreenMap
      modifies this`Repr, displayController
      ensures Wired() && fresh(Repr - old(Repr)) && View() == CreateDisplay(old(View()), id, m, p)
    {
      var k := displayController.displayCount;
      var display := new AbstractDisplay(k, id, dmsScreenMap[id].View(), m);
      display.SetOffset(p);
      ListDisplay(display);
      hide View, Wired, NewDisplay;
    }

    method ListDisplay(display: AbstractDisplay)
      requires Wired() && display !in Repr && display.id == displayController.displayCount
      modifies this`Repr, displayController
      ensures Wired() && Repr == old(Repr) + {display}
      ensures var st := old(View());
              View() == st.(displays := st.displays[st.displayCount := display.View()], displayCount := st.displayCount + 1)
    {
      var k := displayController.displayCount;
      displayController.displayCount := k + 1;
      displayController.abstractDisplayMap := displayController.abstractDisplayMap[k := display];
      Repr := Repr + {display};
      assert Wired();
      SameScreens();
      SameGroups();
      DisplayAdded(k);
      hide View;
    }

    twostate lemma DisplayAdded(id: DisplayId)
      requires old(Wired()) && Wired() && id in displayController.abstractDisplayMap
      requires displayController.abstractDisplayMap ==
                 old(displayController.abstractDisplayMap)[id := displayController.abstractDisplayMap[id]]
      requires forall k :: k in old(displayController.abstractDisplayMap) ==> unchanged(old(displayController.abstractDisplayMap[k]))
      requires id !in old(displayController.abstractDisplayMap)
      ensures View().displays == old(View()).displays[id := displayController.abstractDisplayMap[id].View()]
    {
      ghost var m := displayController.abstractDisplayMap;
      forall k | k in m && k != id ensures View().displays[k] == old(View()).displays[k] {
        assert m[k] == old(displayController.abstractDisplayMap[k]);
        assert m[k].View() == old(displayController.abstractDisplayMap[k].View());
      }
    }

    // ---------- Connecting screens ----------

    /** The id of the new screen, or SCREEN_ID_INVALID where the source returns null. */
    method InitAndGetScreen(env: Env, rs: ScreenId) returns (id: ScreenId)
      requires Valid()
      modifies Repr
      ensures Valid() && fresh(Repr - old(Repr))
      ensures (View(), id) == InitScreen(old(View()), env, rs)
    {
      id := CreateScreenId(rs);
      if rs !in env.modes {
        DeleteScreenId(id);
        return SCREEN_ID_INVALID;
      }
      assert id !in old(View()).screens;
      var screen := new AbstractScreen(id, rs, REAL, Some(env.modes[rs]));
      InsertScreen(screen);
    }

    method AddAsFirstScreenLocked(env: Env, id: ScreenId) returns (g: ScreenId)
      requires Valid() && id in dmsScreenMap
      modifies Repr
      ensures Valid() && fresh(Repr - old(Repr))
      ensures (View(), g) == AddAsFirst(old(View()), env, id)
    {
      hide View, Wired, Bounded, AddAsFirst, Founded, WithSource;
      ghost var st := View();
      AddAsFirstOnward(st, env, id);
      NewIdFree(st);
      FoundedInOrder(st, env, id);
      Own();
      ScreenAt(id);
      g := CreateScreenId(SCREEN_ID_INVALID);
      RegisterGroup(env, g, id);
    }

    method GetDefaultAbstractScreenId(env: Env) returns (id: ScreenId)
      requires Valid()
      modifies Repr
      ensures Valid() && fresh(Repr - old(Repr))
      ensures (View(), id) == GetDefault(old(View()), env)
      decreases if Settled(View(), env) then 0 else 1, 1
    {
      hide View, Wired, Bounded, GetDefault, Connect;
      ghost var st := View();
      LookupIsConnect(st, env);
      GetDefaultOnward(st, env);
      LearnOnward(st, env);
      Own();
      LearnDefault(env);
      if defaultRsScreenId == SCREEN_ID_INVALID {
        return SCREEN_ID_INVALID;
      }
      if defaultRsScreenId in screenIdManager.rs2DmsScreenIdMap {
        return screenIdManager.rs2DmsScreenIdMap[defaultRsScreenId];
      }
      ConnectOnward(View(), env, defaultRsScreenId);
      ProcessScreenConnected(env, defaultRsScreenId);
      id := if defaultRsScreenId in screenIdManager.rs2DmsScreenIdMap
            then screenIdManager.rs2DmsScreenIdMap[defaultRsScreenId] else SCREEN_ID_INVALID;
    }

    /** The screen info handed to listeners asks for the source mode, and that for the default screen. */
    method ConvertToScreenInfo(env: Env, id: ScreenId)
      requires Valid() && id in dmsScreenMap
      modifies Repr
      ensures Valid() && fresh(Repr - old(Repr))
      ensures View() == Touch(old(View()), env, id)
      decreases if Settled(View(), env) then 0 else 1, 2
    {
      hide View, Wired, Bounded, GetDefault;
      ScreenAt(id);
      if dmsScreenMap[id].groupDmsId in dmsScreenGroupMap {
        var _ := GetDefaultAbstractScreenId(env);
      }
    }

    method GetRSDisplayNodeConfig(env: Env, g: ScreenId, id: ScreenId)
      requires Valid() && g in dmsScreenGroupMap
      modifies Repr
      ensures Valid() && fresh(Repr - old(Repr))
      ensures View() == NodeConfig(old(View()), env, g, id)
      decreases if Settled(View(), env) then 0 else 1, 2
    {
      hide View, Wired, Bounded, GetDefault;
      GroupAt(g);
      NodeConfigOnward(View(), env, g, id);
      var group := dmsScreenGroupMap[g];
      if group.combination.SCREEN_EXPAND? {
        return;
      }
      if group.screenMap == map[] || group.mirrorScreenId == id {
        return;
      }
      if group.mirrorScreenId == SCREEN_ID_INVALID || group.mirrorScreenId !in group.screenMap {
        var d := GetDefaultAbstractScreenId(env);
        GroupAt(g);
        SetMirrorSource(g, d);
      }
    }

    /** The condition under which AddChild renews the node. */
    method IsReconnected(g: ScreenId, id: ScreenId) returns (r: bool)
      requires Wired() && g in dmsScreenGroupMap && id in dmsScreenMap
      ensures r == Reconnects(View(), g, id)
      ensures r ==> dmsScreenMap[id].rsDisplayNode != null
    {
      hide View, Wired;
      GroupAt(g);
      ScreenAt(id);
      var screen, group := dmsScreenMap[id], dmsScreenGroupMap[g];
      r := screen.rsDisplayNode != null && screen.kind.REAL? && group.defaultScreenId == id;
    }

    method InsertOrRenew(env: Env, g: ScreenId, id: ScreenId, p: Point)
      requires Wired() && g in dmsScreenGroupMap && id in dmsScreenMap
      modifies dmsScreenGroupMap[g], dmsScreenMap[id]
      ensures Wired() && View() == Inserted(old(View()), env, g, id, p)
    {
      hide View, Wired, PlaceChild, Reconnects;
      var reconnected := IsReconnected(g, id);
      if reconnected {
        RenewNode(env, id, p);
      } else {
        Place(env, g, id, p);
      }
    }

    /** AddChild, when nothing stands against it. */
    method ConfigureAndInsert(env: Env, g: ScreenId, id: ScreenId, p: Point)
      requires Valid() && g in dmsScreenGroupMap && id in dmsScreenMap
      requires !(id in View().groups[g].children && !Reconnects(View(), g, id))
      modifies Repr
      ensures Valid() && fresh(Repr - old(Repr))
      ensures View() == ScreenState.AddChild(old(View()), env, g, id, p).0
      decreases if Settled(View(), env) then 0 else 1, 3
    {
      hide View, Wired, Bounded, Settled, NodeConfig, Reconnects, Inserted, ScreenState.AddChild;
      AddChildParts(View(), env, g, id, p);
      GetRSDisplayNodeConfig(env, g, id);
      GroupAt(g);
      ScreenAt(id);
      InsertOrRenew(env, g, id, p);
    }

    method AddChild(env: Env, g: ScreenId, id: ScreenId, p: Point) returns (ok: bool)
      requires Valid() && g in dmsScreenGroupMap && id in dmsScreenMap
      modifies Repr
      ensures Valid() && fresh(Repr - old(Repr))
      ensures (View(), ok) == ScreenState.AddChild(old(View()), env, g, id, p)
      decreases if Settled(View(), env) then 0 else 1, 4
    {
      GroupAt(g);
      AddChildParts(View(), env, g, id, p);
      var reconnected := IsReconnected(g, id);
      hide View, Wired, Bounded, Settled, NodeConfig, Reconnects, Inserted, ScreenState.AddChild;
      if id in dmsScreenGroupMap[g].screenMap && !reconnected {
        return false;
      }
      ConfigureAndInsert(env, g, id, p);
      return true;
    }

    lemma ChildAt(g: ScreenId, c: ScreenId)
      requires Wired() && g in dmsScreenGroupMap && c in dmsScreenGroupMap[g].screenMap
      ensures c in dmsScreenMap && dmsScreenGroupMap[g].screenMap[c] == dmsScreenMap[c]
      ensures View().screens[c] == dmsScreenMap[c].View()
    {
    }

    /** How far a child reaches along the x axis. */
    method WidthOfChild(g: ScreenId, c: ScreenId) returns (w: int)
      requires Wired() && g in dmsScreenGroupMap && c in dmsScreenGroupMap[g].screenMap
      ensures w == WidthOf(View().screens, c)
    {
      ChildAt(g, c);
      var child := dmsScreenGroupMap[g].screenMap[c];
      if child.activeMode.None? {
        return 0;
      }
      if child.rotation == ROTATION_90 || child.rotation == ROTATION_270 {
        return child.activeMode.value.height;
      }
      return child.activeMode.value.width;
    }

    method SumOfWidths(g: ScreenId, children: seq<ScreenId>) returns (x: int)
      requires Wired() && g in dmsScreenGroupMap
      requires forall i :: 0 <= i < |children| ==> children[i] in dmsScreenGroupMap[g].screenMap
      ensures x == SumWidths(View().screens, children)
    {
      hide Wired, View, SumWidths, WidthOf;
      ghost var screens := View().screens;
      x := 0;
      assert children[0..] == children;
      for i := 0 to |children|
        invariant x + SumWidths(screens, children[i..]) == SumWidths(screens, children)
      {
        SumWidthsStep(screens, children, i);
        var w := WidthOfChild(g, children[i]);
        x := x + w;
      }
      SumWidthsStep(screens, children, |children|);
    }

    /** The place behind the last child. */
    method PointBehind(g: ScreenId) returns (p: Point)
      requires Wired() && g in dmsScreenGroupMap
      ensures p == PlaceBehind(View(), g)
    {
      hide Wired, View, SumWidths, Ascending;
      GroupAt(g);
      p := ORIGIN;
      if dmsScreenGroupMap[g].combination.SCREEN_EXPAND? {
        var children := Ascending(dmsScreenGroupMap[g].screenMap.Keys);
        assert forall i :: 0 <= i < |children| ==> children[i] in children;
        var x := SumOfWidths(g, children);
        p := Point(x, 0);
      }
    }

    /** The group of the default screen, or SCREEN_ID_INVALID. */
    method GroupOfDefault(env: Env) returns (found: bool, g: ScreenId)
      requires Valid()
      modifies Repr
      ensures Valid() && fresh(Repr - old(Repr))
      ensures var (s1, d) := GetDefault(old(View()), env);
              && View() == s1
              && (found <==> d in s1.screens && s1.screens[d].groupId in s1.groups)
              && (found ==> g == s1.screens[d].groupId)
      decreases if Settled(View(), env) then 0 else 1, 2
    {
      hide View, Wired, Bounded, GetDefault;
      var d := GetDefaultAbstractScreenId(env);
      if d !in dmsScreenMap {
        return false, SCREEN_ID_INVALID;
      }
      ScreenAt(d);
      g := dmsScreenMap[d].groupDmsId;
      found := g in dmsScreenGroupMap;
    }

    method AddBehind(env: Env, g: ScreenId, id: ScreenId)
      requires Valid() && g in dmsScreenGroupMap && id in dmsScreenMap
      modifies Repr
      ensures Valid() && fresh(Repr - old(Repr))
      ensures View() == ScreenState.AddChild(old(View()), env, g, id, PlaceBehind(old(View()), g)).0
      decreases if Settled(View(), env) then 0 else 1, 5
    {
      hide View, Bounded, Settled, PlaceBehind, ScreenState.AddChild;
      var point := PointBehind(g);
      var _ := AddChild(env, g, id, point);
    }

    method AddAsSuccedentScreenLocked(env: Env, id: ScreenId) returns (g: ScreenId)
      requires Valid() && id in dmsScreenMap
      modifies Repr
      ensures Valid() && fresh(Repr - old(Repr))
      ensures (View(), g) == AddAsSuccedent(old(View()), env, id)
      decreases if Settled(View(), env) then 0 else 1, 6
    {
      hide View, Wired, Bounded, Settled, GetDefault, PlaceBehind, ScreenState.AddChild, AddAsSuccedent;
      DefaultParts(View(), env);
      SuccedentAtPlace(View(), env, id);
      var found, group := GroupOfDefault(env);
      if !found {
        return SCREEN_ID_INVALID;
      }
      AddBehind(env, group, id);
      g := group;
    }

    method AddToGroupLocked(env: Env, id: ScreenId) returns (g: ScreenId)
      requires Valid() && id in dmsScreenMap
      modifies Repr
      ensures Valid() && fresh(Repr - old(Repr))
      ensures (View(), g) == AddToGroup(old(View()), env, id)
      decreases if Settled(View(), env) then 0 else 1, 7
    {
      hide View, Wired, Bounded, AddAsFirst, AddAsSuccedent;
      if dmsScreenGroupMap == map[] {
        g := AddAsFirstScreenLocked(env, id);
      } else {
        g := AddAsSuccedentScreenLocked(env, id);
      }
    }

    method ProcessDefaultScreenReconnected(env: Env, rs: ScreenId)
      requires Valid()
      modifies Repr
      ensures Valid() && fresh(Repr - old(Repr))
      ensures View() == Reconnect(old(View()), env, rs)
      decreases if Settled(View(), env) then 0 else 1, 5
    {
      hide View, Wired, Bounded, ScreenState.AddChild;
      if rs != defaultRsScreenId || defaultRsScreenId == SCREEN_ID_INVALID {
        return;
      }
      if rs !in screenIdManager.rs2DmsScreenIdMap {
        return;
      }
      var d := screenIdManager.rs2DmsScreenIdMap[rs];
      if d !in dmsScreenMap {
        return;
      }
      ScreenAt(d);
      var g := dmsScreenMap[d].lastGroupDmsId;
      if g !in dmsScreenGroupMap {
        return;
      }
      var _ := AddChild(env, g, d, ORIGIN);
    }

    method ProcessScreenConnected(env: Env, rs: ScreenId)
      requires Valid()
      modifies Repr
      ensures Valid() && fresh(Repr - old(Repr))
      ensures View() == Connect(old(View()), env, rs)
      decreases if Settled(View(), env) then 0 else 1,
                if Settled(View(), env) || rs != Learn(View(), env).defaultRs then 10 else 0
    {
      hide View, Wired, Bounded, Settled, Learn, Connect, Reconnect, InitScreen, Join;
      ConnectParts(View(), env, rs);
      if rs in screenIdManager.rs2DmsScreenIdMap {
        ProcessDefaultScreenReconnected(env, rs);
        return;
      }
      var id := InitAndGetScreen(env, rs);
      if id == SCREEN_ID_INVALID {
        return;
      }
      JoinGroup(env, rs, id);
    }

    /** The rest of ProcessScreenConnected, once the screen exists. */
    method JoinGroup(env: Env, rs: ScreenId, id: ScreenId)
      requires Valid() && id in dmsScreenMap
      modifies Repr
      ensures Valid() && fresh(Repr - old(Repr))
      ensures View() == Join(old(View()), env, rs, id)
      decreases if Settled(View(), env) then 0 else 1, 8
    {
      hide View, Wired, Bounded, Settled, AddToGroup, Announce;
      JoinParts(View(), env, id);
      var g := AddToGroupLocked(env, id);
      if g == SCREEN_ID_INVALID {
        return;
      }
      AnnounceScreen(env, rs, id);
    }

    /** The rest of ProcessScreenConnected, once the screen has a group. */
    method AnnounceScreen(env: Env, rs: ScreenId, id: ScreenId)
      requires Valid() && id in dmsScreenMap
      modifies Repr
      ensures Valid() && fresh(Repr - old(Repr))
      ensures View() == Announce(old(View()), env, rs, id)
      decreases if Settled(View(), env) then 0 else 1, 5
    {
      hide View, Wired, Bounded, Settled, Announce, BuiltIn, Touch, OnConnect;
      AnnounceParts(View(), env, rs, id);
      ScreenAt(id);
      TurnBuiltIn(env, rs, id);
      ConvertToScreenInfo(env, id);
      if abstractScreenCallback {
        OnAbstractScreenConnect(env, id);
      }
    }

    // ---------- The callbacks of the display controller ----------

    method OnAbstractScreenConnect(env: Env, id: ScreenId)
      requires Valid() && id in dmsScreenMap
      modifies Repr
      ensures Valid() && fresh(Repr - old(Repr))
      ensures View() == OnConnect(old(View()), env, id)
      decreases if Settled(View(), env) then 0 else 1, 4
    {
      ScreenAt(id);
      var g := dmsScreenMap[id].groupDmsId;
      if g !in dmsScreenGroupMap {
        return;
      }
      GroupAt(g);
      hide View, Wired, Bounded, BindAlone, AddExpand;
      if |dmsScreenGroupMap[g].screenMap| == 1 {
        BindAloneScreenLocked(env, id);
      } else if dmsScreenGroupMap[g].combination.SCREEN_EXPAND? {
        AddScreenToExpandLocked(env, id);
      }
    }

    method BindAloneScreenLocked(env: Env, id: ScreenId)
      requires Valid() && id in dmsScreenMap
      modifies Repr
      ensures Valid() && fresh(Repr - old(Repr))
      ensures View() == BindAlone(old(View()), env, id)
      decreases if Settled(View(), env) then 0 else 1, 2
    {
      hide View, Wired, Bounded, GetDefault, CreateDisplay;
      DefaultParts(View(), env);
      ghost var (s1, d) := GetDefault(View(), env);
      BindOnward(s1, env, id, d);
      var defaultScreenId := GetDefaultAbstractScreenId(env);
      if defaultScreenId != SCREEN_ID_INVALID {
        if defaultScreenId != id {
          return;
        }
        ScreenAt(id);
        var info := dmsScreenMap[id].activeMode;
        if info.None? {
          return;
        }
        Own();
        AddDisplay(id, info.value, ORIGIN);
      }
    }

    method AddScreenToExpandLocked(env: Env, id: ScreenId)
      requires Valid() && id in dmsScreenMap
      modifies Repr
      ensures Valid() && fresh(Repr - old(Repr))
      ensures View() == AddExpand(old(View()), env, id)
      decreases if Settled(View(), env) then 0 else 1, 3
    {
      var found := displayController.FindDisplay(id);
      assert found == FirstDisplay(View().displays, id, 0, View().displayCount);
      hide View, Wired, Bounded, GetDefault, CreateDisplay, FirstDisplay;
      if found.Some? {
        return;
      }
      BindExpandScreen(env, id);
    }

    /** AddScreenToExpandLocked for a screen that has no display yet. */
    method BindExpandScreen(env: Env, id: ScreenId)
      requires Valid() && id in dmsScreenMap
      modifies Repr
      ensures Valid() && fresh(Repr - old(Repr))
      ensures View() == BindExpand(old(View()), env, id)
      decreases if Settled(View(), env) then 0 else 1, 2
    {
      hide View, Wired, Bounded, Settled, GetDefault, CreateDisplay;
      DefaultParts(View(), env);
      AddExpandOnward(View(), env, id);
      var defaultScreenId := GetDefaultAbstractScreenId(env);
      ScreenAt(id);
      var info := dmsScreenMap[id].activeMode;
      if dmsScreenMap[id].kind.VIRTUAL? {
        if defaultScreenId !in dmsScreenMap {
          return;
        }
        ScreenAt(defaultScreenId);
        info := dmsScreenMap[defaultScreenId].activeMode;
      }
      if info.None? {
        return;
      }
      Own();
      AddDisplay(id, info.value, dmsScreenMap[id].startPoint);
    }

    // ---------- Disconnecting screens ----------

    /** The invariant of the state machine, on top of the wiring of the objects. */
    ghost predicate Sound()
      reads this, Repr
    {
      Wired() && Inv(View())
    }

    lemma SoundValid()
      requires Sound()
      ensures Valid()
    {
      InvBounded(View());
    }

    lemma DisplayAt(k: DisplayId)
      requires Wired() && k in displayController.abstractDisplayMap
      ensures View().displays[k] == displayController.abstractDisplayMap[k].View()
      ensures displayController.abstractDisplayMap[k] in Repr
    {
    }

    /** Every display that is not bound to the screen moves to the origin; the last one that is, is found. */
    method ZeroOffsets(id: ScreenId) returns (found: Option<DisplayId>)
      requires Wired()
      modifies displayController.abstractDisplayMap.Values
      ensures Wired() && View() == old(View()).(displays := ZeroOthers(old(View()).displays, id))
      ensures found == LastDisplay(old(View()).displays, id, old(View()).displayCount)
    {
      ghost var st := View();
      ZeroBelowNone(st.displays, id);
      ZeroBelowAll(st.displays, id, st.displayCount);
      LastStep(st.displays, id, 0);
      hide View, Wired, ZeroBelow, ZeroOthers, LastDisplay;
      found := None;
      var k := 0;
      while k < displayController.displayCount
        invariant k <= displayController.displayCount == st.displayCount && Wired()
        invariant View() == st.(displays := ZeroBelow(st.displays, id, k))
        invariant found == LastDisplay(st.displays, id, k)
      {
        found := ZeroNext(st.displays, id, k, found);
        k := k + 1;
      }
    }

    /** One turn of the loop, for the displays there were at first. */
    method ZeroNext(ghost displays: map<DisplayId, Display>, id: ScreenId, k: DisplayId, before: Option<DisplayId>)
      returns (found: Option<DisplayId>)
      requires Wired() && View().displays == ZeroBelow(displays, id, k) && before == LastDisplay(displays, id, k)
      modifies displayController.abstractDisplayMap.Values
      ensures Wired() && View() == old(View()).(displays := ZeroBelow(displays, id, k + 1))
      ensures found == LastDisplay(displays, id, k + 1)
    {
      hide View, Wired, ZeroBelow, LastDisplay;
      ZeroBelowStep(displays, id, k);
      ZeroBelowAt(displays, id, k);
      LastStep(displays, id, k);
      found := before;
      if k in displayController.abstractDisplayMap {
        found := ZeroOffset(id, k, before);
      }
    }

    method ZeroOffset(id: ScreenId, k: DisplayId, before: Option<DisplayId>) returns (found: Option<DisplayId>)
      requires Wired() && k in displayController.abstractDisplayMap
      modifies displayController.abstractDisplayMap[k]
      ensures Wired()
      ensures var st := old(View());
              if st.displays[k].screenId == id then View() == st && found == Some(k)
              else View() == st.(displays := st.displays[k := st.displays[k].(offset := ORIGIN)]) && found == before
    {
      var d := displayController.abstractDisplayMap[k];
      if d.screenId == id {
        return Some(k);
      }
      d.SetOffset(ORIGIN);
      DisplaySet(k);
      return before;
    }

    method EraseDisplay(k: DisplayId)
      requires Wired()
      modifies displayController
      ensures Wired() && View() == old(View()).(displays := old(View()).displays - {k})
    {
      displayController.abstractDisplayMap := displayController.abstractDisplayMap - {k};
      assert Wired();
      SameScreens();
      SameGroups();
      forall j | j in displayController.abstractDisplayMap ensures View().displays[j] == old(View()).displays[j] {
        assert displayController.abstractDisplayMap[j].View() == old(displayController.abstractDisplayMap[j].View());
      }
      assert View().displays == old(View()).displays - {k};
    }

    method ProcessExpandScreenDisconnected(env: Env, id: ScreenId)
      requires Sound()
      modifies Repr
      ensures Sound() && fresh(Repr - old(Repr))
      ensures View() == UnbindExpand(old(View()), env, id)
    {
      hide View, Wired, Inv, GetDefault, ZeroOthers, LastDisplay;
      ZeroedInv(View(), id);
      UnbindExpandInv(View(), env, id);
      OwnDisplays();
      var found := ZeroOffsets(id);
      if found.Some? {
        LookUpAndErase(env, found.value);
      }
    }

    /** The display of a disconnected screen is taken off the map once its listeners know. */
    method LookUpAndErase(env: Env, k: DisplayId)
      requires Sound()
      modifies Repr
      ensures Wired() && fresh(Repr - old(Repr))
      ensures var s1 := GetDefault(old(View()), env).0; View() == s1.(displays := s1.displays - {k})
    {
      hide View, Wired, Inv, GetDefault;
      SoundValid();
      var _ := GetDefaultAbstractScreenId(env);
      Own();
      EraseDisplay(k);
    }

    /** ProcessNormalScreenDisconnected: the display of the screen goes over to the default screen. The
        erasing that follows in the source needs a group without children, which the screen is not in. */
    method ProcessNormalScreenDisconnected(env: Env, id: ScreenId)
      requires Sound()
      modifies Repr
      ensures Sound() && fresh(Repr - old(Repr))
      ensures View() == UnbindMirror(old(View()), env, id)
    {
      hide View, Wired, Inv, GetDefault, FirstDisplay;
      UnbindMirrorInv(View(), env, id);
      SoundValid();
      var d := GetDefaultAbstractScreenId(env);
      var found := FindDisplay(id);
      if found.None? || d !in dmsScreenMap {
        return;
      }
      ScreenAt(d);
      var screen := dmsScreenMap[d];
      if screen.activeMode.None? || screen.groupDmsId !in dmsScreenGroupMap {
        return;
      }
      GroupAt(screen.groupDmsId);
      var p := if d in dmsScreenGroupMap[screen.groupDmsId].screenMap then screen.startPoint else ORIGIN;
      Rebind(found.value, d, screen.activeMode.value, p);
    }

    method FindDisplay(id: ScreenId) returns (found: Option<DisplayId>)
      requires Wired()
      ensures found == FirstDisplay(View().displays, id, 0, View().displayCount)
    {
      found := displayController.FindDisplay(id);
    }

    method Rebind(k: DisplayId, id: ScreenId, m: Mode, p: Point)
      requires Wired() && k in View().displays
      modifies Repr
      ensures Wired() && Repr == old(Repr)
      ensures var st := old(View());
              View() == st.(displays := st.displays[k := st.displays[k].(
                offset := p, width := m.width, height := m.height, screenId := id)])
    {
      displayController.abstractDisplayMap[k].BindAbstractScreen(id, m, p);
      DisplaySet(k);
    }

    method OnAbstractScreenDisconnect(env: Env, id: ScreenId)
      requires Sound() && id in dmsScreenMap
      modifies Repr
      ensures Sound() && fresh(Repr - old(Repr))
      ensures View() == OnDisconnect(old(View()), env, id)
    {
      ScreenAt(id);
      var g := dmsScreenMap[id].groupDmsId;
      if g !in dmsScreenGroupMap {
        return;
      }
      GroupAt(g);
      hide View, Wired, Inv, UnbindMirror, UnbindExpand;
      if dmsScreenGroupMap[g].combination.SCREEN_MIRROR? {
        ProcessNormalScreenDisconnected(env, id);
      } else {
        ProcessExpandScreenDisconnected(env, id);
      }
    }

    method CheckScreenInScreenGroup(id: ScreenId) returns (r: bool)
      requires Wired() && id in dmsScreenMap
      ensures r == InGroup(View(), id)
    {
      ScreenAt(id);
      var g := dmsScreenMap[id].groupDmsId;
      if g !in dmsScreenGroupMap {
        return false;
      }
      GroupAt(g);
      r := id in dmsScreenGroupMap[g].screenMap;
    }

    /** The guarded call of the disconnect callback that precedes every removal. */
    method UnhookScreen(env: Env, id: ScreenId)
      requires Sound() && id in dmsScreenMap
      modifies Repr
      ensures Sound() && fresh(Repr - old(Repr))
      ensures View() == Unhook(old(View()), env, id)
    {
      hide View, Wired, Inv, InGroup, OnDisconnect;
      if abstractScreenCallback {
        var inGroup := CheckScreenInScreenGroup(id);
        if inGroup {
          OnAbstractScreenDisconnect(env, id);
        }
      }
    }

    method LeaveGroup(g: ScreenId, id: ScreenId)
      requires Wired() && g in dmsScreenGroupMap && id in dmsScreenMap
      modifies dmsScreenGroupMap[g], dmsScreenMap[id]
      ensures Wired() && View() == Left(old(View()), g, id)
      ensures dmsScreenMap[id].Surfaces() == SurfaceStep(old(dmsScreenMap[id].Surfaces()), Leave)
    {
      var _ := dmsScreenGroupMap[g].RemoveChild(dmsScreenMap[id]);
      assert Wired();
      SameDisplays();
      ScreensBut(dmsScreenMap[id]);
      GroupsBut(dmsScreenGroupMap[g]);
      hide View;
    }

    method DropGroup(g: ScreenId)
      requires Wired() && g in dmsScreenGroupMap && dmsScreenGroupMap[g].screenMap == map[]
      requires forall h :: h in dmsScreenGroupMap ==> h == g
      modifies this`dmsScreenGroupMap, this`dmsScreenMap
      ensures Wired() && View() == Dropped(old(View()), g)
    {
      dmsScreenGroupMap := dmsScreenGroupMap - {g};
      dmsScreenMap := dmsScreenMap - {g};
      assert Wired();
      SameDisplays();
      forall d | d in dmsScreenMap ensures View().screens[d] == old(View()).screens[d] {
        assert dmsScreenMap[d].View() == old(dmsScreenMap[d].View());
      }
      assert View().screens == old(View()).screens - {g};
      assert View().groups == old(View()).groups - {g};
    }

    /** Called for a child of the group only; the last child takes the group with it. */
    method RemoveChildFromGroup(g: ScreenId, id: ScreenId)
      requires Sound() && g in dmsScreenGroupMap && id in dmsScreenGroupMap[g].screenMap
      modifies Repr
      ensures Sound() && Repr == old(Repr)
      ensures id in old(View()).screens && View() == RemoveChild(old(View()), g, id).0
    {
      GroupAt(g);
      ChildAt(g, id);
      RemoveChildSteps(View(), g, id);
      OnlyGroup(View(), g);
      ScreenAt(id);
      hide View, Wired, Inv, RemoveChild;
      LeaveGroup(g, id);
      GroupAt(g);
      if |dmsScreenGroupMap[g].screenMap| == 0 {
        DropGroup(g);
      }
    }

    /** The id of the group left, or SCREEN_ID_INVALID where the source returns null. */
    method RemoveFromGroupLocked(id: ScreenId) returns (g: ScreenId)
      requires Sound() && id in dmsScreenMap && !View().screens[id].IsGroup()
      modifies Repr
      ensures Sound() && Repr == old(Repr)
      ensures (View(), g) == RemoveFromGroup(old(View()), id)
    {
      ScreenAt(id);
      RemoveFromGroupSteps(View(), id);
      g := dmsScreenMap[id].groupDmsId;
      if g !in dmsScreenGroupMap {
        return SCREEN_ID_INVALID;
      }
      GroupAt(g);
      hide View, Wired, Inv, RemoveChild, RemoveFromGroup;
      RemoveChildFromGroup(g, id);
    }

    // ---------- Changing groups ----------

    /** One screen of the first loop of ChangeScreenGroup. */
    method TakeOutScreen(env: Env, g: ScreenId, id: ScreenId, filter: bool) returns (moved: bool, wasChild: bool)
      requires Sound() && id in dmsScreenMap && !View().screens[id].IsGroup()
      modifies Repr
      ensures Sound() && fresh(Repr - old(Repr))
      ensures View() == TakeOutOne(old(View()), env, g, id, filter)
      ensures moved == Moves(old(View()), g, id, filter)
      ensures moved ==> wasChild == InGroup(old(View()), id)
    {
      TakeOutOneSteps(View(), env, g, id, filter);
      UnhookInv(View(), env, id);
      ScreenAt(id);
      if filter && dmsScreenMap[id].groupDmsId == g && g in dmsScreenGroupMap {
        GroupAt(g);
        if id in dmsScreenGroupMap[g].screenMap {
          return false, false;
        }
      }
      hide View, Wired, Inv, InGroup, Unhook, TakeOutOne, Evolves;
      UnhookScreen(env, id);
      ghost var s1 := View();
      RemoveFromGroupSteps(s1, id);
      var origin := RemoveFromGroupLocked(id);
      return true, origin != SCREEN_ID_INVALID;
    }

    /** One turn of the first loop of ChangeScreenGroup. */
    method TakeOutNext(env: Env, g: ScreenId, ids: seq<ScreenId>, at: seq<Point>, filter: bool, i: nat, taken: seq<Taken>)
      returns (longer: seq<Taken>)
      requires Sound() && Plain(View(), ids) && i < |ids| == |at|
      modifies Repr
      ensures Sound() && fresh(Repr - old(Repr)) && Plain(View(), ids)
      ensures var (r, rest) := TakeOut(View(), env, g, ids[i + 1..], at[i + 1..], filter);
              var before := TakeOut(old(View()), env, g, ids[i..], at[i..], filter);
              r == before.0 && longer + rest == taken + before.1
    {
      hide View, Wired, Inv, Plain, Evolves, TakeOut, TakeOutOne, Moves, InGroup;
      ghost var s1 := View();
      PlainAt(s1, ids, i);
      TakeOutStep(s1, env, g, ids, at, filter, i);
      TakeOutOneSteps(s1, env, g, ids[i], filter);
      PlainAfter(s1, TakeOutOne(s1, env, g, ids[i], filter), ids, i);
      var moved, wasChild := TakeOutScreen(env, g, ids[i], filter);
      ghost var rest := TakeOut(View(), env, g, ids[i + 1..], at[i + 1..], filter).1;
      assert [] + rest == rest;
      longer := taken;
      if moved {
        ListedBefore(taken, Taken(ids[i], at[i], wasChild), rest);
        longer := taken + [Taken(ids[i], at[i], wasChild)];
      }
    }

    /** The first loop of ChangeScreenGroup: the listed screens leave their groups. */
    method TakeOutScreens(env: Env, g: ScreenId, ids: seq<ScreenId>, at: seq<Point>, filter: bool)
      returns (taken: seq<Taken>)
      requires Sound() && Plain(View(), ids) && |ids| == |at|
      modifies Repr
      ensures Sound() && fresh(Repr - old(Repr))
      ensures (View(), taken) == TakeOut(old(View()), env, g, ids, at, filter)
    {
      hide View, Wired, Inv, Plain, TakeOut;
      ghost var st := View();
      taken := [];
      assert ids[0..] == ids && at[0..] == at;
      assert taken + TakeOut(st, env, g, ids, at, filter).1 == TakeOut(st, env, g, ids, at, filter).1;
      var i := 0;
      while i < |ids|
        invariant i <= |ids| && Sound() && fresh(Repr - old(Repr)) && Plain(View(), ids)
        invariant var (r, rest) := TakeOut(View(), env, g, ids[i..], at[i..], filter);
                  r == TakeOut(st, env, g, ids, at, filter).0 && taken + rest == TakeOut(st, env, g, ids, at, filter).1
      {
        taken := TakeOutNext(env, g, ids, at, filter, i, taken);
        i := i + 1;
      }
      TakeOutDone(View(), env, g, ids, at, filter, taken);
    }

    /** The screen info of a screen that moved, and the connect callback. */
    method InformScreen(env: Env, id: ScreenId, info: bool)
      requires Valid() && id in dmsScreenMap
      modifies Repr
      ensures Valid() && fresh(Repr - old(Repr))
      ensures View() == Inform(old(View()), env, id, info)
    {
      hide View, Wired, Bounded, Touch, OnConnect;
      InformParts(View(), env, id);
      if info {
        ConvertToScreenInfo(env, id);
      }
      if abstractScreenCallback {
        OnAbstractScreenConnect(env, id);
      }
    }

    /** One screen of AddScreenToGroup. */
    method PutInScreen(env: Env, g: ScreenId, t: Taken) returns (n: Notice)
      requires Sound() && g in dmsScreenGroupMap && t.id in dmsScreenMap && !View().screens[t.id].IsGroup()
      modifies Repr
      ensures Sound() && fresh(Repr - old(Repr))
      ensures (View(), n) == PutInOne(old(View()), env, g, t)
    {
      hide View, Wired, Inv, Evolves, Bounded, ScreenState.AddChild, Inform, PutInOne;
      SoundValid();
      PutInOneSteps(View(), env, g, t);
      var added := AddChild(env, g, t.id, t.at);
      InformScreen(env, t.id, t.wasChild || added);
      n := NoticeOf(t, added);
    }

    /** One turn of the loop of AddScreenToGroup. */
    method PutInNext(env: Env, g: ScreenId, taken: seq<Taken>, i: nat, notice: Notice) returns (longer: Notice)
      requires Sound() && g in dmsScreenGroupMap && AllPlain(View(), taken) && i < |taken|
      modifies Repr
      ensures Sound() && fresh(Repr - old(Repr)) && g in dmsScreenGroupMap && AllPlain(View(), taken)
      ensures var (r, rest) := PutIn(View(), env, g, taken[i + 1..]);
              var before := PutIn(old(View()), env, g, taken[i..]);
              r == before.0 && Both(longer, rest) == Both(notice, before.1)
    {
      hide View, Wired, Inv, Bounded, AllPlain, Evolves, PutIn, PutInOne, Inform, Both;
      ghost var s1 := View();
      AllPlainAt(s1, taken, i);
      PutInStep(s1, env, g, taken, i);
      PutInOneSteps(s1, env, g, taken[i]);
      AllPlainAfter(s1, PutInOne(s1, env, g, taken[i]).0, taken);
      var n := PutInScreen(env, g, taken[i]);
      BothAssociative(notice, n, PutIn(View(), env, g, taken[i + 1..]).1);
      longer := Both(notice, n);
    }

    /** The notification lists are returned; sending them is left to the caller. */
    method AddScreenToGroup(env: Env, g: ScreenId, taken: seq<Taken>) returns (notice: Notice)
      requires Sound() && g in dmsScreenGroupMap && AllPlain(View(), taken)
      modifies Repr
      ensures Sound() && fresh(Repr - old(Repr))
      ensures (View(), notice) == PutIn(old(View()), env, g, taken)
    {
      ghost var st := View();
      notice := NOTHING;
      assert taken[0..] == taken;
      BothNothing(PutIn(st, env, g, taken).1);
      hide View, Wired, Inv, AllPlain, PutIn, Both;
      var i := 0;
      while i < |taken|
        invariant i <= |taken| && Sound() && fresh(Repr - old(Repr)) && AllPlain(View(), taken) && g in dmsScreenGroupMap
        invariant var (r, rest) := PutIn(View(), env, g, taken[i..]);
                  r == PutIn(st, env, g, taken).0 && Both(notice, rest) == PutIn(st, env, g, taken).1
      {
        notice := PutInNext(env, g, taken, i, notice);
        i := i + 1;
      }
      PutInDone(View(), env, g, taken, notice);
    }

    method SetCombination(g: ScreenId, combination: Combination)
      requires Wired() && g in dmsScreenGroupMap
      modifies dmsScreenGroupMap[g]
      ensures Wired() && View() == WithCombination(old(View()), g, combination)
    {
      dmsScreenGroupMap[g].combination := combination;
      GroupSet(dmsScreenGroupMap[g]);
    }

    /** A group that was dissolved on the way gets no screens. */
    method ChangeScreenGroup(env: Env, g: ScreenId, ids: seq<ScreenId>, at: seq<Point>, filter: bool,
                             combination: Combination) returns (notice: Notice)
      requires Sound() && Plain(View(), ids) && |ids| == |at|
      modifies Repr
      ensures Sound() && fresh(Repr - old(Repr))
      ensures (View(), notice) == ScreenState.ChangeScreenGroup(old(View()), env, g, ids, at, filter, combination)
    {
      hide View, Wired, Inv, Plain, AllPlain, TakeOut, PutIn, WithCombination, ScreenState.ChangeScreenGroup;
      ChangeParts(View(), env, g, ids, at, filter, combination);
      var taken := TakeOutScreens(env, g, ids, at, filter);
      if g !in dmsScreenGroupMap {
        return NOTHING;
      }
      GroupAt(g);
      SetCombination(g, combination);
      notice := AddScreenToGroup(env, g, taken);
    }

    /** The group of the main screen of a mirror, made if there is none. */
    method GroupOfMain(env: Env, id: ScreenId) returns (g: ScreenId)
      requires Sound() && id in dmsScreenMap && !View().screens[id].IsGroup()
      modifies Repr
      ensures Sound() && fresh(Repr - old(Repr))
      ensures (View(), g) == MirrorGroup(old(View()), env, id)
    {
      hide View, Wired, Inv, Bounded, Evolves, AddToGroup, Inform, MirrorGroup;
      MirrorGroupParts(View(), env, id);
      ScreenAt(id);
      g := dmsScreenMap[id].groupDmsId;
      if g in dmsScreenGroupMap {
        return;
      }
      SoundValid();
      g := AddToGroupLocked(env, id);
      if g == SCREEN_ID_INVALID {
        return;
      }
      InformScreen(env, id, true);
    }

    /** MakeMirror, once the main screen has a group. */
    method MirrorToGroup(env: Env, g: ScreenId, id: ScreenId, ids: seq<ScreenId>) returns (notice: Notice)
      requires Sound() && Plain(View(), ids) && g in dmsScreenGroupMap
      modifies Repr
      ensures Sound() && fresh(Repr - old(Repr))
      ensures (View(), notice) == MirrorOnto(old(View()), env, g, id, ids)
    {
      hide View, Wired, Inv, Plain, WithSource, ScreenState.ChangeScreenGroup;
      GroupAt(g);
      WithSourceParts(View(), g, id, ids);
      var group := dmsScreenGroupMap[g];
      var filterMirroredScreen := group.combination.SCREEN_MIRROR? && group.mirrorScreenId == id;
      SetMirrorSource(g, id);
      notice := ChangeScreenGroup(env, g, ids, Origins(|ids|), filterMirroredScreen, SCREEN_MIRROR);
    }

    method MirrorScreen(env: Env, id: ScreenId, ids: seq<ScreenId>) returns (ok: bool, notice: Notice)
      requires Sound() && Plain(View(), ids) && id in dmsScreenMap && !View().screens[id].IsGroup()
      modifies Repr
      ensures Sound() && fresh(Repr - old(Repr))
      ensures (View(), ok, notice) == MirrorReal(old(View()), env, id, ids)
    {
      hide View, Wired, Inv, Plain, MirrorOnto, MirrorGroup;
      MirrorRealParts(View(), env, id, ids);
      var g := GroupOfMain(env, id);
      if g !in dmsScreenGroupMap {
        return false, NOTHING;
      }
      notice := MirrorToGroup(env, g, id, ids);
      ok := true;
    }

    method MakeMirror(env: Env, id: ScreenId, ids: seq<ScreenId>) returns (ok: bool, notice: Notice)
      requires Sound() && Plain(View(), ids)
      modifies Repr
      ensures Sound() && fresh(Repr - old(Repr))
      ensures (View(), ok, notice) == ScreenState.MakeMirror(old(View()), env, id, ids)
    {
      hide View, Wired, Inv, Plain, MirrorReal, ScreenState.MakeMirror;
      MakeMirrorParts(View(), env, id, ids);
      if id !in dmsScreenMap {
        return false, NOTHING;
      }
      ScreenAt(id);
      if !dmsScreenMap[id].kind.REAL? {
        return false, NOTHING;
      }
      ok, notice := MirrorScreen(env, id, ids);
    }

    method MakeExpand(env: Env, ids: seq<ScreenId>, at: seq<Point>) returns (ok: bool, notice: Notice)
      requires Sound() && Plain(View(), ids) && |ids| == |at|
      modifies Repr
      ensures Sound() && fresh(Repr - old(Repr))
      ensures (View(), ok, notice) == ScreenState.MakeExpand(old(View()), env, ids, at)
    {
      hide View, Wired, Inv, Plain, GetDefault, ScreenState.ChangeScreenGroup, ScreenState.MakeExpand;
      MakeExpandParts(View(), env, ids, at);
      SoundValid();
      var found, g := GroupOfDefault(env);
      if !found {
        return false, NOTHING;
      }
      GroupAt(g);
      var filterExpandScreen := dmsScreenGroupMap[g].combination.SCREEN_EXPAND?;
      notice := ChangeScreenGroup(env, g, ids, at, filterExpandScreen, SCREEN_EXPAND);
      ok := true;
    }

    /** One screen of StopScreens. */
    method StopScreen(env: Env, id: ScreenId, combination: Combination)
      requires Sound() && id in dmsScreenMap && !View().screens[id].IsGroup()
      modifies Repr
      ensures Sound() && fresh(Repr - old(Repr))
      ensures View() == StopOne(old(View()), env, id, combination)
    {
      hide View, Wired, Inv, Evolves, Unhook, StopOne, RemoveChild;
      StopOneSteps(View(), env, id, combination);
      ScreenAt(id);
      var g := dmsScreenMap[id].groupDmsId;
      if g !in dmsScreenGroupMap {
        return;
      }
      GroupAt(g);
      var group := dmsScreenGroupMap[g];
      if group.combination != combination {
        return;
      }
      if group.combination.SCREEN_MIRROR? && group.mirrorScreenId == id {
        return;
      }
      UnhookScreen(env, id);
      GroupAt(g);
      RemoveChildFromGroup(g, id);
    }

    method StopScreens(env: Env, ids: seq<ScreenId>, combination: Combination)
      requires Sound() && Plain(View(), ids)
      modifies Repr
      ensures Sound() && fresh(Repr - old(Repr))
      ensures View() == ScreenState.StopScreens(old(View()), env, ids, combination)
    {
      hide View, Wired, Inv, Plain, Evolves, StopOne, ScreenState.StopScreens;
      ghost var st := View();
      assert ids[0..] == ids;
      var i := 0;
      while i < |ids|
        invariant i <= |ids| && Sound() && fresh(Repr - old(Repr)) && Plain(View(), ids)
        invariant ScreenState.StopScreens(View(), env, ids[i..], combination) == ScreenState.StopScreens(st, env, ids, combination)
      {
        ghost var s1 := View();
        PlainAt(s1, ids, i);
        StopStep(s1, env, ids, combination, i);
        StopOneSteps(s1, env, ids[i], combination);
        PlainAfter(s1, StopOne(s1, env, ids[i], combination), ids, i);
        StopScreen(env, ids[i], combination);
        i := i + 1;
      }
      StopDone(View(), env, ids, combination);
    }

    /** One screen of RemoveVirtualScreenFromGroup. */
    method RemoveVirtualScreen(env: Env, id: ScreenId)
      requires Sound()
      modifies Repr
      ensures Sound() && fresh(Repr - old(Repr))
      ensures View() == RemoveVirtualOne(old(View()), env, id)
    {
      if id !in dmsScreenMap || !dmsScreenMap[id].kind.VIRTUAL? {
        return;
      }
      hide View, Wired, Inv, InGroup, Unhook, RemoveFromGroup;
      ScreenAt(id);
      var inGroup := CheckScreenInScreenGroup(id);
      if !inGroup {
        return;
      }
      RemoveVirtualOneSteps(View(), env, id);
      UnhookInv(View(), env, id);
      hide RemoveVirtualOne;
      UnhookScreen(env, id);
      var _ := RemoveFromGroupLocked(id);
    }

    method RemoveVirtualScreenFromGroup(env: Env, ids: seq<ScreenId>)
      requires Sound()
      modifies Repr
      ensures Sound() && fresh(Repr - old(Repr))
      ensures View() == RemoveVirtual(old(View()), env, ids)
    {
      hide View, Wired, Inv, RemoveVirtualOne, RemoveVirtual;
      ghost var st := View();
      assert ids[0..] == ids;
      var i := 0;
      while i < |ids|
        invariant i <= |ids| && Sound() && fresh(Repr - old(Repr))
        invariant RemoveVirtual(View(), env, ids[i..]) == RemoveVirtual(st, env, ids)
      {
        RemoveVirtualStep(View(), env, ids, i);
        RemoveVirtualScreen(env, ids[i]);
        i := i + 1;
      }
      RemoveVirtualDone(View(), env, ids);
    }

    // ---------- Disconnecting and destroying ----------

    method RemoveDefaultScreenFromGroupLocked(id: ScreenId)
      requires Sound() && id in dmsScreenMap && View().screens[id].groupId in dmsScreenGroupMap
      modifies Repr
      ensures Sound() && Repr == old(Repr)
      ensures View() == RemoveDefaultScreen(old(View()), old(View()).screens[id].groupId, id)
    {
      ScreenAt(id);
      GroupAt(dmsScreenMap[id].groupDmsId);
      RemoveDefaultScreenInv(View(), dmsScreenMap[id].groupDmsId, id);
      hide Inv;
      UnplugDefault(dmsScreenMap[id].groupDmsId, id);
    }

    method UnplugDefault(g: ScreenId, id: ScreenId)
      requires Wired() && id in dmsScreenMap && g in dmsScreenGroupMap
      modifies dmsScreenGroupMap[g], dmsScreenMap[id]
      ensures Wired() && View() == RemoveDefaultScreen(old(View()), g, id)
    {
      dmsScreenGroupMap[g].RemoveDefaultScreen(dmsScreenMap[id]);
      assert Wired();
      SameDisplays();
      ScreensBut(dmsScreenMap[id]);
      GroupsBut(dmsScreenGroupMap[g]);
      hide View;
    }

    method EraseScreen(id: ScreenId)
      requires Wired() && id !in View().groups && forall g :: g in View().groups ==> id !in View().groups[g].children
      modifies this`dmsScreenMap
      ensures Wired() && View() == WithoutScreen(old(View()), id)
    {
      forall g | g in dmsScreenGroupMap ensures id !in dmsScreenGroupMap[g].screenMap {
        assert View().groups[g].children == dmsScreenGroupMap[g].screenMap.Keys;
      }
      dmsScreenMap := dmsScreenMap - {id};
      assert Wired();
      MapsSet();
      forall d | d in dmsScreenMap ensures View().screens[d] == old(View()).screens[d] {
        assert dmsScreenMap[d].View() == old(dmsScreenMap[d].View());
      }
      assert View().screens == old(View()).screens - {id};
    }

    /** The children of a group other than one screen. */
    method OtherChildren(g: ScreenId, d: ScreenId) returns (ids: seq<ScreenId>)
      requires Wired() && g in dmsScreenGroupMap
      ensures ids == Without(Ascending(View().groups[g].children), d)
    {
      GroupAt(g);
      hide View, Wired, Without, Ascending;
      var children := Ascending(dmsScreenGroupMap[g].screenMap.Keys);
      ids := Except(children, d);
    }

    static method Except(children: seq<ScreenId>, d: ScreenId) returns (ids: seq<ScreenId>)
      ensures ids == Without(children, d)
    {
      hide Without;
      ids := [];
      assert children[0..] == children;
      assert ids + Without(children, d) == Without(children, d);
      for i := 0 to |children|
        invariant ids + Without(children[i..], d) == Without(children, d)
      {
        WithoutStep(children, d, i);
        assert ids + ([children[i]] + Without(children[i + 1..], d)) == (ids + [children[i]]) + Without(children[i + 1..], d);
        assert ids + ([] + Without(children[i + 1..], d)) == ids + Without(children[i + 1..], d);
        if children[i] != d {
          ids := ids + [children[i]];
        }
      }
      WithoutNone(d);
      assert children[|children|..] == [];
      assert ids + [] == ids;
    }

    static lemma WithoutNone(d: ScreenId)
      ensures Without([], d) == []
    {
    }

    method MirrorToDefault(env: Env, g: ScreenId)
      requires Sound() && g in dmsScreenGroupMap
      modifies Repr
      ensures Sound() && fresh(Repr - old(Repr))
      ensures View() == MirrorDefault(old(View()), env, g)
    {
      hide View, Wired, Inv, Plain, GetDefault, Without, Ascending, ScreenState.MakeMirror;
      MirrorDefaultSteps(View(), env, g);
      SoundValid();
      var d := GetDefaultAbstractScreenId(env);
      var screens := OtherChildren(g, d);
      var _, _ := MakeMirror(env, d, screens);
    }

    /** The source of a mirror group is gone: all other children mirror the default screen. */
    method RemirrorGroup(env: Env, g: ScreenId, gone: ScreenId)
      requires Sound()
      modifies Repr
      ensures Sound() && fresh(Repr - old(Repr))
      ensures View() == Remirror(old(View()), env, g, gone)
    {
      hide View, Wired, Inv, MirrorDefault, Remirror;
      RemirrorSteps(View(), env, g, gone);
      if g !in dmsScreenGroupMap {
        return;
      }
      GroupAt(g);
      var group := dmsScreenGroupMap[g];
      if group.combination.SCREEN_MIRROR? && gone == group.mirrorScreenId && |group.screenMap| != 0 {
        MirrorToDefault(env, g);
      }
    }

    /** ProcessScreenDisconnected, up to deleting the id. */
    method DetachScreen(env: Env, d: ScreenId)
      requires Sound() && d in dmsScreenMap && !View().screens[d].IsGroup()
      modifies Repr
      ensures Sound() && fresh(Repr - old(Repr))
      ensures View() == Detach(old(View()), env, d)
    {
      hide View, Wired, Inv, Unhook, RemoveFromGroup, WithoutScreen, Remirror;
      DetachSteps(View(), env, d);
      UnhookScreen(env, d);
      var g := RemoveFromGroupLocked(d);
      Own();
      EraseScreen(d);
      RemirrorGroup(env, g, d);
    }

    method ProcessScreenDisconnected(env: Env, rs: ScreenId)
      requires Sound()
      modifies Repr
      ensures Sound() && fresh(Repr - old(Repr))
      ensures View() == Disconnect(old(View()), env, rs)
    {
      if rs !in screenIdManager.rs2DmsScreenIdMap {
        return;
      }
      hide View, Wired, Inv, InGroup, Detach, Forgotten, RemoveDefaultScreen, Disconnect;
      DisconnectSteps(View(), env, rs);
      var d := screenIdManager.rs2DmsScreenIdMap[rs];
      if d !in dmsScreenMap {
        ForgetId(d);
        return;
      }
      var inGroup := CheckScreenInScreenGroup(d);
      if abstractScreenCallback && inGroup && rs == defaultRsScreenId && defaultRsScreenId != SCREEN_ID_INVALID {
        InGroupNames(d);
        RemoveDefaultScreenFromGroupLocked(d);
        return;
      }
      DetachAndForget(env, d);
    }

    method DetachAndForget(env: Env, d: ScreenId)
      requires Sound() && d in dmsScreenMap && !View().screens[d].IsGroup()
      modifies Repr
      ensures Wired() && fresh(Repr - old(Repr))
      ensures View() == Forgotten(Detach(old(View()), env, d), d)
    {
      hide View, Wired, Inv, Detach, Forgotten;
      DetachScreen(env, d);
      ForgetId(d);
    }

    lemma InGroupNames(d: ScreenId)
      requires Wired() && d in dmsScreenMap && InGroup(View(), d)
      ensures View().screens[d].groupId in dmsScreenGroupMap
    {
    }

    method ForgetId(d: ScreenId)
      requires Wired()
      modifies Repr
      ensures Wired() && Repr == old(Repr) && View() == Forgotten(old(View()), d)
    {
      DeleteScreenId(d);
    }

    /** The id that the render service made for the virtual screen is a parameter. */
    method CreateVirtualScreen(env: Env, rs: ScreenId, mode: Mode, agent: AgentId) returns (d: ScreenId)
      requires Sound() && AgentsOk(View())
      modifies Repr
      ensures Sound() && fresh(Repr - old(Repr))
      ensures (View(), d) == CreateVirtual(old(View()), env, rs, mode, agent)
    {
      hide View, Wired, Inv, AgentsOk, Bounded, GetDefault, WithVirtual, CreateVirtual, CreateId;
      CreateVirtualSteps(View(), env, rs, mode, agent);
      if rs == SCREEN_ID_INVALID {
        return SCREEN_ID_INVALID;
      }
      if rs in screenIdManager.rs2DmsScreenIdMap {
        return screenIdManager.rs2DmsScreenIdMap[rs];
      }
      Own();
      d := CreateScreenId(rs);
      SoundValid();
      var _ := GetDefaultAbstractScreenId(env);
      ListVirtual(d, rs, mode, agent);
    }

    method ListVirtual(d: ScreenId, rs: ScreenId, mode: Mode, agent: AgentId)
      requires Wired() && d !in View().screens
      modifies Repr
      ensures Wired() && fresh(Repr - old(Repr)) && View() == WithVirtual(old(View()), d, rs, mode, agent)
    {
      hide View, Wired;
      Own();
      var screen := new AbstractScreen(d, rs, VIRTUAL, Some(mode));
      InsertScreen(screen);
      var list := if agent in screenAgentMap then screenAgentMap[agent] else [];
      SetAgents(screenAgentMap[agent := list + [d]]);
    }

    method SetAgents(agents: map<AgentId, seq<ScreenId>>)
      requires Wired()
      modifies this`screenAgentMap
      ensures Wired() && View() == old(View()).(agents := agents)
    {
      screenAgentMap := agents;
      MapsSet();
    }

    method SetDefaultRs(rs: ScreenId)
      requires Wired()
      modifies this`defaultRsScreenId
      ensures Wired() && View() == old(View()).(defaultRs := rs)
    {
      defaultRsScreenId := rs;
      MapsSet();
    }

    /** The position of the first agent that lists the id, or the number of agents. */
    method FindOwner(keys: seq<AgentId>, id: ScreenId) returns (i: nat)
      requires forall j :: 0 <= j < |keys| ==> keys[j] in screenAgentMap
      ensures i <= |keys| && (i < |keys| ==> id in screenAgentMap[keys[i]])
      ensures forall j :: 0 <= j < i ==> id !in screenAgentMap[keys[j]]
    {
      i := 0;
      while i < |keys| && id !in screenAgentMap[keys[i]]
        invariant i <= |keys| && forall j :: 0 <= j < i ==> id !in screenAgentMap[keys[j]]
      {
        i := i + 1;
      }
    }

    /** The id is dropped from the first agent that lists it, and the agent with its last id. */
    method DisownScreen(id: ScreenId)
      requires Wired()
      modifies Repr
      ensures Wired() && Repr == old(Repr) && View() == old(View()).(agents := Disown(old(View()).agents, id))
    {
      hide View, Wired, AgentKeys, Disown;
      Own();
      var keys := AgentKeys(screenAgentMap);
      assert forall j :: 0 <= j < |keys| ==> keys[j] in keys;
      var i := FindOwner(keys, id);
      if i == |keys| {
        DisownNowhere(screenAgentMap, id);
        return;
      }
      DisownFirst(screenAgentMap, id, i);
      DropFrom(keys[i], id);
    }

    method DropFrom(agent: AgentId, id: ScreenId)
      requires Wired() && agent in screenAgentMap
      modifies this`screenAgentMap
      ensures Wired()
      ensures var st := old(View());
              var left := RemoveFirst(st.agents[agent], id);
              View() == st.(agents := if left == [] then st.agents - {agent} else st.agents[agent := left])
    {
      hide View, Wired, RemoveFirst;
      var left := EraseFirst(id, screenAgentMap[agent]);
      if left == [] {
        SetAgents(screenAgentMap - {agent});
      } else {
        SetAgents(screenAgentMap[agent := left]);
      }
    }

    /** DestroyVirtualScreen, up to deleting the id. */
    method DiscardScreen(env: Env, id: ScreenId, rs: ScreenId)
      requires Sound()
      modifies Repr
      ensures Sound() && fresh(Repr - old(Repr))
      ensures View() == Discard(old(View()), env, id, rs)
    {
      hide View, Wired, Inv, Disown, Disconnect;
      DiscardSteps(View(), env, id, rs);
      DisownScreen(id);
      if rs != SCREEN_ID_INVALID && id in dmsScreenMap {
        ProcessScreenDisconnected(env, rs);
      }
    }

    /** The boolean is DM_OK. */
    method DestroyVirtualScreen(env: Env, id: ScreenId) returns (ok: bool)
      requires Sound() && AgentsOk(View())
      modifies Repr
      ensures Sound() && fresh(Repr - old(Repr)) && AgentsOk(View())
      ensures (View(), ok) == DestroyVirtual(old(View()), env, id)
    {
      hide View, Wired, Inv, AgentsOk, Discard, Forgotten, DestroyVirtual;
      DestroySteps(View(), env, id);
      var rs := if id in screenIdManager.dms2RsScreenIdMap then screenIdManager.dms2RsScreenIdMap[id] else SCREEN_ID_INVALID;
      if rs == defaultRsScreenId {
        return false;
      }
      DiscardScreen(env, id, rs);
      ForgetId(id);
      Own();
      if rs == SCREEN_ID_INVALID {
        return false;
      }
      if defaultRsScreenId == rs {
        SetDefaultRs(SCREEN_ID_INVALID);
      }
      return true;
    }

    /** Whether the loop ends depends on the default rs id and on the ids of the agent that are mapped no more:
        AgentDeath.OnRemoteDiedEnds has the exact condition. */
    method OnRemoteDied(env: Env, agent: AgentId)
      requires Sound() && AgentsOk(View()) && ScreenState.OnRemoteDied(View(), env, agent).Some?
      modifies Repr
      ensures Sound() && fresh(Repr - old(Repr))
      ensures Some(View()) == ScreenState.OnRemoteDied(old(View()), env, agent)
    {
      hide View, Wired, Inv, AgentsOk, DestroyVirtual;
      ghost var st := View();
      DiedInv(st, env, agent);
      while agent in screenAgentMap && |screenAgentMap[agent]| > 0
        invariant Sound() && fresh(Repr - old(Repr)) && AgentsOk(View())
        invariant ScreenState.OnRemoteDied(View(), env, agent) == ScreenState.OnRemoteDied(st, env, agent)
        decreases |AgentList(View(), agent)|
      {
        DiedStep(View(), env, agent);
        var diedId := screenAgentMap[agent][0];
        var _ := DestroyVirtualScreen(env, diedId);
      }
      Own();
      SetAgents(screenAgentMap - {agent});
    }

    method SetVirtualScreenAsDefault(env: Env, id: ScreenId) returns (ok: bool)
      requires Sound() && AgentsOk(View())
      modifies Repr
      ensures Sound() && fresh(Repr - old(Repr))
      ensures (View(), ok) == SetVirtualAsDefault(old(View()), env, id)
    {
      hide View, Wired, Inv, AgentsOk, Bounded, AddToGroup, Enthrone, SetVirtualAsDefault;
      SetVirtualSteps(View(), env, id);
      var rs := if id in screenIdManager.dms2RsScreenIdMap then screenIdManager.dms2RsScreenIdMap[id] else SCREEN_ID_INVALID;
      if rs == SCREEN_ID_INVALID || id !in dmsScreenMap {
        return false;
      }
      ScreenAt(id);
      if dmsScreenMap[id].kind.REAL? {
        return false;
      }
      SoundValid();
      var g := AddToGroupLocked(env, id);
      if g == SCREEN_ID_INVALID {
        return false;
      }
      ok := EnthroneScreen(env, id, rs);
    }

    /** The rest of SetVirtualScreenAsDefault, once the screen has a group. */
    method EnthroneScreen(env: Env, id: ScreenId, rs: ScreenId) returns (ok: bool)
      requires Valid() && id in dmsScreenMap
      modifies Repr
      ensures Valid() && fresh(Repr - old(Repr))
      ensures (View(), ok) == Enthrone(old(View()), env, id, rs)
    {
      hide View, Wired, Bounded, Touch, OnConnect, Disown;
      EnthroneParts(View(), env, id, rs);
      ConvertToScreenInfo(env, id);
      if !abstractScreenCallback {
        return false;
      }
      MakeDefault(id, rs);
      OnAbstractScreenConnect(env, id);
      return true;
    }

    method MakeDefault(id: ScreenId, rs: ScreenId)
      requires Wired()
      modifies Repr
      ensures Wired() && Repr == old(Repr)
      ensures var st := old(View()); View() == st.(defaultRs := rs, agents := Disown(st.agents, id))
    {
      Own();
      hide View, Wired, Disown;
      SetDefaultRs(rs);
      DisownScreen(id);
    }

    // ---------- Rotation ----------

    /** The display of a screen in a group. */
    method GetAbstractDisplayByAbsScreen(id: ScreenId) returns (k: Option<DisplayId>)
      requires Wired() && id in dmsScreenMap
      ensures k == DisplayOf(View(), id)
    {
      hide View, Wired, FirstDisplay;
      ScreenAt(id);
      if dmsScreenMap[id].groupDmsId !in dmsScreenGroupMap {
        return None;
      }
      k := FindDisplay(id);
    }

    method TurnScreenDisplay(k: DisplayId, id: ScreenId)
      requires Wired() && k in displayController.abstractDisplayMap && id in dmsScreenMap
      modifies displayController.abstractDisplayMap[k]
      ensures Wired()
      ensures var st := old(View());
              View() == st.(displays := st.displays[k := Rotate(st.displays[k], st.screens[id].rotation)])
    {
      ScreenAt(id);
      var _ := displayController.abstractDisplayMap[k].RequestRotation(dmsScreenMap[id].rotation);
      DisplaySet(k);
      hide Rotate;
    }

    /** With waterfall compression off; module DisplayCompression has the other half. */
    method ProcessDisplayRotationChange(id: ScreenId)
      requires Wired() && id in dmsScreenMap
      modifies Repr
      ensures Wired() && Repr == old(Repr) && View() == TurnDisplay(old(View()), id)
    {
      hide View, Wired, DisplayOf, Rotate;
      var k := GetAbstractDisplayByAbsScreen(id);
      if k.None? {
        return;
      }
      DisplayAt(k.value);
      TurnScreenDisplay(k.value, id);
    }

    method OrientScreenDisplay(k: DisplayId, id: ScreenId)
      requires Wired() && k in displayController.abstractDisplayMap && id in dmsScreenMap
      modifies displayController.abstractDisplayMap[k]
      ensures Wired()
      ensures var st := old(View());
              View() == st.(displays := st.displays[k :=
                Rotate(st.displays[k].(orientation := st.screens[id].orientation), st.screens[id].rotation)])
    {
      ScreenAt(id);
      var d := displayController.abstractDisplayMap[k];
      d.orientation := dmsScreenMap[id].orientation;
      var _ := d.RequestRotation(dmsScreenMap[id].rotation);
      DisplaySet(k);
      hide Rotate;
    }

    method ProcessDisplayUpdateOrientation(id: ScreenId)
      requires Wired() && id in dmsScreenMap
      modifies Repr
      ensures Wired() && Repr == old(Repr) && View() == OrientDisplay(old(View()), id)
    {
      hide View, Wired, DisplayOf, Rotate;
      var k := GetAbstractDisplayByAbsScreen(id);
      if k.None? {
        return;
      }
      DisplayAt(k.value);
      OrientScreenDisplay(k.value, id);
    }

    method PutRotation(id: ScreenId, r: Rotation)
      requires Wired() && id in dmsScreenMap
      modifies dmsScreenMap[id]
      ensures Wired() && View() == WithRotation(old(View()), id, r)
    {
      dmsScreenMap[id].rotation := r;
      ScreenSet(dmsScreenMap[id]);
    }

    method PutOrientation(id: ScreenId, o: Orientation)
      requires Wired() && id in dmsScreenMap
      modifies dmsScreenMap[id]
      ensures Wired() && View() == WithOrientation(old(View()), id, o)
    {
      dmsScreenMap[id].orientation := o;
      ScreenSet(dmsScreenMap[id]);
    }

    method PutRequest(id: ScreenId, o: Orientation)
      requires Wired() && id in dmsScreenMap
      modifies Repr
      ensures Wired() && Repr == old(Repr) && View() == WithRequest(old(View()), id, o)
    {
      dmsScreenMap[id].screenRequestedOrientation := o;
      ScreenSet(dmsScreenMap[id]);
    }

    method SetRotation(env: Env, id: ScreenId, r: Rotation)
      requires Sound()
      modifies Repr
      ensures Sound() && fresh(Repr - old(Repr))
      ensures View() == ScreenState.SetRotation(old(View()), env, id, r)
    {
      hide View, Wired, Inv, Bounded, WithRotation, Touch, TurnDisplay, ScreenState.SetRotation;
      SetRotationSteps(View(), env, id, r);
      if id !in dmsScreenMap {
        return;
      }
      ScreenAt(id);
      if dmsScreenMap[id].rotation == r {
        return;
      }
      PutRotation(id, r);
      SoundValid();
      ConvertToScreenInfo(env, id);
      if abstractScreenCallback {
        ProcessDisplayRotationChange(id);
      }
    }

    // ---------- Layout ----------

    /** The children of a group from left to right, by insertion; std::sort does not say how it orders
        children that start at the same place. */
    method SortChildren(g: ScreenId) returns (order: seq<ScreenId>)
      requires Wired() && g in dmsScreenGroupMap
      ensures order == ChildrenByX(View(), g)
      ensures forall i :: 0 <= i < |order| ==> order[i] in dmsScreenGroupMap[g].screenMap
    {
      hide View, Wired, SortByX;
      GroupAt(g);
      var ids := Ascending(dmsScreenGroupMap[g].screenMap.Keys);
      forall i | 0 <= i < |ids| ensures ids[i] in dmsScreenGroupMap[g].screenMap && ids[i] in dmsScreenMap {
        assert ids[i] in ids;
        ChildAt(g, ids[i]);
      }
      order := SortIds(ids);
      SortMembers(View(), ids, dmsScreenGroupMap[g].screenMap.Keys);
    }

    method SortIds(ids: seq<ScreenId>) returns (order: seq<ScreenId>)
      requires Wired() && forall i :: 0 <= i < |ids| ==> ids[i] in dmsScreenMap
      ensures order == SortByX(View(), ids)
    {
      hide View, Wired, SortByX, InsertByX, StartX;
      order := [];
      assert ids[..0] == [];
      SortNone(View());
      for i := 0 to |ids|
        invariant order == SortByX(View(), ids[..i])
      {
        SortStep(View(), ids, i);
        SortMembers(View(), ids[..i], dmsScreenMap.Keys);
        order := Insert(order, ids[i]);
      }
      assert ids[..|ids|] == ids;
    }

    static lemma SortNone(st: State)
      ensures SortByX(st, []) == []
    {
    }

    method Insert(sorted: seq<ScreenId>, id: ScreenId) returns (order: seq<ScreenId>)
      requires Wired() && id in dmsScreenMap && forall i :: 0 <= i < |sorted| ==> sorted[i] in dmsScreenMap
      ensures order == InsertByX(View(), sorted, id)
    {
      ScreenAt(id);
      var k := |sorted|;
      while k > 0 && dmsScreenMap[id].startPoint.x < dmsScreenMap[sorted[k - 1]].startPoint.x
        invariant 0 <= k <= |sorted|
        invariant forall j :: k <= j < |sorted| ==> StartX(View(), id) < StartX(View(), sorted[j])
      {
        ScreenAt(sorted[k - 1]);
        k := k - 1;
      }
      if k > 0 {
        ScreenAt(sorted[k - 1]);
      }
      InsertAt(View(), sorted, id, k);
      order := sorted[..k] + [id] + sorted[k..];
    }

    method ResizeDisplay(k: DisplayId, id: ScreenId, m: Mode, p: Point)
      requires Wired() && k in displayController.abstractDisplayMap
      modifies displayController.abstractDisplayMap[k]
      ensures Wired()
      ensures var st := old(View());
              View() == if st.displays[k].screenId != id then st
                        else st.(displays := st.displays[k := Resize(st.displays[k], m, p)])
    {
      var d := displayController.abstractDisplayMap[k];
      if d.screenId == id {
        d.UpdateDisplaySize(m, p);
        DisplaySet(k);
      }
      hide Resize;
    }

    method ProcessDisplaySizeChange(id: ScreenId)
      requires Wired() && id in dmsScreenMap && dmsScreenMap[id].activeMode.Some?
      requires View().screens[id].mode.Some?
      modifies displayController.abstractDisplayMap.Values
      ensures Wired() && View() == ResizeAll(old(View()), id)
    {
      ghost var st := View();
      ScreenAt(id);
      var m, p := dmsScreenMap[id].activeMode.value, dmsScreenMap[id].startPoint;
      ResizeBelowAll(st, id);
      hide View, Wired, ResizeBelow, ResizeAll;
      var k := 0;
      while k < displayController.displayCount
        invariant k <= displayController.displayCount == st.displayCount && Wired()
        invariant View() == st.(displays := ResizeBelow(st.displays, id, m, p, k))
      {
        ResizeBelowStep(st.displays, id, m, p, k);
        if k in displayController.abstractDisplayMap {
          ResizeDisplay(k, id, m, p);
        }
        k := k + 1;
      }
    }

    method MoveNode(id: ScreenId, x: int)
      requires Wired() && id in dmsScreenMap
      modifies dmsScreenMap[id]
      ensures Wired() && View() == Shifted(old(View()), id, x)
    {
      dmsScreenMap[id].UpdateRSDisplayNode(Point(x, 0));
      ScreenSet(dmsScreenMap[id]);
      ScreenAt(id);
      assert View().screens == Shifted(old(View()), id, x).screens;
    }

    /** One child of the layout loop. */
    method LayOutChild(id: ScreenId, x: int) returns (moved: bool)
      requires Sound() && id in dmsScreenMap && View().screens[id].mode.Some?
      modifies Repr
      ensures Sound() && Repr == old(Repr)
      ensures (View(), moved) == LayOutOne(old(View()), id, x)
      ensures dmsScreenMap == old(dmsScreenMap)
    {
      ScreenAt(id);
      LayOutOneSteps(View(), id, x);
      assert displayController.abstractDisplayMap.Values <= Repr;
      hide View, Wired, Inv, LayOutOne, ResizeAll;
      if dmsScreenMap[id].startPoint.x == x {
        return false;
      }
      MoveNode(id, x);
      ScreenAt(id);
      if abstractScreenCallback {
        ProcessDisplaySizeChange(id);
      }
      moved := abstractScreenCallback;
    }

    method WidthOfScreen(id: ScreenId) returns (w: int)
      requires Wired() && id in dmsScreenMap
      ensures w == WidthOf(View().screens, id)
    {
      ScreenAt(id);
      var screen := dmsScreenMap[id];
      if screen.activeMode.None? {
        return 0;
      }
      if screen.rotation == ROTATION_90 || screen.rotation == ROTATION_270 {
        return screen.activeMode.value.height;
      }
      return screen.activeMode.value.width;
    }

    /** One turn of the layout loop; the sum of the widths so far and the number of callbacks go on. */
    method LayOutNext(order: seq<ScreenId>, i: nat, x: int, n: nat) returns (x1: int, n1: nat)
      requires Sound() && i < |order| && order[i] in dmsScreenMap
      modifies Repr
      ensures Sound() && Repr == old(Repr) && dmsScreenMap == old(dmsScreenMap)
      ensures var (r, k) := LayOut(old(View()), order[i..], x);
              LayOut(View(), order[i + 1..], x1) == (r, k + n - n1)
    {
      hide View, Wired, Inv, LayOut, LayOutOne, WidthOf;
      LayOutStep(View(), order, x, i);
      ScreenAt(order[i]);
      if dmsScreenMap[order[i]].activeMode.None? {
        return x, n;
      }
      var w := WidthOfScreen(order[i]);
      var moved := LayOutChild(order[i], x);
      x1 := x + w;
      n1 := if moved then n + 1 else n;
    }

    /** The number of size callbacks is returned. */
    method UpdateScreenGroupLayout(g: ScreenId) returns (n: nat)
      requires Sound() && g in dmsScreenGroupMap
      modifies Repr
      ensures Sound() && Repr == old(Repr)
      ensures (View(), n) == UpdateLayout(old(View()), g)
    {
      hide View, Wired, Inv, LayOut, ChildrenByX, UpdateLayout;
      ghost var st := View();
      UpdateLayoutSteps(st, g);
      GroupAt(g);
      if dmsScreenGroupMap[g].combination.SCREEN_MIRROR? {
        return 0;
      }
      if |dmsScreenGroupMap[g].screenMap| <= 1 {
        return 0;
      }
      var order := SortChildren(g);
      forall i | 0 <= i < |order| ensures order[i] in dmsScreenMap {
        ChildAt(g, order[i]);
      }
      n := LayOutAll(order);
    }

    method LayOutAll(order: seq<ScreenId>) returns (n: nat)
      requires Sound() && forall i :: 0 <= i < |order| ==> order[i] in dmsScreenMap
      modifies Repr
      ensures Sound() && Repr == old(Repr)
      ensures (View(), n) == LayOut(old(View()), order, 0)
    {
      hide View, Wired, Inv, LayOut;
      ghost var st := View();
      assert order[0..] == order;
      var x := 0;
      n := 0;
      var i := 0;
      while i < |order|
        invariant i <= |order| && Sound() && Repr == old(Repr) && dmsScreenMap == old(dmsScreenMap)
        invariant var (r, k) := LayOut(View(), order[i..], x);
                  LayOut(st, order, 0) == (r, n + k)
      {
        x, n := LayOutNext(order, i, x, n);
        i := i + 1;
      }
      LayOutDone(View(), order, x);
    }

    method OrientScreen(env: Env, id: ScreenId, o: Orientation)
      requires Sound() && id in dmsScreenMap
      modifies Repr
      ensures Sound() && fresh(Repr - old(Repr))
      ensures View() == Orient(old(View()), env, id, o)
    {
      hide View, Wired, Inv, Bounded, WithOrientation, Touch, OrientDisplay;
      OrientSteps(View(), env, id, o);
      ScreenAt(id);
      PutOrientation(id, o);
      SoundValid();
      ConvertToScreenInfo(env, id);
      if abstractScreenCallback {
        ProcessDisplayUpdateOrientation(id);
      }
    }

    /** SetOrientation as the service calls it, not from a window; the boolean is DM_OK. */
    method SetOrientation(env: Env, id: ScreenId, o: Orientation) returns (ok: bool)
      requires Sound()
      modifies Repr
      ensures Sound() && fresh(Repr - old(Repr))
      ensures (View(), ok) == ScreenState.SetOrientation(old(View()), env, id, o)
    {
      if id !in dmsScreenMap {
        return false;
      }
      ScreenAt(id);
      if dmsScreenMap[id].kind.UNDEFINED? {
        return false;
      }
      hide View, Wired, Inv, ScreenState.SetOrientation;
      ok := ChangeOrientation(env, id, o);
    }

    /** SetOrientation, for a screen that is no group. */
    method ChangeOrientation(env: Env, id: ScreenId, o: Orientation) returns (ok: bool)
      requires Sound() && id in dmsScreenMap && !View().screens[id].IsGroup()
      modifies Repr
      ensures Sound() && fresh(Repr - old(Repr))
      ensures (View(), ok) == ScreenState.SetOrientation(old(View()), env, id, o)
    {
      hide View, Wired, Inv, WithRequest, Orient, LayOutGroupOf, CalcRotation, ScreenState.SetRotation, ScreenState.SetOrientation;
      SetOrientationSteps(View(), env, id, o);
      ScreenAt(id);
      var same := dmsScreenMap[id].orientation == o;
      var rotationAfter := CalcRotation(dmsScreenMap[id].activeMode, o);
      PutRequest(id, o);
      if same {
        return true;
      }
      SetRotation(env, id, rotationAfter);
      FinishOrientation(env, id, o);
      return true;
    }

    /** The rest of SetOrientation, once the screen is rotated. */
    method FinishOrientation(env: Env, id: ScreenId, o: Orientation)
      requires Sound() && id in View().screens && id in Orient(View(), env, id, o).screens
      modifies Repr
      ensures Sound() && fresh(Repr - old(Repr))
      ensures View() == LayOutGroupOf(Orient(old(View()), env, id, o), id)
    {
      hide View, Wired, Inv, Orient, UpdateLayout;
      OrientScreen(env, id, o);
      ScreenAt(id);
      var g := dmsScreenMap[id].groupDmsId;
      if g in dmsScreenGroupMap {
        var _ := UpdateScreenGroupLayout(g);
      }
    }

    // ---------- Registration ----------

    method SetCallback()
      requires Wired()
      modifies this`abstractScreenCallback
      ensures Wired() && View() == old(View()).(callback := true)
    {
      abstractScreenCallback := true;
      MapsSet();
    }

    method ConnectNext(env: Env, ids: seq<ScreenId>, i: nat)
      requires Sound() && i < |ids|
      modifies Repr
      ensures Sound() && fresh(Repr - old(Repr))
      ensures ConnectEach(View(), env, ids[i + 1..]) == ConnectEach(old(View()), env, ids[i..])
    {
      hide View, Wired, Inv, Bounded, OnConnect, ConnectEach;
      ConnectEachStep(View(), env, ids, i);
      if ids[i] in dmsScreenMap {
        OnConnectKeeps(View(), env, ids[i]);
        SoundValid();
        OnAbstractScreenConnect(env, ids[i]);
      }
    }

    /** The source iterates over the screen map itself, this over the screens that were there at first. */
    method RegisterAbstractScreenCallback(env: Env)
      requires Sound()
      modifies Repr
      ensures Sound() && fresh(Repr - old(Repr))
      ensures View() == RegisterCallback(old(View()), env)
    {
      hide View, Wired, Inv, ConnectEach, Ascending;
      RegisterInv(View());
      Own();
      var ids := Ascending(dmsScreenMap.Keys);
      SetCallback();
      ConnectAll(env, ids);
    }

    method ConnectAll(env: Env, ids: seq<ScreenId>)
      requires Sound()
      modifies Repr
      ensures Sound() && fresh(Repr - old(Repr))
      ensures View() == ConnectEach(old(View()), env, ids)
    {
      hide View, Wired, Inv, ConnectEach;
      ghost var st := View();
      assert ids[0..] == ids;
      var i := 0;
      while i < |ids|
        invariant i <= |ids| && Sound() && fresh(Repr - old(Repr))
        invariant ConnectEach(View(), env, ids[i..]) == ConnectEach(st, env, ids)
      {
        ConnectNext(env, ids, i);
        i := i + 1;
      }
      ConnectEachDone(View(), env, ids);
    }

    // ---------- The service ----------

    method GetAllValidScreenIds(ids: seq<ScreenId>) returns (valid: seq<ScreenId>)
      requires Wired()
      ensures valid == ValidIds(View(), ids)
    {
      hide View, Wired, ValidIds;
      ValidIdsDone(View(), ids);
      valid := [];
      for i := 0 to |ids|
        invariant valid == ValidIds(View(), ids[..i])
      {
        ValidIdsStep(View(), ids, i);
        if ids[i] !in valid && ids[i] in dmsScreenMap {
          ScreenAt(ids[i]);
          if !dmsScreenMap[ids[i]].kind.UNDEFINED? {
            valid := valid + [ids[i]];
          }
        }
      }
    }

    method FindGroup(id: ScreenId) returns (g: Option<ScreenId>)
      requires Wired()
      ensures g == GroupFound(View(), id)
    {
      if id !in dmsScreenMap {
        return None;
      }
      ScreenAt(id);
      if dmsScreenMap[id].groupDmsId !in dmsScreenGroupMap {
        return None;
      }
      return Some(dmsScreenMap[id].groupDmsId);
    }
  }

  /** The part of the display-manager service that prepares the lists for the controller. */
  class DisplayManagerService {
    const abstractScreenController: AbstractScreenController

    constructor (c: AbstractScreenController)
      ensures abstractScreenController == c
    {
      abstractScreenController := c;
    }

    method MakeMirror(env: Env, mainScreenId: ScreenId, mirrorScreenIds: seq<ScreenId>) returns (group: Option<ScreenId>)
      requires abstractScreenController.Sound()
      modifies abstractScreenController.Repr
      ensures abstractScreenController.Sound() && fresh(abstractScreenController.Repr - old(abstractScreenController.Repr))
      ensures (abstractScreenController.View(), group)
           == ServiceMakeMirror(old(abstractScreenController.View()), env, mainScreenId, mirrorScreenIds)
    {
      var c := abstractScreenController;
      hide AbstractScreenController.View, AbstractScreenController.Wired, Inv, Plain, ValidIds, RemoveFirst,
           GroupFound, ScreenState.MakeMirror, ServiceMakeMirror;
      ServiceMirrorSteps(c.View(), env, mainScreenId, mirrorScreenIds);
      var valid := c.GetAllValidScreenIds(mirrorScreenIds);
      var all := EraseFirst(mainScreenId, valid);
      if mainScreenId !in c.dmsScreenMap || all == [] {
        return None;
      }
      var ok, _ := c.MakeMirror(env, mainScreenId, all);
      if !ok {
        return None;
      }
      group := c.FindGroup(mainScreenId);
    }

    method MakeExpand(env: Env, expandScreenIds: seq<ScreenId>, startPoints: seq<Point>) returns (group: Option<ScreenId>)
      requires abstractScreenController.Sound()
      modifies abstractScreenController.Repr
      ensures abstractScreenController.Sound() && fresh(abstractScreenController.Repr - old(abstractScreenController.Repr))
      ensures (abstractScreenController.View(), group)
           == ServiceMakeExpand(old(abstractScreenController.View()), env, expandScreenIds, startPoints)
    {
      var c := abstractScreenController;
      hide AbstractScreenController.View, AbstractScreenController.Wired, Inv, ServiceMakeExpand, GetDefault, ValidIds,
           RemoveFirst, FirstPoints, PointsFor, Plain, GroupFound, ScreenState.MakeExpand, Bounded;
      ServiceExpandSteps(c.View(), env, expandScreenIds, startPoints);
      if expandScreenIds == [] || startPoints == [] || |expandScreenIds| != |startPoints| {
        return None;
      }
      var pointsMap := FirstPointsOf(expandScreenIds, startPoints);
      c.SoundValid();
      var defaultScreenId := c.GetDefaultAbstractScreenId(env);
      var valid := c.GetAllValidScreenIds(expandScreenIds);
      var all := EraseFirst(defaultScreenId, valid);
      if all == [] {
        return None;
      }
      var points := PointsOf(all, pointsMap);
      var ok, _ := c.MakeExpand(env, all, points);
      if !ok {
        return None;
      }
      group := c.FindGroup(all[0]);
    }

    static method FirstPointsOf(ids: seq<ScreenId>, at: seq<Point>) returns (points: map<ScreenId, Point>)
      requires |ids| == |at|
      ensures points == FirstPoints(ids, at)
    {
      points := map[];
      for i := 0 to |ids|
        invariant points == FirstPoints(ids[..i], at[..i])
      {
        FirstPointsStep(ids, at, i);
        if ids[i] !in points {
          points := points[ids[i] := at[i]];
        }
      }
      assert ids[..|ids|] == ids && at[..|at|] == at;
    }

    static method PointsOf(ids: seq<ScreenId>, points: map<ScreenId, Point>) returns (at: seq<Point>)
      ensures at == PointsFor(ids, points)
    {
      hide PointsFor;
      at := [];
      assert ids[0..] == ids;
      assert at + PointsFor(ids, points) == PointsFor(ids, points);
      for i := 0 to |ids|
        invariant at + PointsFor(ids[i..], points) == PointsFor(ids, points)
      {
        PointsForStep(ids, points, i);
        if ids[i] in points {
          assert at + ([points[ids[i]]] + PointsFor(ids[i + 1..], points)) == (at + [points[ids[i]]]) + PointsFor(ids[i + 1..], points);
          at := at + [points[ids[i]]];
        } else {
          assert [] + PointsFor(ids[i + 1..], points) == PointsFor(ids[i + 1..], points);
        }
      }
      PointsForNone(ids, points, at);
    }

    static lemma PointsForNone(ids: seq<ScreenId>, points: map<ScreenId, Point>, at: seq<Point>)
      ensures at + PointsFor(ids[|ids|..], points) == at
    {
    }

    /** StopMirror and StopExpand. */
    method Stop(env: Env, ids: seq<ScreenId>, combination: Combination)
      requires abstractScreenController.Sound()
      modifies abstractScreenController.Repr
      ensures abstractScreenController.Sound() && fresh(abstractScreenController.Repr - old(abstractScreenController.Repr))
      ensures abstractScreenController.View() == ServiceStop(old(abstractScreenController.View()), env, ids, combination)
    {
      var c := abstractScreenController;
      hide AbstractScreenController.View, AbstractScreenController.Wired, Inv, ValidIds, Plain, ScreenState.StopScreens;
      ServiceStopSteps(c.View(), env, ids, combination);
      var all := c.GetAllValidScreenIds(ids);
      if all == [] {
        return;
      }
      c.StopScreens(env, all, combination);
    }

    /** One operation of any kind. An agent's death is only performed when its loop ends. */
    method Perform(env: Env, op: Op)
      requires abstractScreenController.Wired() && Good(abstractScreenController.View()) && Admissible(op)
      requires op.OpAgentDied? ==> OnRemoteDied(abstractScreenController.View(), env, op.agent).Some?
      modifies abstractScreenController.Repr
      ensures abstractScreenController.Wired() && Good(abstractScreenController.View())
      ensures fresh(abstractScreenController.Repr - old(abstractScreenController.Repr))
      ensures abstractScreenController.View() == Step(old(abstractScreenController.View()), env, op)
    {
      hide AbstractScreenController.View, AbstractScreenController.Wired, Inv, AgentsOk, Good, Connect, Disconnect, GetDefault,
           CreateVirtual, DestroyVirtual, OnRemoteDied, ServiceMakeMirror, ServiceMakeExpand, ServiceStop, RemoveVirtual,
           SetVirtualAsDefault, ScreenState.SetRotation, ScreenState.SetOrientation, RegisterCallback;
      var c := abstractScreenController;
      StepGood(c.View(), env, op);
      GoodParts(c.View());
      c.SoundValid();
      match op
      case OpConnect(rs) => c.ProcessScreenConnected(env, rs);
      case OpDisconnect(rs) => c.ProcessScreenDisconnected(env, rs);
      case OpQueryDefault => var _ := c.GetDefaultAbstractScreenId(env);
      case OpCreateVirtual(rs, mode, agent) => var _ := c.CreateVirtualScreen(env, rs, mode, agent);
      case OpDestroyVirtual(id) => var _ := c.DestroyVirtualScreen(env, id);
      case OpAgentDied(agent) => c.OnRemoteDied(env, agent);
      case OpMakeMirror(id, ids) => var _ := MakeMirror(env, id, ids);
      case OpMakeExpand(ids, at) => var _ := MakeExpand(env, ids, at);
      case OpStop(ids, combination) => Stop(env, ids, combination);
      case OpRemoveVirtual(ids) => c.RemoveVirtualScreenFromGroup(env, ids);
      case OpSetVirtualAsDefault(id) => var _ := c.SetVirtualScreenAsDefault(env, id);
      case OpSetRotation(id, r) => c.SetRotation(env, id, r);
      case OpSetOrientation(id, o) => var _ := c.SetOrientation(env, id, o);
      case OpRegister => c.RegisterAbstractScreenCallback(env);
    }

    static lemma GoodParts(st: State)
      requires Good(st)
      ensures Inv(st) && AgentsOk(st)
    {
    }
  }
}

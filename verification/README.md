# Display manager: a verified model

A Dafny 4.11 model of the display manager of a window-manager repository: the server's state machine of
screens, screen groups and displays, the layout and geometry around it, and three smaller parts of the
client and the configuration reader. `dafny verify dfyconfig.toml` checks everything.

## What is modelled

**The server.** The render service reports screens by its own ids (rs ids); the server hands out dms ids,
keeps both directions of the mapping, and puts screens into one screen group, which either mirrors a source
screen or extends the desktop over its children. A display controller, called back before a screen leaves
and after it joined, binds displays to screens. The same fact is kept in several places: a screen names its
group and the group lists the screen, the id maps are inverse to each other, an agent lists the virtual
screens it owns. Looking up the default screen may connect it on the way, which looks it up again.

There are two layers.

* `ScreenState` is the whole server as one value, with a function for each step and `Step`/`Run` over
  operations. What the render service answers (default screen, modes, whether a display node can be made)
  and the system parameters are the argument `Env`; every theorem is for all of its values.
* `ScreenObjects`, `DisplayObject` and `ScreenServer` are the objects of the source: screens, groups, the id
  manager, displays, the two controllers and the service, updated in place, with the loops and the mutual
  recursion of the source. Each method is proved to take `View()`, the value of all objects together, to what
  the function of that step says; `DisplayManagerService.Perform` says so for every operation, and
  `ServerRuns` carries the theorems about `Run` over to the objects.

| file | what it proves |
|---|---|
| `ScreenInvariant`, `ScreenRuns`, `ReachableStates` | the structural invariant over every run, ids never reused |
| `AgentOwnership`, `AgentDeath` | what the death of an agent leaves behind, and exactly when its loop ends |
| `GroupChanges` | what MakeMirror and MakeExpand move, and that they lose nothing |
| `MirrorSource` | the source of a mirror group is one of its children |
| `DefaultScreen`, `ServerBounds` | the re-entrant lookup of the default screen, and its reconnection |
| `ExpandDisplays`, `ExpandCoverage`, `ExpandRoundTrip` | displays in expand mode, which screens have none, and MakeExpand undone by StopExpand |
| `DisplaySharing`, `SharingSteps`, `SharingOps`, `SharingRuns`, `SharingExamples` | for every operation, exactly when it leaves two displays on one screen, and runs that get there |
| `ExpandTiling`, `DisplayTiling` | the left-to-right tiling of an expand group, and of its displays |
| `DisplayPlaces`, `DisplayMoves` | what a new screen and its display look like, and what moving screens does to displays |
| `ScreenMemory` | what a screen keeps inside and outside its group |
| `ScreenObjects` | surfaces of a screen and the renewal of its display node |
| `ServerSafety`, `ScreenServer`, `ServerRuns` | the steps of the objects, and their refinement of the state machine over whole runs |
| `DisplayCompression`, `DisplayCutout` | waterfall compression, cutouts and waterfall edges under rotation |
| `Coordinates`, `DisplayCache`, `ConfigSplit` | coordinate conversion, the client's cache, the list splitter |

## Where the code does not do what one would expect

The model follows the code; each of these is a theorem here, with the exact condition.

* The loop of OnRemoteDied runs for ever when a listed id is refused. With a known default that is an id with the
  default rs id (`KnownDeathEnds`, `RefusedSpins`). While no default is known it is an id whose mapping is gone; a
  default that the loop learns on the way counts from then on (`AgentDeath.OnRemoteDiedEnds` has the condition for
  all states). The server gets there from the start when a new virtual screen is made under the default rs id
  (`DeathSpins`), or when a virtual screen is unplugged and no default is known (`UnmappedSpins`); a known default
  that is on no list stays off them otherwise (`StepKnown`).
* Two displays may end on one screen. For every operation the condition on the state before it is exact (`StepShares`,
  `RunUnshared`). BindAloneScreenLocked gives a screen a second display (`BindAloneShares`): registering a callback
  runs into it exactly when the default is the only child and has a mode and a display (`RegisterShares`); making a
  virtual screen the default, exactly when it has a mode and a display and ends as the only child
  (`SetVirtualShares`); MakeMirror, exactly when its main screen is the default, has a mode and a display, and founds
  the group (`MakeMirrorShares`). And when screens leave a mirror group, by StopMirror, MakeMirror, MakeExpand,
  RemoveVirtualScreenFromGroup, unplugging, destroying or the death of an agent, their displays go over to the default
  screen: two meet there exactly when the default has a mode and a place in that group and, of the screens that leave
  before it does, one has a display and so has the default or another one of them
  (`LeaveAllShares`). There are runs from the start for each way (`RegisterTwice`, `ChosenTwice`, `FoundedAgain`,
  `HandedOver`).
* In an expand group a real screen may be without a display: a screen that is alone and not the default gets none.
  In every run of an expanding server there is at most one, until a default that had left the group is plugged in,
  which puts it back without a callback (`CoveredReachable`, `SlippedRun`).
* When a screen leaves an expand group the displays of all others go to the origin, so that they lie where their
  screens start exactly if all those start there (`LeaveAligned`). A display that the layout moves, and that is neither
  upright nor of the right size already, gets the wrong size unless the mode is square (`ResizeExact`).
* When a screen leaves a mirror group its display goes over to the default screen exactly when that has a mode and
  a group (`HandoverExact`). With a mode and no group, which a run from the start reaches (`Strands`), the source
  reads the group through a null pointer.
* For rotations 90 and 180 the cutouts are lost, because the result vector is passed by value
  (`TransferredExact`); for rotation 180 the top waterfall rectangle is transposed (`WaterfallTurns`).
* The boundary check of cutouts and the hit test of the client subtract and add without guards; they are right
  exactly when no edge leaves the 32-bit range (`KeepsExact`, `TargetExact`).
* The flag that makes the client's cache ask again is one for all displays: asking for one display ends the
  waiting for the others (`StaleHit`, `FreshIffStored`).
* Split gives back its input for every text exactly when the pattern has no border (`JoinRecovers`), and does
  not end for an empty pattern unless the text is empty too (`AdvancesIffNonEmpty`). A doubled separator keeps
  a list of numbers from being stored (`EmptyPieceNeverStored`): the reader throws, unless a piece before it is
  no number (`ReadAllExact`).
* A further screen for which no display node can be made starts at 0, and so ends the tiling exactly when it and
  the screens before it have a width (`NodelessTiles`).
* The node of the default screen shows after a renewal what it showed before if and only if it showed the
  recorded surfaces (`RenewalExact`). A step ends that exactly when it adds a surface that is recorded neither
  now nor before, or removes one that stays recorded, or makes a node for a screen without one while something is
  recorded (`StepShows`). So a surface that was recorded twice comes back (`RemovedComesBack`), and a screen that
  leaves its group and enters one again has an empty node until the next renewal (`ReentryExact`).

## Model

| member | source | states |
|---|---|---|
| ReachableStates.ReachableShape | dmserver/src/abstract_screen_controller.cpp:455-579 | in every state reachable from the start there is at most one group, it is non-empty, listed as a screen, nobody's child; membership in the screen and in the group agree both ways; a node means membership; ids with an rs id are exactly the screens that are no group, and the two id maps are inverse |
| ReachableStates.GoneForGood | dmserver/src/abstract_screen_controller.cpp:1285-1312 | over every run, a dms id that was handed out and deleted is never handed out again |
| ReachableStates.SharedReachable | dmserver/src/abstract_display_controller.cpp:142-260 | in every reachable state the displays are numbered and made for ids handed out; as long as no operation of the run shared, no two are on one screen, and the next operation ends that if and only if it shares |
| SharingRuns.StepShares | dmserver/src/abstract_display_controller.cpp:142-260 | for every operation: from a state in which no two displays are on one screen, two are afterwards if and only if the condition for that operation holds in the state before |
| SharingRuns.RunUnshared | dmserver/src/abstract_display_controller.cpp:142-260 | so over every run, up to the first operation that shares |
| SharingSteps.LeaveAllShares | dmserver/src/abstract_display_controller.cpp:213-235 | when screens leave in turn, two displays end on one screen if and only if, of those that leave a mirror group before the default, one has a display and the default or another of them has one too, and the default can take them over |
| SharingSteps.MakeMirrorShares | dmserver/src/abstract_screen_controller.cpp:1074-1106 | MakeMirror shares if and only if its main screen founds a group as a default with mode and display, or it is a new source and the listed screens pile up on the default |
| SharingSteps.DisconnectShares | dmserver/src/abstract_screen_controller.cpp:379-421 | unplugging a screen shares if and only if it is not kept as the default, and its display, or those of the children that the new source takes out, pile up on the default |
| SharingOps.StopShares | dmserver/src/abstract_screen_controller.cpp:1108-1147 | StopMirror shares if and only if the listed screens but the source pile up on the default; StopExpand never does |
| SharingOps.ServiceExpandShares | dmserver/src/display_manager_service.cpp:712-773 | MakeExpand shares if and only if the listed screens leave a mirror group for it and pile up on the default |
| SharingOps.RemoveShares | dmserver/src/abstract_screen_controller.cpp:1237-1262 | RemoveVirtualScreenFromGroup shares if and only if the listed virtual screens pile up on the default |
| AgentDeath.DeathShares | dmserver/src/abstract_screen_controller.cpp:1264-1283 | the death of an agent shares if and only if its screens, and all fellows of the default once that becomes the source, pile up on the default |
| SharingExamples.FoundedAgain | dmserver/src/abstract_screen_controller.cpp:1083-1096 | a run from the start, with one registration and no virtual default, that ends with two displays on the default, because MakeMirror founds a group for it again |
| SharingExamples.HandedOver | dmserver/src/abstract_display_controller.cpp:213-235 | a run from the start that does so because a screen hands its display over to a default that has one |
| DisplaySharing.BindAloneShares | dmserver/src/abstract_display_controller.cpp:555-601 | two displays share a screen after BindAloneScreenLocked if and only if the screen is the default, has a mode and had a display already |
| DisplaySharing.RegisterShares | dmserver/src/abstract_screen_controller.cpp:224-237 | registering the callback leaves two displays on one screen if and only if the default is the only child of the group, has a mode and had a display already |
| DisplaySharing.SetVirtualShares | dmserver/src/abstract_screen_controller.cpp:1535-1577 | SetVirtualScreenAsDefault does so if and only if the screen is accepted, had a display and a mode, and founds the group or is its only child and the default already |
| DisplaySharing.SetVirtualAnswers | dmserver/src/abstract_screen_controller.cpp:1535-1577 | SetVirtualScreenAsDefault succeeds exactly for a known screen with an rs id that is not real, with the callback registered, if there is no group or the default has one |
| DisplaySharing.RegisterTwice | dmserver/src/abstract_display_controller.cpp:142-166 | connecting the default and registering twice, from the start, gives it two displays |
| DisplaySharing.ChosenTwice | dmserver/src/abstract_screen_controller.cpp:1535-1577 | so does making a virtual screen the default twice |
| DisplaySharing.HandoverExact | dmserver/src/abstract_display_controller.cpp:213-234 | the first display of a screen that leaves a mirror group is bound to the default screen, with its mode and place, if and only if that has a mode and a group; nothing else changes; if no screen had two displays, the default has two now exactly if it had one |
| DisplaySharing.Strands | dmserver/src/abstract_display.cpp:233-257 | a run from the start after which the display of a mirror group's child can only go to a default screen that has a mode and no group |
| ReachableStates.OrientationTakes | dmserver/src/abstract_screen_controller.cpp:746-802 | after SetOrientation to a new orientation, in any state, the screen has that orientation and request and the rotation that suits them; so has its first display, if the screen is in a group and the callback registered; no other screen changes but where an expand group is laid out, and every display stays bound as it was |
| ReachableStates.OrientedShape | dmserver/src/abstract_screen_controller.cpp:746-802 | in expand runs the display of a real screen is then at least as tall as wide for vertical orientations, at least as wide as tall for horizontal ones, with the sides of the mode |
| ReachableStates.OrientationKept | dmserver/src/abstract_screen_controller.cpp:746-775 | asked for the orientation it has, a screen only records the request; a group or an unknown screen is refused |
| DmTypes.OnlySuits | dmserver/src/abstract_screen.cpp:477-506 | CalcRotation finds the only rotation that suits: upright orientations show the panel taller than wide and sideways ones wider than tall, a square panel counting as wide; plain ones take less than two quarter turns, reverse ones two or three; other orientations, or no mode, none |
| DmTypes.ReverseSuits | dmserver/src/abstract_screen.cpp:477-506 | the rotation of a reverse orientation is two quarter turns from that of the plain one |
| DisplayPlaces.NewConnects | dmserver/src/abstract_screen_controller.cpp:305-351 | connecting under a new rs id leaves a real screen with the mode reported for it, in a new group, in that of the default, or in none; with a node it starts at the origin, or behind the children of an expand group; the built-in panel with a node is turned as configured, any other screen is not turned; its display, which it gets exactly as first child and default or as further child of an expand group, has its place, rotation, orientation and turned size; no other screen or display changes. Without modes only the id counter moves |
| DisplayPlaces.OnConnectMakes | dmserver/src/abstract_display_controller.cpp:142-166 | the connect callback makes exactly the display that is due: for a child alone, if it is the default, at the origin; in an expand group of several, for one without display, where the screen starts, a virtual screen in the mode of the default |
| DisplayPlaces.FirstSettles | dmserver/src/abstract_screen_controller.cpp:192-210 | a first screen has the default screen connected too, if that is known and has modes |
| DisplayPlaces.ConnectEachInOrder | dmserver/src/abstract_screen_controller.cpp:224-237 | a registration numbers the displays it makes in the order of the ids of their screens |
| DisplayTiling.StepAligned | dmserver/src/abstract_display_controller.cpp:446-477 | connecting, creating virtual screens, registering and setting orientations on an expanding server keep every display where its screen starts |
| DisplayTiling.DisplaysApart | dmserver/src/abstract_display_controller.cpp:608-651 | on a tiled desktop the displays of two real screens stand side by side |
| ReachableStates.AlignedReachable | dmserver/src/abstract_display_controller.cpp:446-477 | in every such run from the start every display lies where its screen starts, and, if the callback is registered once, those of real screens stand side by side |
| DisplayTiling.UpdateLayoutShows | dmserver/src/abstract_display_controller.cpp:446-526 | the layout takes the displays of exactly the children that move with it, to their new place |
| DisplayTiling.ResizeExact | dmserver/src/abstract_display_controller.cpp:479-526 | a display that is moved keeps the right size, or gets that of the upright mode; so it has the right one afterwards if and only if it had it, is upright, or the mode is square |
| DisplayTiling.LayOutCounts | dmserver/src/abstract_screen_controller.cpp:826-843 | the size callback runs once for each child that moves |
| DisplayMoves.MakeExpandShows | dmserver/src/abstract_display_controller.cpp:608-651 | after MakeExpand a listed screen that moves, had no display, can have a node and has a mode for it, has one at the first point asked for it, turned like it, a virtual screen in the mode of the default |
| DisplayMoves.MakeExpandDraws | dmserver/src/abstract_screen_controller.cpp:1180-1217 | MakeExpand makes displays for no other screens, each where its screen starts; every screen that moved and has a mode for it has one; in a group that expands already all displays stay as they were |
| DisplayMoves.LeaveSends | dmserver/src/abstract_display_controller.cpp:237-260 | when a screen leaves an expand group its last display goes, and the displays of all other screens go to the origin |
| DisplayMoves.LeaveAligned | dmserver/src/abstract_display_controller.cpp:237-260 | the displays that are left lie where their screens start if and only if those screens start at the origin |
| ScreenMemory.RunTidy | dmserver/src/abstract_screen.cpp:613-686 | on every run a screen without a node starts at the origin, and a child remembers no other group than its own |
| ReachableStates.ExpandReachable | dmserver/src/abstract_display_controller.cpp:142-260 | in every run of an expanding server from the start, every display is bound to a child of the expand group, no two share a screen, and a real screen's display has its rotation and rotated size |
| ReachableStates.CoveredReachable | dmserver/src/abstract_display_controller.cpp:142-166 | in every such run with the callback registered, of any two real children of the group one has a display, until a default that had left the group is plugged in while another child has none; that ends it |
| ExpandCoverage.StepCovered | dmserver/src/abstract_display_controller.cpp:555-651 | an operation of an expand run keeps it so that at most one real child lacks a display, if and only if it is not that |
| ExpandCoverage.SlippedRun | dmserver/src/abstract_screen_controller.cpp:258-303 | a run from the start after which both children of the group have no display |
| ReachableStates.MirrorReachable | dmserver/src/abstract_screen_controller.cpp:402-419 | in every run from the start in which a real default stays a member when screens go, and no virtual screen is made the default, the source of a mirror group is one of its children |
| ReachableStates.TiledReachable | dmserver/src/abstract_screen_controller.cpp:581-616 | in every run of connections and orientation changes from the start, in which the screens that connect can have a display node, the children of an expand group tile the span from 0 to their total width |
| ScreenRuns.StepGood | dmserver/src/abstract_screen_controller.cpp:192-721 | every operation keeps the invariant, every valid id matched by a screen, and the agents' lists in order, whatever the render service answers |
| ScreenRuns.RunGood | dmserver/src/abstract_screen_controller.cpp:192-721 | so does every run |
| ScreenRuns.StepKnown | dmserver/src/abstract_screen_controller.cpp:618-650 | once the default is known and on no agent's list, it stays so through an operation if and only if that makes no new virtual screen under the default rs id |
| ScreenRuns.LateScreensIdle | dmserver/src/abstract_screen_controller.cpp:224-237 | a registration that also visits the screens its callbacks add, as the source does, comes to the same |
| ScreenRuns.ValidIdsOrder | dmserver/src/abstract_screen_controller.cpp:89-104 | the valid listed ids come in the order in which the list names them first |
| ScreenRuns.RunAgentsEnd | dmserver/src/abstract_screen_controller.cpp:1264-1283 | at the end of every such run any agent may die: the loop ends, none of its ids or screens remain, other agents keep their lists |
| ScreenInvariant.AddChildInv | dmserver/src/abstract_screen.cpp:613-650 | AddChild keeps the invariant, and exactly the added screen joins the children and names the group |
| ScreenInvariant.RemoveChildInv | dmserver/src/abstract_screen_controller.cpp:510-525 | removing a child keeps the invariant, changes no other screen, and takes the group away exactly with its last child |
| ScreenInvariant.DisconnectInv | dmserver/src/abstract_screen_controller.cpp:379-421 | disconnecting keeps the invariant and leaves no id without its screen |
| AgentDeath.OnRemoteDiedEnds | dmserver/src/abstract_screen_controller.cpp:1264-1283 | the loop ends if and only if no listed id carries, when its turn comes, the default rs id as it is then known, an invalid one included; then the agent owns nothing, its ids are unmapped and without screens, and nothing else is lost |
| AgentDeath.UnmappedSpins | dmserver/src/abstract_screen_controller.cpp:677-688 | with no default, a virtual screen that is created and unplugged makes the death of its agent endless |
| AgentOwnership.KnownDeathEnds | dmserver/src/abstract_screen_controller.cpp:1264-1283 | with a known default the loop ends if and only if no listed id carries the default rs id |
| AgentOwnership.RefusedSpins | dmserver/src/abstract_screen_controller.cpp:677-688 | a refused first id leaves the state as it is, so the loop never ends |
| AgentOwnership.CreatedDefaultSpins | dmserver/src/abstract_screen_controller.cpp:618-650 | a new virtual screen made under the default rs id puts the default on its agent's list, and the death of that agent never ends |
| AgentOwnership.DeathSpins | dmserver/src/abstract_screen_controller.cpp:1264-1283 | this is one operation away from the start |
| AgentOwnership.DisownOk | dmserver/src/abstract_screen_controller.cpp:689-708 | dropping an id from the first agent that has it removes it from all lists, changes no other list, and keeps every id listed at most once |
| AgentOwnership.DestroyListed | dmserver/src/abstract_screen_controller.cpp:677-721 | destroying a listed screen that is not refused loses exactly that id and screen and keeps a known default |
| AgentOwnership.DestroyAnswers | dmserver/src/abstract_screen_controller.cpp:677-721 | DestroyVirtualScreen succeeds exactly for an id with an rs id that is not the default, and then id and screen are gone; refused it changes nothing |
| AgentOwnership.CreateVirtualAnswers | dmserver/src/abstract_screen_controller.cpp:618-650 | the id answered is the one under the rs id; a new screen is virtual, has the mode asked for, is in no group, and comes last in the list of its agent |
| AgentOwnership.SetVirtualAsDefaultInv | dmserver/src/abstract_screen_controller.cpp:1535-1577 | SetVirtualScreenAsDefault keeps the invariant and takes the new default off every agent's list |
| GroupChanges.TakeOutEffect | dmserver/src/abstract_screen_controller.cpp:1149-1174 | the first loop takes out exactly the listed screens that are not filtered, remembering their points and old membership, and never empties the group |
| GroupChanges.PutInEffect | dmserver/src/abstract_screen_controller.cpp:1180-1217 | every collected screen joins the group, with its point, and nothing else changes |
| GroupChanges.PutInReports | dmserver/src/abstract_screen_controller.cpp:1180-1217 | the screens that were in a group are reported as changed and the others as added, in order, and none as removed |
| GroupChanges.ChangeEffect | dmserver/src/abstract_screen_controller.cpp:1149-1217 | the listed screens move, nothing else does, no screen taken out is lost, and the notification lists name the movers that were in a group, and those that were not, in order |
| GroupChanges.ServiceMakeExpandMoves | dmserver/src/display_manager_service.cpp:712-773 | MakeExpand succeeds exactly when the lists match, some valid screen besides the default is listed, and the default has a group or is connected on the way and founds one, all judged before the call; then every valid listed screen is a child of that group, the ones that move and can have a node at the first point asked for them, and no other screen changes, listed members of an expanding group included |
| GroupChanges.ServiceMakeMirrorMoves | dmserver/src/display_manager_service.cpp:538-569 | MakeMirror succeeds exactly when the main screen is real, some other valid screen is listed, and the main screen has a group, no group exists, or the default has one; then every valid listed screen is in that group, mirroring the main one, those that move at the origin, and no other screen changes |
| MirrorSource.StepMirrorOk | dmserver/src/abstract_screen_controller.cpp:1074-1147 | while a real default stays a member and no virtual screen is made the default, every operation leaves a mirror group with a child as its source |
| MirrorSource.RunMirrorOk | dmserver/src/abstract_screen_controller.cpp:402-419 | so does every run |
| MirrorSource.DisconnectOther | dmserver/src/abstract_screen_controller.cpp:379-421 | disconnecting another screen than the default keeps all other children and the combination; the source changes only if it was the one to go, and then to the default |
| DefaultScreen.LookupIsConnect | dmserver/src/abstract_screen_controller.cpp:192-210 | the lookup satisfies the equation of the source: it runs the full connect when the default rs id is unmapped, and the one nested connect is all that comes of it |
| DefaultScreen.LookupMapsBack | dmserver/src/abstract_screen_controller.cpp:192-210 | a valid result maps back to the default rs id, and nothing is left to connect |
| DefaultScreen.LookupTwice | dmserver/src/abstract_screen_controller.cpp:192-210 | a second lookup in a row changes something if and only if the default rs id is unmapped and has no modes, and then only the id counter |
| DefaultScreen.ReconnectsOnlyChildren | dmserver/src/abstract_screen.cpp:638-641 | the reconnect branch of AddChild is reached only for a screen that is a child already |
| DefaultScreen.DefaultRoundTrip | dmserver/src/abstract_screen_controller.cpp:258-303 | unplugging the default and plugging it in again keeps every id, member, group, display and screen but for its start point |
| ExpandDisplays.StepDispOk | dmserver/src/abstract_display_controller.cpp:142-260 | an operation of an expand run keeps every display bound to a child of the expand group, no two to the same screen, and the display of a real screen with its rotation and rotated size |
| ExpandDisplays.RunDispOk | dmserver/src/abstract_display_controller.cpp:555-651 | so does every expand run |
| ExpandDisplays.OnConnectOk | dmserver/src/abstract_display_controller.cpp:142-166 | the connect callback gives a screen a display unless it has one, and no other screen a new one |
| ExpandDisplays.SetRotationOk | dmserver/src/abstract_screen_controller.cpp:912-945 | after SetRotation the bound display has the rotation of its screen and the mode's size, swapped exactly for 90 and 270 |
| ExpandRoundTrip.ExpandThenStop | dmserver/src/abstract_screen_controller.cpp:1108-1178 | MakeExpand and then StopExpand of screens without displays restores the ids of the display map and the bound screens, all fields but the offsets, and keeps the default's group, which loses exactly those screens |
| ExpandTiling.UpdateLayoutTiles | dmserver/src/abstract_screen_controller.cpp:804-845 | the layout tiles the children from 0 in the left-to-right order they had |
| ExpandTiling.SecondLayoutIdle | dmserver/src/abstract_screen_controller.cpp:826-831 | with positive widths a second layout changes nothing and fires no callback |
| ExpandTiling.TilesDisjoint | dmserver/src/abstract_screen_controller.cpp:833-843 | in a tiling no two children overlap and neighbours touch |
| ExpandTiling.TilesCover | dmserver/src/abstract_screen_controller.cpp:833-843 | every point of the total width lies in a child |
| ExpandTiling.SumPermutes | dmserver/src/abstract_screen_controller.cpp:597-611 | the place behind the last child does not depend on the order in which the widths are added |
| ExpandTiling.StepTiled | dmserver/src/abstract_screen_controller.cpp:581-616 | connecting, creating virtual screens, registering and setting orientations keep the children of the expand group a tiling, provided a screen that connects can have a display node |
| ExpandTiling.RunTiled | dmserver/src/abstract_screen_controller.cpp:746-845 | so does every run of them |
| ExpandTiling.NodelessTiles | dmserver/src/abstract_screen.cpp:234-256 | a further screen without a display node starts at 0; the children still tile if and only if it, or the tiling, has no width |
| ExpandTiling.SortUnique | dmserver/src/abstract_screen_controller.cpp:816-818 | with different start points there is only one sorted order, whatever the sort does |
| ScreenObjects.EraseFirst | dmserver/src/abstract_screen.cpp:134-142 | the first occurrence of an id is erased, and only that |
| ScreenObjects.AbstractScreen.UpdateRSTree | dmserver/src/abstract_screen.cpp:114-145 | the surface joins or leaves the node and, if asked, the app list |
| ScreenObjects.AbstractScreen.AddSurfaceNode | dmserver/src/abstract_screen.cpp:147-167 | the surface joins the node and, if asked, the native list; refused without a node |
| ScreenObjects.AbstractScreen.RemoveSurfaceNode | dmserver/src/abstract_screen.cpp:169-188 | only a recorded native surface is removed, from the node and the list |
| ScreenObjects.AbstractScreen.InitRSDisplayNode | dmserver/src/abstract_screen.cpp:234-256 | a node with nothing on it is made unless there is one, and the start point is set only with a node |
| ScreenObjects.AbstractScreen.InitRSDefaultDisplayNode | dmserver/src/abstract_screen.cpp:258-288 | the new node shows exactly the recorded app and native surfaces, and the lists are unchanged |
| ScreenObjects.AbstractScreenGroup.RemoveChild | dmserver/src/abstract_screen.cpp:666-686 | the screen leaves the map, names no group, and loses node and start point; its recorded surfaces stay recorded |
| ScreenObjects.AbstractScreenGroup.RemoveDefaultScreen | dmserver/src/abstract_screen.cpp:688-705 | the default screen stays a child and keeps its node |
| ScreenObjects.ScreenIdManager.CreateAndGetNewScreenId | dmserver/src/abstract_screen_controller.cpp:1285-1300 | the count is handed out and mapped, both ways only for a valid rs id |
| ScreenObjects.ScreenIdManager.DeleteScreenId | dmserver/src/abstract_screen_controller.cpp:1302-1312 | the id and the rs id it had are unmapped |
| ScreenObjects.StepShows | dmserver/src/abstract_screen.cpp:114-188 | a node that shows the recorded surfaces, or no node, is so after a step if and only if an added surface is recorded, now or before, a removed one is recorded no more often than the step drops it, and a new node is made only for a screen with nothing recorded |
| ScreenObjects.RenewalExact | dmserver/src/abstract_screen.cpp:258-288 | the renewed node shows what the old one showed if and only if that was what is recorded |
| ScreenObjects.RenewalRestores | dmserver/src/abstract_screen.cpp:258-288 | after any history of such steps, leaving and entering groups included, the renewed node shows exactly what is recorded, which is what the old one showed if there was one, and the first other step ends this |
| ScreenObjects.ReentryExact | dmserver/src/abstract_screen.cpp:666-686 | a screen that leaves a group and enters one again has a node with nothing on it, which shows what is recorded if and only if nothing is; the renewal brings all of it back |
| ScreenObjects.RemovedComesBack | dmserver/src/abstract_screen.cpp:114-145 | a surface added twice and removed once is off the node, and on it again after the renewal |
| ScreenObjects.StepSynchronous | dmserver/src/abstract_screen.cpp:114-188 | that each surface is recorded exactly once, in one of the lists, is kept by a step if and only if the surface is recorded when it is added and was not there, and removed by the route it was added by, and a new node is made only for a screen with nothing recorded |
| ScreenObjects.DisciplinedKeeps | dmserver/src/abstract_screen.cpp:114-188 | histories of such steps keep that, and are among those after which the renewal restores the node |
| DisplayObject.AbstractDisplay.RequestRotation | dmserver/src/abstract_display.cpp:193-206 | the size is swapped exactly when the rotation changes between upright and sideways; false if it does not change |
| DisplayObject.AbstractDisplay.BindAbstractScreen | dmserver/src/abstract_display.cpp:233-257 | the display takes over the mode and position of the screen but not its rotation |
| DisplayObject.AbstractDisplay.UpdateDisplaySize | dmserver/src/abstract_display_controller.cpp:479-526 | the unrotated mode is written when the size differs, and the offset always |
| ScreenServer.AbstractScreenController.GetDefaultAbstractScreenId | dmserver/src/abstract_screen_controller.cpp:192-210 | the mutual recursion with connecting ends, and computes the lookup |
| ScreenServer.AbstractScreenController.ProcessScreenConnected | dmserver/src/abstract_screen_controller.cpp:305-351 | the objects go through the connect step, re-entrant calls included |
| ScreenServer.AbstractScreenController.ProcessDefaultScreenReconnected | dmserver/src/abstract_screen_controller.cpp:258-303 | the default screen is added again to the group it was in last |
| ScreenServer.AbstractScreenController.InitAndGetScreen | dmserver/src/abstract_screen_controller.cpp:353-377 | a screen without usable modes loses its fresh id again |
| ScreenServer.AbstractScreenController.AddAsFirstScreenLocked | dmserver/src/abstract_screen_controller.cpp:540-579 | the first screen founds the group and is its source |
| ScreenServer.AbstractScreenController.AddAsSuccedentScreenLocked | dmserver/src/abstract_screen_controller.cpp:581-616 | a further screen joins the group of the default, behind its last child when it expands |
| ScreenServer.AbstractScreenController.AddChild | dmserver/src/abstract_screen.cpp:613-650 | insertion, refusal and node renewal, the lookup of a mirror source included |
| ScreenServer.AbstractScreenController.RenewNode | dmserver/src/abstract_screen.cpp:638-641 | the reconnect branch: the screen keeps its group, only its start point changes, and its new node shows the recorded surfaces |
| ScreenServer.AbstractScreenController.GetRSDisplayNodeConfig | dmserver/src/abstract_screen.cpp:570-611 | a mirror group without a usable source takes the default screen |
| ScreenServer.AbstractScreenController.OnAbstractScreenConnect | dmserver/src/abstract_display_controller.cpp:142-166 | the connect callback, by the size and the combination of the group |
| ScreenServer.AbstractScreenController.BindAloneScreenLocked | dmserver/src/abstract_display_controller.cpp:555-601 | a display is made for the default screen only |
| ScreenServer.AbstractScreenController.AddScreenToExpandLocked | dmserver/src/abstract_display_controller.cpp:608-651 | a display is made at the place of the screen unless it has one; a virtual screen takes the mode of the default |
| ScreenServer.AbstractScreenController.OnAbstractScreenDisconnect | dmserver/src/abstract_display_controller.cpp:168-211 | the disconnect callback, by the combination of the group |
| ScreenServer.AbstractScreenController.ProcessNormalScreenDisconnected | dmserver/src/abstract_display_controller.cpp:213-235 | the first display of the screen goes over to the default screen |
| ScreenServer.AbstractScreenController.ZeroOffsets | dmserver/src/abstract_display_controller.cpp:237-260 | every other display moves to the origin, and the last one of the screen is found |
| ScreenServer.AbstractScreenController.ProcessExpandScreenDisconnected | dmserver/src/abstract_display_controller.cpp:195-210 | the display found is erased from the map |
| ScreenServer.AbstractScreenController.RemoveChildFromGroup | dmserver/src/abstract_screen_controller.cpp:510-525 | the last child takes the group out of both maps |
| ScreenServer.AbstractScreenController.RemoveFromGroupLocked | dmserver/src/abstract_screen_controller.cpp:490-508 | the screen leaves the group it names |
| ScreenServer.AbstractScreenController.ChangeScreenGroup | dmserver/src/abstract_screen_controller.cpp:1149-1178 | the two loops, with the combination changed in between |
| ScreenServer.AbstractScreenController.AddScreenToGroup | dmserver/src/abstract_screen_controller.cpp:1180-1217 | the collected screens are put in one after the other, and the three notification lists are filled |
| ScreenServer.AbstractScreenController.MakeMirror | dmserver/src/abstract_screen_controller.cpp:1074-1106 | the controller's MakeMirror, false where the source returns an error |
| ScreenServer.AbstractScreenController.MakeExpand | dmserver/src/abstract_screen_controller.cpp:1219-1235 | the controller's MakeExpand |
| ScreenServer.AbstractScreenController.StopScreens | dmserver/src/abstract_screen_controller.cpp:1108-1147 | the listed screens leave a group of that combination, except the source of a mirror |
| ScreenServer.AbstractScreenController.RemoveVirtualScreenFromGroup | dmserver/src/abstract_screen_controller.cpp:1237-1262 | the listed virtual screens leave their group |
| ScreenServer.AbstractScreenController.ProcessScreenDisconnected | dmserver/src/abstract_screen_controller.cpp:379-421 | the disconnect step, with the default screen kept and a lost source replaced |
| ScreenServer.AbstractScreenController.CreateVirtualScreen | dmserver/src/abstract_screen_controller.cpp:618-675 | a virtual screen is made, listed for its agent, and in no group |
| ScreenServer.AbstractScreenController.DisownScreen | dmserver/src/abstract_screen_controller.cpp:689-708 | the nested loop finds the first agent that lists the id and drops it there |
| ScreenServer.AbstractScreenController.DestroyVirtualScreen | dmserver/src/abstract_screen_controller.cpp:677-721 | the destroy step, refused for the default |
| ScreenServer.AbstractScreenController.OnRemoteDied | dmserver/src/abstract_screen_controller.cpp:1264-1283 | the loop ends whenever the state machine says it does, with that result |
| ScreenServer.AbstractScreenController.SetVirtualScreenAsDefault | dmserver/src/abstract_screen_controller.cpp:1535-1577 | the screen becomes the default and is disowned before its display is bound |
| ScreenServer.AbstractScreenController.SetRotation | dmserver/src/abstract_screen_controller.cpp:912-945 | the screen and then its display turn |
| ScreenServer.AbstractScreenController.SetOrientation | dmserver/src/abstract_screen_controller.cpp:746-802 | request, rotation, orientation, display and layout, in that order |
| ScreenServer.AbstractScreenController.SortChildren | dmserver/src/abstract_screen_controller.cpp:810-818 | the children sorted by their start points |
| ScreenServer.AbstractScreenController.UpdateScreenGroupLayout | dmserver/src/abstract_screen_controller.cpp:804-845 | the layout loop, with the number of size callbacks |
| ScreenServer.AbstractScreenController.ProcessDisplaySizeChange | dmserver/src/abstract_display_controller.cpp:446-477 | every display of the screen gets the mode and the place of the screen |
| ScreenServer.AbstractScreenController.RegisterAbstractScreenCallback | dmserver/src/abstract_screen_controller.cpp:224-237 | every screen known at registration is connected |
| ScreenServer.AbstractScreenController.GetAllValidScreenIds | dmserver/src/abstract_screen_controller.cpp:89-104 | the known listed screens that are no groups, each once, in order |
| ScreenServer.DisplayManagerService.MakeMirror | dmserver/src/display_manager_service.cpp:538-569 | the filtering before MakeMirror, and the group returned |
| ScreenServer.DisplayManagerService.MakeExpand | dmserver/src/display_manager_service.cpp:712-773 | the points map, the filtering and the points list before MakeExpand, and the group returned |
| ScreenServer.DisplayManagerService.Stop | dmserver/src/display_manager_service.cpp:571-592 | StopMirror and StopExpand |
| ScreenServer.DisplayManagerService.Perform | dmserver/src/display_manager_service.cpp:538-795 | every operation takes the objects from one reachable value to the next, as the state machine does |
| ServerRuns.PerformAll | dmserver/src/display_manager_service.cpp:538-795 | performing any sequence of operations takes the objects to the state of the run, as long as no agent dies while its loop would not end |
| ServerRuns.Serve | dmserver/src/abstract_screen_controller.cpp:455-579 | after any such sequence on a new server there is at most one group, its children are the objects of the screen map that name it, and a screen with a display node is one of them |
| DisplayCompression.ProcessDisplayCompression | dmserver/src/abstract_display_controller.cpp:310-361 | the compression step in 32-bit arithmetic |
| DisplayCompression.ProcessDisplayRotationChange | dmserver/src/abstract_display_controller.cpp:287-308 | a rotation event turns the display and then compresses it |
| DisplayCompression.AppliesExact | dmserver/src/abstract_display_controller.cpp:310-330 | compression applies exactly if it is on, has a size, and the strip is less than a quarter of each side |
| DisplayCompression.NoUnderflow | dmserver/src/abstract_display_controller.cpp:331-345 | the subtractions neither wrap nor underflow, because a strip is less than a quarter of each side |
| DisplayCompression.TurnsWanted | dmserver/src/abstract_display_controller.cpp:287-361 | over any sequence of rotations the rectangle is that of the last rotation: the whole rotated panel, less the two strips when held horizontally, inside the panel with more than half its height left |
| DisplayCompression.SameEndSameDisplay | dmserver/src/abstract_display_controller.cpp:287-361 | two histories that end in the same rotation leave the same display |
| DisplayCutout.CheckBoundingRectsBoundary | dmserver/src/display_cutout_controller.cpp:92-115 | the erasing loop computes the survivors |
| DisplayCutout.SurvivorsCount | dmserver/src/display_cutout_controller.cpp:92-115 | an accepted rectangle survives as often as it was there, a rejected one not at all |
| DisplayCutout.SurvivorsAppend | dmserver/src/display_cutout_controller.cpp:92-115 | the order is kept |
| DisplayCutout.KeepsExact | dmserver/src/display_cutout_controller.cpp:103-108 | what is kept lies in the panel if and only if its far edges are 32-bit numbers |
| DisplayCutout.TurnExact | dmserver/src/display_cutout_controller.cpp:272-303 | inside the panel no formula underflows; the turned rectangle lies in the turned panel and covers exactly the turned pixels |
| DisplayCutout.DisplayCutoutController.TransferBoundingRectsByRotation | dmserver/src/display_cutout_controller.cpp:233-285 | the rectangles reported for each rotation, with and without display info and modes |
| DisplayCutout.TransferredBare | dmserver/src/display_cutout_controller.cpp:233-270 | without display info nothing is reported, without modes the unchecked list for rotation 0 alone |
| DisplayCutout.TransferredExact | dmserver/src/display_cutout_controller.cpp:287-303 | the report is the turned cutouts if and only if the rotation is 0 or 270 or there are none |
| DisplayCutout.TransferredInside | dmserver/src/display_cutout_controller.cpp:233-285 | every reported cutout lies in the turned panel and covers exactly the turned pixels of its original |
| DisplayCutout.DisplayCutoutController.SetCurvedScreenBoundary | dmserver/src/display_cutout_controller.cpp:47-54 | the boundary is padded with zeros to four numbers |
| DisplayCutout.DisplayCutoutController.AddBoundingRect | dmserver/src/display_cutout_controller.cpp:56-74 | the rectangle is appended to those of its display |
| DisplayCutout.DisplayCutoutController.CalcBuiltInDisplayWaterfallRects | dmserver/src/display_cutout_controller.cpp:145-231 | for a plausible boundary and any rotation the rectangle at each side covers exactly the curved pixels that are at that side now, but for the top one at 180, exactly when it is neither empty nor square; an implausible boundary, no boundary, no modes or another display give no rectangle |
| DisplayCutout.CurvesShown | dmserver/src/display_cutout_controller.cpp:188-231 | the same of the rectangles computed, with left, top, right and bottom read from the boundary in that order |
| DisplayCutout.ImplausibleEmpty | dmserver/src/display_cutout_controller.cpp:158-183 | a boundary with a negative entry, or one of more than half a side, gives no rectangle |
| DisplayCutout.UprightEdges | dmserver/src/display_cutout_controller.cpp:196-203 | the upright edges lie in the panel and opposite ones do not overlap |
| DisplayCutout.WaterfallTurns | dmserver/src/display_cutout_controller.cpp:188-231 | for 90 and 270 the edges are exactly the turned upright ones; for 180 exactly when the transposed top edge is empty or square to the panel |
| DisplayCutout.WaterfallInside | dmserver/src/display_cutout_controller.cpp:188-231 | the edges lie in the turned panel and opposite ones do not overlap, except the transposed one, which fits, and is clear of the opposite one, exactly when the panel is high enough |
| Coordinates.GuardsExact | dm/src/display_manager.cpp:53-67 | each guard holds exactly when the 32-bit operation would overflow, and does not overflow itself |
| Coordinates.TargetExact | dm/src/display_manager.cpp:42-51 | the hit test is exact for every point if and only if the far edges fit in 32 bits or the display is empty |
| Coordinates.ConversionsExact | dm/src/display_manager.cpp:2641-2754 | each conversion succeeds exactly for a main or extend display and a result in 32 bits, which is the position moved by that of the display; an unknown display counts as display 0 at the origin |
| Coordinates.RelativeRoundTrip | dm/src/display_manager.cpp:2641-2672 | relative to global and back is the identity whenever the first succeeds |
| Coordinates.GlobalRoundTrip | dm/src/display_manager.cpp:2721-2754 | global to relative and back is the identity for a known display whenever the first succeeds |
| Coordinates.ConvertGlobalCoordinateToRelative | dm/src/display_manager.cpp:2680-2713 | the loop returns the first hit in the order of the ids |
| Coordinates.SearchFinds | dm/src/display_manager.cpp:2680-2713 | for a point on some main or extend display the result is a containing display with coordinates inside it that convert back to the point; otherwise display 0 and the point |
| Coordinates.SearchFirst | dm/src/display_manager.cpp:2680-2713 | the answer is the first listed display that contains the point |
| Coordinates.SearchOrderFree | dm/src/display_manager.cpp:2680-2713 | with disjoint displays the answer does not depend on the order of the ids |
| DisplayCache.DisplayManagerImpl.UpdateDisplayInfoLocked | dm/src/display_manager.cpp:2184-2210 | a cached object is updated in place, a new one made otherwise, no two ids share one |
| DisplayCache.DisplayManagerImpl.GetDisplayById | dm/src/display_manager.cpp:688-724 | hit, failed fetch and stored fetch, for any answer of the server |
| DisplayCache.DisplayManagerImpl.NotifyDisplayDestroy | dm/src/display_manager.cpp:2171-2176 | the entry goes, the recorded time stays |
| DisplayCache.DisplayManagerImpl.NotifyDisplayCreateOrChange | dm/src/display_manager.cpp:2165-2182 | the flag is set |
| DisplayCache.DisplayManagerImpl.StoreFetched | dm/src/display_manager.cpp:628-641 | the other getters store what they fetch without touching times or the flag |
| DisplayCache.AskedIsAnswered | dm/src/display_manager.cpp:707-724 | a request that is no hit returns what the server answers about the display asked for, which is cached then; null without an answer or for one without a display; and the entry there was for an answer about another display |
| DisplayCache.ReturnsWithOldTime | dm/src/display_manager.cpp:2171-2176 | a display that was destroyed and fetched again by another getter hits until the interval after the last request before that is over |
| DisplayCache.RefusedForgets | dm/src/display_manager.cpp:715-720 | an answer without a display takes entry and time away, and nothing else |
| DisplayCache.SecondRequest | dm/src/display_manager.cpp:688-706 | after an answered request, whatever comes in between that leaves it alone, a second one is a hit if and only if the interval is not over, and returns the same information without asking |
| DisplayCache.HitIsYoung | dm/src/display_manager.cpp:688-706 | on every run with a monotone clock a hit returns information of the id asked for, fetched less than the interval ago |
| DisplayCache.NoHitUntilRefreshed | dm/src/display_manager.cpp:2165-2182 | after a notification nothing hits until some GetDisplayById is answered, and the first answer ends this |
| DisplayCache.NoHitUntilStored | dm/src/display_manager.cpp:2171-2176 | a destroyed display is not hit until a fetch puts its entry back |
| DisplayCache.FreshIffStored | dm/src/display_manager.cpp:715-723 | what is cached is from after a notification if and only if some fetch since then stored that id |
| DisplayCache.StaleHit | dm/src/display_manager.cpp:721-721 | a run in which a changed display is answered with the information from before the change |
| ConfigSplit.Split | dmserver/src/display_manager_config.cpp:38-53 | the loop computes the text before each occurrence, from the left |
| ConfigSplit.AdvancesIffNonEmpty | dmserver/src/display_manager_config.cpp:43-50 | the loop makes progress if and only if the pattern is non-empty |
| ConfigSplit.JoinRecovers | dmserver/src/display_manager_config.cpp:38-53 | joining the pieces gives back every text if and only if no proper prefix of the pattern is a suffix of it |
| ConfigSplit.PiecesClean | dmserver/src/display_manager_config.cpp:38-53 | no piece contains the pattern |
| ConfigSplit.SplitJoin | dmserver/src/display_manager_config.cpp:38-53 | with a one-character separator, splitting undoes joining |
| ConfigSplit.IsNumber | dmserver/src/display_manager_config.cpp:55-63 | true exactly for strings of digits, the empty one included |
| ConfigSplit.DisplayManagerConfig.ReadIntNumbersConfigInfo | dmserver/src/display_manager_config.cpp:136-163 | the entry is stored, skipped or the reader throws, by the pieces |
| ConfigSplit.ReadAllExact | dmserver/src/display_manager_config.cpp:150-158 | stored if and only if every piece is a number that fits; throws if and only if the first bad piece is empty or too large |
| ConfigSplit.EmptyPieceNeverStored | dmserver/src/display_manager_config.cpp:150-158 | an empty piece never lets the list be stored |
| ConfigSplit.DecimalRoundTrip | dmserver/src/display_manager_config.cpp:136-163 | a list written in decimal and joined with spaces is read back as it was, if and only if every number fits an int |

## Left out

- The 64-bit id counter is unbounded here, so that it does not wrap; SCREEN_ID_INVALID is -1.
- Offsets, start points and widths in the server are unbounded integers; 32-bit arithmetic is written out in the
  compression, the cutouts and the client's conversions.
- Mutexes, posted tasks and concurrency between public operations: each operation is one step.
- Notifications to listeners: only the three lists of AddScreenToGroup and the size callbacks of the layout are
  kept. Several lookups of the default screen in a row, which the notifications make, are one lookup. That is
  exact unless the default rs id has no modes; then each lookup hands out an id and takes it back, so the id
  counter of the source is higher (`LookupTwice`).
- Permissions, IPC, parcels, logging, animations, backlight, pixel maps, screenshots and power state.
- The render service: its answers during one operation are `Env`, and do not change within the operation.
- dummyDisplay_ is never set in the source and is not modelled.
- Changes of the active mode, SetFreeze, colour modes and the window-driven half of SetOrientation.
- Waterfall compression is switched off in the state machine of the server; module DisplayCompression has it for
  the default display alone, with the strip in pixels as a given number instead of a floating-point product.
- Densities, EDID data, refresh rates, names and physical sizes of screens.
- The bodies of the sensor and rotation controllers; only which rotations hold the panel horizontally is used.
- The vector of bounding rectangles and the lists of the service are values in the model, not references.
- Parsing of paths and XML: the bounding rectangle and the text are given.
- The client's Display objects refresh themselves on each getter call; that is not modelled.
- ScreenServer.AbstractScreenController.OnRemoteDied: asks that the loop ends; in the state machine an agent's
  death whose loop never ends leaves the state as it was.
- ScreenServer.AbstractScreenController.RegisterAbstractScreenCallback: visits the screens known at first, while
  the source iterates over the map that the callbacks may extend; LateScreensIdle shows that this is the same.
- ScreenServer.AbstractScreenController.SortChildren: sorts by insertion in the order of the ids, while std::sort
  leaves open how it orders children that start at the same place.
- ScreenServer.AbstractScreenController.ChangeScreenGroup: keeps for each listed screen whether it left a group,
  while the source keys this by id; the callers list no screen twice.
- ScreenServer.AbstractScreenController.ChangeScreenGroup: gives a group that was dissolved on the way no screens,
  while the source goes on with the detached object; GroupChanges shows that the service never gets there.
- ScreenServer.AbstractScreenController.ProcessNormalScreenDisconnected: leaves the display alone when the default
  screen has no group, where the source dereferences a null pointer; `HandoverExact` says when, and `Strands` that
  this is reached.
- ExpandTiling.RunTiled: asks that a screen that connects can have a display node, because one without is never
  given its start point (NodelessTiles), and leaves out disconnecting, which never tiles again.
- ExpandDisplays.RunDispOk: leaves out MakeMirror, SetVirtualScreenAsDefault and a second registration, after which
  it does not hold.
- ExpandCoverage.StepCovered: speaks of the real children with a mode; a virtual child takes the mode of the default
  screen, and so gets no display while there is none.

/** The agents of the workflow and the state they share: the director that
    seeds the task queue, the world builder and the event engineer that claim
    a task, call the record store and commit the result, the three agents
    that only initialise their own state, and the bounded step loop that
    drives them.

    Each agent step is specified by a function on the value of the whole
    state (`ImplementationState`); the class `GameImplementationState` holds
    the same fields and its methods update them in place, each proved to
    produce what the specifying function says. */
module Agents {

  import opened Wrappers
  import opened Text
  import opened Schemas
  import opened Tools
  import opened Routing

  const DirectorId := "director"
  const WorldBuilderId := "world_builder"
  const EventEngineerId := "event_engineer"
  const CombatSystemId := "combat_system"
  const AssetManagerId := "asset_manager"
  const TesterId := "tester"

  /** The value of the workflow state. Progress is counted in steps of 0.1. */
  datatype ImplementationState = ImplementationState(
    gameData: GameData,
    director: DirectorState,
    worldBuilder: Option<WorldBuilderState>,
    eventEngineer: Option<EventEngineerState>,
    combatSystem: Option<AgentState>,
    assetManager: Option<AgentState>,
    tester: Option<AgentState>,
    currentStage: string,
    progressTenths: int,
    log: seq<LogEntry>)

  /** What came of the one record-store call a worker step may make:
      no call (no tools, no task, or a task the worker does not implement),
      or the call's value or exception. */
  datatype ToolCall = NotCalled | Called(result: Result<int>)

  /** Whether the node `role` calls the record store on state `s`: the
      world builder when it claims a `map_creation` task, the event engineer
      when the task it claims is a `cutscene_creation` task, and neither
      when its tools were never set. */
  predicate CallsStore(s: ImplementationState, role: Role, hasTools: bool)
  {
    && hasTools
    && match role
       case WorldBuilder => FirstIndex(s.director.taskQueue, IsMapClaim).Some?
       case EventEngineer =>
         var found := FirstEventClaim(s.director.taskQueue, s.director.agent.completedTasks);
         found.Some? && s.director.taskQueue[found.value].kind == "cutscene_creation"
       case _ => false
  }

  /** `create_map` on the location the world builder resolved: `r` is its
      outcome on the tables `infos`/`files`, which it leaves as
      `infos'`/`files'`. */
  ghost predicate MapStored(infos: MapInfoTable, files: map<string, MapData>, location: GameLocation,
                            r: Result<int>, infos': MapInfoTable, files': map<string, MapData>)
  {
    && (r.Err? <==> infos.InfoNotObject?)
    && (r.Err? ==> r.error.AttributeError? && infos' == infos && files' == files)
    && (r.Ok? ==>
          && infos.InfoObject?
          && IsNextId(InfoIds(infos.entries), r.value)
          && infos' == InfoObject(infos.entries[IntToString(r.value) := Some(NewMapInfo(r.value, location.name))])
          && files' == files[MapFileName(r.value) := NewMapData(location.width, location.height, location.tilesetId)])
  }

  /** The demo's two answers to the intro cutscene's question. */
  const IntroChoices := ["Yes, I'm ready!", "Tell me more first."]

  /** The intro cutscene's commands: a message with the Actor1 face, two
      more lines, and the two-way choice with its two branches. */
  function IntroCutsceneCommands(): seq<EventCommand>
  {
    [MessageCommand("Welcome to our game!", "Actor1", 0),
     TextCommand("This is the beginning of an epic adventure."),
     TextCommand("Are you ready to begin?"),
     EventCommand(102, [PStrs(IntroChoices), PInt(0)], 0),
     EventCommand(402, [PInt(0), PInt(0)], 0), EndCommand(),
     EventCommand(402, [PInt(0), PInt(1)], 0), EndCommand()]
  }

  /** As RPG Maker MZ shows it, the intro cutscene's message names
      "Welcome to our game!" as its speaker and shows only the two lines
      after it. */
  lemma IntroCutsceneMessageAsWritten()
    ensures MzReadMessage(IntroCutsceneCommands())
              == Some(MzMessage("Actor1", 0, "Welcome to our game!",
                                ["This is the beginning of an epic adventure.", "Are you ready to begin?"]))
  {
    var cs := IntroCutsceneCommands();
    assert cs[1..][1..][1..][0].code == 102;
    assert MzLines(cs[1..][1..][1..]) == [];
    assert MzLines(cs[1..][1..]) == ["Are you ready to begin?"];
    assert MzLines(cs[1..]) == ["This is the beginning of an epic adventure.", "Are you ready to begin?"];
  }

  /** The intro cutscene as event `id`: one autorun page (trigger 3) at (5, 5). */
  function IntroCutsceneEvent(id: int): MapEvent
  {
    MapEvent(id, "Intro Cutscene", "", [NewEventPage(3, IntroCutsceneCommands())], 5, 5)
  }

  /** `create_event` of the intro cutscene on map `mapId`: `r` is its outcome
      on the map files `files`, which it leaves as `files'`. A missing map
      id raises while the call's arguments are formatted. */
  ghost predicate CutsceneStored(files: map<string, MapData>, mapId: Option<int>, r: Result<int>,
                                 files': map<string, MapData>)
  {
    if mapId.None? then r.Err? && r.error.TypeError? && files' == files
    else
      var file := MapFileName(mapId.value);
      && (r.Ok? <==> file in files && EventKeysParse(files[file].events))
      && (r.Err? ==> files' == files)
      && (r.Ok? ==>
            && file in files
            && IsNextId(EventKeyIds(files[file].events), r.value)
            && IntToString(r.value) !in files[file].events
            && files' == files[file := files[file].(events := files[file].events[IntToString(r.value) := IntroCutsceneEvent(r.value)])])
  }

  /** `initialize_game_state`. */
  function InitialState(title: string, description: string): ImplementationState
  {
    ImplementationState(
      NewGameData(NewMetadata(title, "RPG Maker Agents", description)),
      DirectorState(NewAgentState(DirectorId, DirectorId), []),
      None, None, None, None, None,
      "planning", 0, [])
  }

  /** The node the router sends the state to: the director while
      planning, the tester only when testing, and a worker only for a
      pending task whose decision it is. */
  function NextRole(s: ImplementationState): (r: Role)
    ensures s.currentStage == "planning" ==> r == Director
    ensures r == Tester ==> s.currentStage == "testing"
    ensures r != Director && r != Tester ==>
              exists i :: 0 <= i < |s.director.taskQueue| && s.director.taskQueue[i].status == Pending &&
                          Decision(s.director.taskQueue[i], s.director.agent.completedTasks) == Some(r)
  {
    Route(s.currentStage, s.director.taskQueue, s.director.agent.completedTasks)
  }

  /** What no agent step ever undoes: the log and the game's metadata stay
      as they were, completed task ids are only appended, and progress grows
      by exactly one step per id appended. */
  predicate KeepsHistory(s: ImplementationState, r: ImplementationState)
  {
    && r.log == s.log
    && r.gameData.metadata == s.gameData.metadata
    && s.director.agent.completedTasks <= r.director.agent.completedTasks
    && r.progressTenths - s.progressTenths == |r.director.agent.completedTasks| - |s.director.agent.completedTasks|
  }

  lemma KeepsHistoryTransitive(a: ImplementationState, b: ImplementationState, c: ImplementationState)
    requires KeepsHistory(a, b) && KeepsHistory(b, c)
    ensures KeepsHistory(a, c)
  {
  }

  // ---------------------------------------------------------------------
  // The director
  // ---------------------------------------------------------------------

  const StartingTownTask: Task :=
    NewTask("create_starting_town", "map_creation", "Create the starting town map based on game design")

  const IntroCutsceneTask: Task :=
    NewTask("create_intro_cutscene", "cutscene_creation", "Create the intro cutscene for the game")
      .(priority := 2, dependencies := ["create_starting_town"])

  /** `DirectorAgent.process`: in the planning stage the queue is replaced
      by the two demo tasks and the stage moves on; in any other stage
      nothing changes. */
  function DirectorAfter(s: ImplementationState): (r: ImplementationState)
    ensures KeepsHistory(s, r)
    ensures s.currentStage == "planning" ==>
              r == s.(director := s.director.(taskQueue := [StartingTownTask, IntroCutsceneTask]),
                      currentStage := "implementation")
    ensures s.currentStage != "planning" ==> r == s
  {
    if s.currentStage == "planning" then
      s.(director := s.director.(taskQueue := [StartingTownTask, IntroCutsceneTask]),
         currentStage := "implementation")
    else s
  }

  /** After planning, the router sends the state to the world builder for
      the starting town, and the cutscene is not the event engineer's
      until the town is among the completed tasks. */
  lemma DirectorPlanThenRoute(s: ImplementationState)
    requires s.currentStage == "planning"
    ensures var r := DirectorAfter(s);
            && r.director.taskQueue[0].kind == "map_creation" && r.director.taskQueue[0].dependencies == []
            && r.director.taskQueue[1].kind == "cutscene_creation" && r.director.taskQueue[1].priority == 2
            && NextRole(r) == WorldBuilder
            && (IsEventClaim(r.director.taskQueue[1], r.director.agent.completedTasks)
                <==> "create_starting_town" in r.director.agent.completedTasks)
  {
    var r := DirectorAfter(s);
    assert StartsWith(r.director.taskQueue[0].kind, "map");
    RouteFirstMatch(r.currentStage, r.director.taskQueue, r.director.agent.completedTasks, 0, WorldBuilder);
    assert r.director.taskQueue[1].dependencies[0] == "create_starting_town";
  }

  // ---------------------------------------------------------------------
  // Claiming and committing
  // ---------------------------------------------------------------------

  /** The claimed task: in progress and assigned to the worker. */
  function Claim(t: Task, agentId: string): Task
  {
    t.(status := InProgress, assignedTo := Some(agentId))
  }

  /** The director's side of a commit: the id joins the completed list and
      every task with that id leaves the queue. */
  function CommitToDirector(d: DirectorState, queue: seq<Task>, id: string): DirectorState
  {
    d.(agent := d.agent.(completedTasks := d.agent.completedTasks + [id]), taskQueue := RemoveId(queue, id))
  }

  /** The lazily created state of one of the three agents without work. */
  function AgentOf(a: Option<AgentState>, id: string): AgentState
  {
    if a.Some? then a.value else NewAgentState(id, id)
  }

  // ---------------------------------------------------------------------
  // Locations
  // ---------------------------------------------------------------------

  /** `task.id.replace("create_", "").replace("_", " ")`: no underscore
      is left, and the name is never longer than the id. */
  function LocationName(taskId: string): (name: string)
    ensures |name| <= |taskId|
    ensures forall i :: 0 <= i < |name| ==> name[i] != '_'
  {
    ReplaceChar(RemoveAll(taskId, "create_"), '_', ' ')
  }

  /** The name of a `create_<rest>` task, `rest` not containing
      "create_" again, is `rest` with every underscore a space. */
  lemma LocationNameOfCreateTask(rest: string)
    requires forall i: nat :: !OccursAt(rest, "create_", i)
    ensures var name := LocationName("create_" + rest);
            && |name| == |rest|
            && forall i :: 0 <= i < |rest| ==> name[i] == if rest[i] == '_' then ' ' else rest[i]
  {
    var id := "create_" + rest;
    assert id[..7] == "create_" && id[7..] == rest;
    RemoveAllAbsent(rest, "create_");
    assert RemoveAll(id, "create_") == rest;
  }

  predicate SameNameIgnoringCase(a: string, b: string)
  {
    Lower(a) == Lower(b)
  }

  /** The first location whose name equals `name` ignoring case. */
  function FindLocationIndex(locations: seq<GameLocation>, name: string): Option<nat>
  {
    FirstIndex(locations, (l: GameLocation) => SameNameIgnoringCase(l.name, name))
  }

  /** The first location whose name is exactly `name`. */
  function FindExactName(locations: seq<GameLocation>, name: string): Option<nat>
  {
    FirstIndex(locations, (l: GameLocation) => l.name == name)
  }

  /** The location created when none matches: the name title-cased, and
      every other field at its default (20x15, tileset 1). */
  function DefaultLocation(name: string): (l: GameLocation)
    ensures l.name == Title(name) && SameNameIgnoringCase(l.name, name)
    ensures l.description == "A location called " + l.name
    ensures l.id == None && l.width == 20 && l.height == 15 && l.tilesetId == 1
  {
    TitleFoldsLikeInput(name);
    NewLocation(Title(name), "A location called " + Title(name))
  }

  /** The world builder's location lookup: the matching location if there
      is one, otherwise one default location appended. Either way the
      location chosen matches the name ignoring case. */
  function ResolveLocation(locations: seq<GameLocation>, name: string): (r: (seq<GameLocation>, nat))
    ensures r.1 < |r.0| && SameNameIgnoringCase(r.0[r.1].name, name)
    ensures FindLocationIndex(locations, name).Some? ==>
              r.0 == locations && Some(r.1) == FindLocationIndex(locations, name)
    ensures FindLocationIndex(locations, name).None? ==>
              r.0 == locations + [DefaultLocation(name)] && r.1 == |locations|
  {
    match FindLocationIndex(locations, name)
    case Some(k) => (locations, k)
    case None =>
      TitleFoldsLikeInput(name);
      (locations + [DefaultLocation(name)], |locations|)
  }

  /** `loc.id = map_id` on the first location with exactly the given name. */
  function AssignLocationId(locations: seq<GameLocation>, name: string, mapId: int): seq<GameLocation>
  {
    match FindExactName(locations, name)
    case None => locations
    case Some(j) => locations[j := locations[j].(id := Some(mapId))]
  }

  /** The exact-name scan that records the map id finds the very location
      the case-insensitive lookup chose: an earlier location with the same
      name would have matched first, and a default location is appended
      only when no location matches. */
  lemma ResolvedLocationGetsId(locations: seq<GameLocation>, name: string, mapId: int)
    ensures var r := ResolveLocation(locations, name);
            AssignLocationId(r.0, r.0[r.1].name, mapId) == r.0[r.1 := r.0[r.1].(id := Some(mapId))]
  {
    var r := ResolveLocation(locations, name);
    var locs, k := r.0, r.1;
    forall j | 0 <= j < k ensures locs[j].name != locs[k].name {
      assert locs[j] == locations[j];
      assert !SameNameIgnoringCase(locations[j].name, name);
    }
    assert FindExactName(locs, locs[k].name) == Some(k);
  }

  // ---------------------------------------------------------------------
  // The world builder
  // ---------------------------------------------------------------------

  function WorldBuilderOf(s: ImplementationState): WorldBuilderState
  {
    if s.worldBuilder.Some? then s.worldBuilder.value
    else WorldBuilderState(NewAgentState(WorldBuilderId, WorldBuilderId), [])
  }

  /** `WorldBuilderAgent.process`, given what the `create_map` call gave. */
  function WorldBuilderAfter(s: ImplementationState, call: ToolCall): (r: ImplementationState)
    ensures KeepsHistory(s, r)
    ensures r.currentStage == s.currentStage && r.eventEngineer == s.eventEngineer
    ensures r.combatSystem == s.combatSystem && r.assetManager == s.assetManager && r.tester == s.tester
    ensures r.gameData == s.gameData.(locations := r.gameData.locations)
    ensures r.director.agent == s.director.agent.(completedTasks := r.director.agent.completedTasks)
    ensures r.worldBuilder.Some?
    ensures FirstIndex(s.director.taskQueue, IsMapClaim).None? ==> r == s.(worldBuilder := Some(WorldBuilderOf(s)))
    ensures FirstIndex(s.director.taskQueue, IsMapClaim).Some? ==>
              var q := s.director.taskQueue;
              var i := FirstIndex(q, IsMapClaim).value;
              var wb := WorldBuilderOf(s);
              var claimed := Claim(q[i], WorldBuilderId);
              match call
              case NotCalled =>
                && r.director == s.director.(taskQueue := q[i := claimed])
                && r.worldBuilder.value == wb.(agent := wb.agent.(currentTask := Some(claimed)))
                && r.progressTenths == s.progressTenths
              case Called(Err(_)) =>
                && r.director == s.director.(taskQueue := q[i := claimed.(status := Failed)])
                && r.worldBuilder.value == wb.(agent := wb.agent.(currentTask := Some(claimed.(status := Failed))))
                && r.progressTenths == s.progressTenths
              case Called(Ok(mapId)) =>
                && r.director.agent.completedTasks == s.director.agent.completedTasks + [q[i].id]
                && r.director.taskQueue == RemoveId(q, q[i].id)
                && |r.director.taskQueue| < |q|
                && r.worldBuilder.value == WorldBuilderState(
                     wb.agent.(currentTask := None, completedTasks := wb.agent.completedTasks + [q[i].id]),
                     wb.mapsCreated + [mapId])
                && r.progressTenths == s.progressTenths + 1
  {
    match FirstIndex(s.director.taskQueue, IsMapClaim)
    case None => s.(worldBuilder := Some(WorldBuilderOf(s)))
    case Some(i) =>
      var c := WorldBuilderClaim(s, i);
      RemoveIdAt(s.director.taskQueue, s.director.taskQueue[i].id, i, c.0.director.taskQueue[i]);
      WorldBuilderCommit(c.0, i, c.1, call)
  }

  /** The world builder up to the store call: its state initialised, task
      `i` claimed and made its current task, and the task's location
      resolved, whose index comes second. */
  function WorldBuilderClaim(s: ImplementationState, i: nat): (r: (ImplementationState, nat))
    requires i < |s.director.taskQueue|
    ensures r.1 < |r.0.gameData.locations|
  {
    var wb := WorldBuilderOf(s);
    var q := s.director.taskQueue;
    var claimed := Claim(q[i], WorldBuilderId);
    var resolved := ResolveLocation(s.gameData.locations, LocationName(claimed.id));
    (s.(gameData := s.gameData.(locations := resolved.0),
        director := s.director.(taskQueue := q[i := claimed]),
        worldBuilder := Some(wb.(agent := wb.agent.(currentTask := Some(claimed))))),
     resolved.1)
  }

  /** The location whose name and size the world builder passes to
      `create_map`. */
  function ClaimedLocation(queue: seq<Task>, locations: seq<GameLocation>): GameLocation
    requires FirstIndex(queue, IsMapClaim).Some?
  {
    var resolved := ResolveLocation(locations, LocationName(queue[FirstIndex(queue, IsMapClaim).value].id));
    resolved.0[resolved.1]
  }

  /** What the node `role`, run on state `s`, did to the store's map infos
      and map files (`infos`/`files` before, `infos'`/`files'` after) with
      its one call `call`; no call leaves them as they were. */
  ghost predicate StoreEffect(s: ImplementationState, role: Role, call: ToolCall, infos: MapInfoTable,
                              files: map<string, MapData>, infos': MapInfoTable, files': map<string, MapData>)
  {
    && (call.NotCalled? ==> infos' == infos && files' == files)
    && (call.Called? && role == WorldBuilder && FirstIndex(s.director.taskQueue, IsMapClaim).Some? ==>
          MapStored(infos, files, ClaimedLocation(s.director.taskQueue, s.gameData.locations), call.result, infos', files'))
    && (call.Called? && role == EventEngineer ==>
          infos' == infos && CutsceneStored(files, CutsceneMapId(s.gameData), call.result, files'))
  }

  /** The world builder after the store call, from the claimed state `c`
      with task `i` and location `k`: nothing more without a call, the task
      failed on an exception, and on success the map recorded and the task
      committed. */
  function WorldBuilderCommit(c: ImplementationState, i: nat, k: nat, call: ToolCall): (r: ImplementationState)
    requires i < |c.director.taskQueue| && k < |c.gameData.locations| && c.worldBuilder.Some?
    ensures call.Called? && call.result.Ok? ==>
              && r.director.taskQueue == RemoveId(c.director.taskQueue, c.director.taskQueue[i].id)
              && |r.director.taskQueue| < |c.director.taskQueue|
  {
    var task := c.director.taskQueue[i];
    var wb := c.worldBuilder.value;
    match call
    case NotCalled => c
    case Called(Err(_)) =>
      var failed := task.(status := Failed);
      c.(director := c.director.(taskQueue := c.director.taskQueue[i := failed]),
         worldBuilder := Some(wb.(agent := wb.agent.(currentTask := Some(failed)))))
    case Called(Ok(mapId)) =>
      var done := task.(status := Completed, result := Some(MapCreated(mapId)));
      var locations := c.gameData.locations;
      RemoveIdAt(c.director.taskQueue, task.id, i, done);
      c.(gameData := c.gameData.(locations := AssignLocationId(locations, locations[k].name, mapId)),
         director := CommitToDirector(c.director, c.director.taskQueue[i := done], task.id),
         worldBuilder := Some(WorldBuilderState(
           wb.agent.(currentTask := None, completedTasks := wb.agent.completedTasks + [task.id]),
           wb.mapsCreated + [mapId])),
         progressTenths := c.progressTenths + 1)
  }

  /** The world builder's effect on the locations: a claimed task whose
      name matches no location appends exactly one default location, one
      that matches leaves the list as it was; a successful `create_map`
      then records the map id on the chosen location and nowhere else. */
  lemma WorldBuilderLocations(s: ImplementationState, call: ToolCall)
    requires FirstIndex(s.director.taskQueue, IsMapClaim).Some?
    ensures var q := s.director.taskQueue;
            var i := FirstIndex(q, IsMapClaim).value;
            var name := LocationName(q[i].id);
            var locs := WorldBuilderAfter(s, call).gameData.locations;
            var before := s.gameData.locations;
            var k := if FindLocationIndex(before, name).Some? then FindLocationIndex(before, name).value else |before|;
            && |locs| == |before| + (if FindLocationIndex(before, name).None? then 1 else 0)
            && k < |locs|
            && (forall j :: 0 <= j < |before| && j != k ==> locs[j] == before[j])
            && SameNameIgnoringCase(locs[k].name, name)
            && (call.Called? && call.result.Ok? ==> locs[k].id == Some(call.result.value))
            && (FindLocationIndex(before, name).None? ==> locs[k] == DefaultLocation(name).(id := locs[k].id))
            && var resolved := ResolveLocation(before, name);
               locs == if call.Called? && call.result.Ok?
                       then resolved.0[resolved.1 := resolved.0[resolved.1].(id := Some(call.result.value))]
                       else resolved.0
  {
    var q := s.director.taskQueue;
    var i := FirstIndex(q, IsMapClaim).value;
    var name := LocationName(Claim(q[i], WorldBuilderId).id);
    assert name == LocationName(q[i].id);
    var resolved := ResolveLocation(s.gameData.locations, name);
    if call.Called? && call.result.Ok? {
      ResolvedLocationGetsId(s.gameData.locations, name, call.result.value);
    }
  }

  // ---------------------------------------------------------------------
  // The event engineer
  // ---------------------------------------------------------------------

  function EventEngineerOf(s: ImplementationState): EventEngineerState
  {
    if s.eventEngineer.Some? then s.eventEngineer.value
    else EventEngineerState(NewAgentState(EventEngineerId, EventEngineerId), [])
  }

  /** `locations[0].id if locations else 1`: `None` when the first
      location has no map yet. */
  function CutsceneMapId(gameData: GameData): (mapId: Option<int>)
    ensures gameData.locations == [] ==> mapId == Some(1)
    ensures gameData.locations != [] ==> mapId == gameData.locations[0].id
    ensures mapId.None? <==> gameData.locations != [] && gameData.locations[0].id.None?
  {
    if |gameData.locations| > 0 then gameData.locations[0].id else Some(1)
  }

  /** `EventEngineerAgent.process`, given what the `create_event` call
      gave. A result for a first location without a map id cannot be a
      success: formatting its `None` raises before the store is read. */
  function EventEngineerAfter(s: ImplementationState, call: ToolCall): (r: ImplementationState)
    ensures KeepsHistory(s, r)
    ensures r.currentStage == s.currentStage && r.worldBuilder == s.worldBuilder
    ensures r.gameData == s.gameData
    ensures r.combatSystem == s.combatSystem && r.assetManager == s.assetManager && r.tester == s.tester
    ensures r.eventEngineer.Some?
    ensures FirstEventClaim(s.director.taskQueue, s.director.agent.completedTasks).None? ==>
              r == s.(eventEngineer := Some(EventEngineerOf(s)))
    ensures FirstEventClaim(s.director.taskQueue, s.director.agent.completedTasks).Some? ==>
              var q := s.director.taskQueue;
              var i := FirstEventClaim(q, s.director.agent.completedTasks).value;
              var ee := EventEngineerOf(s);
              var claimed := Claim(q[i], EventEngineerId);
              var mapId := CutsceneMapId(s.gameData);
              if call.NotCalled? then
                && r.director == s.director.(taskQueue := q[i := claimed])
                && r.eventEngineer.value == ee.(agent := ee.agent.(currentTask := Some(claimed)))
                && r.progressTenths == s.progressTenths
              else if call.result.Err? || mapId.None? then
                && r.director == s.director.(taskQueue := q[i := claimed.(status := Failed)])
                && r.eventEngineer.value == ee.(agent := ee.agent.(currentTask := Some(claimed.(status := Failed))))
                && r.progressTenths == s.progressTenths
              else
                && r.director == s.director.(
                     agent := s.director.agent.(completedTasks := s.director.agent.completedTasks + [q[i].id]),
                     taskQueue := RemoveId(q, q[i].id))
                && |r.director.taskQueue| < |q|
                && r.eventEngineer.value == EventEngineerState(
                     ee.agent.(currentTask := None, completedTasks := ee.agent.completedTasks + [q[i].id]),
                     ee.eventsCreated + [CreatedEvent(call.result.value, mapId.value, "Intro Cutscene", "cutscene")])
                && r.progressTenths == s.progressTenths + 1
  {
    var q := s.director.taskQueue;
    match FirstEventClaim(q, s.director.agent.completedTasks)
    case None => s.(eventEngineer := Some(EventEngineerOf(s)))
    case Some(i) =>
      EventEngineerClaimThenCommit(s, i, call);
      EventEngineerCommit(EventEngineerClaim(s, i), i, CutsceneMapId(s.gameData), call)
  }

  /** The claim of task `i` followed by the commit, case by case. */
  lemma EventEngineerClaimThenCommit(s: ImplementationState, i: nat, call: ToolCall)
    requires i < |s.director.taskQueue|
    ensures var r := EventEngineerCommit(EventEngineerClaim(s, i), i, CutsceneMapId(s.gameData), call);
            var q := s.director.taskQueue;
            var ee := EventEngineerOf(s);
            var claimed := Claim(q[i], EventEngineerId);
            var mapId := CutsceneMapId(s.gameData);
            && r.currentStage == s.currentStage && r.worldBuilder == s.worldBuilder && r.gameData == s.gameData
            && r.combatSystem == s.combatSystem && r.assetManager == s.assetManager && r.tester == s.tester
            && r.log == s.log
            && if call.NotCalled? then
                 && r.director == s.director.(taskQueue := q[i := claimed])
                 && r.eventEngineer.value == ee.(agent := ee.agent.(currentTask := Some(claimed)))
                 && r.progressTenths == s.progressTenths
               else if call.result.Err? || mapId.None? then
                 && r.director == s.director.(taskQueue := q[i := claimed.(status := Failed)])
                 && r.eventEngineer.value == ee.(agent := ee.agent.(currentTask := Some(claimed.(status := Failed))))
                 && r.progressTenths == s.progressTenths
               else
                 && r.director == s.director.(
                      agent := s.director.agent.(completedTasks := s.director.agent.completedTasks + [q[i].id]),
                      taskQueue := RemoveId(q, q[i].id))
                 && |r.director.taskQueue| < |q|
                 && r.eventEngineer.value == EventEngineerState(
                      ee.agent.(currentTask := None, completedTasks := ee.agent.completedTasks + [q[i].id]),
                      ee.eventsCreated + [CreatedEvent(call.result.value, mapId.value, "Intro Cutscene", "cutscene")])
                 && r.progressTenths == s.progressTenths + 1
  {
    var c := EventEngineerClaim(s, i);
    RemoveIdAt(s.director.taskQueue, s.director.taskQueue[i].id, i, c.director.taskQueue[i]);
  }

  /** The event engineer up to the store call: its state initialised and
      task `i` claimed and made its current task. */
  function EventEngineerClaim(s: ImplementationState, i: nat): ImplementationState
    requires i < |s.director.taskQueue|
  {
    var ee := EventEngineerOf(s);
    var q := s.director.taskQueue;
    var claimed := Claim(q[i], EventEngineerId);
    s.(director := s.director.(taskQueue := q[i := claimed]),
       eventEngineer := Some(ee.(agent := ee.agent.(currentTask := Some(claimed)))))
  }

  /** The event engineer after the store call, from the claimed state `c`
      with task `i`, the cutscene placed on map `mapId`. */
  function EventEngineerCommit(c: ImplementationState, i: nat, mapId: Option<int>, call: ToolCall): (r: ImplementationState)
    requires i < |c.director.taskQueue| && c.eventEngineer.Some?
    ensures call.Called? && call.result.Ok? && mapId.Some? ==>
              && r.director.taskQueue == RemoveId(c.director.taskQueue, c.director.taskQueue[i].id)
              && |r.director.taskQueue| < |c.director.taskQueue|
  {
    var task := c.director.taskQueue[i];
    var ee := c.eventEngineer.value;
    if call.NotCalled? then c
    else if call.result.Err? || mapId.None? then
      var failed := task.(status := Failed);
      c.(director := c.director.(taskQueue := c.director.taskQueue[i := failed]),
         eventEngineer := Some(ee.(agent := ee.agent.(currentTask := Some(failed)))))
    else
      var eventId := call.result.value;
      var done := task.(status := Completed, result := Some(EventCreated(eventId, mapId.value)));
      RemoveIdAt(c.director.taskQueue, task.id, i, done);
      c.(director := CommitToDirector(c.director, c.director.taskQueue[i := done], task.id),
         eventEngineer := Some(EventEngineerState(
           ee.agent.(currentTask := None, completedTasks := ee.agent.completedTasks + [task.id]),
           ee.eventsCreated + [CreatedEvent(eventId, mapId.value, "Intro Cutscene", "cutscene")])),
         progressTenths := c.progressTenths + 1)
  }

  // ---------------------------------------------------------------------
  // One step of the workflow
  // ---------------------------------------------------------------------

  /** The node `role` applied to the state. */
  function DispatchAfter(s: ImplementationState, role: Role, call: ToolCall): (r: ImplementationState)
    ensures KeepsHistory(s, r)
  {
    match role
    case Director => DirectorAfter(s)
    case WorldBuilder => WorldBuilderAfter(s, call)
    case EventEngineer => EventEngineerAfter(s, call)
    case CombatSystem => s.(combatSystem := Some(AgentOf(s.combatSystem, CombatSystemId)))
    case AssetManager => s.(assetManager := Some(AgentOf(s.assetManager, AssetManagerId)))
    case Tester => s.(tester := Some(AgentOf(s.tester, TesterId)))
  }

  /** One step of the star-shaped workflow: the director node, then the
      node the router chooses. */
  function StepAfter(s: ImplementationState, call: ToolCall): (r: ImplementationState)
    ensures KeepsHistory(s, r)
  {
    var d := DirectorAfter(s);
    DispatchAfter(d, NextRole(d), call)
  }

  /** A step in which no store call is made completes no task: the
      director only plans, a worker only claims, and the idle agents only
      initialise themselves. */
  lemma StepWithoutCallCompletesNothing(s: ImplementationState)
    ensures var r := StepAfter(s, NotCalled);
            r.director.agent.completedTasks == s.director.agent.completedTasks &&
            r.progressTenths == s.progressTenths
  {
    var d := DirectorAfter(s);
    match NextRole(d)
    case WorldBuilder =>
      assert WorldBuilderAfter(d, NotCalled).director.agent.completedTasks == d.director.agent.completedTasks;
    case EventEngineer =>
      assert EventEngineerAfter(d, NotCalled).director.agent.completedTasks == d.director.agent.completedTasks;
    case _ =>
  }

  /** The state after one workflow step per call, in order. A run in which
      no store call is made, as with no tools, completes no task and makes
      no progress. */
  function StepsAfter(s: ImplementationState, calls: seq<ToolCall>): (r: ImplementationState)
    ensures (forall j :: 0 <= j < |calls| ==> calls[j] == NotCalled) ==>
              r.director.agent.completedTasks == s.director.agent.completedTasks &&
              r.progressTenths == s.progressTenths
    decreases |calls|
  {
    if calls == [] then s
    else
      StepWithoutCallCompletesNothing(s);
      StepsAfter(StepAfter(s, calls[0]), calls[1..])
  }

  /** One more step after a run is a run with one more call. */
  lemma {:induction false} StepsAfterSnoc(s: ImplementationState, calls: seq<ToolCall>, call: ToolCall)
    ensures StepsAfter(s, calls + [call]) == StepAfter(StepsAfter(s, calls), call)
    decreases |calls|
  {
    if calls == [] {
      assert [] + [call] == [call];
      assert [call][1..] == [];
    } else {
      assert (calls + [call])[1..] == calls[1..] + [call];
      StepsAfterSnoc(StepAfter(s, calls[0]), calls[1..], call);
    }
  }

  /** No run over a non-empty prefix of `calls`, up to the first `n`,
      leaves the queue empty. */
  ghost predicate QueueNonEmptyThrough(s: ImplementationState, calls: seq<ToolCall>, n: nat)
    requires n <= |calls|
  {
    forall j :: 0 < j <= n ==> StepsAfter(s, calls[..j]).director.taskQueue != []
  }

  /** A run that goes on after a step keeps the earlier prefixes. */
  lemma QueueNonEmptyExtends(s: ImplementationState, calls: seq<ToolCall>, call: ToolCall)
    requires QueueNonEmptyThrough(s, calls, |calls|)
    ensures QueueNonEmptyThrough(s, calls + [call], |calls|)
    ensures StepsAfter(s, calls + [call]).director.taskQueue != [] ==>
              QueueNonEmptyThrough(s, calls + [call], |calls| + 1)
  {
    assert forall j :: 0 < j <= |calls| ==> (calls + [call])[..j] == calls[..j];
    assert (calls + [call])[..|calls| + 1] == calls + [call];
  }

  /** Any number of steps keeps the history. */
  lemma {:induction false} StepsAfterKeepsHistory(s: ImplementationState, calls: seq<ToolCall>)
    ensures KeepsHistory(s, StepsAfter(s, calls))
    decreases |calls|
  {
    if calls != [] {
      var t := StepAfter(s, calls[0]);
      StepsAfterKeepsHistory(t, calls[1..]);
      KeepsHistoryTransitive(s, t, StepsAfter(t, calls[1..]));
    }
  }

  /** Progress always equals one step per completed task id: true of the
      initial state and kept by every step. */
  lemma ProgressCountsCompletedTasks(title: string, description: string, s: ImplementationState, call: ToolCall)
    ensures var s0 := InitialState(title, description);
            s0.progressTenths == |s0.director.agent.completedTasks|
    ensures s.progressTenths == |s.director.agent.completedTasks| ==>
              var r := StepAfter(s, call);
              r.progressTenths == |r.director.agent.completedTasks|
  {
    var r := StepAfter(s, call);
    assert KeepsHistory(s, r);
  }

  /** A pending task whose type starts with "map" but is not
      "map_creation" brings the workflow to a standstill: the router keeps
      choosing the world builder and the world builder finds nothing to
      claim, so the queue never changes again. */
  lemma WorldBuilderStallPersists(s: ImplementationState, call: ToolCall)
    requires s.currentStage != "planning"
    requires NextRole(s) == WorldBuilder
    requires FirstIndex(s.director.taskQueue, IsMapClaim).None?
    ensures StepAfter(s, call).director == s.director
    ensures NextRole(StepAfter(s, call)) == WorldBuilder
    ensures StepAfter(s, call).progressTenths == s.progressTenths
  {
  }

  /** A routed task the combat system, asset manager or tester never
      works on keeps being routed: those agents only initialise their own
      state, so the queue does not change and the loop spends its steps. */
  lemma IdleAgentStallPersists(s: ImplementationState, call: ToolCall)
    requires s.currentStage != "planning"
    requires NextRole(s) == CombatSystem || NextRole(s) == AssetManager || NextRole(s) == Tester
    ensures StepAfter(s, call).director == s.director
    ensures NextRole(StepAfter(s, call)) == NextRole(s)
    ensures StepAfter(s, call).progressTenths == s.progressTenths
  {
  }

  /** Only the event engineer checks dependencies: a pending
      `map_creation` task whose dependency was never completed is routed
      to the world builder and claimed. */
  lemma WorldBuilderClaimsDespiteDependencies(title: string, description: string)
    ensures var t := NewTask("create_town", "map_creation", "").(dependencies := ["create_world"]);
            var s := InitialState(title, description).(
                       currentStage := "implementation",
                       director := DirectorState(NewAgentState(DirectorId, DirectorId), [t]));
            && !DependenciesMet(t.dependencies, s.director.agent.completedTasks)
            && NextRole(s) == WorldBuilder
            && WorldBuilderAfter(s, NotCalled).director.taskQueue[0].status == InProgress
  {
    var t := NewTask("create_town", "map_creation", "").(dependencies := ["create_world"]);
    var s := InitialState(title, description).(
               currentStage := "implementation",
               director := DirectorState(NewAgentState(DirectorId, DirectorId), [t]));
    assert StartsWith(t.kind, "map");
    RouteFirstMatch(s.currentStage, s.director.taskQueue, s.director.agent.completedTasks, 0, WorldBuilder);
    assert FirstIndex(s.director.taskQueue, IsMapClaim) == Some(0);
    assert t.dependencies[0] !in s.director.agent.completedTasks;
    assert WorldBuilderAfter(s, NotCalled).director.taskQueue[0] == Claim(t, WorldBuilderId);
  }

  /** The first step of the demo run, its `create_map` call succeeding:
      the director plans, the router picks the world builder, which appends
      the starting town's default location, records the new map on it and
      completes the town, leaving the cutscene alone in the queue. */
  lemma DemoFirstStep(title: string, description: string, mapId: int)
    ensures var s1 := StepAfter(InitialState(title, description), Called(Ok(mapId)));
            && s1.currentStage == "implementation"
            && s1.director.taskQueue == [IntroCutsceneTask]
            && s1.director.agent.completedTasks == ["create_starting_town"]
            && s1.progressTenths == 1
            && s1.gameData.locations == [DefaultLocation(LocationName("create_starting_town")).(id := Some(mapId))]
            && s1.worldBuilder.value.mapsCreated == [mapId]
  {
    var s0 := InitialState(title, description);
    var d0 := DirectorAfter(s0);
    DirectorPlanThenRoute(s0);
    assert StepAfter(s0, Called(Ok(mapId))) == WorldBuilderAfter(d0, Called(Ok(mapId)));
    StartingTownBuilt(d0, mapId);
  }

  /** The world builder's turn on the planned queue, from a state in which
      nothing is built yet. */
  lemma StartingTownBuilt(d: ImplementationState, mapId: int)
    requires d.director.taskQueue == [StartingTownTask, IntroCutsceneTask]
    requires d.director.agent.completedTasks == [] && d.progressTenths == 0
    requires d.gameData.locations == [] && d.worldBuilder.None?
    ensures var s1 := WorldBuilderAfter(d, Called(Ok(mapId)));
            && s1.currentStage == d.currentStage
            && s1.director.taskQueue == [IntroCutsceneTask]
            && s1.director.agent.completedTasks == ["create_starting_town"]
            && s1.progressTenths == 1
            && s1.gameData.locations == [DefaultLocation(LocationName("create_starting_town")).(id := Some(mapId))]
            && s1.worldBuilder.value.mapsCreated == [mapId]
  {
    StartingTownCompleted(d, mapId);
    StartingTownLocated(d, mapId);
  }

  /** The world builder's turn on the planned queue completes the town and
      leaves the cutscene alone in the queue. */
  lemma StartingTownCompleted(d: ImplementationState, mapId: int)
    requires d.director.taskQueue == [StartingTownTask, IntroCutsceneTask]
    requires d.director.agent.completedTasks == [] && d.progressTenths == 0
    requires d.worldBuilder.None?
    ensures var s1 := WorldBuilderAfter(d, Called(Ok(mapId)));
            && s1.director.taskQueue == [IntroCutsceneTask]
            && s1.director.agent.completedTasks == ["create_starting_town"]
            && s1.progressTenths == 1
            && s1.worldBuilder.value.mapsCreated == [mapId]
  {
    assert FirstIndex(d.director.taskQueue, IsMapClaim) == Some(0);
    PlannedQueueWithoutTown();
  }

  /** Removing the town from the planned queue leaves the cutscene. */
  lemma PlannedQueueWithoutTown()
    ensures RemoveId([StartingTownTask, IntroCutsceneTask], StartingTownTask.id) == [IntroCutsceneTask]
  {
    assert [StartingTownTask, IntroCutsceneTask] == [StartingTownTask] + [IntroCutsceneTask];
    RemoveIdConcat([StartingTownTask], [IntroCutsceneTask], StartingTownTask.id);
    assert IntroCutsceneTask.id != StartingTownTask.id;
  }

  /** The world builder's turn on the planned queue appends the town's
      default location, carrying the new map's id. */
  lemma StartingTownLocated(d: ImplementationState, mapId: int)
    requires d.director.taskQueue == [StartingTownTask, IntroCutsceneTask]
    requires d.gameData.locations == []
    ensures WorldBuilderAfter(d, Called(Ok(mapId))).gameData.locations
              == [DefaultLocation(LocationName("create_starting_town")).(id := Some(mapId))]
  {
    assert FirstIndex(d.director.taskQueue, IsMapClaim) == Some(0);
    var name := LocationName(StartingTownTask.id);
    assert FindLocationIndex([], name) == None;
    WorldBuilderLocations(d, Called(Ok(mapId)));
  }

  /** The second step of the demo run, from the state the first step
      leaves, its `create_event` call succeeding: the router picks the event
      engineer now that the town is completed, the cutscene goes on the
      town's map, and the queue is empty, which ends the loop. */
  lemma DemoSecondStep(s1: ImplementationState, mapId: int, eventId: int)
    requires s1.currentStage == "implementation"
    requires s1.director.taskQueue == [IntroCutsceneTask]
    requires s1.director.agent.completedTasks == ["create_starting_town"]
    requires s1.progressTenths == 1
    requires |s1.gameData.locations| > 0 && s1.gameData.locations[0].id == Some(mapId)
    ensures var s2 := StepAfter(s1, Called(Ok(eventId)));
            && s2.director.taskQueue == []
            && s2.director.agent.completedTasks == ["create_starting_town", "create_intro_cutscene"]
            && s2.progressTenths == 2
            && s2.eventEngineer.value.eventsCreated[|s2.eventEngineer.value.eventsCreated| - 1]
                 == CreatedEvent(eventId, mapId, "Intro Cutscene", "cutscene")
  {
    var q1 := s1.director.taskQueue;
    assert IsEventClaim(q1[0], s1.director.agent.completedTasks);
    WorkerKindIsNotMapKind(q1[0].kind);
    RouteFirstMatch(s1.currentStage, q1, s1.director.agent.completedTasks, 0, EventEngineer);
    assert FirstEventClaim(q1, s1.director.agent.completedTasks) == Some(0);
  }

  // ---------------------------------------------------------------------
  // The scans the agents run
  // ---------------------------------------------------------------------

  /** The world builder's scan for the first pending `map_creation` task. */
  method FindMapTask(queue: seq<Task>) returns (found: Option<nat>)
    ensures found == FirstIndex(queue, IsMapClaim)
  {
    var i := 0;
    while i < |queue|
      invariant i <= |queue|
      invariant forall j :: 0 <= j < i ==> !IsMapClaim(queue[j])
    {
      if queue[i].kind == "map_creation" && queue[i].status == Pending {
        return Some(i);
      }
      i := i + 1;
    }
    return None;
  }

  /** The dependency loop, which stops at the first id not yet completed. */
  method CheckDependencies(dependencies: seq<string>, completed: seq<string>) returns (met: bool)
    ensures met == DependenciesMet(dependencies, completed)
  {
    met := true;
    var i := 0;
    while i < |dependencies|
      invariant i <= |dependencies|
      invariant forall j :: 0 <= j < i ==> dependencies[j] in completed
    {
      if dependencies[i] !in completed {
        met := false;
        break;
      }
      i := i + 1;
    }
  }

  /** The event engineer's scan: the first pending event-like task whose
      dependencies are all completed. */
  method FindEventTask(queue: seq<Task>, completed: seq<string>) returns (found: Option<nat>)
    ensures found == FirstEventClaim(queue, completed)
  {
    var i := 0;
    while i < |queue|
      invariant i <= |queue|
      invariant forall j :: 0 <= j < i ==> !IsEventClaim(queue[j], completed)
    {
      var t := queue[i];
      if t.kind in ["event_creation", "cutscene_creation", "dialogue_creation"] && t.status == Pending {
        var met := CheckDependencies(t.dependencies, completed);
        if met {
          return Some(i);
        }
      }
      i := i + 1;
    }
    return None;
  }

  /** The case-insensitive location lookup. */
  method LookupLocation(locations: seq<GameLocation>, name: string) returns (found: Option<nat>)
    ensures found == FindLocationIndex(locations, name)
  {
    var i := 0;
    while i < |locations|
      invariant i <= |locations|
      invariant forall j :: 0 <= j < i ==> !SameNameIgnoringCase(locations[j].name, name)
    {
      if Lower(locations[i].name) == Lower(name) {
        return Some(i);
      }
      i := i + 1;
    }
    return None;
  }

  /** The exact-name scan that records a new map id. */
  method LookupExactName(locations: seq<GameLocation>, name: string) returns (found: Option<nat>)
    ensures found == FindExactName(locations, name)
  {
    var i := 0;
    while i < |locations|
      invariant i <= |locations|
      invariant forall j :: 0 <= j < i ==> locations[j].name != name
    {
      if locations[i].name == name {
        return Some(i);
      }
      i := i + 1;
    }
    return None;
  }

  // ---------------------------------------------------------------------
  // The workflow state, updated in place
  // ---------------------------------------------------------------------

  /** `GameImplementationState`: one object that every node updates. */
  class GameImplementationState {
    var gameData: GameData
    var director: DirectorState
    var worldBuilder: Option<WorldBuilderState>
    var eventEngineer: Option<EventEngineerState>
    var combatSystem: Option<AgentState>
    var assetManager: Option<AgentState>
    var tester: Option<AgentState>
    var currentStage: string
    var progressTenths: int
    var log: seq<LogEntry>

    function Value(): ImplementationState
      reads this
    {
      ImplementationState(gameData, director, worldBuilder, eventEngineer, combatSystem,
                          assetManager, tester, currentStage, progressTenths, log)
    }

    /** `initialize_game_state(title, description)`. */
    constructor (title: string, description: string)
      ensures Value() == InitialState(title, description)
      ensures currentStage == "planning" && director.taskQueue == [] && progressTenths == 0
    {
      var metadata := NewMetadata(title, "RPG Maker Agents", description);
      gameData := NewGameData(metadata);
      director := DirectorState(NewAgentState(DirectorId, DirectorId), []);
      worldBuilder := None;
      eventEngineer := None;
      combatSystem := None;
      assetManager := None;
      tester := None;
      currentStage := "planning";
      progressTenths := 0;
      log := [];
    }

    /** `DirectorAgent.process`. */
    method DirectorProcess()
      modifies this`director, this`currentStage
      ensures Value() == DirectorAfter(old(Value()))
    {
      if currentStage == "planning" {
        director := director.(taskQueue := [StartingTownTask, IntroCutsceneTask]);
        currentStage := "implementation";
      }
    }

    /** `WorldBuilderAgent.process`; `tools == null` is an agent whose
        tools were never set. */
    method WorldBuilderProcess(tools: RecordStore?) returns (call: ToolCall)
      modifies this`gameData, this`director, this`worldBuilder, this`progressTenths, tools
      ensures Value() == WorldBuilderAfter(old(Value()), call)
      ensures call.Called? <==> CallsStore(old(Value()), WorldBuilder, tools != null)
      ensures tools != null ==>
                && tools.ListTablesKept()
                && (call.NotCalled? ==> tools.mapInfos == old(tools.mapInfos) && tools.mapFiles == old(tools.mapFiles))
                && (call.Called? ==>
                      MapStored(old(tools.mapInfos), old(tools.mapFiles),
                                ClaimedLocation(old(director.taskQueue), old(gameData.locations)), call.result,
                                tools.mapInfos, tools.mapFiles))
    {
      if worldBuilder.None? {
        worldBuilder := Some(WorldBuilderState(NewAgentState(WorldBuilderId, WorldBuilderId), []));
      }
      var found := FindMapTask(director.taskQueue);
      if found.None? {
        return NotCalled;
      }
      var i := found.value;
      var k := ClaimMapTask(i);
      call := BuildClaimedMap(i, k, tools);
    }

    /** The world builder after its claim of task `i` with location `k`:
        without tools nothing more; otherwise `create_map` on the location
        and the handling of its outcome. */
    method BuildClaimedMap(i: nat, k: nat, tools: RecordStore?) returns (call: ToolCall)
      requires i < |director.taskQueue| && k < |gameData.locations| && worldBuilder.Some?
      modifies this`gameData, this`director, this`worldBuilder, this`progressTenths, tools
      ensures Value() == WorldBuilderCommit(old(Value()), i, k, call)
      ensures call.Called? <==> tools != null
      ensures tools != null ==>
                && tools.ListTablesKept()
                && MapStored(old(tools.mapInfos), old(tools.mapFiles), old(gameData.locations)[k], call.result,
                             tools.mapInfos, tools.mapFiles)
    {
      if tools == null {
        return NotCalled;
      }
      var r := CreateLocationMap(tools, gameData.locations[k]);
      call := Called(r);
      CommitMapTask(i, k, r);
    }

    /** `create_map` with the name, size and tileset of `location`. */
    static method CreateLocationMap(tools: RecordStore, location: GameLocation) returns (r: Result<int>)
      modifies tools`mapInfos, tools`mapFiles
      ensures MapStored(old(tools.mapInfos), old(tools.mapFiles), location, r, tools.mapInfos, tools.mapFiles)
    {
      r := tools.CreateMap(location.name, location.width, location.height, location.tilesetId);
    }

    /** The world builder's claim of task `i` and its location lookup. */
    method ClaimMapTask(i: nat) returns (k: nat)
      requires i < |director.taskQueue| && worldBuilder.Some?
      modifies this`gameData, this`director, this`worldBuilder
      ensures (Value(), k) == WorldBuilderClaim(old(Value()), i)
      ensures FirstIndex(old(director.taskQueue), IsMapClaim) == Some(i) ==>
                gameData.locations[k] == ClaimedLocation(old(director.taskQueue), old(gameData.locations))
    {
      var task := Claim(director.taskQueue[i], WorldBuilderId);
      director := director.(taskQueue := director.taskQueue[i := task]);
      worldBuilder := Some(worldBuilder.value.(agent := worldBuilder.value.agent.(currentTask := Some(task))));
      var name := LocationName(task.id);
      var found := LookupLocation(gameData.locations, name);
      if found.None? {
        k := |gameData.locations|;
        gameData := gameData.(locations := gameData.locations + [DefaultLocation(name)]);
      } else {
        k := found.value;
      }
    }

    /** The loop that writes the new map's id on the first location with
        the chosen location's exact name. */
    method RecordMapId(k: nat, mapId: int)
      requires k < |gameData.locations|
      modifies this`gameData
      ensures gameData == old(gameData).(locations := AssignLocationId(old(gameData.locations), old(gameData.locations)[k].name, mapId))
    {
      var name := gameData.locations[k].name;
      var j := LookupExactName(gameData.locations, name);
      if j.Some? {
        gameData := gameData.(locations := gameData.locations[j.value := gameData.locations[j.value].(id := Some(mapId))]);
      }
    }

    /** The world builder's handling of the `create_map` outcome `r`. */
    method CommitMapTask(i: nat, k: nat, r: Result<int>)
      requires i < |director.taskQueue| && k < |gameData.locations| && worldBuilder.Some?
      modifies this`gameData, this`director, this`worldBuilder, this`progressTenths
      ensures Value() == WorldBuilderCommit(old(Value()), i, k, Called(r))
    {
      var task := director.taskQueue[i];
      if r.Err? {
        task := task.(status := Failed);
        director := director.(taskQueue := director.taskQueue[i := task]);
        worldBuilder := Some(worldBuilder.value.(agent := worldBuilder.value.agent.(currentTask := Some(task))));
        return;
      }
      var mapId := r.value;
      worldBuilder := Some(worldBuilder.value.(mapsCreated := worldBuilder.value.mapsCreated + [mapId]));
      RecordMapId(k, mapId);
      CompleteMapTask(i, mapId);
    }

    /** Task `i` completed with map `mapId`: its status and result set, the
        world builder's current task cleared, its id on both completed
        lists, every entry with that id out of the queue, and one more step
        of progress. */
    method CompleteMapTask(i: nat, mapId: int)
      requires i < |director.taskQueue| && worldBuilder.Some?
      modifies this`director, this`worldBuilder, this`progressTenths
      ensures var task := old(director.taskQueue)[i];
              var wb := old(worldBuilder).value;
              && director == CommitToDirector(old(director),
                               old(director.taskQueue)[i := task.(status := Completed, result := Some(MapCreated(mapId)))], task.id)
              && worldBuilder == Some(wb.(agent := wb.agent.(currentTask := None, completedTasks := wb.agent.completedTasks + [task.id])))
              && progressTenths == old(progressTenths) + 1
    {
      var task := director.taskQueue[i];
      task := task.(status := Completed, result := Some(MapCreated(mapId)));
      director := director.(taskQueue := director.taskQueue[i := task]);
      var wb := worldBuilder.value;
      worldBuilder := Some(wb.(agent := wb.agent.(currentTask := None, completedTasks := wb.agent.completedTasks + [task.id])));
      director := director.(agent := director.agent.(completedTasks := director.agent.completedTasks + [task.id]));
      director := director.(taskQueue := RemoveId(director.taskQueue, task.id));
      progressTenths := progressTenths + 1;
    }

    /** `EventEngineerAgent.process`. Only a `cutscene_creation` task
        reaches the store; any other claimed task stays in progress. */
    method EventEngineerProcess(tools: RecordStore?) returns (call: ToolCall)
      modifies this`director, this`eventEngineer, this`progressTenths, tools
      ensures Value() == EventEngineerAfter(old(Value()), call)
      ensures call.Called? <==> CallsStore(old(Value()), EventEngineer, tools != null)
      ensures tools != null ==>
                && tools.ListTablesKept()
                && tools.mapInfos == old(tools.mapInfos)
                && (call.NotCalled? ==> tools.mapFiles == old(tools.mapFiles))
                && (call.Called? ==> CutsceneStored(old(tools.mapFiles), CutsceneMapId(gameData), call.result, tools.mapFiles))
    {
      if eventEngineer.None? {
        eventEngineer := Some(EventEngineerState(NewAgentState(EventEngineerId, EventEngineerId), []));
      }
      var found := FindEventTask(director.taskQueue, director.agent.completedTasks);
      if found.None? {
        return NotCalled;
      }
      var i := found.value;
      ClaimEventTask(i);
      call := BuildClaimedCutscene(i, tools);
    }

    /** The event engineer's claim of task `i`. */
    method ClaimEventTask(i: nat)
      requires i < |director.taskQueue| && eventEngineer.Some?
      modifies this`director, this`eventEngineer
      ensures Value() == EventEngineerClaim(old(Value()), i)
    {
      var task := Claim(director.taskQueue[i], EventEngineerId);
      director := director.(taskQueue := director.taskQueue[i := task]);
      eventEngineer := Some(eventEngineer.value.(agent := eventEngineer.value.agent.(currentTask := Some(task))));
    }

    /** The event engineer after its claim of task `i`: a task other than
        `cutscene_creation`, or no tools, goes no further; otherwise the
        intro cutscene is created and its outcome handled. */
    method BuildClaimedCutscene(i: nat, tools: RecordStore?) returns (call: ToolCall)
      requires i < |director.taskQueue| && eventEngineer.Some?
      modifies this`director, this`eventEngineer, this`progressTenths, tools
      ensures Value() == EventEngineerCommit(old(Value()), i, CutsceneMapId(gameData), call)
      ensures call.Called? <==> tools != null && old(director.taskQueue)[i].kind == "cutscene_creation"
      ensures tools != null ==>
                && tools.ListTablesKept()
                && tools.mapInfos == old(tools.mapInfos)
                && (call.NotCalled? ==> tools.mapFiles == old(tools.mapFiles))
                && (call.Called? ==> CutsceneStored(old(tools.mapFiles), CutsceneMapId(gameData), call.result, tools.mapFiles))
    {
      if tools == null || director.taskQueue[i].kind != "cutscene_creation" {
        return NotCalled;
      }
      var mapId := if |gameData.locations| > 0 then gameData.locations[0].id else Some(1);
      var r := CreateIntroCutscene(tools, mapId);
      call := Called(r);
      CommitCutsceneTask(i, mapId, r);
    }

    /** The intro cutscene's commands on one autorun page, placed at (5, 5)
        on map `mapId`; formatting a missing map id raises `TypeError`. */
    static method CreateIntroCutscene(tools: RecordStore, mapId: Option<int>) returns (r: Result<int>)
      modifies tools`mapFiles
      ensures CutsceneStored(old(tools.mapFiles), mapId, r, tools.mapFiles)
    {
      if mapId.None? {
        return Err(TypeError("unsupported format string passed to NoneType.__format__"));
      }
      var commands := [
        MessageCommand("Welcome to our game!", "Actor1", 0),
        TextCommand("This is the beginning of an epic adventure."),
        TextCommand("Are you ready to begin?")];
      var choices := ChoiceCommands(IntroChoices, 0);
      commands := commands + choices;
      assert choices == IntroCutsceneCommands()[3..];
      assert commands == IntroCutsceneCommands();
      var page := NewEventPage(3, commands);
      r := tools.CreateEvent(mapId.value, "Intro Cutscene", 5, 5, [page]);
    }

    /** The event engineer's handling of the `create_event` outcome `r`. */
    method CommitCutsceneTask(i: nat, mapId: Option<int>, r: Result<int>)
      requires i < |director.taskQueue| && eventEngineer.Some?
      modifies this`director, this`eventEngineer, this`progressTenths
      ensures Value() == EventEngineerCommit(old(Value()), i, mapId, Called(r))
    {
      var task := director.taskQueue[i];
      if r.Err? || mapId.None? {
        task := task.(status := Failed);
        director := director.(taskQueue := director.taskQueue[i := task]);
        eventEngineer := Some(eventEngineer.value.(agent := eventEngineer.value.agent.(currentTask := Some(task))));
        return;
      }
      var eventId := r.value;
      var ee := eventEngineer.value;
      eventEngineer := Some(ee.(eventsCreated := ee.eventsCreated + [CreatedEvent(eventId, mapId.value, "Intro Cutscene", "cutscene")]));
      CompleteCutsceneTask(i, eventId, mapId.value);
    }

    /** Task `i` completed with event `eventId` on map `mapId`: its status
        and result set, the event engineer's current task cleared, its id
        on both completed lists, every entry with that id out of the queue,
        and one more step of progress. */
    method CompleteCutsceneTask(i: nat, eventId: int, mapId: int)
      requires i < |director.taskQueue| && eventEngineer.Some?
      modifies this`director, this`eventEngineer, this`progressTenths
      ensures var task := old(director.taskQueue)[i];
              var ee := old(eventEngineer).value;
              && director == CommitToDirector(old(director),
                               old(director.taskQueue)[i := task.(status := Completed, result := Some(EventCreated(eventId, mapId)))], task.id)
              && eventEngineer == Some(ee.(agent := ee.agent.(currentTask := None, completedTasks := ee.agent.completedTasks + [task.id])))
              && progressTenths == old(progressTenths) + 1
    {
      var task := director.taskQueue[i];
      task := task.(status := Completed, result := Some(EventCreated(eventId, mapId)));
      director := director.(taskQueue := director.taskQueue[i := task]);
      var ee := eventEngineer.value;
      eventEngineer := Some(ee.(agent := ee.agent.(currentTask := None, completedTasks := ee.agent.completedTasks + [task.id])));
      director := director.(agent := director.agent.(completedTasks := director.agent.completedTasks + [task.id]));
      director := director.(taskQueue := RemoveId(director.taskQueue, task.id));
      progressTenths := progressTenths + 1;
    }

    /** `CombatSystemAgent.process`: lazy initialisation only. */
    method CombatSystemProcess()
      modifies this`combatSystem
      ensures Value() == DispatchAfter(old(Value()), CombatSystem, NotCalled)
    {
      if combatSystem.None? {
        combatSystem := Some(NewAgentState(CombatSystemId, CombatSystemId));
      }
    }

    /** `AssetManagerAgent.process`: lazy initialisation only. */
    method AssetManagerProcess()
      modifies this`assetManager
      ensures Value() == DispatchAfter(old(Value()), AssetManager, NotCalled)
    {
      if assetManager.None? {
        assetManager := Some(NewAgentState(AssetManagerId, AssetManagerId));
      }
    }

    /** `TestingAgent.process`: lazy initialisation only. */
    method TesterProcess()
      modifies this`tester
      ensures Value() == DispatchAfter(old(Value()), Tester, NotCalled)
    {
      if tester.None? {
        tester := Some(NewAgentState(TesterId, TesterId));
      }
    }

    /** Runs the node `role`. */
    method Dispatch(role: Role, tools: RecordStore?) returns (call: ToolCall)
      modifies this, tools
      ensures Value() == DispatchAfter(old(Value()), role, call)
      ensures call.Called? <==> CallsStore(old(Value()), role, tools != null)
      ensures tools != null ==>
                && tools.ListTablesKept()
                && StoreEffect(old(Value()), role, call, old(tools.mapInfos), old(tools.mapFiles),
                               tools.mapInfos, tools.mapFiles)
    {
      match role
      case Director =>
        DirectorProcess();
        call := NotCalled;
      case WorldBuilder =>
        call := WorldBuilderProcess(tools);
      case EventEngineer =>
        call := EventEngineerProcess(tools);
      case CombatSystem =>
        CombatSystemProcess();
        call := NotCalled;
      case AssetManager =>
        AssetManagerProcess();
        call := NotCalled;
      case Tester =>
        TesterProcess();
        call := NotCalled;
    }

    /** One invocation of the workflow: the director node, then the node
        `route_implementation` names. */
    method Step(tools: RecordStore?) returns (role: Role, call: ToolCall)
      modifies this, tools
      ensures role == NextRole(DirectorAfter(old(Value())))
      ensures Value() == StepAfter(old(Value()), call)
      ensures call.Called? <==> CallsStore(DirectorAfter(old(Value())), role, tools != null)
      ensures tools != null ==>
                && tools.ListTablesKept()
                && StoreEffect(DirectorAfter(old(Value())), role, call, old(tools.mapInfos), old(tools.mapFiles),
                               tools.mapInfos, tools.mapFiles)
    {
      DirectorProcess();
      role := NextRole(Value());
      call := Dispatch(role, tools);
    }

    /** The demo loop: at most `maxSteps` steps, the first of them taken
        whatever the queue holds, stopping at the first step that leaves the
        queue empty. */
    method Run(maxSteps: nat, tools: RecordStore?) returns (steps: nat, ghost calls: seq<ToolCall>)
      modifies this, tools
      ensures steps <= maxSteps && |calls| == steps
      ensures maxSteps > 0 ==> steps > 0
      ensures steps < maxSteps ==> director.taskQueue == []
      ensures steps > 0 ==> QueueNonEmptyThrough(old(Value()), calls, steps - 1)
      ensures Value() == StepsAfter(old(Value()), calls)
      ensures tools == null ==> forall j :: 0 <= j < |calls| ==> calls[j] == NotCalled
      ensures KeepsHistory(old(Value()), Value())
      ensures tools != null ==> tools.ListTablesKept()
    {
      steps := 0;
      calls := [];
      while steps < maxSteps
        invariant steps <= maxSteps && |calls| == steps
        invariant Value() == StepsAfter(old(Value()), calls)
        invariant QueueNonEmptyThrough(old(Value()), calls, steps)
        invariant tools == null ==> forall j :: 0 <= j < |calls| ==> calls[j] == NotCalled
        invariant tools != null ==> tools.ListTablesKept()
      {
        var role, call := Step(tools);
        StepsAfterSnoc(old(Value()), calls, call);
        QueueNonEmptyExtends(old(Value()), calls, call);
        calls := calls + [call];
        steps := steps + 1;
        if director.taskQueue == [] {
          break;
        }
      }
      StepsAfterKeepsHistory(old(Value()), calls);
    }
  }

}

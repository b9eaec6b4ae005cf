# RPG Maker MZ agents: the orchestration core in Dafny

This project models the turn-based core of a multi-agent RPG Maker MZ game
builder and proves properties of it. The parts modelled are:

- A director that seeds a task queue.
- A router (`route_implementation`) that picks the next agent by a first-match scan of that queue.
- A world builder and an event engineer that work through the same cycle:
  - claim a task;
  - resolve a location;
  - call the RPG Maker record store;
  - then either commit the result (status, result, completed lists, queue removal, progress) or mark the task failed.
- The combat, asset and testing agents, which only initialise their own state.
- The bounded demo loop.
- The in-memory part of the record store that the workers call:
  - id allocation for maps, events, actors, classes, skills, enemies and common events;
  - the record layouts;
  - the event-command builders.
- The schema records with their defaults, and the integer enumerations.

Modules, one per source component:

- `Wrappers` (`wrappers.dfy`): `Option`, and `Result` with the Python exception kinds.
- `Text` (`text.dfy`): the Python string operations the core relies on, for ASCII letters:
  - `lower`, `title`, `replace` and `startswith`;
  - `str(int)` and `int(str)` for keys;
  - the `03d` format used in map file names.
- `Schemas` (`schemas.dfy`): the records of `rmmz_schemas.py`, their defaults and the enums.
- `Tools` (`tools.dfy`): the records of `rmmz_tools.py`, and the pure command builders.
  - Each builder is proved against `Decode`, the model's own reading of the parameter layouts the builders write.
  - RPG Maker MZ's own reading of codes 101 and 402 differs from it. The message and choice builders are also stated against that reading (`MzReadMessage`, `MzBranchChoice`; see Findings).
  - Its `RecordStore` class holds the JSON tables as fields.
  - Its `create_*` methods allocate ids and insert records in place.
- `Routing` (`routing.dfy`): the router and the queue operations.
  - The router is a pure function: `Decision` per task, `Scan` over the queue and `Route`.
  - The queue operations are `FirstIndex`, the claim predicates and `RemoveId`, the filter that removes a completed task.
- `Agents` (`agents.dfy`): what one step of each agent does, as a function on the value of the workflow state.
  - `DirectorAfter`, `WorldBuilderAfter`, `EventEngineerAfter` and `StepAfter` are those functions.
  - The class `GameImplementationState` holds that state as fields. Each of its methods is proved to leave exactly the value its function gives.
  - A worker function takes the outcome of the store call (`ToolCall`) as a parameter. The method makes the call and proves what the outcome is.

Integer progress is counted in steps of 0.1 (`progressTenths`).

How the code treats dependencies, progress, failures and stalls:

- **Dependencies.** Dependencies are checked only for event, cutscene and dialogue tasks:
  - A task whose type starts with "map" is routed to the world builder unchecked.
  - The world builder claims a `map_creation` task unchecked (`WorldBuilderClaimsDespiteDependencies`).
- **Progress.** Progress is never clamped: it grows by 0.1 per completed task (`ProgressCountsCompletedTasks`).
- **Failed tasks.** A failed task stays the worker's `current_task` with status "failed" (rmmz_agents.py:415-417, 562-564), and the model keeps it there.
- **Stalls.** A no-op step on a routed task repeats for ever (`WorldBuilderStallPersists`, `IdleAgentStallPersists`), and only the step bound ends the loop.

## Model

| member | source | states |
|---|---|---|
| `Text.Lower` | rmmz_agents.py:342 | `str.lower` keeps the length, leaves no upper-case ASCII letter, and changes nothing else |
| `Text.TitleFoldsLikeInput` | rmmz_agents.py:347-352 | title-casing changes case only: lower-cased, `name.title()` equals `name` lower-cased |
| `Text.TitleFromShape` | rmmz_agents.py:349 | in a title-cased string every word starts with a non-lower-case letter and continues without upper-case ones |
| `Text.RemoveAllAbsent` | rmmz_agents.py:339 | `replace("create_", "")` leaves a string without the pattern unchanged |
| `Text.ReplaceChar` | rmmz_agents.py:339 | `replace("_", " ")` leaves no underscore, replaces each one by a space and keeps every other character |
| `Text.ParseIntToString` | rmmz_tools.py:232 | `int(str(n)) == n`, so event keys written as `str(next_id)` read back as their ids |
| `Text.ParseFormat03d` | rmmz_tools.py:169 | the `03d` text of any integer, negative ones included, parses back to that integer |
| `Text.Format03dInjective` | rmmz_tools.py:218 | distinct map ids get distinct `MapNNN.json` numbers |
| `Schemas.TriggerTypeFromValue` | rmmz_schemas.py:10-16 | `TriggerType(n)` exists exactly for 0..4 and gives the member whose value is `n` |
| `Schemas.DamageTypeFromValue` | rmmz_schemas.py:18-26 | `DamageType(n)` exists exactly for 0..6 and gives the member whose value is `n` |
| `Schemas.ItemScopeFromValue` | rmmz_schemas.py:28-41 | `ItemScope(n)` exists exactly for 0..11 and gives the member whose value is `n` |
| `Schemas.HitTypeFromValue` | rmmz_schemas.py:43-47 | `HitType(n)` exists exactly for 0..2 and gives the member whose value is `n` |
| `Schemas.EnumRoundTrips` | rmmz_schemas.py:10-47 | looking up a member's value gives back that member, for all four enumerations |
| `Schemas.LocationDefaults` | rmmz_schemas.py:59-71 | a location given only name and description has no id, is 20x15 on tileset 1 with encounter rate 30, and has no features or notes |
| `Schemas.TaskAndAgentDefaults` | rmmz_schemas.py:150-169 | a fresh task is "pending" with priority 1, no dependencies, no assignee and no result; a fresh agent state has no current task and an empty completed list |
| `Tools.DecodeEncode` | rmmz_tools.py:10-14 | every modelled instruction encodes to a command that decodes back to it |
| `Tools.EncodeDecode` | rmmz_tools.py:10-14 | every command the decoder accepts is the encoding of what it decodes to |
| `Tools.EndCommand` | rmmz_tools.py:485-487 | the code-0 command with no parameters decodes as the end of a command list |
| `Tools.MessageCommand` | rmmz_tools.py:436-441 | code 101 with face name, face index, background 0, position 0 and the text; under the model's reading it is Show Text of those values |
| `Tools.MessageTextIsSpeakerName` | rmmz_tools.py:436-441 | as written, RPG Maker MZ shows the text as the speaker's name, and as the message only the 401 lines that follow; alone, the command shows no line |
| `Tools.MessageCommands` | rmmz_tools.py:436-448 | corrected: a Show Text command with no speaker's name, then the text as a 401 line; RPG Maker MZ shows the text as the message's one line |
| `Tools.MessageCommandsShowText` | rmmz_tools.py:436-448 | corrected: 401 lines added after the corrected message follow its text in the message |
| `Tools.TextCommand` | rmmz_tools.py:443-448 | code 401 with the one line decodes as a line of text |
| `Tools.ChangeVariableCommand` | rmmz_tools.py:492-499 | code 122 over the single variable, with the operation and a constant operand, decodes as Control Variables |
| `Tools.ChangeSwitchCommandAsWritten` | rmmz_tools.py:501-506 | as written, the command decodes as turning the switch OFF whatever `value` is |
| `Tools.ChangeSwitchIgnoresValue` | rmmz_tools.py:505 | as written, `True` and `False` build the same command, whose third parameter is 1 |
| `Tools.ChangeSwitchCommand` | rmmz_tools.py:501-506 | corrected: the command decodes as setting the switch to `value` |
| `Tools.ConditionalBranchCommand` | rmmz_tools.py:508-516 | code 111 with the condition type and two parameters decodes as a conditional branch |
| `Tools.ElseBranchCommand` | rmmz_tools.py:518-523 | code 411 with no parameters decodes as the else branch |
| `Tools.EndBranchCommand` | rmmz_tools.py:525-530 | code 412 with no parameters decodes as the end of a branch |
| `Tools.ChoiceCommands` | rmmz_tools.py:450-490 | `add_choice_command` returns 1 + 2n commands, plus 2 when `cancel_type > 0`: Show Choices first, then for each i a code-402 [0, i] branch and an end command, then the cancel branch and an end command |
| `Tools.ChoiceCommandsDecode` | rmmz_tools.py:450-490 | under the model's reading, that layout is Show Choices of the choices followed, for choice i, by a branch whose second parameter is i |
| `Tools.ChoiceBranchesAllFirst` | rmmz_tools.py:460-466 | as written, RPG Maker MZ reads every branch as belonging to choice 0: from the second choice on, no branch carries that choice's index |
| `Tools.ChoiceCommandsCorrected` | rmmz_tools.py:450-490 | corrected: the same commands in the same order, except that branch i is `402 [i, choices[i]]`, which RPG Maker MZ reads as the branch of choice i |
| `Tools.CommonEventList` | rmmz_tools.py:555 | a common event's list is the given commands followed by exactly one end command |
| `Tools.TileCount` | rmmz_tools.py:213 | `[0] * (width * height * 6)` has that many entries when the count is positive, and none otherwise |
| `Tools.NewMapData` | rmmz_tools.py:189-215 | a new map has `TileCount` zero tiles and no events |
| `Tools.NewEventPage` | rmmz_tools.py:16-30 | a page keeps the given trigger and commands, with every other field at the `EventPage` default: move type 0, speed 3, frequency 3, walking animation on, no stepping animation, direction fix or pass-through, and priority 1 |
| `Tools.DefaultEventPage` | rmmz_tools.py:236-263 | the page `create_event` supplies when given none: a default page with trigger 0 whose one command ends the event |
| `Tools.NewMapInfo` | rmmz_tools.py:179-187 | a new map's `MapInfos.json` entry carries its id and name, is expanded, is ordered by its id, has parent 0 (top level) and scroll 0, 0 |
| `Tools.MapFileName` | rmmz_tools.py:167-170 | a map file name starts with `Map`, ends with `.json`, and the text between them parses back to the map id |
| `Tools.MapFileNameInjective` | rmmz_tools.py:169 | two map ids share a file name only when they are equal |
| `Tools.IsNextIdUnique` | rmmz_tools.py:176 | `max(ids) + 1 if ids else 1` has exactly one value |
| `Tools.NextId` | rmmz_tools.py:290 | over a list of ids: 1 for no ids, otherwise one above the largest, so above every id |
| `Tools.NextIdOf` | rmmz_tools.py:175-176 | the scan over the map-info values yields the next id over the set of their ids |
| `Tools.TableIds` | rmmz_tools.py:289 | the ids of a list table are exactly the ids of its record entries, non-records skipped |
| `Tools.NextTableId` | rmmz_tools.py:289-290 | a list table allocates an id above every record's id: 1 with no records, otherwise the largest id plus one |
| `Tools.NewEventKeyFresh` | rmmz_tools.py:232-233 | the key `str(next_id)` is not yet an event key, so no existing event is overwritten |
| `Tools.NewMapInfoKeyFresh` | rmmz_tools.py:179 | when every map-info object sits under `str(id)`, the new key is fresh and the table grows by exactly one entry |
| `Tools.RecordStore.GetMap` | rmmz_tools.py:167-170 | the map of an id is the file under its file name, absent when that file is missing or empty |
| `Tools.RecordStore.CreateMap` | rmmz_tools.py:172-221 | raises when `MapInfos.json` is not an object and changes nothing; otherwise stores `NewMapInfo(next_id, name)` (order `next_id`, parent 0) under `str(next_id)` and writes the blank map file, touching nothing else |
| `Tools.RecordStore.CreateEvent` | rmmz_tools.py:223-282 | raises when the map file is missing or empty, or a key other than "null" is not an integer; otherwise stores one event under the fresh key `str(max key + 1)` with the given pages or the default page, leaving every other event as it was |
| `Tools.RecordStore.CreateActor` | rmmz_tools.py:286-317 | appends exactly one actor, whose id is the table's next id, with max level 99 and five empty equipment slots |
| `Tools.NewActor` | rmmz_tools.py:293-309 | a new actor has the given id, name, class and initial level, max level 99, five empty equipment slots, and empty nickname, graphics and profile |
| `Tools.RecordStore.CreateClass` | rmmz_tools.py:319-342 | appends exactly one class with the next id, the default experience curve and the default parameter table |
| `Tools.NewClass` | rmmz_tools.py:326-334 | a new class has the given id and name, experience curve [30, 20, 30, 30], and 100 rows of eight 1s as parameters |
| `Tools.RecordStore.CreateSkill` | rmmz_tools.py:346-389 | appends exactly one skill with the next id and the fixed scope, occasion, hit type and damage layout |
| `Tools.NewSkill` | rmmz_tools.py:354-381 | a new skill has the given id, name, description, icon and MP cost, no TP cost, the message "%1 uses %2!", scope 1, occasion 1, speed 0, success 100, hit type 1, animation 1, and critical damage of the given type and formula with element 0 and variance 20 |
| `Tools.RecordStore.CreateEnemy` | rmmz_tools.py:391-432 | appends exactly one enemy with the next id, its eight parameters, one attack action and three drop slots |
| `Tools.NewEnemy` | rmmz_tools.py:399-424 | a new enemy has the given id, name, exp and gold, parameters [HP, 0, ATK, DEF, 0, 0, 0, 0], one action (skill 1, rating 5, no condition) and three drop slots of item 1, denominator 1, kind 0 |
| `Tools.RecordStore.CreateCommonEvent` | rmmz_tools.py:541-564 | appends exactly one common event with the next id, switch 1, and the commands closed by one end command |
| `Tools.AppendKeepsEarlierRecords` | rmmz_tools.py:286-317 | appending keeps every earlier record, the new id belongs to no earlier record, and the next allocation is one higher |
| `Routing.Decision` | rmmz_agents.py:673-691 | a non-pending task is passed over, and no task goes to the director or the tester. A pending "map…" task goes to the world builder. A pending event, cutscene or dialogue task goes to the event engineer exactly when its dependencies are met, and is passed over otherwise. A pending combat task goes to the combat system and an asset task to the asset manager. A task of any other type is passed over |
| `Routing.Scan` | rmmz_agents.py:672-691 | the scan's answer is some task's decision, and "no answer" means no task has one |
| `Routing.Route` | rmmz_agents.py:667-697 | "director" while planning; a worker only for a pending task whose decision it is; "tester" only in the testing stage |
| `Routing.ScanFirstDecision` | rmmz_agents.py:672-691 | the first task with a decision decides, whatever comes after it |
| `Routing.ScanWitness` | rmmz_agents.py:672-691 | every answer of the scan comes from a task that no earlier task pre-empts |
| `Routing.RouteFirstMatch` | rmmz_agents.py:667-691 | outside planning, the role of the first task with a decision is the router's answer |
| `Routing.RouteFallback` | rmmz_agents.py:693-697 | with no task decided, the router returns the tester in the testing stage and the director otherwise |
| `Routing.ScanIgnoresUndecided` | rmmz_agents.py:672-691 | removing a task the scan passes over does not change its answer |
| `Routing.RouteSkipsBlockedTask` | rmmz_agents.py:677-686 | a pending event task with an unmet dependency is skipped: the answer is the same as if it were not in the queue |
| `Routing.RouteMapTaskIgnoresDependencies` | rmmz_agents.py:675-676 | a pending "map…" task reached by the scan goes to the world builder, dependencies unchecked |
| `Routing.WorkerKindIsNotMapKind` | rmmz_agents.py:675-689 | no event, combat or asset task type starts with "map", so the map rule never overtakes the rules for them |
| `Routing.FirstIndex` | rmmz_agents.py:324-327 | the index found satisfies the test and no earlier element does; none is found only when no element does |
| `Routing.RouteEventEngineerClaimsRoutedTask` | rmmz_agents.py:441-455 | when the router picks the event engineer, the event engineer claims exactly the task that made the router pick it |
| `Routing.RouteWorldBuilderClaimsRoutedTask` | rmmz_agents.py:324-327 | when the first decided task is a pending `map_creation` task, the router picks the world builder and the world builder claims that task |
| `Routing.RouteWorldBuilderCanStall` | rmmz_agents.py:325 | a pending "map_editing" task is routed to the world builder, which finds nothing to claim |
| `Routing.RouteFreshTask` | rmmz_agents.py:672-691 | a new task of a worker's type at the head of the queue is routed to a worker, never to the director or the tester |
| `Routing.RemoveId` | rmmz_agents.py:410 | the filtered queue holds exactly the tasks with another id |
| `Routing.RemoveIdConcat` | rmmz_agents.py:410 | the filter works piecewise, so the tasks kept stay in their order |
| `Routing.RemoveIdAbsent` | rmmz_agents.py:410 | a queue without the id is left as it is |
| `Routing.RemoveIdAt` | rmmz_agents.py:401-410 | rewriting the completed entry before filtering makes no difference, and the queue shrinks |
| `Agents.DirectorAfter` | rmmz_agents.py:279-302 | in planning, the queue becomes exactly the town and cutscene tasks and the stage becomes "implementation"; otherwise nothing changes |
| `Agents.DirectorPlanThenRoute` | rmmz_agents.py:280-296 | the town task is `map_creation` with no dependencies; the cutscene has priority 2 and is eligible exactly when the town is completed; the router then picks the world builder |
| `Agents.NextRole` | rmmz_agents.py:667-697 | the node the router picks for the state: the director while planning, the tester only when testing, and a worker only for a pending task whose decision it is |
| `Agents.LocationName` | rmmz_agents.py:339 | the location name drawn from a task id has no underscore left and is never longer than the id |
| `Agents.LocationNameOfCreateTask` | rmmz_agents.py:339 | for a task id `create_<rest>`, `rest` without another "create_", the name is `rest` with every underscore turned into a space |
| `Agents.DefaultLocation` | rmmz_agents.py:346-355 | the location created when none matches has the title-cased name, which matches the looked-up name ignoring case, the description "A location called <name>", no id, 20x15 and tileset 1 |
| `Agents.ResolveLocation` | rmmz_agents.py:339-355 | the matching location is used if there is one, otherwise exactly one default location (title-cased name, 20x15, tileset 1) is appended; either way the chosen location matches the name ignoring case |
| `Agents.ResolvedLocationGetsId` | rmmz_agents.py:394-398 | the exact-name loop that records the map id hits the very location the lookup chose |
| `Agents.WorldBuilderAfter` | rmmz_agents.py:310-419 | lazy initialisation only when no pending `map_creation` task exists. Otherwise the first one is claimed (in progress, assigned, current). On failure it is marked failed, in the queue and as current task, with progress and completed lists untouched. On success both completed lists gain its id, every entry with that id leaves the queue, the map id is appended to the maps created, the current task is cleared and progress rises by one step. The stage, the event engineer, the combat, asset and testing agents and every game-data field but the locations are kept, and the director's agent changes only in its completed list |
| `Agents.WorldBuilderClaim` | rmmz_agents.py:333-355 | the claim yields a valid location index |
| `Agents.WorldBuilderCommit` | rmmz_agents.py:382-417 | a successful commit removes every entry with the task's id and shrinks the queue |
| `Agents.WorldBuilderLocations` | rmmz_agents.py:339-398 | the locations become exactly what the lookup resolved them to, with the new map id written on the chosen location after a successful call. So one default entry is appended only when none matched, no other location changes, and the chosen location carries the new map id |
| `Agents.EventEngineerAfter` | rmmz_agents.py:427-566 | only the first pending event task with all dependencies completed is claimed. Without a call it stays in progress; on failure it is failed. On success, which needs a first-location map id, the director's completed list gains its id and the queue loses it, the event engineer's completed list gains it, the event is recorded, the current task is cleared and progress rises by one. The game data, the stage, the world builder and the combat, asset and testing agents are never changed |
| `Agents.CutsceneMapId` | rmmz_agents.py:507 | the cutscene goes on the first location's map id, or on map 1 when there are no locations; there is no map id exactly when the first location has none |
| `Agents.EventEngineerCommit` | rmmz_agents.py:541-564 | a successful commit removes every entry with the task's id and shrinks the queue |
| `Agents.DispatchAfter` | rmmz_agents.py:699-718 | every node keeps the log and the metadata, only appends completed ids, and moves progress by one step per id appended |
| `Agents.StepAfter` | rmmz_agents.py:767-769 | one workflow step keeps that history |
| `Agents.StepsAfterKeepsHistory` | rmmz_agents.py:767-778 | any number of steps keeps the log and the metadata, only appends completed ids, and moves progress one step per id appended |
| `Agents.StepsAfterSnoc` | rmmz_agents.py:767-769 | a run followed by one more step is the run over one more call |
| `Agents.StepsAfter` | rmmz_agents.py:767-778 | the state after one step per call, in order; a run in which no store call is made completes no task and makes no progress |
| `Agents.StepWithoutCallCompletesNothing` | rmmz_agents.py:381-417 | a step whose worker makes no store call (no tools, as guarded at lines 381 and 504) leaves the completed list and progress as they were |
| `Agents.ProgressCountsCompletedTasks` | rmmz_agents.py:407-413 | progress equals the number of completed tasks in the initial state and stays so after every step |
| `Agents.WorldBuilderStallPersists` | rmmz_agents.py:324-331 | a task routed to the world builder that it cannot claim leaves the queue and the routing as they were, so every later step repeats |
| `Agents.IdleAgentStallPersists` | rmmz_agents.py:574-636 | a task routed to the combat, asset or testing agent leaves the queue and the routing as they were |
| `Agents.WorldBuilderClaimsDespiteDependencies` | rmmz_agents.py:324-336 | a `map_creation` task with an unmet dependency is routed to the world builder and claimed |
| `Agents.DemoFirstStep` | rmmz_agents.py:767-778 | from the initial state, a step whose `create_map` succeeds plans, builds the starting town and leaves only the cutscene queued, at progress 1 |
| `Agents.DemoSecondStep` | rmmz_agents.py:767-778 | the next step, its `create_event` succeeding, places the cutscene on the town's map and empties the queue at progress 2 |
| `Agents.IntroCutsceneMessageAsWritten` | rmmz_agents.py:513-517 | as written, RPG Maker MZ shows "Welcome to our game!" as the speaker's name, and as the message only the two lines after it |
| `Agents.FindMapTask` | rmmz_agents.py:323-327 | the world builder's loop finds the first pending `map_creation` task |
| `Agents.CheckDependencies` | rmmz_agents.py:444-449 | the dependency loop answers whether every dependency is completed |
| `Agents.FindEventTask` | rmmz_agents.py:440-453 | the event engineer's loop finds the first eligible event task |
| `Agents.LookupLocation` | rmmz_agents.py:340-344 | the location loop finds the first case-insensitive name match |
| `Agents.LookupExactName` | rmmz_agents.py:395-398 | the id-recording loop finds the first exact name match |
| `Agents.GameImplementationState.constructor` | rmmz_agents.py:723-753 | the initial state: stage "planning", empty queue, progress 0, no worker states, creator "RPG Maker Agents" |
| `Agents.GameImplementationState.DirectorProcess` | rmmz_agents.py:245-302 | updates the queue and stage in place as `DirectorAfter` says |
| `Agents.GameImplementationState.WorldBuilderProcess` | rmmz_agents.py:310-419 | updates the state in place as `WorldBuilderAfter` says. It calls `create_map` exactly when tools are set and a pending `map_creation` task exists, with the claimed location's name, width, height and tileset. The call fails exactly when `MapInfos.json` is not an object, and then changes nothing. Otherwise the fresh id's `NewMapInfo` and blank map are stored. No call leaves the store as it was; the list tables are always kept |
| `Agents.GameImplementationState.ClaimMapTask` | rmmz_agents.py:333-355 | the claim and location lookup, in place; the location index it returns holds the claimed task's resolved location |
| `Agents.GameImplementationState.BuildClaimedMap` | rmmz_agents.py:380-417 | the store call for the claimed task, then its commit, as `WorldBuilderCommit` says. The store is called exactly when tools are set, and the call is `create_map` of the chosen location; the list tables are kept |
| `Agents.GameImplementationState.CreateLocationMap` | rmmz_agents.py:384-389 | `create_map` of a location's name, width, height and tileset: raises exactly when `MapInfos.json` is not an object, changing nothing; otherwise stores the next id's map info and a blank map of that size |
| `Agents.GameImplementationState.CommitMapTask` | rmmz_agents.py:391-417 | the commit or the failure mark, in place, as `WorldBuilderCommit` says |
| `Agents.GameImplementationState.RecordMapId` | rmmz_agents.py:394-398 | the new map id is written on the first location whose name is exactly the chosen location's, and nothing else changes |
| `Agents.GameImplementationState.CompleteMapTask` | rmmz_agents.py:400-413 | the task is completed with the map id as its result, the world builder's current task is cleared, the id goes on both completed lists, every entry with that id leaves the queue, and progress rises by one step |
| `Agents.GameImplementationState.EventEngineerProcess` | rmmz_agents.py:427-566 | updates the state in place as `EventEngineerAfter` says. It calls the store exactly when tools are set and the claimed task is `cutscene_creation`. The call stores the intro event on the first location's map. A first location without a map id fails with a `TypeError` and changes nothing. `MapInfos.json` and the list tables are always kept |
| `Agents.GameImplementationState.ClaimEventTask` | rmmz_agents.py:458-461 | claims the found task in place: in progress, assigned to the event engineer and its current task |
| `Agents.GameImplementationState.BuildClaimedCutscene` | rmmz_agents.py:504-564 | the store call for the claimed task, then its commit, as `EventEngineerCommit` says. The store is called exactly when tools are set and the task is `cutscene_creation`, and the call creates the intro cutscene on the first location's map |
| `Agents.GameImplementationState.CreateIntroCutscene` | rmmz_agents.py:507-536 | without a map id it raises a `TypeError` and changes nothing. Otherwise the event is created exactly when the map file exists and its keys parse. It goes under the fresh key of the next event id: the intro event at (5, 5), whose one autorun page holds the welcome message, the two text lines, the two-way choice and its four branch commands. Every other event and file is kept |
| `Agents.GameImplementationState.CommitCutsceneTask` | rmmz_agents.py:538-564 | the commit or the failure mark, in place, as `EventEngineerCommit` says |
| `Agents.GameImplementationState.CompleteCutsceneTask` | rmmz_agents.py:546-559 | the task is completed with the event and map ids as its result, the event engineer's current task is cleared, the id goes on both completed lists, every entry with that id leaves the queue, and progress rises by one step |
| `Agents.GameImplementationState.CombatSystemProcess` | rmmz_agents.py:574-590 | only creates the combat system's state when it is missing |
| `Agents.GameImplementationState.AssetManagerProcess` | rmmz_agents.py:598-613 | only creates the asset manager's state when it is missing |
| `Agents.GameImplementationState.TesterProcess` | rmmz_agents.py:621-636 | only creates the tester's state when it is missing |
| `Agents.GameImplementationState.Dispatch` | rmmz_agents.py:699-718 | runs the node the role names, as `DispatchAfter` says. The store is called exactly when tools are set and the role is a worker with a task to claim (a cutscene, for the event engineer). A call's effect on the store is that worker's `create_map` or `create_event`. Without a call the store is unchanged, and the list tables are always kept |
| `Agents.GameImplementationState.Step` | rmmz_agents.py:767-769 | the director node, then the node the router names, as `StepAfter` says. The routed node's store call and its effect are as `Dispatch` states them, taken after the director's update |
| `Agents.GameImplementationState.Run` | rmmz_agents.py:767-778 | at most `maxSteps` steps, and at least one whenever `maxSteps > 0`, because the first step is taken before the queue is tested, even when the queue starts empty. It stops at the first step that leaves the queue empty: every earlier step leaves it non-empty, and a run shorter than `maxSteps` ends with it empty. The final state is `StepsAfter` over the calls made, one per step, so history is kept. Without tools no call is made, so no task is completed. The list tables are kept |

## Left out

- **Prompt templates and the LLM chain** (`_run_llm_chain`): their output is only printed, never used for control flow.
- **The cutscene lookup.** The event engineer's search of `game_data.cutscenes` and its default cutscene dictionary only feed the prompt.
- **LangGraph wiring.** Graph construction and compilation are not modelled. The graph built at rmmz_agents.py:700-721 sets no entry point and no END node; every worker edge leads back to the director. The model reads one call of the compiled workflow as one step: the director node, then the node the router names.
- **Files.** The reads and writes of the JSON files, `.bak` backups and serialisation are left out. The tables are fields of `RecordStore`. A map file that is missing or empty is absent from `mapFiles`.
- **`print` logging.** The workflow `log` is never written by the core; it is only carried along.
- **Floating-point progress.** 0.1 steps are counted as integers, so rounding of repeated float additions is not modelled.
- **Fields the core never uses for control flow:**
  - `agent_assignments`, `implementation_progress`, `knowledge_base` and `working_data`;
  - the dictionaries kept by the other agent states;
  - `AgentTask.data`;
  - the game document's variables and switches, and the other fields of characters, quests, dialogues, cutscenes and battles;
  - a map's audio, battleback and parallax fields;
  - an event page's conditions, image and move route.
- **The director's lazy initialisation.** It is unreachable, because `director` is a required field.
- **Aliasing.** In the source the claimed task in the queue and the agent's `current_task` are one object. The model writes the same value to both.
- **Case mapping.** `str.lower` and `str.title` are modelled only for ASCII letters.
- **`int()` input.** `int(key)` on event keys is modelled only for an optional minus sign followed by decimal digits. Any other key, for example one with spaces or an underscore, counts as a key that raises.
- **`dict.get` defaults.**
  - A map-info or record object without an `"id"` field would count as id 0. The model's records always carry an id.
  - A map file without an `"events"` field is modelled as one with an empty event table.
- **Tables whose JSON shape is unexpected.**
  - A list table loaded as a dictionary is not modelled.
  - Neither is an `events` value that is a list.
  - A `MapInfos.json` that is not an object is modelled only as the error it causes in `create_map`.
- **The common event terminator.** The source appends it as `{"code": 0, "parameters": []}`, without an `indent` key. `Tools.CommonEventList` uses the end command with indent 0.
- **`get_common_event`.** The core never calls it.
- Run: its contract says nothing of the map files over a run; each call's effect on them is stated per step by `Step`. The demo outcome is stated on the step functions, by `DemoFirstStep` and `DemoSecondStep`.
- ChoiceCommandsDecode: it states the choice layout under the model's own reading of code 402, where the second parameter is the choice index. RPG Maker MZ reads the first parameter instead, which the source always sets to 0; that reading is stated by `ChoiceBranchesAllFirst` (see Findings).
- **The stored intro cutscene.** It keeps the message and choice commands as the source writes them, because it models the file the program writes. The corrected builders are not used by it.
- **Command indents and code 404.** The indent of commands inside a branch and the closing 404 command that RPG Maker MZ's editor writes after choice branches are not modelled.

## Findings

| source | as written | input that shows it | evidently intended | confidence | as-written member | corrected member |
|---|---|---|---|---|---|---|
| rmmz_tools.py:436-441 | `add_message_command` puts the text in the fifth parameter of code 101, which RPG Maker MZ shows as the speaker's name; the message's lines are the 401 commands after it | `add_message_command("Welcome to our game!", "Actor1", 0)` then two 401 lines shows "Welcome to our game!" as a name above those two lines | an empty name and the text as the first 401 line | not executed | `Tools.MessageTextIsSpeakerName` (with `Agents.IntroCutsceneMessageAsWritten`) | `Tools.MessageCommands` |
| rmmz_tools.py:464 | each When branch (402) is `[0, i]`, and RPG Maker MZ runs a branch when the choice taken equals its first parameter | `add_choice_command(["Yes, I'm ready!", "Tell me more first."])`: taking the second choice (index 1) matches no branch | `[i, choices[i]]` | not executed | `Tools.ChoiceBranchesAllFirst` | `Tools.ChoiceCommandsCorrected` |
| rmmz_tools.py:505 | the third parameter of command 121 is `value and 0 or 1`, and `0 or 1` is 1 as well, so it is always 1, which RPG Maker MZ reads as OFF | `add_change_switch_command(5, True)` builds `[5, 5, 1]`, turning switch 5 off | 0 for `True` (ON) and 1 for `False` (OFF) | not executed | `Tools.ChangeSwitchCommandAsWritten` (with `Tools.ChangeSwitchIgnoresValue`) | `Tools.ChangeSwitchCommand` |

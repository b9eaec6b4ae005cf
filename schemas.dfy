/** The records of the game-design document and of the agents' workflow
    state, with the defaults their Pydantic declarations give them, and the
    integer-valued enumerations of RPG Maker MZ. */
module Schemas {

  import opened Wrappers

  // ---------------------------------------------------------------------
  // Enumerations (`int, Enum`): each constructor has a fixed value, and
  // `FromValue` is Python's `Enum(n)`, which rejects any other integer.
  // ---------------------------------------------------------------------

  datatype TriggerType = ActionButton | PlayerTouch | EventTouch | Autorun | Parallel
  {
    function Value(): (n: int)
      ensures 0 <= n <= 4
    {
      match this
      case ActionButton => 0
      case PlayerTouch => 1
      case EventTouch => 2
      case Autorun => 3
      case Parallel => 4
    }
  }

  function TriggerTypeFromValue(n: int): (t: Option<TriggerType>)
    ensures t.Some? <==> 0 <= n <= 4
    ensures t.Some? ==> t.value.Value() == n
  {
    if n == 0 then Some(ActionButton)
    else if n == 1 then Some(PlayerTouch)
    else if n == 2 then Some(EventTouch)
    else if n == 3 then Some(Autorun)
    else if n == 4 then Some(Parallel)
    else None
  }

  datatype DamageType = NoDamage | HpDamage | MpDamage | HpRecover | MpRecover | HpDrain | MpDrain
  {
    function Value(): (n: int)
      ensures 0 <= n <= 6
    {
      match this
      case NoDamage => 0
      case HpDamage => 1
      case MpDamage => 2
      case HpRecover => 3
      case MpRecover => 4
      case HpDrain => 5
      case MpDrain => 6
    }
  }

  function DamageTypeFromValue(n: int): (t: Option<DamageType>)
    ensures t.Some? <==> 0 <= n <= 6
    ensures t.Some? ==> t.value.Value() == n
  {
    if n == 0 then Some(NoDamage)
    else if n == 1 then Some(HpDamage)
    else if n == 2 then Some(MpDamage)
    else if n == 3 then Some(HpRecover)
    else if n == 4 then Some(MpRecover)
    else if n == 5 then Some(HpDrain)
    else if n == 6 then Some(MpDrain)
    else None
  }

  datatype ItemScope =
    | NoScope | OneEnemy | AllEnemies | OneRandomEnemy | TwoRandomEnemies | ThreeRandomEnemies
    | OneAlly | AllAllies | OneAllyDead | AllAlliesDead | User | OneAllyWeaponEquipped
  {
    function Value(): (n: int)
      ensures 0 <= n <= 11
    {
      match this
      case NoScope => 0
      case OneEnemy => 1
      case AllEnemies => 2
      case OneRandomEnemy => 3
      case TwoRandomEnemies => 4
      case ThreeRandomEnemies => 5
      case OneAlly => 6
      case AllAllies => 7
      case OneAllyDead => 8
      case AllAlliesDead => 9
      case User => 10
      case OneAllyWeaponEquipped => 11
    }
  }

  function ItemScopeFromValue(n: int): (t: Option<ItemScope>)
    ensures t.Some? <==> 0 <= n <= 11
    ensures t.Some? ==> t.value.Value() == n
  {
    if n == 0 then Some(NoScope)
    else if n == 1 then Some(OneEnemy)
    else if n == 2 then Some(AllEnemies)
    else if n == 3 then Some(OneRandomEnemy)
    else if n == 4 then Some(TwoRandomEnemies)
    else if n == 5 then Some(ThreeRandomEnemies)
    else if n == 6 then Some(OneAlly)
    else if n == 7 then Some(AllAllies)
    else if n == 8 then Some(OneAllyDead)
    else if n == 9 then Some(AllAlliesDead)
    else if n == 10 then Some(User)
    else if n == 11 then Some(OneAllyWeaponEquipped)
    else None
  }

  datatype HitType = Certain | Physical | Magical
  {
    function Value(): (n: int)
      ensures 0 <= n <= 2
    {
      match this
      case Certain => 0
      case Physical => 1
      case Magical => 2
    }
  }

  function HitTypeFromValue(n: int): (t: Option<HitType>)
    ensures t.Some? <==> 0 <= n <= 2
    ensures t.Some? ==> t.value.Value() == n
  {
    if n == 0 then Some(Certain)
    else if n == 1 then Some(Physical)
    else if n == 2 then Some(Magical)
    else None
  }

  /** The values of an enumeration are distinct, so `Enum(member.value)`
      gives the member back. */
  lemma EnumRoundTrips(t: TriggerType, d: DamageType, s: ItemScope, h: HitType)
    ensures TriggerTypeFromValue(t.Value()) == Some(t)
    ensures DamageTypeFromValue(d.Value()) == Some(d)
    ensures ItemScopeFromValue(s.Value()) == Some(s)
    ensures HitTypeFromValue(h.Value()) == Some(h)
  {
  }

  // ---------------------------------------------------------------------
  // The game-design document
  // ---------------------------------------------------------------------

  datatype GameMetadata = GameMetadata(
    title: string,
    version: string,
    creator: string,
    description: string,
    resolutionWidth: int,
    resolutionHeight: int)

  /** `GameMetadata(title=...)`: version "1.0.0", 816x624. */
  function NewMetadata(title: string, creator: string, description: string): GameMetadata
  {
    GameMetadata(title, "1.0.0", creator, description, 816, 624)
  }

  datatype GameLocation = GameLocation(
    id: Option<int>,
    name: string,
    description: string,
    width: int,
    height: int,
    tilesetId: int,
    encounterRate: int,
    features: seq<string>,
    notes: string)

  /** `GameLocation(name=..., description=...)` with every other field at
      its default: no id, 20x15 tiles, tileset 1, encounter rate 30. */
  function NewLocation(name: string, description: string): GameLocation
  {
    GameLocation(None, name, description, 20, 15, 1, 30, [], "")
  }

  /** A location declared with only its name and description. */
  lemma LocationDefaults(name: string, description: string)
    ensures var l := NewLocation(name, description);
            && l.name == name && l.id == None
            && l.width == 20 && l.height == 15 && l.tilesetId == 1 && l.encounterRate == 30
            && l.features == [] && l.notes == ""
  {
  }

  datatype GameCharacter = GameCharacter(id: Option<int>, name: string, kind: string, level: int)
  datatype GameQuest = GameQuest(id: Option<int>, name: string, objectives: seq<string>)
  datatype DialogueData = DialogueData(id: Option<int>, speaker: string, text: seq<string>)
  datatype CutsceneData = CutsceneData(id: Option<int>, name: string, description: string)
  datatype BattleEncounter = BattleEncounter(id: Option<int>, name: string, troopId: Option<int>)

  datatype GameData = GameData(
    metadata: GameMetadata,
    locations: seq<GameLocation>,
    characters: seq<GameCharacter>,
    quests: seq<GameQuest>,
    dialogues: seq<DialogueData>,
    cutscenes: seq<CutsceneData>,
    battles: seq<BattleEncounter>)

  /** `GameDataSchema(metadata=...)`: only the metadata is required; every
      collection starts empty. */
  function NewGameData(metadata: GameMetadata): GameData
  {
    GameData(metadata, [], [], [], [], [], [])
  }

  // ---------------------------------------------------------------------
  // Tasks and agent states
  // ---------------------------------------------------------------------

  /** The four status strings a task goes through. */
  datatype Status = Pending | InProgress | Completed | Failed
  {
    function Name(): string
    {
      match this
      case Pending => "pending"
      case InProgress => "in_progress"
      case Completed => "completed"
      case Failed => "failed"
    }
  }

  /** The `result` dictionaries the two working agents write. */
  datatype TaskResult =
    | MapCreated(mapId: int)                 // {"map_id": ...}
    | EventCreated(eventId: int, mapId: int) // {"event_id": ..., "map_id": ...}

  datatype Task = Task(
    id: string,
    kind: string,                 // the source's `type`
    description: string,
    priority: int,
    dependencies: seq<string>,
    status: Status,
    assignedTo: Option<string>,
    result: Option<TaskResult>)

  /** `AgentTask(id=..., type=..., description=...)`: priority 1, no
      dependencies, pending, unassigned, no result. */
  function NewTask(id: string, kind: string, description: string): Task
  {
    Task(id, kind, description, 1, [], Pending, None, None)
  }

  /** The fields every agent state shares (`AgentState`). */
  datatype AgentState = AgentState(
    agentId: string,
    agentType: string,
    currentTask: Option<Task>,
    completedTasks: seq<string>)

  /** `AgentState(agent_id=..., agent_type=...)`: no current task, nothing completed. */
  function NewAgentState(agentId: string, agentType: string): AgentState
  {
    AgentState(agentId, agentType, None, [])
  }

  /** A task created with id, type and description alone is pending,
      unassigned, of priority 1, depends on nothing and has no result; an
      agent state starts with no current task and nothing completed. */
  lemma TaskAndAgentDefaults(id: string, kind: string, description: string, agentId: string, agentType: string)
    ensures var t := NewTask(id, kind, description);
            && t.status == Pending && t.status.Name() == "pending"
            && t.priority == 1 && t.dependencies == [] && t.assignedTo == None && t.result == None
    ensures var a := NewAgentState(agentId, agentType);
            a.currentTask == None && a.completedTasks == []
  {
  }

  datatype DirectorState = DirectorState(agent: AgentState, taskQueue: seq<Task>)

  /** The record the event engineer appends to `events_created`. */
  datatype CreatedEvent = CreatedEvent(id: int, mapId: int, name: string, kind: string)

  datatype WorldBuilderState = WorldBuilderState(agent: AgentState, mapsCreated: seq<int>)

  datatype EventEngineerState = EventEngineerState(agent: AgentState, eventsCreated: seq<CreatedEvent>)

  /** One entry of the workflow log; the core never writes one. */
  datatype LogEntry = LogEntry(event: string, detail: string)

}

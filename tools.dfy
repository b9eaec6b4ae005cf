/** The record-store facade: event-command builders, and the in-memory
    part of the tables of an RPG Maker MZ project (map infos, map files,
    actors, classes, skills, enemies, common events) with their monotonic
    integer id allocation. Reading and writing the JSON files is not modelled:
    the tables are the values the files held when they were loaded. */
module Tools {

  import opened Wrappers
  import opened Text

  // ---------------------------------------------------------------------
  // Event commands
  // ---------------------------------------------------------------------

  /** A JSON value that occurs in a command's parameter list. */
  datatype Param = PInt(i: int) | PStr(s: string) | PStrs(items: seq<string>)

  /** `EventCommand`: a code, its parameters and an indent (default 0). */
  datatype EventCommand = EventCommand(code: int, parameters: seq<Param>, indent: int)

  /** What each builder means its command to say, read off the command's
      code and the parameter layout the builders write. This is the
      model's own reading of those layouts, not RPG Maker MZ's interpreter:
      for codes 101 and 402 the interpreter reads the parameters
      differently (`MzReadMessage` and `MzBranchChoice` below). For code
      121 the third parameter selects ON with 0 and OFF with 1, as in
      RPG Maker MZ. */
  datatype Instruction =
    | EndProcessing
    | ShowText(faceName: string, faceIndex: int, background: int, position: int, text: string)
    | TextLine(text: string)
    | ShowChoices(choices: seq<string>, cancelType: int)
    | WhenChoice(branch: int)
    | WhenCancel
    | ControlSwitches(first: int, last: int, turnOn: bool)
    | ControlVariables(first: int, last: int, operation: int, operandType: int, operand: Param)
    | ConditionalBranch(conditionType: int, param1: int, param2: int)
    | ElseBranch
    | EndBranch

  /** The command layout for each instruction (indent 0). */
  function Encode(ins: Instruction): EventCommand
  {
    match ins
    case EndProcessing => EventCommand(0, [], 0)
    case ShowText(f, i, b, p, t) => EventCommand(101, [PStr(f), PInt(i), PInt(b), PInt(p), PStr(t)], 0)
    case TextLine(t) => EventCommand(401, [PStr(t)], 0)
    case ShowChoices(cs, ct) => EventCommand(102, [PStrs(cs), PInt(ct)], 0)
    case WhenChoice(k) => EventCommand(402, [PInt(0), PInt(k)], 0)
    case WhenCancel => EventCommand(403, [], 0)
    case ControlSwitches(a, b, on) => EventCommand(121, [PInt(a), PInt(b), PInt(if on then 0 else 1)], 0)
    case ControlVariables(a, b, op, ot, v) => EventCommand(122, [PInt(a), PInt(b), PInt(op), PInt(ot), v], 0)
    case ConditionalBranch(t, p1, p2) => EventCommand(111, [PInt(t), PInt(p1), PInt(p2)], 0)
    case ElseBranch => EventCommand(411, [], 0)
    case EndBranch => EventCommand(412, [], 0)
  }

  /** Reads a command back as its builder means it; `None` for a layout no
      builder produces. */
  function Decode(c: EventCommand): (r: Option<Instruction>)
  {
    if c.indent != 0 then None
    else
      var p := c.parameters;
      if c.code == 0 && p == [] then Some(EndProcessing)
      else if c.code == 101 && |p| == 5 && p[0].PStr? && p[1].PInt? && p[2].PInt? && p[3].PInt? && p[4].PStr? then
        Some(ShowText(p[0].s, p[1].i, p[2].i, p[3].i, p[4].s))
      else if c.code == 401 && |p| == 1 && p[0].PStr? then Some(TextLine(p[0].s))
      else if c.code == 102 && |p| == 2 && p[0].PStrs? && p[1].PInt? then Some(ShowChoices(p[0].items, p[1].i))
      else if c.code == 402 && |p| == 2 && p[0] == PInt(0) && p[1].PInt? then Some(WhenChoice(p[1].i))
      else if c.code == 403 && p == [] then Some(WhenCancel)
      else if c.code == 121 && |p| == 3 && p[0].PInt? && p[1].PInt? && (p[2] == PInt(0) || p[2] == PInt(1)) then
        Some(ControlSwitches(p[0].i, p[1].i, p[2] == PInt(0)))
      else if c.code == 122 && |p| == 5 && p[0].PInt? && p[1].PInt? && p[2].PInt? && p[3].PInt? then
        Some(ControlVariables(p[0].i, p[1].i, p[2].i, p[3].i, p[4]))
      else if c.code == 111 && |p| == 3 && p[0].PInt? && p[1].PInt? && p[2].PInt? then
        Some(ConditionalBranch(p[0].i, p[1].i, p[2].i))
      else if c.code == 411 && p == [] then Some(ElseBranch)
      else if c.code == 412 && p == [] then Some(EndBranch)
      else None
  }

  /** Encoding loses nothing: decoding gives the instruction back. */
  lemma DecodeEncode(ins: Instruction)
    ensures Decode(Encode(ins)) == Some(ins)
  {
  }

  /** Decoding loses nothing: a command that decodes is the encoding of
      what it decodes to. */
  lemma EncodeDecode(c: EventCommand)
    requires Decode(c).Some?
    ensures Encode(Decode(c).value) == c
  {
    var p := c.parameters;
    if c.code == 101 {
      assert p == [p[0], p[1], p[2], p[3], p[4]];
    } else if c.code == 401 {
      assert p == [p[0]];
    } else if c.code == 102 || c.code == 402 {
      assert p == [p[0], p[1]];
    } else if c.code == 121 || c.code == 111 {
      assert p == [p[0], p[1], p[2]];
    } else if c.code == 122 {
      assert p == [p[0], p[1], p[2], p[3], p[4]];
    }
  }

  function EndCommand(): (c: EventCommand)
    ensures Decode(c) == Some(EndProcessing)
  {
    EventCommand(0, [], 0)
  }

  /** `add_message_command`: code 101, face, face index, background 0,
      position 0, then the text. */
  function MessageCommand(text: string, faceName: string, faceIndex: int): (c: EventCommand)
    ensures Decode(c) == Some(ShowText(faceName, faceIndex, 0, 0, text))
  {
    EventCommand(101, [PStr(faceName), PInt(faceIndex), PInt(0), PInt(0), PStr(text)], 0)
  }

  /** `add_text_command`: code 401 with the one line of text. */
  function TextCommand(text: string): (c: EventCommand)
    ensures Decode(c) == Some(TextLine(text))
  {
    EventCommand(401, [PStr(text)], 0)
  }

  /** `add_change_variable_command`: code 122 over the single variable
      `variableId`, operand type 0 (a constant). */
  function ChangeVariableCommand(variableId: int, operation: int, value: Param): (c: EventCommand)
    ensures Decode(c) == Some(ControlVariables(variableId, variableId, operation, 0, value))
  {
    EventCommand(122, [PInt(variableId), PInt(variableId), PInt(operation), PInt(0), value], 0)
  }

  /** Python's `a and b` and `a or b` on values whose truth is "non-zero"
      (`False` is 0, `True` is 1). */
  function PyAnd(a: int, b: int): int { if a != 0 then b else a }

  function PyOr(a: int, b: int): int { if a != 0 then a else b }

  /** `add_change_switch_command` as written: the operand is
      `value and 0 or 1`, which is 1 for both truth values. */
  function ChangeSwitchCommandAsWritten(switchId: int, value: bool): (c: EventCommand)
    ensures Decode(c) == Some(ControlSwitches(switchId, switchId, false))
  {
    EventCommand(121, [PInt(switchId), PInt(switchId), PInt(PyOr(PyAnd(if value then 1 else 0, 0), 1))], 0)
  }

  /** The as-written builder ignores `value`: asking to turn a switch ON
      produces the same command as asking to turn it OFF. */
  lemma ChangeSwitchIgnoresValue(switchId: int)
    ensures ChangeSwitchCommandAsWritten(switchId, true) == ChangeSwitchCommandAsWritten(switchId, false)
    ensures Decode(ChangeSwitchCommandAsWritten(switchId, true)).value.turnOn == false
  {
  }

  /** The builder as evidently intended (`0 if value else 1`): the command
      sets the switch to `value`. */
  function ChangeSwitchCommand(switchId: int, value: bool): (c: EventCommand)
    ensures Decode(c) == Some(ControlSwitches(switchId, switchId, value))
  {
    EventCommand(121, [PInt(switchId), PInt(switchId), PInt(if value then 0 else 1)], 0)
  }

  /** `add_conditional_branch`: code 111. */
  function ConditionalBranchCommand(conditionType: int, param1: int, param2: int): (c: EventCommand)
    ensures Decode(c) == Some(ConditionalBranch(conditionType, param1, param2))
  {
    EventCommand(111, [PInt(conditionType), PInt(param1), PInt(param2)], 0)
  }

  /** `add_else_branch` and `add_end_branch`: codes 411 and 412. */
  function ElseBranchCommand(): (c: EventCommand)
    ensures Decode(c) == Some(ElseBranch)
  {
    EventCommand(411, [], 0)
  }

  function EndBranchCommand(): (c: EventCommand)
    ensures Decode(c) == Some(EndBranch)
  {
    EventCommand(412, [], 0)
  }

  /** `add_choice_command`: the Show Choices command, then for each choice
      `i` a "When" branch with parameters [0, i] followed by an end command,
      then, when `cancelType > 0`, a "When Cancel" branch and an end command. */
  method ChoiceCommands(choices: seq<string>, cancelType: int) returns (commands: seq<EventCommand>)
    ensures |commands| == 1 + 2 * |choices| + (if cancelType > 0 then 2 else 0)
    ensures commands[0] == EventCommand(102, [PStrs(choices), PInt(cancelType)], 0)
    ensures forall i :: 0 <= i < |choices| ==>
              commands[1 + 2 * i] == EventCommand(402, [PInt(0), PInt(i)], 0) &&
              commands[2 + 2 * i] == EndCommand()
    ensures cancelType > 0 ==>
              commands[1 + 2 * |choices|] == EventCommand(403, [], 0) &&
              commands[2 + 2 * |choices|] == EndCommand()
  {
    commands := [EventCommand(102, [PStrs(choices), PInt(cancelType)], 0)];
    var i := 0;
    while i < |choices|
      invariant 0 <= i <= |choices|
      invariant |commands| == 1 + 2 * i
      invariant commands[0] == EventCommand(102, [PStrs(choices), PInt(cancelType)], 0)
      invariant forall j :: 0 <= j < i ==>
                  commands[1 + 2 * j] == EventCommand(402, [PInt(0), PInt(j)], 0) &&
                  commands[2 + 2 * j] == EndCommand()
    {
      commands := commands + [EventCommand(402, [PInt(0), PInt(i)], 0)];
      commands := commands + [EndCommand()];
      i := i + 1;
    }
    if cancelType > 0 {
      commands := commands + [EventCommand(403, [], 0)];
      commands := commands + [EndCommand()];
    }
  }

  /** Under the model's reading, the choice builder's layout is the
      choices followed, for choice `i`, by a branch whose second parameter
      is `i`. */
  lemma ChoiceCommandsDecode(choices: seq<string>, cancelType: int, commands: seq<EventCommand>, i: int)
    requires |commands| == 1 + 2 * |choices| + (if cancelType > 0 then 2 else 0)
    requires commands[0] == EventCommand(102, [PStrs(choices), PInt(cancelType)], 0)
    requires 0 <= i < |choices|
    requires commands[1 + 2 * i] == EventCommand(402, [PInt(0), PInt(i)], 0)
    ensures Decode(commands[0]) == Some(ShowChoices(choices, cancelType))
    ensures Decode(commands[1 + 2 * i]) == Some(WhenChoice(i))
  {
  }

  // ---------------------------------------------------------------------
  // Two layouts as RPG Maker MZ's interpreter reads them
  // ---------------------------------------------------------------------

  /** A message as RPG Maker MZ shows it. Show Text (101) carries face
      name, face index, background, position and the speaker's name; the
      lines of the message are the Text Data (401) commands after it. */
  datatype MzMessage = MzMessage(faceName: string, faceIndex: int, speaker: string, lines: seq<string>)

  /** The lines of the 401 commands at the head of `list`. */
  function MzLines(list: seq<EventCommand>): (lines: seq<string>)
    ensures |lines| <= |list|
    ensures forall j :: 0 <= j < |lines| ==>
              list[j].code == 401 && |list[j].parameters| >= 1 && list[j].parameters[0] == PStr(lines[j])
  {
    if |list| > 0 && list[0].code == 401 && |list[0].parameters| >= 1 && list[0].parameters[0].PStr? then
      [list[0].parameters[0].s] + MzLines(list[1..])
    else []
  }

  /** The message shown by a list whose head is a Show Text command. */
  function MzReadMessage(list: seq<EventCommand>): (m: Option<MzMessage>)
    ensures m.Some? ==> |list| > 0 && list[0].code == 101
    ensures m.Some? ==> m.value.lines == MzLines(list[1..])
  {
    if |list| > 0 && list[0].code == 101 && |list[0].parameters| == 5
       && list[0].parameters[0].PStr? && list[0].parameters[1].PInt? && list[0].parameters[4].PStr?
    then
      var p := list[0].parameters;
      Some(MzMessage(p[0].s, p[1].i, p[4].s, MzLines(list[1..])))
    else None
  }

  /** As written, `add_message_command` puts its text where RPG Maker MZ
      takes the speaker's name: the message shows the text as the name
      and only the lines that follow as its body, so on its own the
      command shows no line at all. */
  lemma MessageTextIsSpeakerName(text: string, faceName: string, faceIndex: int, rest: seq<EventCommand>)
    ensures MzReadMessage([MessageCommand(text, faceName, faceIndex)] + rest)
              == Some(MzMessage(faceName, faceIndex, text, MzLines(rest)))
    ensures MzReadMessage([MessageCommand(text, faceName, faceIndex)]) == Some(MzMessage(faceName, faceIndex, text, []))
  {
    assert ([MessageCommand(text, faceName, faceIndex)] + rest)[1..] == rest;
    assert [MessageCommand(text, faceName, faceIndex)][1..] == [];
  }

  /** The message builder as evidently intended: a Show Text command with
      no speaker's name, and the text as the message's first line. */
  function MessageCommands(text: string, faceName: string, faceIndex: int): (cs: seq<EventCommand>)
    ensures MzReadMessage(cs) == Some(MzMessage(faceName, faceIndex, "", [text]))
  {
    var cs := [EventCommand(101, [PStr(faceName), PInt(faceIndex), PInt(0), PInt(0), PStr("")], 0), TextCommand(text)];
    assert cs[1..] == [EventCommand(401, [PStr(text)], 0)];
    assert cs[1..][1..] == [];
    assert MzLines(cs[1..]) == [text];
    cs
  }

  /** The corrected message keeps the lines that follow it after its text. */
  lemma MessageCommandsShowText(text: string, faceName: string, faceIndex: int, rest: seq<EventCommand>)
    ensures MzReadMessage(MessageCommands(text, faceName, faceIndex) + rest)
              == Some(MzMessage(faceName, faceIndex, "", [text] + MzLines(rest)))
  {
    var list := MessageCommands(text, faceName, faceIndex) + rest;
    assert list[1..][1..] == rest;
  }

  /** The choice a When branch (402) belongs to, as RPG Maker MZ reads it:
      the branch runs when the index of the choice taken equals its first
      parameter. */
  function MzBranchChoice(c: EventCommand): (k: Option<int>)
    ensures k.Some? ==> c.code == 402 && |c.parameters| >= 1 && c.parameters[0] == PInt(k.value)
  {
    if c.code == 402 && |c.parameters| >= 1 && c.parameters[0].PInt? then Some(c.parameters[0].i) else None
  }

  /** As written, every branch `add_choice_command` lays out belongs to the
      first choice: from the second choice on, no branch carries its index. */
  lemma ChoiceBranchesAllFirst(choices: seq<string>, commands: seq<EventCommand>, i: int)
    requires |commands| >= 1 + 2 * |choices|
    requires forall j :: 0 <= j < |choices| ==> commands[1 + 2 * j] == EventCommand(402, [PInt(0), PInt(j)], 0)
    requires 0 <= i < |choices|
    ensures MzBranchChoice(commands[1 + 2 * i]) == Some(0)
    ensures i > 0 ==> forall j :: 0 <= j < |choices| ==> MzBranchChoice(commands[1 + 2 * j]) != Some(i)
  {
    assert commands[1 + 2 * i] == EventCommand(402, [PInt(0), PInt(i)], 0);
    forall j | 0 <= j < |choices|
      ensures MzBranchChoice(commands[1 + 2 * j]) == Some(0)
    {
      assert commands[1 + 2 * j] == EventCommand(402, [PInt(0), PInt(j)], 0);
    }
  }

  /** The choice builder as evidently intended: branch `i` carries
      `[i, choices[i]]`, the layout RPG Maker MZ's editor writes, and so
      belongs to choice `i`. */
  method ChoiceCommandsCorrected(choices: seq<string>, cancelType: int) returns (commands: seq<EventCommand>)
    ensures |commands| == 1 + 2 * |choices| + (if cancelType > 0 then 2 else 0)
    ensures commands[0] == EventCommand(102, [PStrs(choices), PInt(cancelType)], 0)
    ensures forall i :: 0 <= i < |choices| ==>
              commands[1 + 2 * i] == EventCommand(402, [PInt(i), PStr(choices[i])], 0) &&
              commands[2 + 2 * i] == EndCommand()
    ensures forall i :: 0 <= i < |choices| ==> MzBranchChoice(commands[1 + 2 * i]) == Some(i)
    ensures cancelType > 0 ==>
              commands[1 + 2 * |choices|] == EventCommand(403, [], 0) &&
              commands[2 + 2 * |choices|] == EndCommand()
  {
    commands := [EventCommand(102, [PStrs(choices), PInt(cancelType)], 0)];
    var i := 0;
    while i < |choices|
      invariant 0 <= i <= |choices|
      invariant |commands| == 1 + 2 * i
      invariant commands[0] == EventCommand(102, [PStrs(choices), PInt(cancelType)], 0)
      invariant forall j :: 0 <= j < i ==>
                  commands[1 + 2 * j] == EventCommand(402, [PInt(j), PStr(choices[j])], 0) &&
                  commands[2 + 2 * j] == EndCommand()
    {
      commands := commands + [EventCommand(402, [PInt(i), PStr(choices[i])], 0)];
      commands := commands + [EndCommand()];
      i := i + 1;
    }
    if cancelType > 0 {
      commands := commands + [EventCommand(403, [], 0)];
      commands := commands + [EndCommand()];
    }
  }

  /** The command list of a common event: the given commands followed by
      exactly one end command. */
  function CommonEventList(commands: seq<EventCommand>): (list: seq<EventCommand>)
    ensures |list| == |commands| + 1
    ensures list[..|commands|] == commands
    ensures Decode(list[|commands|]) == Some(EndProcessing)
  {
    commands + [EndCommand()]
  }

  // ---------------------------------------------------------------------
  // Event pages and map data
  // ---------------------------------------------------------------------

  /** `EventPage`; its `conditions`, `image` and `move_route` dictionaries
      are not modelled. */
  datatype EventPage = EventPage(
    moveType: int,
    moveSpeed: int,
    moveFrequency: int,
    walkAnime: bool,
    stepAnime: bool,
    directionFix: bool,
    through: bool,
    priorityType: int,
    trigger: int,
    list: seq<EventCommand>)

  /** A page with the given trigger and commands, every other field at
      the `EventPage` default: fixed, speed 3, frequency 3, walking
      animation on, same priority as characters. */
  function NewEventPage(trigger: int, list: seq<EventCommand>): (p: EventPage)
    ensures p.trigger == trigger && p.list == list
    ensures p.moveType == 0 && p.moveSpeed == 3 && p.moveFrequency == 3 && p.priorityType == 1
    ensures p.walkAnime && !p.stepAnime && !p.directionFix && !p.through
  {
    EventPage(0, 3, 3, true, false, false, false, 1, trigger, list)
  }

  /** The page `create_event` supplies when it is given none: triggered
      by the action button, its one command ending the event. */
  function DefaultEventPage(): (p: EventPage)
    ensures p == NewEventPage(0, p.list) && p.trigger == 0
    ensures |p.list| == 1 && Decode(p.list[0]) == Some(EndProcessing)
  {
    NewEventPage(0, [EndCommand()])
  }

  datatype MapEvent = MapEvent(id: int, name: string, note: string, pages: seq<EventPage>, x: int, y: int)

  /** One `MapXXX.json` file. */
  datatype MapData = MapData(
    displayName: string,
    encounterStep: int,
    width: int,
    height: int,
    tilesetId: int,
    data: seq<int>,
    events: map<string, MapEvent>)

  /** `[0] * (width * height * 6)`: Python repeats a list zero times for
      any count below one. */
  function TileCount(width: int, height: int): (n: nat)
    ensures width * height * 6 > 0 ==> n == width * height * 6
    ensures width * height * 6 <= 0 ==> n == 0
  {
    if width * height * 6 > 0 then width * height * 6 else 0
  }

  function NewMapData(width: int, height: int, tilesetId: int): (m: MapData)
    ensures |m.data| == TileCount(width, height)
    ensures forall i :: 0 <= i < |m.data| ==> m.data[i] == 0
    ensures m.events == map[]
  {
    MapData("", 30, width, height, tilesetId, seq(TileCount(width, height), _ => 0), map[])
  }

  /** `f"Map{map_id:03d}.json"`: the id in its middle reads back as the map id. */
  function MapFileName(mapId: int): (name: string)
    ensures |name| >= 11 && name[..3] == "Map" && name[|name| - 5..] == ".json"
    ensures ParseInt(name[3..|name| - 5]) == Some(mapId)
  {
    var name := "Map" + Format03d(mapId) + ".json";
    assert name[3..|name| - 5] == Format03d(mapId);
    ParseFormat03d(mapId);
    name
  }

  /** Distinct map ids name distinct files, so keying the map files by
      file name loses nothing. */
  lemma MapFileNameInjective(a: int, b: int)
    requires MapFileName(a) == MapFileName(b)
    ensures a == b
  {
    var na, nb := MapFileName(a), MapFileName(b);
    assert Format03d(a) == na[3..|na| - 5];
    assert Format03d(b) == nb[3..|nb| - 5];
    Format03dInjective(a, b);
  }

  datatype MapInfo = MapInfo(
    id: int,
    name: string,
    expanded: bool,
    order: int,
    parentId: int,
    scrollX: int,
    scrollY: int)

  /** The `MapInfos.json` entry of a new map: a top-level, expanded map
      ordered by its id. */
  function NewMapInfo(id: int, name: string): (info: MapInfo)
    ensures info.id == id && info.name == name && info.order == id
    ensures info.parentId == 0 && info.expanded && info.scrollX == 0 && info.scrollY == 0
  {
    MapInfo(id, name, true, id, 0, 0, 0)
  }

  /** `MapInfos.json` as loaded: a JSON object whose values are either
      map-info objects (`Some`) or something else such as `null` (`None`),
      or a document that is not an object at all. */
  datatype MapInfoTable =
    | InfoObject(entries: map<string, Option<MapInfo>>)
    | InfoNotObject

  // ---------------------------------------------------------------------
  // Id allocation
  // ---------------------------------------------------------------------

  /** `next` is `max(ids) + 1`, or 1 when there are no ids. */
  ghost predicate IsNextId(ids: set<int>, next: int)
  {
    && (ids == {} ==> next == 1)
    && (ids != {} ==> next - 1 in ids)
    && (forall x :: x in ids ==> x < next)
  }

  /** The specification leaves no choice: there is one next id. */
  lemma IsNextIdUnique(ids: set<int>, a: int, b: int)
    requires IsNextId(ids, a) && IsNextId(ids, b)
    ensures a == b
  {
    if ids != {} {
      assert a - 1 < b && b - 1 < a;
    }
  }

  /** `max(ids) + 1 if ids else 1` over a list of ids. */
  function NextId(ids: seq<int>): (next: int)
    ensures ids == [] ==> next == 1
    ensures ids != [] ==> next - 1 in ids
    ensures forall x :: x in ids ==> x < next
  {
    if ids == [] then 1
    else if |ids| == 1 then ids[0] + 1
    else
      var rest := NextId(ids[1..]);
      assert ids == [ids[0]] + ids[1..];
      if ids[0] + 1 > rest then ids[0] + 1 else rest
  }

  /** `max(ids) + 1 if ids else 1` over the ids of a dictionary's values,
      which come in no particular order. */
  method NextIdOf(ids: set<int>) returns (next: int)
    ensures IsNextId(ids, next)
  {
    if ids == {} {
      return 1;
    }
    HasElement(ids);
    var largest :| largest in ids;
    var rest := ids - {largest};
    while rest != {}
      invariant rest <= ids
      invariant largest in ids
      invariant forall y :: y in ids && y !in rest ==> y <= largest
      decreases rest
    {
      HasElement(rest);
      var pick :| pick in rest;
      if pick > largest {
        largest := pick;
      }
      rest := rest - {pick};
    }
    next := largest + 1;
  }

  lemma EmptyWithoutElements(s: set<int>)
    requires forall y :: y !in s
    ensures s == {}
  {
    assert forall y :: y in s <==> y in {};
  }

  /** A non-empty set has an element to pick. */
  lemma HasElement(s: set<int>)
    requires s != {}
    ensures exists y :: y in s
  {
    if forall y :: y !in s {
      EmptyWithoutElements(s);
      assert false;
    }
  }

  /** `[r.get('id', 0) for r in table if isinstance(r, dict)]`. */
  function TableIds<T>(table: seq<Option<T>>, idOf: T -> int): (ids: seq<int>)
    ensures forall k :: 0 <= k < |table| && table[k].Some? ==> idOf(table[k].value) in ids
    ensures forall x :: x in ids ==> exists k :: 0 <= k < |table| && table[k].Some? && idOf(table[k].value) == x
  {
    if table == [] then []
    else
      var rest := TableIds(table[1..], idOf);
      assert forall k :: 1 <= k < |table| ==> table[k] == table[1..][k - 1];
      if table[0].Some? then [idOf(table[0].value)] + rest else rest
  }

  /** The id a list table allocates next: above every record's id, 1 for a
      table without records, otherwise one more than the largest id. */
  function NextTableId<T>(table: seq<Option<T>>, idOf: T -> int): (next: int)
    ensures forall k :: 0 <= k < |table| && table[k].Some? ==> idOf(table[k].value) < next
    ensures (forall k :: 0 <= k < |table| ==> table[k].None?) ==> next == 1
    ensures (exists k :: 0 <= k < |table| && table[k].Some?) ==>
              exists k :: 0 <= k < |table| && table[k].Some? && idOf(table[k].value) == next - 1
  {
    var ids := TableIds(table, idOf);
    assert ids != [] ==> ids[0] in ids;
    NextId(ids)
  }

  /** The ids of the map-info objects in `MapInfos.json`. */
  function InfoIds(entries: map<string, Option<MapInfo>>): set<int>
  {
    set k | k in entries && entries[k].Some? :: entries[k].value.id
  }

  /** Every key `int(k)` accepts: all keys but "null" are integers. */
  predicate EventKeysParse(events: map<string, MapEvent>)
  {
    forall k :: k in events && k != "null" ==> ParseInt(k).Some?
  }

  function EventKeyIds(events: map<string, MapEvent>): set<int>
  {
    set k | k in events && k != "null" && ParseInt(k).Some? :: ParseInt(k).value
  }

  /** The key `str(next_id)` under which `create_event` stores its event
      is not yet taken, so no existing event is overwritten. */
  lemma NewEventKeyFresh(events: map<string, MapEvent>, next: int)
    requires EventKeysParse(events)
    requires IsNextId(EventKeyIds(events), next)
    ensures IntToString(next) !in events
  {
    var key := IntToString(next);
    ParseIntToString(next);
    assert key != "null" by { assert key[0] != 'n'; }
    assert key in events ==> next in EventKeyIds(events);
  }

  /** When every map-info object sits under the key `str(id)`, the key
      `create_map` writes is new, so it adds exactly one entry. */
  lemma NewMapInfoKeyFresh(entries: map<string, Option<MapInfo>>, next: int)
    requires forall k :: k in entries ==> entries[k].Some? && k == IntToString(entries[k].value.id)
    requires IsNextId(InfoIds(entries), next)
    ensures IntToString(next) !in entries
    ensures |entries[IntToString(next) := Some(NewMapInfo(next, ""))]| == |entries| + 1
  {
    var key := IntToString(next);
    if key in entries {
      var id := entries[key].value.id;
      assert id in InfoIds(entries);
      ParseIntToString(next);
      ParseIntToString(id);
      assert false;
    }
  }

  // ---------------------------------------------------------------------
  // Database records
  // ---------------------------------------------------------------------

  datatype ActorRecord = ActorRecord(
    id: int, name: string, nickname: string, classId: int, initialLevel: int, maxLevel: int,
    characterName: string, characterIndex: int, faceName: string, faceIndex: int,
    battlerName: string, equips: seq<int>, profile: string)

  function ActorId(a: ActorRecord): int { a.id }

  /** A new actor: max level 99, five empty equipment slots, and no
      nickname, graphics or profile. */
  function NewActor(id: int, name: string, classId: int, initialLevel: int): (a: ActorRecord)
    ensures ActorId(a) == id && a.name == name && a.classId == classId && a.initialLevel == initialLevel
    ensures a.maxLevel == 99 && a.equips == [0, 0, 0, 0, 0]
    ensures a.nickname == "" && a.characterName == "" && a.characterIndex == 0
    ensures a.faceName == "" && a.faceIndex == 0 && a.battlerName == "" && a.profile == ""
  {
    ActorRecord(id, name, "", classId, initialLevel, 99, "", 0, "", 0, "", [0, 0, 0, 0, 0], "")
  }

  datatype ClassRecord = ClassRecord(id: int, name: string, expParams: seq<int>, params: seq<seq<int>>)

  function ClassId(c: ClassRecord): int { c.id }

  /** `[[1, 1, 1, 1, 1, 1, 1, 1]] * 100`. */
  function DefaultClassParams(): (p: seq<seq<int>>)
    ensures |p| == 100 && forall i :: 0 <= i < 100 ==> p[i] == [1, 1, 1, 1, 1, 1, 1, 1]
  {
    seq(100, _ => [1, 1, 1, 1, 1, 1, 1, 1])
  }

  /** A new class: experience curve [30, 20, 30, 30] and 100 levels of
      all-ones parameters. */
  function NewClass(id: int, name: string): (c: ClassRecord)
    ensures ClassId(c) == id && c.name == name && c.expParams == [30, 20, 30, 30]
    ensures |c.params| == 100 && forall i :: 0 <= i < 100 ==> c.params[i] == [1, 1, 1, 1, 1, 1, 1, 1]
  {
    ClassRecord(id, name, [30, 20, 30, 30], DefaultClassParams())
  }

  datatype Damage = Damage(critical: bool, elementId: int, formula: string, damageType: int, variance: int)

  datatype SkillRecord = SkillRecord(
    id: int, name: string, description: string, iconIndex: int, mpCost: int, tpCost: int,
    message1: string, message2: string, requiredWtypeId1: int, requiredWtypeId2: int,
    scope: int, occasion: int, speed: int, successRate: int, hitType: int, animationId: int,
    damage: Damage, note: string)

  function SkillId(s: SkillRecord): int { s.id }

  /** A new skill: one enemy, battle only, a sure physical hit with
      animation 1, and critical damage of the given type and formula with
      variance 20. */
  function NewSkill(id: int, name: string, description: string, mpCost: int, damageType: int,
                    formula: string, iconIndex: int): (k: SkillRecord)
    ensures SkillId(k) == id && k.name == name && k.description == description
    ensures k.iconIndex == iconIndex && k.mpCost == mpCost && k.tpCost == 0
    ensures k.message1 == "%1 uses %2!" && k.message2 == ""
    ensures k.requiredWtypeId1 == 0 && k.requiredWtypeId2 == 0
    ensures k.scope == 1 && k.occasion == 1 && k.speed == 0 && k.successRate == 100
    ensures k.hitType == 1 && k.animationId == 1 && k.note == ""
    ensures k.damage == Damage(true, 0, formula, damageType, 20)
  {
    SkillRecord(id, name, description, iconIndex, mpCost, 0, "%1 uses %2!", "", 0, 0,
                1, 1, 0, 100, 1, 1, Damage(true, 0, formula, damageType, 20), "")
  }

  datatype EnemyAction = EnemyAction(conditionParam1: int, conditionParam2: int, conditionType: int,
                                     rating: int, skillId: int)

  datatype DropItem = DropItem(dataId: int, denominator: int, kind: int)

  datatype EnemyRecord = EnemyRecord(
    id: int, name: string, battlerName: string, battlerHue: int, exp: int, gold: int,
    params: seq<int>, actions: seq<EnemyAction>, dropItems: seq<DropItem>, note: string)

  function EnemyId(e: EnemyRecord): int { e.id }

  /** A new enemy. Parameters are in the order HP, MP, ATK, DEF, MAT,
      MDF, AGI, LUK; its one action is skill 1 at rating 5, always; it has
      three drop slots of item 1 at rate 1 and kind 0. */
  function NewEnemy(id: int, name: string, maxHp: int, attack: int, defense: int, gold: int, exp: int): (e: EnemyRecord)
    ensures EnemyId(e) == id && e.name == name && e.exp == exp && e.gold == gold
    ensures e.battlerName == "" && e.battlerHue == 0 && e.note == ""
    ensures e.params == [maxHp, 0, attack, defense, 0, 0, 0, 0]
    ensures e.actions == [EnemyAction(0, 0, 0, 5, 1)]
    ensures |e.dropItems| == 3 && forall i :: 0 <= i < 3 ==> e.dropItems[i] == DropItem(1, 1, 0)
  {
    EnemyRecord(id, name, "", 0, exp, gold, [maxHp, 0, attack, defense, 0, 0, 0, 0],
                [EnemyAction(0, 0, 0, 5, 1)],
                [DropItem(1, 1, 0), DropItem(1, 1, 0), DropItem(1, 1, 0)], "")
  }

  datatype CommonEventRecord = CommonEventRecord(id: int, name: string, switchId: int, trigger: int,
                                                 list: seq<EventCommand>)

  function CommonEventId(e: CommonEventRecord): int { e.id }

  // ---------------------------------------------------------------------
  // The store
  // ---------------------------------------------------------------------

  /** `RPGMakerTools` once its tables are loaded. A map file that is
      missing, unreadable or empty is absent from `mapFiles`. */
  class RecordStore {
    var mapInfos: MapInfoTable
    var mapFiles: map<string, MapData>
    var actors: seq<Option<ActorRecord>>
    var classes: seq<Option<ClassRecord>>
    var skills: seq<Option<SkillRecord>>
    var enemies: seq<Option<EnemyRecord>>
    var commonEvents: seq<Option<CommonEventRecord>>

    constructor (mapInfos: MapInfoTable, mapFiles: map<string, MapData>,
                 actors: seq<Option<ActorRecord>>, classes: seq<Option<ClassRecord>>,
                 skills: seq<Option<SkillRecord>>, enemies: seq<Option<EnemyRecord>>,
                 commonEvents: seq<Option<CommonEventRecord>>)
      ensures this.mapInfos == mapInfos && this.mapFiles == mapFiles
      ensures this.actors == actors && this.classes == classes && this.skills == skills
      ensures this.enemies == enemies && this.commonEvents == commonEvents
    {
      this.mapInfos := mapInfos;
      this.mapFiles := mapFiles;
      this.actors := actors;
      this.classes := classes;
      this.skills := skills;
      this.enemies := enemies;
      this.commonEvents := commonEvents;
    }

    /** The actor, class, skill, enemy and common-event tables are as they
        were in the earlier state. */
    twostate predicate ListTablesKept()
      reads this
    {
      && actors == old(actors) && classes == old(classes) && skills == old(skills)
      && enemies == old(enemies) && commonEvents == old(commonEvents)
    }

    /** `get_map`: the map file of `mapId`, `None` standing for the empty
        dictionary returned when the file is missing. */
    function GetMap(mapId: int): (m: Option<MapData>)
      reads this
      ensures m.Some? <==> MapFileName(mapId) in mapFiles
      ensures m.Some? ==> m.value == mapFiles[MapFileName(mapId)]
    {
      var name := MapFileName(mapId);
      if name in mapFiles then Some(mapFiles[name]) else None
    }

    /** `create_map`: allocates the next map id, records its map info under
        `str(id)` and writes a blank map file for it. A `MapInfos.json` that
        is not a JSON object makes `.values()` raise. */
    method CreateMap(name: string, width: int, height: int, tilesetId: int) returns (r: Result<int>)
      modifies this`mapInfos, this`mapFiles
      ensures old(mapInfos).InfoNotObject? ==> r.Err? && r.error.AttributeError?
      ensures old(mapInfos).InfoNotObject? ==> mapInfos == old(mapInfos) && mapFiles == old(mapFiles)
      ensures old(mapInfos).InfoObject? ==> r.Ok?
      ensures r.Ok? ==> old(mapInfos).InfoObject? && IsNextId(InfoIds(old(mapInfos).entries), r.value)
      ensures r.Ok? ==> mapInfos == InfoObject(old(mapInfos).entries[IntToString(r.value) := Some(NewMapInfo(r.value, name))])
      ensures r.Ok? ==> mapFiles == old(mapFiles)[MapFileName(r.value) := NewMapData(width, height, tilesetId)]
    {
      if mapInfos.InfoNotObject? {
        return Err(AttributeError("'list' object has no attribute 'values'"));
      }
      var entries := mapInfos.entries;
      var nextId := NextIdOf(InfoIds(entries));
      mapInfos := InfoObject(entries[IntToString(nextId) := Some(NewMapInfo(nextId, name))]);
      mapFiles := mapFiles[MapFileName(nextId) := NewMapData(width, height, tilesetId)];
      r := Ok(nextId);
    }

    /** `create_event`: raises when the map file is missing or empty and
        when a key of its `events` is not an integer; otherwise stores one
        new event under `str(max key + 1)` ("1" when there is none). */
    method CreateEvent(mapId: int, name: string, x: int, y: int, pages: seq<EventPage>) returns (r: Result<int>)
      modifies this`mapFiles
      ensures MapFileName(mapId) !in old(mapFiles) ==> r.Err? && r.error.ValueError?
      ensures r.Ok? <==> MapFileName(mapId) in old(mapFiles) && EventKeysParse(old(mapFiles)[MapFileName(mapId)].events)
      ensures r.Err? ==> mapFiles == old(mapFiles)
      ensures r.Ok? ==>
                var file := MapFileName(mapId);
                var before := old(mapFiles)[file];
                var added := MapEvent(r.value, name, "", if pages == [] then [DefaultEventPage()] else pages, x, y);
                && IsNextId(EventKeyIds(before.events), r.value)
                && IntToString(r.value) !in before.events
                && mapFiles == old(mapFiles)[file := before.(events := before.events[IntToString(r.value) := added])]
    {
      var loaded := GetMap(mapId);
      if loaded.None? {
        return Err(ValueError("Map " + IntToString(mapId) + " not found"));
      }
      var mapData := loaded.value;
      var events := mapData.events;
      if !EventKeysParse(events) {
        return Err(ValueError("invalid literal for int() with base 10"));
      }
      var nextId := NextIdOf(EventKeyIds(events));
      NewEventKeyFresh(events, nextId);
      var eventPages := if pages == [] then [DefaultEventPage()] else pages;
      var added := MapEvent(nextId, name, "", eventPages, x, y);
      mapFiles := mapFiles[MapFileName(mapId) := mapData.(events := events[IntToString(nextId) := added])];
      r := Ok(nextId);
    }

    /** `create_actor`: appends one actor whose id is above every existing one. */
    method CreateActor(name: string, classId: int, initialLevel: int) returns (id: int)
      modifies this`actors
      ensures id == NextTableId(old(actors), ActorId)
      ensures actors == old(actors) + [Some(NewActor(id, name, classId, initialLevel))]
    {
      id := NextTableId(actors, ActorId);
      actors := actors + [Some(NewActor(id, name, classId, initialLevel))];
    }

    /** `create_class`. */
    method CreateClass(name: string) returns (id: int)
      modifies this`classes
      ensures id == NextTableId(old(classes), ClassId)
      ensures classes == old(classes) + [Some(NewClass(id, name))]
    {
      id := NextTableId(classes, ClassId);
      classes := classes + [Some(NewClass(id, name))];
    }

    /** `create_skill`. */
    method CreateSkill(name: string, description: string, mpCost: int, damageType: int,
                       formula: string, iconIndex: int) returns (id: int)
      modifies this`skills
      ensures id == NextTableId(old(skills), SkillId)
      ensures skills == old(skills) + [Some(NewSkill(id, name, description, mpCost, damageType, formula, iconIndex))]
    {
      id := NextTableId(skills, SkillId);
      skills := skills + [Some(NewSkill(id, name, description, mpCost, damageType, formula, iconIndex))];
    }

    /** `create_enemy`. */
    method CreateEnemy(name: string, maxHp: int, attack: int, defense: int, gold: int, exp: int) returns (id: int)
      modifies this`enemies
      ensures id == NextTableId(old(enemies), EnemyId)
      ensures enemies == old(enemies) + [Some(NewEnemy(id, name, maxHp, attack, defense, gold, exp))]
    {
      id := NextTableId(enemies, EnemyId);
      enemies := enemies + [Some(NewEnemy(id, name, maxHp, attack, defense, gold, exp))];
    }

    /** `create_common_event`: switch 1, and the commands closed by one end command. */
    method CreateCommonEvent(name: string, trigger: int, commands: seq<EventCommand>) returns (id: int)
      modifies this`commonEvents
      ensures id == NextTableId(old(commonEvents), CommonEventId)
      ensures commonEvents == old(commonEvents) + [Some(CommonEventRecord(id, name, 1, trigger, CommonEventList(commands)))]
    {
      id := NextTableId(commonEvents, CommonEventId);
      commonEvents := commonEvents + [Some(CommonEventRecord(id, name, 1, trigger, CommonEventList(commands)))];
    }
  }

  /** Appending to a list table keeps the earlier records and allocates an
      id no earlier record has. */
  lemma {:induction false} AppendKeepsEarlierRecords<T>(table: seq<Option<T>>, idOf: T -> int, rec: T)
    requires idOf(rec) == NextTableId(table, idOf)
    ensures var after := table + [Some(rec)];
            |after| == |table| + 1 && after[..|table|] == table &&
            forall k :: 0 <= k < |table| && table[k].Some? ==> idOf(table[k].value) != idOf(rec)
    ensures NextTableId(table + [Some(rec)], idOf) == idOf(rec) + 1
  {
    var after := table + [Some(rec)];
    assert after[|table|].Some? && idOf(after[|table|].value) == idOf(rec);
    var n := NextTableId(after, idOf);
    assert idOf(rec) < n;
    forall k | 0 <= k < |table| ensures after[k] == table[k] { }
  }

}

/** The routing function of the agent workflow (`route_implementation`)
    and the queue operations the agents share: the first-match scans with
    which a worker claims a task, the dependency check, and the removal of a
    completed task from the director's queue. */
module Routing {

  import opened Wrappers
  import opened Text
  import opened Schemas

  /** The six nodes of the star-shaped workflow graph. */
  datatype Role = Director | WorldBuilder | EventEngineer | CombatSystem | AssetManager | Tester
  {
    function NodeName(): string
    {
      match this
      case Director => "director"
      case WorldBuilder => "world_builder"
      case EventEngineer => "event_engineer"
      case CombatSystem => "combat_system"
      case AssetManager => "asset_manager"
      case Tester => "tester"
    }
  }

  predicate IsEventKind(kind: string) { kind in ["event_creation", "cutscene_creation", "dialogue_creation"] }

  predicate IsCombatKind(kind: string) { kind in ["skill_creation", "enemy_creation", "troop_creation"] }

  predicate IsAssetKind(kind: string) { kind in ["asset_management"] }

  /** None of the event, combat or asset task types starts with "map", so
      the map rule never overtakes the rules for them. */
  lemma WorkerKindIsNotMapKind(kind: string)
    requires IsEventKind(kind) || IsCombatKind(kind) || IsAssetKind(kind)
    ensures !StartsWith(kind, "map")
  {
    assert kind[0] != 'm';
  }

  /** Every dependency id is among the completed task ids. */
  predicate DependenciesMet(dependencies: seq<string>, completed: seq<string>)
  {
    forall i :: 0 <= i < |dependencies| ==> dependencies[i] in completed
  }

  // ---------------------------------------------------------------------
  // route_implementation
  // ---------------------------------------------------------------------

  /** What the router's scan does on reaching task `t`: return a role
      (`Some`), or move on to the next task (`None`). A task whose type
      starts with "map" is sent to the world builder without looking at its
      dependencies; an event-like task only once its dependencies are met. */
  function Decision(t: Task, completed: seq<string>): (r: Option<Role>)
    ensures r.Some? ==> t.status == Pending && r.value != Director && r.value != Tester
    ensures r.Some? ==> StartsWith(t.kind, "map") || IsEventKind(t.kind) || IsCombatKind(t.kind) || IsAssetKind(t.kind)
    ensures t.status == Pending && StartsWith(t.kind, "map") ==> r == Some(WorldBuilder)
    ensures t.status == Pending && IsEventKind(t.kind) ==>
              (r == Some(EventEngineer) <==> DependenciesMet(t.dependencies, completed)) &&
              (r.None? <==> !DependenciesMet(t.dependencies, completed))
    ensures r == Some(EventEngineer) ==> IsEventKind(t.kind) && DependenciesMet(t.dependencies, completed)
    ensures t.status == Pending && IsCombatKind(t.kind) ==> r == Some(CombatSystem)
    ensures t.status == Pending && IsAssetKind(t.kind) ==> r == Some(AssetManager)
  {
    if t.status != Pending then None
    else if StartsWith(t.kind, "map") then
      assert !(IsEventKind(t.kind) || IsCombatKind(t.kind) || IsAssetKind(t.kind)) by {
        if IsEventKind(t.kind) || IsCombatKind(t.kind) || IsAssetKind(t.kind) {
          WorkerKindIsNotMapKind(t.kind);
        }
      }
      Some(WorldBuilder)
    else if IsEventKind(t.kind) then
      if DependenciesMet(t.dependencies, completed) then Some(EventEngineer) else None
    else if IsCombatKind(t.kind) then Some(CombatSystem)
    else if IsAssetKind(t.kind) then Some(AssetManager)
    else None
  }

  /** The scan over the queue in insertion order; the first decision wins. */
  function Scan(queue: seq<Task>, completed: seq<string>): (r: Option<Role>)
    ensures r.Some? ==> exists i :: 0 <= i < |queue| && Decision(queue[i], completed) == r
    ensures r.None? ==> forall i :: 0 <= i < |queue| ==> Decision(queue[i], completed).None?
  {
    if queue == [] then None
    else
      var d := Decision(queue[0], completed);
      if d.Some? then d
      else
        var rest := Scan(queue[1..], completed);
        assert forall i :: 1 <= i < |queue| ==> queue[i] == queue[1..][i - 1];
        rest
  }

  /** `route_implementation`: the director while planning; otherwise the
      first decision of the scan; failing that the tester in the testing
      stage, and the director in any other stage. */
  function Route(stage: string, queue: seq<Task>, completed: seq<string>): (r: Role)
    ensures stage == "planning" ==> r == Director
    ensures r == Tester ==> stage == "testing"
    ensures r != Director && r != Tester ==>
              stage != "planning" &&
              exists i :: 0 <= i < |queue| && queue[i].status == Pending && Decision(queue[i], completed) == Some(r)
  {
    if stage == "planning" then Director
    else
      match Scan(queue, completed)
      case Some(role) => role
      case None => if stage == "testing" then Tester else Director
  }

  /** The scan returns the decision of the first task that has one. */
  lemma {:induction false} ScanFirstDecision(queue: seq<Task>, completed: seq<string>, i: nat)
    requires i < |queue| && Decision(queue[i], completed).Some?
    requires forall j :: 0 <= j < i ==> Decision(queue[j], completed).None?
    ensures Scan(queue, completed) == Decision(queue[i], completed)
  {
    if i > 0 {
      assert queue[1..][i - 1] == queue[i];
      forall j | 0 <= j < i - 1 ensures Decision(queue[1..][j], completed).None? {
        assert queue[1..][j] == queue[j + 1];
      }
      ScanFirstDecision(queue[1..], completed, i - 1);
    }
  }

  /** Conversely, a decision of the scan comes from a task that no earlier
      task pre-empts. */
  lemma {:induction false} ScanWitness(queue: seq<Task>, completed: seq<string>) returns (i: nat)
    requires Scan(queue, completed).Some?
    ensures i < |queue| && Decision(queue[i], completed) == Scan(queue, completed)
    ensures forall j :: 0 <= j < i ==> Decision(queue[j], completed).None?
  {
    if Decision(queue[0], completed).Some? {
      i := 0;
    } else {
      var k := ScanWitness(queue[1..], completed);
      i := k + 1;
      assert queue[i] == queue[1..][k];
      forall j | 0 < j < i ensures Decision(queue[j], completed).None? {
        assert queue[j] == queue[1..][j - 1];
      }
    }
  }

  /** Outside planning, the router returns the role of the first task with
      a decision, whatever comes after it. */
  lemma RouteFirstMatch(stage: string, queue: seq<Task>, completed: seq<string>, i: nat, role: Role)
    requires stage != "planning"
    requires i < |queue| && Decision(queue[i], completed) == Some(role)
    requires forall j :: 0 <= j < i ==> Decision(queue[j], completed).None?
    ensures Route(stage, queue, completed) == role
  {
    ScanFirstDecision(queue, completed, i);
  }

  /** When no task has a decision, the router falls back on the stage. */
  lemma RouteFallback(stage: string, queue: seq<Task>, completed: seq<string>)
    requires stage != "planning"
    requires forall i :: 0 <= i < |queue| ==> Decision(queue[i], completed).None?
    ensures Route(stage, queue, completed) == if stage == "testing" then Tester else Director
  {
    if queue != [] {
      var rest := queue[1..];
      assert forall i :: 0 <= i < |rest| ==> rest[i] == queue[i + 1];
      RouteFallback(stage, rest, completed);
    }
  }

  /** A task the scan passes over can be taken out of the queue without
      changing the scan's result. */
  lemma {:induction false} ScanIgnoresUndecided(queue: seq<Task>, completed: seq<string>, i: nat)
    requires i < |queue| && Decision(queue[i], completed).None?
    ensures Scan(queue, completed) == Scan(queue[..i] + queue[i + 1..], completed)
  {
    var removed := queue[..i] + queue[i + 1..];
    if i == 0 {
      assert removed == queue[1..];
    } else {
      assert removed[0] == queue[0];
      assert removed[1..] == queue[1..][..i - 1] + queue[1..][i..];
      ScanIgnoresUndecided(queue[1..], completed, i - 1);
    }
  }

  /** A pending event, cutscene or dialogue task whose dependencies are not
      all completed does not stop the scan: the router answers as if the
      task were not there, so a later task can still be chosen. */
  lemma RouteSkipsBlockedTask(stage: string, queue: seq<Task>, completed: seq<string>, i: nat)
    requires i < |queue| && queue[i].status == Pending
    requires IsEventKind(queue[i].kind) && !DependenciesMet(queue[i].dependencies, completed)
    ensures Route(stage, queue, completed) == Route(stage, queue[..i] + queue[i + 1..], completed)
  {
    WorkerKindIsNotMapKind(queue[i].kind);
    ScanIgnoresUndecided(queue, completed, i);
  }

  /** A pending task whose type starts with "map" goes to the world
      builder as soon as the scan reaches it, its dependencies unchecked. */
  lemma RouteMapTaskIgnoresDependencies(stage: string, queue: seq<Task>, completed: seq<string>, i: nat)
    requires stage != "planning"
    requires i < |queue| && queue[i].status == Pending && StartsWith(queue[i].kind, "map")
    requires forall j :: 0 <= j < i ==> Decision(queue[j], completed).None?
    ensures Route(stage, queue, completed) == WorldBuilder
  {
    RouteFirstMatch(stage, queue, completed, i, WorldBuilder);
  }

  // ---------------------------------------------------------------------
  // First-match scans
  // ---------------------------------------------------------------------

  /** The index of the first element satisfying `p`, if any. */
  function FirstIndex<T>(s: seq<T>, p: T -> bool): (r: Option<nat>)
    ensures r.Some? ==> r.value < |s| && p(s[r.value])
    ensures r.Some? ==> forall j :: 0 <= j < r.value ==> !p(s[j])
    ensures r.None? ==> forall j :: 0 <= j < |s| ==> !p(s[j])
  {
    if s == [] then None
    else if p(s[0]) then Some(0)
    else
      var rest := FirstIndex(s[1..], p);
      assert forall j :: 1 <= j < |s| ==> s[j] == s[1..][j - 1];
      match rest
      case None => None
      case Some(k) => Some(k + 1)
  }

  /** The task the world builder claims: `type == "map_creation"` and
      pending, with no dependency check. */
  predicate IsMapClaim(t: Task) { t.kind == "map_creation" && t.status == Pending }

  /** The task the event engineer claims: event-like, pending, and every
      dependency completed. */
  predicate IsEventClaim(t: Task, completed: seq<string>)
  {
    IsEventKind(t.kind) && t.status == Pending && DependenciesMet(t.dependencies, completed)
  }

  /** The index of the task the event engineer claims. */
  function FirstEventClaim(queue: seq<Task>, completed: seq<string>): Option<nat>
  {
    FirstIndex(queue, t => IsEventClaim(t, completed))
  }

  /** When the router picks the event engineer, the event engineer claims
      exactly the task the router saw. */
  lemma RouteEventEngineerClaimsRoutedTask(stage: string, queue: seq<Task>, completed: seq<string>)
    requires Route(stage, queue, completed) == EventEngineer
    ensures var claim := FirstEventClaim(queue, completed);
            claim.Some? && Decision(queue[claim.value], completed) == Some(EventEngineer) &&
            forall j :: 0 <= j < claim.value ==> Decision(queue[j], completed).None?
  {
    var i := ScanWitness(queue, completed);
    forall j | 0 <= j < |queue| && IsEventClaim(queue[j], completed)
      ensures Decision(queue[j], completed) == Some(EventEngineer)
    {
      WorkerKindIsNotMapKind(queue[j].kind);
    }
  }

  /** When the router picks the world builder for a task of type exactly
      "map_creation", the world builder claims that same task. */
  lemma RouteWorldBuilderClaimsRoutedTask(stage: string, queue: seq<Task>, completed: seq<string>, i: nat)
    requires stage != "planning"
    requires i < |queue| && IsMapClaim(queue[i])
    requires forall j :: 0 <= j < i ==> Decision(queue[j], completed).None?
    ensures Route(stage, queue, completed) == WorldBuilder
    ensures FirstIndex(queue, IsMapClaim) == Some(i)
  {
    MapClaimIsMapKind(queue[i]);
    RouteFirstMatch(stage, queue, completed, i, WorldBuilder);
    forall j | 0 <= j < i ensures !IsMapClaim(queue[j]) {
      if IsMapClaim(queue[j]) {
        MapClaimIsMapKind(queue[j]);
      }
    }
    var r := FirstIndex(queue, IsMapClaim);
    assert r.Some? && r.value <= i;
  }

  /** A task the world builder claims is one the router sends to it. */
  lemma MapClaimIsMapKind(t: Task)
    requires IsMapClaim(t)
    ensures StartsWith(t.kind, "map")
  {
    assert t.kind[..3] == "map";
  }

  /** The router and the world builder disagree about tasks whose type
      merely starts with "map": such a task is routed to the world builder,
      which finds nothing to claim. */
  lemma RouteWorldBuilderCanStall()
    ensures var q := [NewTask("create_world_map", "map_editing", "")];
            Route("implementation", q, []) == WorldBuilder && FirstIndex(q, IsMapClaim) == None
  {
    var q := [NewTask("create_world_map", "map_editing", "")];
    assert StartsWith(q[0].kind, "map");
    RouteFirstMatch("implementation", q, [], 0, WorldBuilder);
  }

  /** A freshly created task of a worker's kind heads the queue's decisions:
      it depends on nothing, so it is routed to its worker at once. */
  lemma RouteFreshTask(stage: string, id: string, kind: string, description: string, rest: seq<Task>, completed: seq<string>)
    requires stage != "planning"
    requires IsEventKind(kind) || IsCombatKind(kind) || IsAssetKind(kind) || StartsWith(kind, "map")
    ensures Route(stage, [NewTask(id, kind, description)] + rest, completed) != Director
    ensures Route(stage, [NewTask(id, kind, description)] + rest, completed) != Tester
  {
    var q := [NewTask(id, kind, description)] + rest;
    assert q[0] == NewTask(id, kind, description);
    assert DependenciesMet(q[0].dependencies, completed);
    assert Decision(q[0], completed).Some?;
    ScanFirstDecision(q, completed, 0);
  }

  // ---------------------------------------------------------------------
  // Removing a task from the queue
  // ---------------------------------------------------------------------

  /** `[t for t in queue if t.id != id]`. */
  function RemoveId(queue: seq<Task>, id: string): (r: seq<Task>)
    ensures |r| <= |queue|
    ensures forall t :: t in r <==> t in queue && t.id != id
  {
    if queue == [] then []
    else if queue[0].id == id then RemoveId(queue[1..], id)
    else [queue[0]] + RemoveId(queue[1..], id)
  }

  /** Removal works piecewise, so the tasks kept stay in their order. */
  lemma {:induction false} RemoveIdConcat(a: seq<Task>, b: seq<Task>, id: string)
    ensures RemoveId(a + b, id) == RemoveId(a, id) + RemoveId(b, id)
  {
    if a != [] {
      assert (a + b)[1..] == a[1..] + b;
      RemoveIdConcat(a[1..], b, id);
    } else {
      assert a + b == b;
    }
  }

  /** A queue without the id is left as it is. */
  lemma {:induction false} RemoveIdAbsent(queue: seq<Task>, id: string)
    requires forall i :: 0 <= i < |queue| ==> queue[i].id != id
    ensures RemoveId(queue, id) == queue
  {
    if queue != [] {
      RemoveIdAbsent(queue[1..], id);
    }
  }

  /** Removal shrinks the queue when the id is present, and does not care
      what the entry with that id looked like before. */
  lemma RemoveIdAt(queue: seq<Task>, id: string, i: nat, t: Task)
    requires i < |queue| && queue[i].id == id && t.id == id
    ensures RemoveId(queue[i := t], id) == RemoveId(queue, id)
    ensures |RemoveId(queue, id)| < |queue|
  {
    var updated := queue[i := t];
    assert queue == queue[..i] + [queue[i]] + queue[i + 1..];
    assert updated == queue[..i] + [t] + queue[i + 1..];
    RemoveIdConcat(queue[..i] + [queue[i]], queue[i + 1..], id);
    RemoveIdConcat(queue[..i], [queue[i]], id);
    RemoveIdConcat(queue[..i] + [t], queue[i + 1..], id);
    RemoveIdConcat(queue[..i], [t], id);
    assert RemoveId([t], id) == [] && RemoveId([queue[i]], id) == [];
    assert |RemoveId(queue[..i], id)| <= i;
    assert |RemoveId(queue[i + 1..], id)| <= |queue| - i - 1;
  }

}

/** The component host: plans a start order by depth-first search, starts components in that order, and stops them in
    reverse, also when a start fails or is cancelled half-way. */
module Hosts {
  import opened Wrappers
  import opened Graphs

  datatype PlanError =
    | Cycle(path: seq<string>)
    | NotRegistered(id: string)
    | MissingDependency(owner: string, dependency: string)

  datatype HostError =
    | AlreadyRunning
    | IdRequired
    | NoComponent
    | AlreadyRegistered
    | NoPlan(plan: PlanError)
    | Cancelled(id: string, unstopped: seq<string>)
    | StartFailed(id: string, unstopped: seq<string>)

  /** True when the error points at a real defect of the definitions. */
  predicate Explains(g: Graph, error: PlanError) {
    match error
    case Cycle(path) => |path| >= 2 && IsPath(g, path) && path[|path| - 1] in path[..|path| - 1]
    case NotRegistered(id) => id !in g
    case MissingDependency(owner, dependency) => owner in g && dependency in g[owner] && dependency !in g
  }

  /** Every dependency of a registered component is registered. */
  predicate Complete(g: Graph) {
    forall id :: id in g ==> forall d :: d in g[id] ==> d in g
  }

  datatype VisitState = Visiting | Visited

  /** The states recorded for nodes say which are emitted and which are on the stack. */
  ghost predicate Tracks(states: map<string, VisitState>, result: seq<string>, stack: seq<string>) {
    && (forall id :: id in states <==> id in result || id in stack)
    && (forall id :: id in states ==> (states[id] == Visited <==> id in result))
  }

  lemma TracksEntry(states: map<string, VisitState>, result: seq<string>, stack: seq<string>, id: string)
    requires Tracks(states, result, stack) && id !in states
    ensures id !in result && id !in stack && Tracks(states[id := Visiting], result, stack + [id])
  {
  }

  lemma TracksEmission(states: map<string, VisitState>, result: seq<string>, stack: seq<string>, id: string)
    requires Tracks(states, result, stack + [id]) && id !in stack
    ensures Tracks(states[id := Visited], result + [id], stack)
  {
    assert (stack + [id])[|stack|] == id;
    assert forall x :: x in stack + [id] <==> x in stack || x == id;
  }

  lemma TracksVisited(states: map<string, VisitState>, result: seq<string>, stack: seq<string>, id: string)
    requires Tracks(states, result, stack) && id in states
    ensures if states[id] == Visited then id in result else id in stack
  {
  }

  /** One run of the planner. */
  class StartPlan {
    const definitions: Graph
    ghost const roots: seq<string>
    var states: map<string, VisitState>
    var result: seq<string>
    var stack: seq<string>

    ghost predicate Valid()
      reads this
    {
      && Searching(definitions, {}, roots, result, stack)
      && Tracks(states, result, stack)
    }

    constructor (definitions: Graph, ghost roots: seq<string>)
      ensures this.definitions == definitions && this.roots == roots
      ensures Valid() && result == [] && stack == []
    {
      this.definitions, this.roots := definitions, roots;
      states, result, stack := map[], [], [];
    }

    /** Emits `id` after everything it depends on, unless it is emitted already. */
    method Visit(id: string) returns (error: Option<PlanError>)
      requires Valid() && MayEnter(definitions, roots, stack, id)
      modifies this
      ensures error.None? ==> Valid() && stack == old(stack) && old(result) <= result && id in result
      ensures error.None? ==> old(states.Keys) <= states.Keys
      ensures error.Some? ==> Explains(definitions, error.value)
      ensures error.Some? && error.value.Cycle? ==> CyclicFrom(definitions, roots)
      ensures error.Some? && error.value.NotRegistered? ==> id !in definitions
      decreases definitions.Keys - states.Keys
    {
      hide Searching, MayEnter, CyclicFrom, IsPath, Tracks;
      if id in states {
        TracksVisited(states, result, stack, id);
        if states[id] == Visited {
          return None;
        }
        MeetAgain(definitions, {}, roots, result, stack, id);
        PathOfStack(definitions, {}, roots, result, stack, id);
        return Some(Cycle(stack + [id]));
      }
      if id !in definitions {
        return Some(NotRegistered(id));
      }
      TracksEntry(states, result, stack, id);
      Enter(definitions, {}, roots, result, stack, id);
      var dependsOn := definitions[id];
      ghost var before, unseen := stack, definitions.Keys - states.Keys;
      states := states[id := Visiting];
      stack := stack + [id];
      assert id in unseen && id !in definitions.Keys - states.Keys;
      for i := 0 to |dependsOn|
        invariant Valid() && stack == before + [id] && old(result) <= result
        invariant old(states.Keys) + {id} <= states.Keys
        invariant forall k :: 0 <= k < i ==> dependsOn[k] in result
      {
        if dependsOn[i] !in definitions {
          return Some(MissingDependency(id, dependsOn[i]));
        }
        MayFollow(definitions, {}, roots, result, stack, dependsOn[i]);
        error := Visit(dependsOn[i]);
        if error.Some? {
          return;
        }
      }
      Emit(definitions, {}, roots, result, before, id);
      TracksEmission(states, result, before, id);
      stack := stack[..|stack| - 1];
      states := states[id := Visited];
      result := result + [id];
      error := None;
    }
  }

  /** The path shown in a cycle error: the search stack, then the node that closes it. */
  lemma PathOfStack(g: Graph, leaves: set<string>, roots: seq<string>, done: seq<string>, stack: seq<string>,
                    id: string)
    requires Searching(g, leaves, roots, done, stack) && MayEnter(g, roots, stack, id) && id in stack
    ensures Explains(g, Cycle(stack + [id]))
  {
    var path := stack + [id];
    assert path[..|path| - 1] == stack;
  }

  /** What the components see: start and stop calls, and whether they succeeded. */
  datatype Event = StartCall(id: string, ok: bool) | StopCall(id: string, ok: bool)

  function Applied(running: set<string>, e: Event): set<string> {
    match e
    case StartCall(id, ok) => if ok then running + {id} else running
    case StopCall(id, _) => running - {id}
  }

  /** The components that have started and have not been told to stop since. */
  function RunningAfter(log: seq<Event>): set<string> {
    if log == [] then {} else Applied(RunningAfter(log[..|log| - 1]), log[|log| - 1])
  }

  /** Whatever runs, its dependencies run too. */
  predicate Supported(g: Graph, running: set<string>) {
    forall id :: id in running ==> id in g && forall d :: d in g[id] ==> d in running
  }

  /** At every moment of the log, a component ran only while all its dependencies ran. */
  predicate AlwaysSupported(g: Graph, log: seq<Event>) {
    forall k :: 0 <= k <= |log| ==> Supported(g, RunningAfter(log[..k]))
  }

  function Ids(s: seq<string>): set<string> {
    set x | x in s
  }

  function StopOf(id: string, stopFails: set<string>): Event {
    StopCall(id, id !in stopFails)
  }

  /** The calls that stop components started in `order`: last started first, one each. */
  function StopCalls(order: seq<string>, stopFails: set<string>): seq<Event> {
    seq(|order|, k requires 0 <= k < |order| => StopOf(order[|order| - 1 - k], stopFails))
  }

  /** Those among them that fail to stop, in the order of the calls. */
  function Unstopped(order: seq<string>, stopFails: set<string>): seq<string> {
    if order == [] then []
    else
      var last := order[|order| - 1];
      (if last in stopFails then [last] else []) + Unstopped(order[..|order| - 1], stopFails)
  }

  function StartCalls(order: seq<string>): seq<Event> {
    seq(|order|, k requires 0 <= k < |order| => StartCall(order[k], true))
  }

  ghost predicate IsPlan(g: Graph, plan: seq<string>) {
    Distinct(plan) && DependencyFirst(g, {}, plan) && forall id :: id in plan <==> id in g
  }

  /** A start that stops at position `i` of its plan: everything before it was started and is told to stop again, last
      first, and the error names whatever failed to. */
  ghost predicate RollsBack(g: Graph, plan: seq<string>, i: nat, error: HostError, before: seq<Event>,
                            after: seq<Event>,
                      stopFails: set<string>)
  {
    && IsPlan(g, plan) && i < |plan|
    && match error
       case Cancelled(id, unstopped) =>
         && id == plan[i] && unstopped == Unstopped(plan[..i], stopFails)
         && after == before + StartCalls(plan[..i]) + StopCalls(plan[..i], stopFails)
       case StartFailed(id, unstopped) =>
         && id == plan[i] && unstopped == Unstopped(plan[..i], stopFails)
         && after == before + StartCalls(plan[..i]) + [StartCall(id, false)] + StopCalls(plan[..i], stopFails)
       case _ => false
  }

  /** Which calls are still to come once the components from position `k` on have been told. */
  lemma StopCallsFrom(order: seq<string>, stopFails: set<string>, k: nat)
    requires k <= |order|
    ensures k == |order| ==> order[..k] == order
    ensures k == 0 ==> order[..k] == [] && StopCalls(order[..k], stopFails) == []
    ensures k == 0 ==> Unstopped(order[..k], stopFails) == []
    ensures k < |order| ==>
              StopCalls(order[..k + 1], stopFails) ==
              [StopOf(order[k], stopFails)] + StopCalls(order[..k], stopFails)
    ensures k < |order| ==>
              Unstopped(order[..k + 1], stopFails) ==
              (if order[k] in stopFails then [order[k]] else []) + Unstopped(order[..k], stopFails)
  {
    if k < |order| {
      assert order[..k + 1][..k] == order[..k];
    }
  }

  lemma {:induction false} UnstoppedFail(order: seq<string>, stopFails: set<string>)
    ensures forall id :: id in Unstopped(order, stopFails) <==> id in order && id in stopFails
  {
    if order != [] {
      UnstoppedFail(order[..|order| - 1], stopFails);
      assert order == order[..|order| - 1] + [order[|order| - 1]];
    }
  }

  lemma OneMoreEvent(g: Graph, log: seq<Event>, e: Event)
    requires AlwaysSupported(g, log) && Supported(g, RunningAfter(log + [e]))
    ensures AlwaysSupported(g, log + [e])
  {
    forall k | 0 <= k <= |log + [e]| ensures Supported(g, RunningAfter((log + [e])[..k])) {
      if k <= |log| {
        assert (log + [e])[..k] == log[..k];
      } else {
        assert (log + [e])[..k] == log + [e];
      }
    }
  }

  lemma RunningStep(log: seq<Event>, e: Event)
    ensures RunningAfter(log + [e]) == Applied(RunningAfter(log), e)
  {
    assert (log + [e])[..|log + [e]| - 1] == log;
  }

  /** Any prefix of a dependency-first order can run on its own. */
  lemma PrefixIsSupported(g: Graph, order: seq<string>, k: nat)
    requires DependencyFirst(g, {}, order) && k <= |order|
    ensures Supported(g, Ids(order[..k]))
  {
    forall id | id in Ids(order[..k]) ensures id in g && forall d :: d in g[id] ==> d in Ids(order[..k]) {
      var i :| 0 <= i < k && order[i] == id;
      assert order[..i] <= order[..k];
    }
  }

  lemma PrefixGrows(order: seq<string>, k: nat)
    requires Distinct(order) && k < |order|
    ensures Ids(order[..k + 1]) == Ids(order[..k]) + {order[k]}
    ensures order[k] !in order[..k]
    ensures Ids(order[..k + 1]) - {order[k]} == Ids(order[..k])
  {
    assert order[..k + 1] == order[..k] + [order[k]];
  }

  /** More definitions do not disturb what already runs. */
  lemma DefinitionsGrow(g: Graph, log: seq<Event>, id: string, dependsOn: seq<string>)
    requires AlwaysSupported(g, log) && id !in g
    ensures AlwaysSupported(g[id := dependsOn], log)
  {
    forall k | 0 <= k <= |log| ensures Supported(g[id := dependsOn], RunningAfter(log[..k])) {
      assert Supported(g, RunningAfter(log[..k]));
    }
  }

  class Host {
    var definitions: Graph
    var order: seq<string>
    var started: seq<string>
    ghost var log: seq<Event>

    ghost predicate Valid()
      reads this
    {
      && Distinct(order) && (forall id :: id in order <==> id in definitions)
      && Distinct(started) && DependencyFirst(definitions, {}, started)
      && RunningAfter(log) == Ids(started)
      && AlwaysSupported(definitions, log)
    }

    constructor ()
      ensures Valid() && definitions == map[] && started == [] && log == []
    {
      definitions, order, started, log := map[], [], [], [];
    }

    /** `present` is false for a nil component. */
    method Register(id: string, dependsOn: seq<string>, present: bool) returns (error: Option<HostError>)
      requires Valid()
      modifies this
      ensures Valid() && log == old(log) && started == old(started)
      ensures error.None? <==> old(started) == [] && id != "" && present && id !in old(definitions)
      ensures error.None? ==> definitions == old(definitions)[id := dependsOn] && order == old(order) + [id]
      ensures error.Some? ==> definitions == old(definitions) && order == old(order)
      ensures error.Some? ==> error.value ==
                              if old(started) != [] then AlreadyRunning else if id == "" then IdRequired
                              else if !present then NoComponent else AlreadyRegistered
    {
      if |started| != 0 {
        return Some(AlreadyRunning);
      }
      if id == "" {
        return Some(IdRequired);
      }
      if !present {
        return Some(NoComponent);
      }
      if id in definitions {
        return Some(AlreadyRegistered);
      }
      DefinitionsGrow(definitions, log, id, dependsOn);
      hide AlwaysSupported, RunningAfter;
      definitions := definitions[id := dependsOn];
      order := order + [id];
      return None;
    }

    /** The order exists exactly when every dependency is registered and none is circular; it is then a permutation of
        the registered components in which each comes after its dependencies. */
    method DependencyStartOrder() returns (plan: Result<seq<string>, PlanError>)
      requires Valid()
      ensures plan.Ok? <==> Complete(definitions) && Acyclic(definitions)
      ensures plan.Ok? ==> Distinct(plan.value) && (forall id :: id in plan.value <==> id in definitions)
      ensures plan.Ok? ==> DependencyFirst(definitions, {}, plan.value)
      ensures plan.Err? ==> Explains(definitions, plan.error) && !plan.error.NotRegistered?
    {
      hide Searching, Complete, Acyclic, CyclicFrom, DependencyFirst, AlwaysSupported, RunningAfter, Tracks, Explains,
           Reached;
      var run := new StartPlan(definitions, order);
      for i := 0 to |order|
        invariant run.Valid() && run.stack == []
        invariant forall k :: 0 <= k < i ==> order[k] in run.result
        invariant fresh(run) && run.definitions == definitions && run.roots == order
      {
        MayStart(definitions, order, order[i]);
        var error := run.Visit(order[i]);
        if error.Some? {
          DefectBlocks(definitions, order, error.value);
          return Err(error.value);
        }
      }
      PlanIsComplete(definitions, order, run.result);
      return Ok(run.result);
    }

    // ---- Running ----

    /** What runs, each component after its dependencies. */
    method StartedIds() returns (ids: seq<string>)
      requires Valid()
      ensures Ids(ids) == RunningAfter(log) && Distinct(ids) && DependencyFirst(definitions, {}, ids)
      ensures ids == started
    {
      hide AlwaysSupported, RunningAfter;
      ids := started;
    }

    /** Tells every started component to stop, last started first, whatever the others answer. */
    method StopStarted(stopFails: set<string>) returns (unstopped: seq<string>)
      requires Valid()
      modifies this
      ensures Valid() && definitions == old(definitions) && order == old(order)
      ensures started == [] && RunningAfter(log) == {}
      ensures log == old(log) + StopCalls(old(started), stopFails)
      ensures unstopped == Unstopped(old(started), stopFails)
      ensures forall id :: id in unstopped <==> id in old(started) && id in stopFails
    {
      hide DependencyFirst, AlwaysSupported, Distinct, RunningAfter, StopCalls, Unstopped, Ids;
      unstopped := [];
      ghost var was := started;
      UnstoppedFail(was, stopFails);
      StopCallsFrom(was, stopFails, |was|);
      var index := |started| - 1;
      while index >= 0
        invariant -1 <= index < |was|
        invariant started == was && definitions == old(definitions) && order == old(order)
        invariant log + StopCalls(was[..index + 1], stopFails) == old(log) + StopCalls(was, stopFails)
        invariant RunningAfter(log) == Ids(was[..index + 1]) && AlwaysSupported(definitions, log)
        invariant Distinct(was) && DependencyFirst(definitions, {}, was)
        invariant Distinct(order) && (forall id :: id in order <==> id in definitions)
        invariant unstopped + Unstopped(was[..index + 1], stopFails) == Unstopped(was, stopFails)
      {
        var id := started[index];
        StopOne(definitions, log, was, index, id !in stopFails);
        log := log + [StopCall(id, id !in stopFails)];
        StopCallsFrom(was, stopFails, index);
        if id in stopFails {
          unstopped := unstopped + [id];
        }
        index := index - 1;
      }
      EmptyOrder(definitions);
      StopCallsFrom(was, stopFails, 0);
      started := [];
    }

    /** Starts every component in dependency order. When the context is done before a component's turn, or its start
        fails, everything already started is stopped again. */
    method Start(cancelled: set<string>, startFails: set<string>, stopFails: set<string>)
      returns (error: Option<HostError>)
      requires Valid()
      modifies this
      ensures Valid() && definitions == old(definitions) && order == old(order) && old(log) <= log
      ensures old(started) != [] ==> error.None? && started == old(started) && log == old(log)
      ensures old(started) == [] ==>
                (error.None? <==>
                   Complete(definitions) && Acyclic(definitions) &&
                   forall id :: id in definitions ==> id !in cancelled && id !in startFails)
      ensures old(started) == [] && error.None? ==>
                RunningAfter(log) == definitions.Keys && IsPlan(definitions, started) &&
                log == old(log) + StartCalls(started)
      ensures error.Some? ==> started == [] && RunningAfter(log) == {}
      ensures error.Some? && error.value.NoPlan? ==> log == old(log) && Explains(definitions, error.value.plan)
      ensures error.Some? && !error.value.NoPlan? ==>
                exists plan, i: nat :: RollsBack(definitions, plan, i, error.value, old(log), log, stopFails)
      ensures error.Some? && error.value.Cancelled? ==> error.value.id in definitions && error.value.id in cancelled
      ensures error.Some? && error.value.StartFailed? ==> error.value.id in definitions && error.value.id in startFails
    {
      hide DependencyFirst, AlwaysSupported, Distinct, Complete, Acyclic, Explains, RunningAfter;
      if |started| != 0 {
        return None;
      }
      EmptyOrder(definitions);
      assert started == [];
      var planned := DependencyStartOrder();
      if planned.Err? {
        return Some(NoPlan(planned.error));
      }
      var plan := planned.value;
      assert plan[..0] == [];
      for i := 0 to |plan|
        invariant definitions == old(definitions) && order == old(order)
        invariant started == plan[..i] && Valid() && log == old(log) + StartCalls(plan[..i])
        invariant Distinct(plan) && DependencyFirst(definitions, {}, plan)
        invariant forall k :: 0 <= k < i ==> plan[k] !in cancelled && plan[k] !in startFails
      {
        var id := plan[i];
        if id in cancelled {
          var unstopped := StopStarted(stopFails);
          assert RollsBack(definitions, plan, i, Cancelled(id, unstopped), old(log), log, stopFails);
          return Some(Cancelled(id, unstopped));
        }
        StartOne(definitions, log, plan, i, id !in startFails);
        PrefixOfPlan(definitions, plan, i + 1);
        log := log + [StartCall(id, id !in startFails)];
        if id in startFails {
          var unstopped := StopStarted(stopFails);
          assert RollsBack(definitions, plan, i, StartFailed(id, unstopped), old(log), log, stopFails);
          return Some(StartFailed(id, unstopped));
        }
        started := started + [id];
        assert StartCalls(plan[..i + 1]) == StartCalls(plan[..i]) + [StartCall(id, true)];
        assert plan[..i + 1] == plan[..i] + [id];
      }
      assert plan[..|plan|] == plan;
      assert forall id :: id in definitions ==> id in plan;
      return None;
    }

    method Stop(stopFails: set<string>) returns (unstopped: seq<string>)
      requires Valid()
      modifies this
      ensures Valid() && definitions == old(definitions) && started == [] && RunningAfter(log) == {}
      ensures log == old(log) + StopCalls(old(started), stopFails)
      ensures unstopped == Unstopped(old(started), stopFails)
      ensures forall id :: id in unstopped <==> id in old(started) && id in stopFails
    {
      unstopped := StopStarted(stopFails);
    }
  }

  lemma EmptyOrder(g: Graph)
    ensures Ids([]) == {} && Distinct<string>([]) && DependencyFirst(g, {}, [])
  {
  }

  lemma PrefixOfPlan(g: Graph, plan: seq<string>, k: nat)
    requires Distinct(plan) && DependencyFirst(g, {}, plan) && k <= |plan|
    ensures Distinct(plan[..k]) && DependencyFirst(g, {}, plan[..k])
  {
    forall i | 0 <= i < k ensures plan[..k][i] in g && forall d :: d in g[plan[..k][i]] ==> d in plan[..k][..i] {
      assert plan[..k][..i] == plan[..i];
    }
  }

  lemma StopOne(g: Graph, log: seq<Event>, order: seq<string>, k: nat, ok: bool)
    requires AlwaysSupported(g, log) && DependencyFirst(g, {}, order) && Distinct(order) && k < |order|
    requires RunningAfter(log) == Ids(order[..k + 1])
    ensures RunningAfter(log + [StopCall(order[k], ok)]) == Ids(order[..k])
    ensures AlwaysSupported(g, log + [StopCall(order[k], ok)])
  {
    var e := StopCall(order[k], ok);
    RunningStep(log, e);
    PrefixGrows(order, k);
    PrefixIsSupported(g, order, k);
    OneMoreEvent(g, log, e);
  }

  lemma StartOne(g: Graph, log: seq<Event>, order: seq<string>, k: nat, ok: bool)
    requires AlwaysSupported(g, log) && DependencyFirst(g, {}, order) && Distinct(order) && k < |order|
    requires RunningAfter(log) == Ids(order[..k])
    ensures RunningAfter(log + [StartCall(order[k], ok)]) == Ids(order[..if ok then k + 1 else k])
    ensures AlwaysSupported(g, log + [StartCall(order[k], ok)])
  {
    var e := StartCall(order[k], ok);
    RunningStep(log, e);
    PrefixGrows(order, k);
    PrefixIsSupported(g, order, if ok then k + 1 else k);
    OneMoreEvent(g, log, e);
  }

  /** A defect of the definitions rules out any plan. */
  lemma DefectBlocks(g: Graph, roots: seq<string>, error: PlanError)
    requires Explains(g, error) && (error.Cycle? ==> CyclicFrom(g, roots)) && !error.NotRegistered?
    ensures !(Complete(g) && Acyclic(g))
  {
  }

  /** A graph with a dependency-first order of all its nodes has no defect. */
  lemma OrderedGraphIsSound(g: Graph, plan: seq<string>)
    requires Distinct(plan) && DependencyFirst(g, {}, plan) && forall id :: id in plan <==> id in g
    ensures Complete(g) && Acyclic(g)
  {
    forall p ensures !IsCycle(g, p) {
      if IsPath(g, p) && |p| >= 2 {
        assert Edge(g, p[0], p[1]);
        OrderHasNoCycle(g, {}, plan, p);
      }
    }
    forall id | id in g ensures forall d :: d in g[id] ==> d in g {
      var i :| 0 <= i < |plan| && plan[i] == id;
      assert forall d :: d in g[id] ==> d in plan[..i];
    }
  }

  lemma PlanIsComplete(g: Graph, roots: seq<string>, plan: seq<string>)
    requires Searching(g, {}, roots, plan, [])
    requires forall id :: id in roots <==> id in g
    requires forall id :: id in roots ==> id in plan
    ensures Complete(g) && Acyclic(g)
    ensures Distinct(plan) && DependencyFirst(g, {}, plan)
    ensures forall id :: id in plan <==> id in g
  {
    hide Reached;
    forall id | id in plan ensures id in g {
      var i :| 0 <= i < |plan| && plan[i] == id;
    }
    OrderedGraphIsSound(g, plan);
  }
}

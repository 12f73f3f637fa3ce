/**
 The graph runtime: definition-time checks, one step, and the driving loop.
 */
module Graph {
  import opened Options
  import opened RunState
  import opened Gates

  datatype Edge = Static(dst: NodeId) | Router(route: TaskRunState -> NodeId)

  datatype GraphError =
    | ReservedName(name: NodeId)
    | AlreadyRegistered(name: NodeId)
    | NotRegistered(name: NodeId)
    | EdgeExists(name: NodeId)
    | EntryMissing
    | NoOutgoingEdge(name: NodeId)
    | UnknownNode(name: NodeId)
    | UnknownNext(name: NodeId)
    | NodeRaised(name: NodeId)
    | MaxStepsExceeded

  datatype Result<+T> = Ok(value: T) | Err(error: GraphError)

  datatype Topology = Topology(nodes: map<NodeId, Node>, edges: map<NodeId, Edge>, entry: Option<NodeId>)

  /** What the definition calls keep: sentinels stay unregistered and every static edge lands somewhere. */
  ghost predicate WellFormed(g: Topology) {
    && Start !in g.nodes && End !in g.nodes
    && (g.entry.Some? ==> g.entry.value in g.nodes)
    && (forall n :: n in g.edges ==> n in g.nodes)
    && (forall n :: n in g.edges && g.edges[n].Static? ==> g.edges[n].dst == End || g.edges[n].dst in g.nodes)
  }

  /** What `compile` checks on top. */
  ghost predicate Compiled(g: Topology) {
    WellFormed(g) && g.entry.Some? && forall n :: n in g.nodes ==> n in g.edges
  }

  function ResolveNext(g: Topology, current: NodeId, s: TaskRunState, override: Option<NodeId>): Result<NodeId> {
    if override.Some? then
      if override.value != End && override.value !in g.nodes then Err(UnknownNext(override.value))
      else Ok(override.value)
    else if current !in g.edges then Err(NoOutgoingEdge(current))
    else
      match g.edges[current]
      case Static(dst) => Ok(dst)
      case Router(route) =>
        var dst := route(s);
        if dst != End && dst !in g.nodes then Err(UnknownNext(dst)) else Ok(dst)
  }

  /** The node a step would execute. */
  function Executing(g: Topology, s: TaskRunState): NodeId
    requires g.entry.Some?
  {
    if s.currentNode == Start then g.entry.value else s.currentNode
  }

  /** What the runtime makes of a node's outcome: pause in place, or merge and move on. */
  function Settle(g: Topology, s: TaskRunState, current: NodeId, outcome: Outcome): Result<TaskRunState> {
    match outcome
    case Raised => Err(NodeRaised(current))
    case Returned(r) =>
      if r.awaitingApproval then
        Ok(Advance(s, current, r.dataUpdate, Some(false), Some(true), None))
      else
        var advanced := Advance(s, current, r.dataUpdate, None, None, r.error);
        match ResolveNext(g, current, advanced, r.nextNode)
        case Err(e) => Err(e)
        case Ok(next) => Ok(advanced.(currentNode := next, finished := next == End))
  }

  /** Executes one node; a finished or paused state is returned as it is. */
  function Step(g: Topology, s: TaskRunState, env: Env): Result<TaskRunState> {
    if s.finished || s.awaitingApproval then Ok(s)
    else if g.entry.None? then Err(EntryMissing)
    else
      var current := Executing(g, s);
      if current !in g.nodes then Err(UnknownNode(current))
      else Settle(g, s, current, Execute(g.nodes[current], current, s, env))
  }

  /** A state the runtime can be in: at the start, on a registered node, or at the end. */
  ghost predicate Positioned(g: Topology, s: TaskRunState) {
    && (s.finished <==> s.currentNode == End)
    && (s.currentNode == Start || s.currentNode == End || s.currentNode in g.nodes)
    && (s.awaitingApproval ==> s.currentNode in g.nodes)
  }

  /**
   On a compiled graph a step keeps the position discipline, moves the sequence by one, and can only fail by the
   node's own doing: raising, or naming a destination that does not exist.
   */
  lemma StepKeepsPosition(g: Topology, s: TaskRunState, env: Env)
    requires Compiled(g) && Positioned(g, s) && !s.finished && !s.awaitingApproval
    ensures Step(g, s, env).Ok? ==>
      var t := Step(g, s, env).value;
      Positioned(g, t) && t.currentNode != Start && t.sequence == s.sequence + 1
    ensures Step(g, s, env).Err? ==> Step(g, s, env).error.NodeRaised? || Step(g, s, env).error.UnknownNext?
  {
  }

  /** The state after `s` that `r` leaves at a node: identity kept, data merged, one number later, an error unless paused. */
  ghost function Resulting(s: TaskRunState, r: NodeResult, at: NodeId): TaskRunState {
    TaskRunState(s.taskId, s.tenantId, s.traceId, s.graphId, at, s.sequence + 1, s.data + r.dataUpdate,
                 at == End, r.awaitingApproval, if r.awaitingApproval then None else r.error)
  }

  /** Where a result leads: where it says, or else where the node's edge does; a router sees what was merged. */
  ghost function Destination(g: Topology, s: TaskRunState, r: NodeResult, at: NodeId): NodeId
    requires at in g.edges
  {
    if r.nextNode.Some? then r.nextNode.value
    else
      match g.edges[at]
      case Static(dst) => dst
      case Router(route) => route(Resulting(s, r, at))
  }

  /**
   What a step is, by what its node does: an error if the node raises; a pause at the node if it asks for one; else
   the merged state where the result leads, with the node's error, or an error if nothing is registered there.
   */
  ghost predicate Yields(g: Topology, s: TaskRunState, at: NodeId, outcome: Outcome, step: Result<TaskRunState>)
    requires at in g.edges
  {
    match outcome
    case Raised => step == Err(NodeRaised(at))
    case Returned(r) =>
      if r.awaitingApproval then step == Ok(Resulting(s, r, at))
      else
        var dst := Destination(g, s, r, at);
        step == if dst == End || dst in g.nodes then Ok(Resulting(s, r, dst)) else Err(UnknownNext(dst))
  }

  /** A step follows its node, the entry at the start; an unguarded node does what its body does. */
  lemma StepFollowsNode(g: Topology, s: TaskRunState, env: Env)
    requires Compiled(g) && Positioned(g, s) && !s.finished && !s.awaitingApproval
    ensures var at := if s.currentNode == Start then g.entry.value else s.currentNode;
      && at in g.nodes && Yields(g, s, at, Execute(g.nodes[at], at, s, env), Step(g, s, env))
      && (g.nodes[at].Plain? ==> Yields(g, s, at, g.nodes[at].body(s, env), Step(g, s, env)))
  {
  }

  /** `run`: step until finished, paused, failed, or out of steps. */
  function RunFrom(g: Topology, s: TaskRunState, maxSteps: nat, world: nat -> Env): Result<TaskRunState>
    decreases maxSteps
  {
    if s.finished || s.awaitingApproval then Ok(s)
    else if maxSteps == 0 then Err(MaxStepsExceeded)
    else
      match Step(g, s, world(s.sequence))
      case Err(e) => Err(e)
      case Ok(t) => RunFrom(g, t, maxSteps - 1, world)
  }

  /** A run that ends, ends finished or paused, in position, and within its step budget. */
  lemma {:induction false} RunEndsSettled(g: Topology, s: TaskRunState, maxSteps: nat, world: nat -> Env)
    requires Compiled(g) && Positioned(g, s)
    ensures RunFrom(g, s, maxSteps, world).Ok? ==>
      var t := RunFrom(g, s, maxSteps, world).value;
      Positioned(g, t) && (t.finished || t.awaitingApproval) && s.sequence <= t.sequence <= s.sequence + maxSteps
    ensures RunFrom(g, s, maxSteps, world).Err? ==>
      var e := RunFrom(g, s, maxSteps, world).error;
      e.NodeRaised? || e.UnknownNext? || e.MaxStepsExceeded?
    decreases maxSteps
  {
    if !(s.finished || s.awaitingApproval) && maxSteps > 0 {
      StepKeepsPosition(g, s, world(s.sequence));
      if Step(g, s, world(s.sequence)).Ok? {
        RunEndsSettled(g, Step(g, s, world(s.sequence)).value, maxSteps - 1, world);
      }
    }
  }

  /** The step function, applied `n` times; it leaves finished and paused states as they are. */
  ghost function After(g: Topology, s: TaskRunState, n: nat, world: nat -> Env): Result<TaskRunState> {
    if n == 0 then Ok(s)
    else
      match After(g, s, n - 1, world)
      case Err(e) => Err(e)
      case Ok(t) => Step(g, t, world(t.sequence))
  }

  lemma {:induction false} AfterFirst(g: Topology, s: TaskRunState, n: nat, world: nat -> Env)
    requires n > 0
    ensures var first := Step(g, s, world(s.sequence));
      After(g, s, n, world) == if first.Err? then first else After(g, first.value, n - 1, world)
  {
    if n > 1 { AfterFirst(g, s, n - 1, world); }
  }

  lemma {:induction false} SettledStays(g: Topology, s: TaskRunState, n: nat, world: nat -> Env)
    requires s.finished || s.awaitingApproval
    ensures After(g, s, n, world) == Ok(s)
  {
    if n > 0 { SettledStays(g, s, n - 1, world); }
  }

  /** A run is the step function applied as often as the budget allows, and an error if that is not enough to settle. */
  lemma {:induction false} RunIsIteration(g: Topology, s: TaskRunState, maxSteps: nat, world: nat -> Env)
    ensures var last := After(g, s, maxSteps, world);
      RunFrom(g, s, maxSteps, world) ==
        if last.Ok? && !last.value.finished && !last.value.awaitingApproval then Err(MaxStepsExceeded) else last
    decreases maxSteps
  {
    if s.finished || s.awaitingApproval {
      SettledStays(g, s, maxSteps, world);
    } else if maxSteps > 0 {
      AfterFirst(g, s, maxSteps, world);
      var first := Step(g, s, world(s.sequence));
      if first.Ok? { RunIsIteration(g, first.value, maxSteps - 1, world); }
    }
  }

  /** The mutable builder graph code is written against. */
  class Graph {
    var nodes: map<NodeId, Node>
    var edges: map<NodeId, Edge>
    var entry: Option<NodeId>

    ghost function Def(): Topology
      reads this
    {
      Topology(nodes, edges, entry)
    }

    constructor ()
      ensures WellFormed(Def()) && nodes == map[] && edges == map[] && entry == None
    {
      nodes, edges, entry := map[], map[], None;
    }

    method AddNode(name: NodeId, node: Node) returns (error: Option<GraphError>)
      requires WellFormed(Def())
      modifies this
      ensures WellFormed(Def())
      ensures error == (if name == Start || name == End then Some(ReservedName(name))
                        else if name in old(nodes) then Some(AlreadyRegistered(name)) else None)
      ensures Def() == if error.None? then old(Def()).(nodes := old(nodes)[name := node]) else old(Def())
    {
      if name == Start || name == End { return Some(ReservedName(name)); }
      if name in nodes { return Some(AlreadyRegistered(name)); }
      nodes := nodes[name := node];
      return None;
    }

    method SetEntry(name: NodeId) returns (error: Option<GraphError>)
      requires WellFormed(Def())
      modifies this
      ensures WellFormed(Def())
      ensures error == if name in nodes then None else Some(NotRegistered(name))
      ensures Def() == if error.None? then old(Def()).(entry := Some(name)) else old(Def())
    {
      if name !in nodes { return Some(NotRegistered(name)); }
      entry := Some(name);
      return None;
    }

    method AddEdge(src: NodeId, dst: NodeId) returns (error: Option<GraphError>)
      requires WellFormed(Def())
      modifies this
      ensures WellFormed(Def())
      ensures error == (if src !in nodes then Some(NotRegistered(src))
                        else if dst != End && dst !in nodes then Some(NotRegistered(dst))
                        else if src in old(edges) then Some(EdgeExists(src)) else None)
      ensures Def() == if error.None? then old(Def()).(edges := old(edges)[src := Static(dst)]) else old(Def())
    {
      if src !in nodes { return Some(NotRegistered(src)); }
      if dst != End && dst !in nodes { return Some(NotRegistered(dst)); }
      if src in edges { return Some(EdgeExists(src)); }
      edges := edges[src := Static(dst)];
      return None;
    }

    method AddConditional(src: NodeId, route: TaskRunState -> NodeId) returns (error: Option<GraphError>)
      requires WellFormed(Def())
      modifies this
      ensures WellFormed(Def())
      ensures error == (if src !in nodes then Some(NotRegistered(src))
                        else if src in old(edges) then Some(EdgeExists(src)) else None)
      ensures Def() == if error.None? then old(Def()).(edges := old(edges)[src := Router(route)]) else old(Def())
    {
      if src !in nodes { return Some(NotRegistered(src)); }
      if src in edges { return Some(EdgeExists(src)); }
      edges := edges[src := Router(route)];
      return None;
    }

    /** Accepts exactly the compiled graphs, and otherwise names what is missing. */
    method Compile() returns (error: Option<GraphError>)
      requires WellFormed(Def())
      ensures error.None? <==> Compiled(Def())
      ensures error.Some? ==>
        || (error.value == EntryMissing && entry.None?)
        || (error.value.NoOutgoingEdge? && error.value.name in nodes && error.value.name !in edges)
    {
      if entry.None? { return Some(EntryMissing); }
      var unchecked := nodes.Keys;
      while unchecked != {}
        invariant unchecked <= nodes.Keys
        invariant forall n :: n in nodes && n !in unchecked ==> n in edges
        decreases unchecked
      {
        var name :| name in unchecked;
        if name !in edges { return Some(NoOutgoingEdge(name)); }
        unchecked := unchecked - {name};
      }
      return None;
    }

    /** Drives `Step` until the state is finished, paused, or capped. */
    method Run(start: TaskRunState, maxSteps: nat, world: nat -> Env) returns (result: Result<TaskRunState>)
      ensures result == RunFrom(Def(), start, maxSteps, world)
    {
      var s, steps := start, 0;
      while !s.finished && !s.awaitingApproval
        invariant 0 <= steps <= maxSteps
        invariant RunFrom(Def(), start, maxSteps, world) == RunFrom(Def(), s, maxSteps - steps, world)
        decreases maxSteps - steps
      {
        if steps >= maxSteps { return Err(MaxStepsExceeded); }
        var next := Step(Topology(nodes, edges, entry), s, world(s.sequence));
        if next.Err? { return next; }
        s, steps := next.value, steps + 1;
      }
      return Ok(s);
    }
  }
}

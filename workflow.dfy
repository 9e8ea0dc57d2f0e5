/**
 * The state-graph machinery both workflows are built on: a state is a map of
 * named fields, a node returns a partial update that is shallow-merged into
 * it, unconditional edges and one routing function per branching node name
 * the successors, `END` finishes a run, and a run pauses before any node
 * listed as an interrupt point until the caller resumes it. The library that
 * provides this in the repository is not part of this model; the rules here
 * are the ones the two graph definitions rely on.
 */
module Workflow {
  import opened Wrappers
  import Sql

  /** A field value: text, a flag, or the rows a query returned. */
  datatype Value = Str(text: string) | Flag(on: bool) | Rows(rows: seq<Sql.Row>)

  type State = map<string, Value>

  /** Python truthiness of a field value. */
  predicate Truthy(v: Value) {
    match v
    case Str(t) => t != ""
    case Flag(b) => b
    case Rows(r) => r != []
  }

  /** `state.get(key)` is truthy (a missing key reads as None). */
  predicate IsSet(s: State, key: string) {
    key in s && Truthy(s[key])
  }

  /**
   * `state.get(key, "")`, defined for str fields only: every field it is used
   * on holds a str. A present field of another kind reads as "" here, where
   * Python would return the stored value.
   */
  function Text(s: State, key: string): (t: string)
    ensures key !in s ==> t == ""
    ensures key in s && s[key].Str? ==> t == s[key].text
    ensures t != "" ==> IsSet(s, key)
  {
    if key in s && s[key].Str? then s[key].text else ""
  }

  /** Shallow merge of a node's update: keys in the update replace old values, absent keys stay. */
  function Merge(s: State, update: State): State {
    s + update
  }

  /** The merged state has the keys of both; the update's values win, and every other field keeps its value. */
  lemma MergeIsShallow(s: State, update: State)
    ensures Merge(s, update).Keys == s.Keys + update.Keys
    ensures forall k :: k in update ==> Merge(s, update)[k] == update[k]
    ensures forall k :: k in s && k !in update ==> Merge(s, update)[k] == s[k]
  {
  }

  /** Where an edge leads: a named node or `END`. */
  datatype Target = To(node: string) | End

  /**
   * A compiled graph: its nodes, the node `START` leads to, the targets of
   * each node's unconditional edges in the order they were added, the
   * candidate targets declared for each branching node, and the
   * interrupt-before list.
   */
  datatype Graph = Graph(
    nodes: set<string>,
    start: string,
    edges: map<string, seq<Target>>,
    branches: map<string, seq<Target>>,
    interruptBefore: set<string>)

  /** The targets of the unconditional edges leaving `n`. */
  function EdgesFrom(g: Graph, n: string): seq<Target> {
    if n in g.edges then g.edges[n] else []
  }

  /** The distinct nodes among some targets, `END` dropped. */
  function Pending(ts: seq<Target>): (ps: seq<string>)
    ensures forall p :: p in ps <==> To(p) in ts
  {
    if ts == [] then []
    else
      var rest := Pending(ts[1..]);
      match ts[0]
      case End => rest
      case To(p) => if p in rest then rest else [p] + rest
  }

  /** Whether some pending node is an interrupt point. */
  predicate Interrupts(g: Graph, pending: seq<string>) {
    exists p :: p in pending && p in g.interruptBefore
  }

  /** What a node function gave back. */
  datatype NodeResult =
    | Update(fields: State)   // a dict: a partial update of the state
    | Bare(text: string)      // anything else, here a plain string
    | Raised(reason: string)  // the node raised

  /** Why a run stopped without finishing. */
  datatype Fault =
    | NodeRaised(node: string, reason: string)
    | InvalidUpdate(node: string)            // the node returned something other than a dict
    | RoutingError(node: string, picked: Target)   // the routing function picked an undeclared target
    | FanOut(nodes: seq<string>)             // several successors at once: not scheduled by this model
    | RecursionLimitReached

  datatype Status = Paused(next: seq<string>) | Completed | Failed(fault: Fault)

  /**
   * The outcome of one invocation: how it stopped, the state it left (for a
   * failure, the state before the failing node), the nodes whose updates were
   * applied, in order, and the outside world afterwards.
   */
  datatype Run<W> = Run(status: Status, state: State, trace: seq<string>, world: W)

  /**
   * A graph with its node functions and its routing function. A node function
   * may consult and advance an outside world `W` (scripted replies, input
   * lines); the routing function sees the state after the node's update.
   */
  datatype Machine<!W> = Machine(
    graph: Graph,
    node: (string, State, W) -> (NodeResult, W),
    route: (string, State) -> Target)

  /** The number of steps one invocation may take before it gives up. */
  const RecursionLimit: nat := 25

  /** Run node `n` on `s`, then carry on along its edges. */
  function Execute<W>(m: Machine<W>, n: string, s: State, w: W, trace: seq<string>, fuel: nat): Run<W>
    decreases fuel, 0
  {
    if fuel == 0 then Run(Failed(RecursionLimitReached), s, trace, w)
    else
      var (result, w') := m.node(n, s, w);
      match result
      case Raised(reason) => Run(Failed(NodeRaised(n, reason)), s, trace, w')
      case Bare(_) => Run(Failed(InvalidUpdate(n)), s, trace, w')
      case Update(u) =>
        var post := Merge(s, u);
        var fixed := EdgesFrom(m.graph, n);
        if n !in m.graph.branches then
          Continue(m, Pending(fixed), post, w', trace + [n], fuel - 1)
        else
          var picked := m.route(n, post);
          if picked in m.graph.branches[n] then
            Continue(m, Pending(fixed + [picked]), post, w', trace + [n], fuel - 1)
          else
            Run(Failed(RoutingError(n, picked)), s, trace, w')
  }

  /** Decide what happens with the nodes that are due next. */
  function Continue<W>(m: Machine<W>, pending: seq<string>, s: State, w: W, trace: seq<string>, fuel: nat): Run<W>
    decreases fuel, 1
  {
    if pending == [] then Run(Completed, s, trace, w)
    else if Interrupts(m.graph, pending) then Run(Paused(pending), s, trace, w)
    else if |pending| == 1 then Execute(m, pending[0], s, w, trace, fuel)
    else Run(Failed(FanOut(pending)), s, trace, w)
  }

  /** A first call: the input is merged into an empty state and the run begins at the start node. */
  function Invoke<W>(m: Machine<W>, input: State, w: W): Run<W> {
    Continue(m, [m.graph.start], Merge(map[], input), w, [], RecursionLimit)
  }

  /**
   * A later call on a paused run: the caller's fields are merged into the
   * saved state and the nodes it paused before run without pausing again.
   * On a run that is not paused only the merge happens.
   */
  function Resume<W>(m: Machine<W>, run: Run<W>, input: State): Run<W> {
    var s := Merge(run.state, input);
    match run.status
    case Paused(next) =>
      if next == [] then Run(Completed, s, run.trace, run.world)
      else if |next| == 1 then Execute(m, next[0], s, run.world, run.trace, RecursionLimit)
      else Run(Failed(FanOut(next)), s, run.trace, run.world)
    case _ => run.(state := s)
  }

  /** One step through a node that has only unconditional edges. */
  lemma StepUnconditional<W>(m: Machine<W>, n: string, s: State, w: W, trace: seq<string>, fuel: nat, u: State, w': W)
    requires fuel > 0 && m.node(n, s, w) == (Update(u), w') && n !in m.graph.branches
    ensures Execute(m, n, s, w, trace, fuel)
              == Continue(m, Pending(EdgesFrom(m.graph, n)), Merge(s, u), w', trace + [n], fuel - 1)
  {
  }

  /** One step through a branching node whose routing function picks a declared target. */
  lemma StepRouted<W>(m: Machine<W>, n: string, s: State, w: W, trace: seq<string>, fuel: nat, u: State, w': W)
    requires fuel > 0 && m.node(n, s, w) == (Update(u), w') && n in m.graph.branches
    requires m.route(n, Merge(s, u)) in m.graph.branches[n]
    ensures Execute(m, n, s, w, trace, fuel)
              == Continue(m, Pending(EdgesFrom(m.graph, n) + [m.route(n, Merge(s, u))]), Merge(s, u), w', trace + [n], fuel - 1)
  {
  }

  /** Handing a single node that is not an interrupt point on to Execute. */
  lemma StepInto<W>(m: Machine<W>, n: string, s: State, w: W, trace: seq<string>, fuel: nat)
    requires n !in m.graph.interruptBefore
    ensures Continue(m, [n], s, w, trace, fuel) == Execute(m, n, s, w, trace, fuel)
  {
    assert !Interrupts(m.graph, [n]);
  }

  /** A run stops as paused only in front of an interrupt point. */
  lemma {:induction false} ExecutePausesOnlyAtInterrupts<W>(m: Machine<W>, n: string, s: State, w: W, trace: seq<string>, fuel: nat)
    ensures Execute(m, n, s, w, trace, fuel).status.Paused? ==>
              Interrupts(m.graph, Execute(m, n, s, w, trace, fuel).status.next)
    decreases fuel, 0
  {
    if fuel > 0 {
      var (result, w') := m.node(n, s, w);
      if result.Update? {
        var post := Merge(s, result.fields);
        var fixed := EdgesFrom(m.graph, n);
        if n !in m.graph.branches {
          ContinuePausesOnlyAtInterrupts(m, Pending(fixed), post, w', trace + [n], fuel - 1);
        } else {
          var picked := m.route(n, post);
          ContinuePausesOnlyAtInterrupts(m, Pending(fixed + [picked]), post, w', trace + [n], fuel - 1);
        }
      }
    }
  }

  lemma {:induction false} ContinuePausesOnlyAtInterrupts<W>(m: Machine<W>, pending: seq<string>, s: State, w: W, trace: seq<string>, fuel: nat)
    ensures Continue(m, pending, s, w, trace, fuel).status.Paused? ==>
              Interrupts(m.graph, Continue(m, pending, s, w, trace, fuel).status.next)
    decreases fuel, 1
  {
    if pending != [] && !Interrupts(m.graph, pending) && |pending| == 1 {
      ExecutePausesOnlyAtInterrupts(m, pending[0], s, w, trace, fuel);
    }
  }

  /** Merging never drops a field: every key of the state a run starts from is still there when it stops. */
  lemma {:induction false} ExecuteKeepsKeys<W>(m: Machine<W>, n: string, s: State, w: W, trace: seq<string>, fuel: nat)
    ensures s.Keys <= Execute(m, n, s, w, trace, fuel).state.Keys
    decreases fuel, 0
  {
    if fuel > 0 {
      var (result, w') := m.node(n, s, w);
      if result.Update? {
        var post := Merge(s, result.fields);
        var fixed := EdgesFrom(m.graph, n);
        if n !in m.graph.branches {
          ContinueKeepsKeys(m, Pending(fixed), post, w', trace + [n], fuel - 1);
        } else {
          var picked := m.route(n, post);
          ContinueKeepsKeys(m, Pending(fixed + [picked]), post, w', trace + [n], fuel - 1);
        }
      }
    }
  }

  lemma {:induction false} ContinueKeepsKeys<W>(m: Machine<W>, pending: seq<string>, s: State, w: W, trace: seq<string>, fuel: nat)
    ensures s.Keys <= Continue(m, pending, s, w, trace, fuel).state.Keys
    decreases fuel, 1
  {
    if pending != [] && !Interrupts(m.graph, pending) && |pending| == 1 {
      ExecuteKeepsKeys(m, pending[0], s, w, trace, fuel);
    }
  }

  /** The trace only grows: a run extends the trace it was given. */
  lemma {:induction false} ExecuteExtendsTrace<W>(m: Machine<W>, n: string, s: State, w: W, trace: seq<string>, fuel: nat)
    ensures trace <= Execute(m, n, s, w, trace, fuel).trace
    ensures |Execute(m, n, s, w, trace, fuel).trace| <= |trace| + fuel
    decreases fuel, 0
  {
    if fuel > 0 {
      var (result, w') := m.node(n, s, w);
      if result.Update? {
        var post := Merge(s, result.fields);
        var fixed := EdgesFrom(m.graph, n);
        if n !in m.graph.branches {
          ContinueExtendsTrace(m, Pending(fixed), post, w', trace + [n], fuel - 1);
        } else {
          var picked := m.route(n, post);
          ContinueExtendsTrace(m, Pending(fixed + [picked]), post, w', trace + [n], fuel - 1);
        }
      }
    }
  }

  lemma {:induction false} ContinueExtendsTrace<W>(m: Machine<W>, pending: seq<string>, s: State, w: W, trace: seq<string>, fuel: nat)
    ensures trace <= Continue(m, pending, s, w, trace, fuel).trace
    ensures |Continue(m, pending, s, w, trace, fuel).trace| <= |trace| + fuel
    decreases fuel, 1
  {
    if pending != [] && !Interrupts(m.graph, pending) && |pending| == 1 {
      ExecuteExtendsTrace(m, pending[0], s, w, trace, fuel);
    }
  }
}

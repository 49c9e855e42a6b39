/**
 * Execution of a compiled workflow graph: `graph.astream({"messages":
 * [initial_message]})` driven to its end (backend/main.py, lines 192-198),
 * with the node lambdas of lines 162 and 166 and the routing lambda of
 * line 175.
 *
 * The specification functions take `agentNode`, the value of the frame's
 * `agent_node` variable while the graph runs (nothing assigns it once the
 * graph is built); the streaming loop itself reads the frame at every
 * specialist call, as the lambdas do.
 *
 * The source loops until the supervisor routes to END. Here `fuel` bounds
 * the number of node executions so that the model terminates; running out
 * of it is the model's own `FuelExhausted` outcome, not something the
 * source does.
 */
module Engine {
  import opened Wrappers
  import opened Schemas
  import opened Chains
  import opened Workflow

  datatype Outcome =
    /** The supervisor routed to END; `messages` is the final state. */
    | Finished(messages: seq<Msg>)
    /** The supervisor's stripped reply is not a key of the dispatch map. */
    | Unrouted(messages: seq<Msg>, key: string)
    /** The model's turn bound ran out first. */
    | FuelExhausted(messages: seq<Msg>)

  /** The chain a node invokes: the supervisor's own, or `agent_node` for every specialist. */
  function NodeChain(g: Graph, agentNode: Option<Chain>, node: string): (chain: Chain)
    requires Compiled(g, agentNode) && node in g.nodes
  {
    match g.nodes[node]
    case SupervisorNode(c) => c
    case Specialist(_) =>
      assert node in g.nodes.Keys - {Supervisor};
      agentNode.value
  }

  /** One node execution: the node returns a one-message update that the reducer appends. */
  function Turn(g: Graph, agentNode: Option<Chain>, gen: Generator, node: string, messages: seq<Msg>): (r: seq<Msg>)
    requires Compiled(g, agentNode) && node in g.nodes
    ensures |r| == |messages| + 1 && r[..|messages|] == messages
    ensures r[|messages|] == Invoke(NodeChain(g, agentNode, node), messages, gen)
  {
    AddMessages(messages, [Invoke(NodeChain(g, agentNode, node), messages, gen)])
  }

  /** What follows a node execution: another node, or the end of the run. */
  datatype Step = Goto(node: string) | Stop(outcome: Outcome)

  /**
   * After the supervisor, the dispatch map decides; after a specialist, its
   * one edge leads back to the supervisor.
   */
  function After(g: Graph, agentNode: Option<Chain>, node: string, next: seq<Msg>): (step: Step)
    requires Compiled(g, agentNode) && node in g.nodes && |next| > 0
    ensures step.Goto? ==> step.node in g.nodes && (step.node == Supervisor <==> node != Supervisor)
    ensures step.Stop? ==> step == Stop(Finished(next)) || step == Stop(Unrouted(next, RouteKey(next)))
    ensures step == Stop(Finished(next)) <==> node == Supervisor && Route(g.dispatch, next) == Some(End)
    ensures step == Stop(Unrouted(next, RouteKey(next))) <==> node == Supervisor && Route(g.dispatch, next) == None
    ensures node == Supervisor && Route(g.dispatch, next).Some? && Route(g.dispatch, next).value.Node? ==>
              step == Goto(Route(g.dispatch, next).value.role)
    ensures node != Supervisor ==> step == Goto(Supervisor)
  {
    if node == g.branchSource then
      match Route(g.dispatch, next)
      case None => Stop(Unrouted(next, RouteKey(next)))
      case Some(End) => Stop(Finished(next))
      case Some(Node(r)) => Goto(r)
    else
      Goto(Supervisor)
  }

  /** The run from `node` on: execute it, then go where `After` says. */
  function RunFrom(g: Graph, agentNode: Option<Chain>, gen: Generator, node: string, messages: seq<Msg>, fuel: nat): (out: Outcome)
    requires Compiled(g, agentNode) && node in g.nodes
    decreases fuel
  {
    if fuel == 0 then FuelExhausted(messages)
    else
      var next := Turn(g, agentNode, gen, node, messages);
      match After(g, agentNode, node, next)
      case Stop(outcome) => outcome
      case Goto(m) => RunFrom(g, agentNode, gen, m, next, fuel - 1)
  }

  /** A run that goes on from `node` to `m` is the run from `m` on the extended history. */
  lemma RunFromGoto(g: Graph, agentNode: Option<Chain>, gen: Generator, node: string, messages: seq<Msg>, fuel: nat, m: string)
    requires Compiled(g, agentNode) && node in g.nodes && fuel > 0
    requires After(g, agentNode, node, Turn(g, agentNode, gen, node, messages)) == Goto(m)
    ensures m in g.nodes
    ensures RunFrom(g, agentNode, gen, node, messages, fuel)
         == RunFrom(g, agentNode, gen, m, Turn(g, agentNode, gen, node, messages), fuel - 1)
  {
  }

  /** After the supervisor names a role, the run goes on at that role's node. */
  lemma RunFollowsRoute(g: Graph, agentNode: Option<Chain>, gen: Generator, messages: seq<Msg>, fuel: nat, r: string)
    requires Compiled(g, agentNode) && fuel > 0
    requires Route(g.dispatch, Turn(g, agentNode, gen, Supervisor, messages)) == Some(Node(r))
    ensures r in g.nodes && r != Supervisor
    ensures RunFrom(g, agentNode, gen, Supervisor, messages, fuel)
         == RunFrom(g, agentNode, gen, r, Turn(g, agentNode, gen, Supervisor, messages), fuel - 1)
  {
    RunFromGoto(g, agentNode, gen, Supervisor, messages, fuel, r);
  }

  /**
   * The streaming loop: each step executes one node and `final_state` is
   * reassigned to the state after it; a specialist reads the frame's
   * `agent_node` when it is called. The loop ends when the supervisor
   * routes to END.
   */
  method Stream(g: Graph, gen: Generator, input: seq<Msg>, fuel: nat) returns (out: Outcome)
    requires Compiled(g, g.env.agentNode)
    ensures out == RunFrom(g, g.env.agentNode, gen, Supervisor, input, fuel)
  {
    var node := g.entry.value;
    var finalState := input;
    var remaining := fuel;
    while remaining > 0
      invariant node in g.nodes
      invariant RunFrom(g, g.env.agentNode, gen, node, finalState, remaining)
             == RunFrom(g, g.env.agentNode, gen, Supervisor, input, fuel)
      decreases remaining
    {
      var chain;
      match g.nodes[node] {
        case SupervisorNode(c) =>
          chain := c;
        case Specialist(_) =>
          assert node in g.nodes.Keys - {Supervisor};
          chain := g.env.agentNode.value;
      }
      finalState := AddMessages(finalState, [Invoke(chain, finalState, gen)]);
      var step := After(g, g.env.agentNode, node, finalState);
      match step {
        case Stop(outcome) =>
          return outcome;
        case Goto(m) =>
          node := m;
      }
      remaining := remaining - 1;
    }
    return FuelExhausted(finalState);
  }

  /**
   * The history only grows: the starting messages are a prefix of the final
   * ones, every executed node added exactly one message, and a run that got
   * to execute a node ends strictly longer than it started.
   */
  lemma {:induction false} RunExtendsHistory(g: Graph, agentNode: Option<Chain>, gen: Generator, node: string, messages: seq<Msg>, fuel: nat)
    requires Compiled(g, agentNode) && node in g.nodes
    ensures var out := RunFrom(g, agentNode, gen, node, messages, fuel);
      && |messages| <= |out.messages| <= |messages| + fuel
      && out.messages[..|messages|] == messages
      && (fuel > 0 ==> |out.messages| > |messages|)
    decreases fuel
  {
    if fuel > 0 {
      var next := Turn(g, agentNode, gen, node, messages);
      var out := RunFrom(g, agentNode, gen, node, messages, fuel);
      var step := After(g, agentNode, node, next);
      if step.Goto? {
        RunExtendsHistory(g, agentNode, gen, step.node, next, fuel - 1);
        assert out.messages[..|next|][..|messages|] == messages;
      }
    }
  }

  /**
   * The message at position `i` is the reply of the chain whose turn it is,
   * counting turns from `base`, to the whole history before it.
   */
  ghost predicate ProducedBy(g: Graph, agentNode: Option<Chain>, gen: Generator, s: seq<Msg>, base: nat, supervisorFirst: bool, i: nat)
    requires Compiled(g, agentNode) && base <= i < |s|
  {
    var supervisorTurn := ((i - base) % 2 == 0) == supervisorFirst;
    if supervisorTurn then s[i] == Invoke(NodeChain(g, agentNode, Supervisor), s[..i], gen)
    else agentNode.Some? && s[i] == Invoke(agentNode.value, s[..i], gen)
  }

  /**
   * Turns alternate from `base` on: the supervisor, then a specialist, and
   * so on (or the reverse when the run started at a specialist); every
   * message is the reply to the whole history before it, and every
   * specialist message comes from the one chain in the frame.
   */
  ghost predicate Alternates(g: Graph, agentNode: Option<Chain>, gen: Generator, s: seq<Msg>, base: nat, supervisorFirst: bool)
    requires Compiled(g, agentNode)
  {
    && base <= |s|
    && forall i | base <= i < |s| :: ProducedBy(g, agentNode, gen, s, base, supervisorFirst, i)
  }

  lemma {:induction false} RunAlternates(g: Graph, agentNode: Option<Chain>, gen: Generator, node: string, messages: seq<Msg>, fuel: nat)
    requires Compiled(g, agentNode) && node in g.nodes
    ensures Alternates(g, agentNode, gen, RunFrom(g, agentNode, gen, node, messages, fuel).messages, |messages|, node == Supervisor)
    decreases fuel
  {
    RunExtendsHistory(g, agentNode, gen, node, messages, fuel);
    var out := RunFrom(g, agentNode, gen, node, messages, fuel).messages;
    if fuel > 0 {
      var next := Turn(g, agentNode, gen, node, messages);
      var n := |messages|;
      var step := After(g, agentNode, node, next);
      if step.Goto? {
        var m := step.node;
        RunAlternates(g, agentNode, gen, m, next, fuel - 1);
        RunExtendsHistory(g, agentNode, gen, m, next, fuel - 1);
        assert out == RunFrom(g, agentNode, gen, m, next, fuel - 1).messages;
        assert out[..n + 1] == next;
      } else {
        assert out == next;
      }
      assert out[..n] == messages;
      var supervisorFirst := node == Supervisor;
      assert ProducedBy(g, agentNode, gen, out, n, supervisorFirst, n) by {
        assert out[n] == next[n];
        if node != Supervisor {
          assert g.nodes[node].Specialist?;
        }
      }
      if step.Goto? {
        AlternatesShift(g, agentNode, gen, out, n, supervisorFirst);
      }
    }
  }

  /** One turn by the party whose turn it is, followed by alternating turns starting with the other party. */
  lemma AlternatesShift(g: Graph, agentNode: Option<Chain>, gen: Generator, s: seq<Msg>, n: nat, supervisorFirst: bool)
    requires Compiled(g, agentNode) && n < |s|
    requires ProducedBy(g, agentNode, gen, s, n, supervisorFirst, n)
    requires Alternates(g, agentNode, gen, s, n + 1, !supervisorFirst)
    ensures Alternates(g, agentNode, gen, s, n, supervisorFirst)
  {
    forall i | n < i < |s| ensures ProducedBy(g, agentNode, gen, s, n, supervisorFirst, i) {
      assert ProducedBy(g, agentNode, gen, s, n + 1, !supervisorFirst, i);
      assert ((i - (n + 1)) % 2 == 0) == ((i - n) % 2 != 0);
    }
  }

  /** Every message a run adds is an AI message: a node only ever answers with the model's reply. */
  lemma RunRepliesAreAI(g: Graph, agentNode: Option<Chain>, gen: Generator, node: string, messages: seq<Msg>, fuel: nat)
    requires Compiled(g, agentNode) && node in g.nodes
    ensures var out := RunFrom(g, agentNode, gen, node, messages, fuel).messages;
      |messages| <= |out| && forall i | |messages| <= i < |out| :: out[i].AIMessage?
  {
    RunAlternates(g, agentNode, gen, node, messages, fuel);
    var out := RunFrom(g, agentNode, gen, node, messages, fuel).messages;
    var supervisorFirst := node == Supervisor;
    forall i | |messages| <= i < |out| ensures out[i].AIMessage? {
      assert ProducedBy(g, agentNode, gen, out, |messages|, supervisorFirst, i);
    }
  }

  /**
   * A run that stops on its own stops right after a supervisor turn: the
   * last message is the supervisor's reply to everything before it.
   */
  lemma {:induction false} RunStopsAfterSupervisor(g: Graph, agentNode: Option<Chain>, gen: Generator, node: string, messages: seq<Msg>, fuel: nat)
    requires Compiled(g, agentNode) && node in g.nodes
    ensures var out := RunFrom(g, agentNode, gen, node, messages, fuel);
      (out.Finished? || out.Unrouted?) ==> |out.messages| > |messages|
    ensures var out := RunFrom(g, agentNode, gen, node, messages, fuel);
      (out.Finished? || out.Unrouted?) ==>
        |out.messages| > 0 &&
        var last := |out.messages| - 1;
        out.messages[last] == Invoke(NodeChain(g, agentNode, Supervisor), out.messages[..last], gen)
    decreases fuel
  {
    if fuel > 0 {
      var next := Turn(g, agentNode, gen, node, messages);
      var step := After(g, agentNode, node, next);
      if step.Goto? {
        RunStopsAfterSupervisor(g, agentNode, gen, step.node, next, fuel - 1);
      } else {
        assert node == Supervisor;
      }
    }
  }

  /**
   * Routing the final message gave END for a finished run and nothing for
   * an unrouted one, whose key is that message stripped.
   */
  lemma {:induction false} RunStopRoute(g: Graph, agentNode: Option<Chain>, gen: Generator, node: string, messages: seq<Msg>, fuel: nat)
    requires Compiled(g, agentNode) && node in g.nodes
    ensures var out := RunFrom(g, agentNode, gen, node, messages, fuel);
      out.Finished? ==> |out.messages| > 0 && Route(g.dispatch, out.messages) == Some(End)
    ensures var out := RunFrom(g, agentNode, gen, node, messages, fuel);
      out.Unrouted? ==> |out.messages| > 0 && Route(g.dispatch, out.messages) == None && out.key == RouteKey(out.messages)
    decreases fuel
  {
    if fuel > 0 {
      var next := Turn(g, agentNode, gen, node, messages);
      var step := After(g, agentNode, node, next);
      if step.Goto? {
        RunStopRoute(g, agentNode, gen, step.node, next, fuel - 1);
      }
    }
  }

  /**
   * Late binding makes the routing choice invisible: from any two
   * specialist nodes the rest of the run is the same.
   */
  lemma SpecialistChoiceIrrelevant(g: Graph, agentNode: Option<Chain>, gen: Generator, a: string, b: string, messages: seq<Msg>, fuel: nat)
    requires Compiled(g, agentNode) && a in g.nodes && b in g.nodes && a != Supervisor && b != Supervisor
    ensures RunFrom(g, agentNode, gen, a, messages, fuel) == RunFrom(g, agentNode, gen, b, messages, fuel)
  {
  }

  /**
   * A run of the graph built for a roster, started at the supervisor:
   * turns alternate supervisor / specialist, and every specialist turn is
   * the reply of the last roster entry's chain, whichever role the
   * supervisor named.
   */
  lemma BuiltRunAlternates(g: Graph, roster: seq<AgentSpec>, gen: Generator, input: seq<Msg>, fuel: nat)
    requires IsWorkflowFor(g, roster)
    requires Supervisor !in Roles(roster)
    requires roster != []
    ensures Compiled(g, g.env.agentNode)
    ensures g.env.agentNode == Some(AgentChain(roster[|roster| - 1].role, roster[|roster| - 1].responsibilities))
    ensures Alternates(g, g.env.agentNode, gen, RunFrom(g, g.env.agentNode, gen, Supervisor, input, fuel).messages, |input|, true)
  {
    BuiltGraphIsCompiled(g, roster);
    RunAlternates(g, g.env.agentNode, gen, Supervisor, input, fuel);
  }

  /**
   * A finished run of a built graph ends with the supervisor's reply to
   * everything before it, and that reply, stripped, is the completion token.
   */
  lemma BuiltRunFinishes(g: Graph, roster: seq<AgentSpec>, gen: Generator, input: seq<Msg>, fuel: nat)
    requires IsWorkflowFor(g, roster)
    requires Supervisor !in Roles(roster)
    ensures Compiled(g, g.env.agentNode)
    ensures var out := RunFrom(g, g.env.agentNode, gen, Supervisor, input, fuel);
      out.Finished? ==> |out.messages| > |input| && RouteKey(out.messages) == Finish
    ensures var out := RunFrom(g, g.env.agentNode, gen, Supervisor, input, fuel);
      out.Finished? ==>
        |out.messages| > |input| &&
        var last := |out.messages| - 1;
        out.messages[last] == Invoke(CreateSupervisorChain(Roles(roster)), out.messages[..last], gen)
  {
    BuiltGraphIsCompiled(g, roster);
    RunStopsOnDispatch(g, g.env.agentNode, Roles(roster), gen, input, fuel);
  }

  /**
   * An unrouted run of a built graph ends with a supervisor reply that,
   * stripped, is neither a role nor the completion token.
   */
  lemma BuiltRunUnrouted(g: Graph, roster: seq<AgentSpec>, gen: Generator, input: seq<Msg>, fuel: nat)
    requires IsWorkflowFor(g, roster)
    requires Supervisor !in Roles(roster)
    ensures Compiled(g, g.env.agentNode)
    ensures var out := RunFrom(g, g.env.agentNode, gen, Supervisor, input, fuel);
      out.Unrouted? ==> |out.messages| > |input| && out.key !in Roles(roster) && out.key != Finish
  {
    BuiltGraphIsCompiled(g, roster);
    RunStopsOnDispatch(g, g.env.agentNode, Roles(roster), gen, input, fuel);
  }

  /** How a run stops, for any compiled graph whose supervisor and dispatch map are those of `roles`. */
  lemma RunStopsOnDispatch(g: Graph, agentNode: Option<Chain>, roles: seq<string>, gen: Generator, input: seq<Msg>, fuel: nat)
    requires Compiled(g, agentNode)
    requires IsDispatchFor(g.dispatch, roles)
    requires g.nodes[Supervisor] == SupervisorNode(CreateSupervisorChain(roles))
    ensures var out := RunFrom(g, agentNode, gen, Supervisor, input, fuel);
      && (out.Finished? ==>
            && |out.messages| > |input|
            && RouteKey(out.messages) == Finish
            && var last := |out.messages| - 1;
               out.messages[last] == Invoke(CreateSupervisorChain(roles), out.messages[..last], gen))
      && (out.Unrouted? ==> |out.messages| > |input| && out.key !in roles && out.key != Finish)
  {
    RunStopsAfterSupervisor(g, agentNode, gen, Supervisor, input, fuel);
    RunStopRoute(g, agentNode, gen, Supervisor, input, fuel);
    var out := RunFrom(g, agentNode, gen, Supervisor, input, fuel);
    if out.Finished? || out.Unrouted? {
      RouteOnDispatch(g.dispatch, roles, out.messages);
    }
  }
}

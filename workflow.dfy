/**
 * Construction of the star-shaped workflow graph from a runtime roster, and
 * the routing rule of its one conditional edge (backend/main.py, lines
 * 155-178 of `run_conversation`).
 */
module Workflow {
  import opened Wrappers
  import opened Schemas
  import opened Text
  import opened Chains

  const Supervisor := "supervisor"

  /** Where the supervisor's conditional edge leads: a node by name, or the graph's END. */
  datatype Dest = Node(role: string) | End

  datatype NodeImpl =
    /**
     * The specialist lambda. `defaultRole` is its `role=` default argument,
     * bound but never used; the chain it invokes is read, at call time, from
     * the enclosing frame's `agent_node` variable.
     */
    | Specialist(defaultRole: string)
    /** The supervisor lambda, which closes over `supervisor_chain`. */
    | SupervisorNode(chain: Chain)

  /**
   * The local variables of `run_conversation` that the specialist lambdas
   * close over. There is one frame per call, shared by every lambda, so
   * every lambda sees the last value assigned to `agent_node`.
   */
  class Frame {
    var agentNode: Option<Chain>

    constructor ()
      ensures agentNode == None
    {
      agentNode := None;
    }
  }

  /**
   * The graph handed to `compile()`: named nodes, plain edges, the
   * conditional edges leaving `branchSource`, the entry point, and the
   * frame the node lambdas close over.
   */
  datatype Graph = Graph(
    nodes: map<string, NodeImpl>,
    edges: set<(string, string)>,
    branchSource: string,
    dispatch: map<string, Dest>,
    entry: Option<string>,
    env: Frame)

  /** `[agent.role for agent in use_case.agents]`. */
  function Roles(roster: seq<AgentSpec>): (roles: seq<string>)
    ensures |roles| == |roster|
    ensures forall k :: 0 <= k < |roster| ==> roles[k] == roster[k].role
  {
    seq(|roster|, k requires 0 <= k < |roster| => roster[k].role)
  }

  /** No two roster entries share a role (the graph library refuses a second node of the same name). */
  predicate RolesDistinct(roster: seq<AgentSpec>)
  {
    forall a, b :: 0 <= a < b < |roster| ==> roster[a].role != roster[b].role
  }

  /** The chain built in the last iteration of the node loop, if there was one. */
  function LastAgentChain(roster: seq<AgentSpec>): (chain: Option<Chain>)
  {
    if roster == [] then None
    else Some(CreateAgentNode(roster[|roster| - 1].role, roster[|roster| - 1].responsibilities))
  }

  /**
   * The dispatch map of the supervisor's conditional edge: its keys are the
   * roles and the completion token; each role leads to its own node and the
   * completion token leads to END, even when a role is itself named so.
   */
  ghost predicate IsDispatchFor(dispatch: map<string, Dest>, roles: seq<string>)
  {
    && dispatch.Keys == (set r | r in roles) + {Finish}
    && dispatch[Finish] == End
    && forall r | r in roles && r != Finish :: dispatch[r] == Node(r)
  }

  /** The graph `run_conversation` builds for a roster, field by field. */
  ghost predicate IsWorkflowFor(g: Graph, roster: seq<AgentSpec>)
    reads g.env
  {
    var roles := Roles(roster);
    && g.nodes.Keys == (set r | r in roles) + {Supervisor}
    && (forall r | r in roles :: g.nodes[r] == Specialist(r))
    && g.nodes[Supervisor] == SupervisorNode(CreateSupervisorChain(roles))
    && g.edges == (set r | r in roles :: (r, Supervisor))
    && g.branchSource == Supervisor
    && IsDispatchFor(g.dispatch, roles)
    && g.entry == Some(Supervisor)
    && g.env.agentNode == LastAgentChain(roster)
  }

  /**
   * What running a graph relies on: a star around the supervisor, a
   * dispatch map that only names specialist nodes, and, when there is a
   * specialist, a chain bound to `agentNode`, the frame's variable as the
   * lambdas see it during the run.
   */
  predicate Compiled(g: Graph, agentNode: Option<Chain>)
  {
    && g.entry == Some(Supervisor)
    && g.branchSource == Supervisor
    && Supervisor in g.nodes && g.nodes[Supervisor].SupervisorNode?
    && (forall k | k in g.dispatch && g.dispatch[k].Node? ::
          g.dispatch[k].role in g.nodes && g.dispatch[k].role != Supervisor)
    && (forall n | n in g.nodes && n != Supervisor :: g.nodes[n].Specialist? && (n, Supervisor) in g.edges)
    && (forall e | e in g.edges :: e.0 != Supervisor && e.1 == Supervisor)
    && (g.nodes.Keys != {Supervisor} ==> agentNode.Some?)
  }

  /**
   * Graph construction: one specialist node per roster entry (each closing
   * over the shared `agent_node` variable), the supervisor node, an edge
   * from every role back to the supervisor, the dispatch map, and the entry
   * point.
   */
  method BuildWorkflow(roster: seq<AgentSpec>) returns (g: Graph)
    requires RolesDistinct(roster)
    requires Supervisor !in Roles(roster)
    ensures IsWorkflowFor(g, roster)
  {
    var env := new Frame();
    var agentRoles := Roles(roster);
    var nodes := AddAgentNodes(roster, env);
    var supervisorChain := CreateSupervisorChain(agentRoles);
    nodes := nodes[Supervisor := SupervisorNode(supervisorChain)];
    var edges := AddReturnEdges(agentRoles);
    var conditionalMap := map r | r in agentRoles :: Node(r);
    conditionalMap := conditionalMap[Finish := End];
    g := Graph(nodes, edges, Supervisor, conditionalMap, Some(Supervisor), env);
  }

  /**
   * The node loop: each iteration assigns the frame's `agent_node` and adds
   * a node for the role, so after the loop the frame holds the last
   * entry's chain.
   */
  method AddAgentNodes(roster: seq<AgentSpec>, env: Frame) returns (nodes: map<string, NodeImpl>)
    requires env.agentNode == None
    modifies env
    ensures nodes.Keys == set r | r in Roles(roster)
    ensures forall r | r in Roles(roster) :: nodes[r] == Specialist(r)
    ensures env.agentNode == LastAgentChain(roster)
  {
    var agentRoles := Roles(roster);
    nodes := map[];
    var i := 0;
    while i < |roster|
      invariant 0 <= i <= |roster|
      invariant nodes.Keys == set r | r in agentRoles[..i]
      invariant forall r | r in agentRoles[..i] :: nodes[r] == Specialist(r)
      invariant env.agentNode == LastAgentChain(roster[..i])
    {
      var agent := roster[i];
      env.agentNode := Some(CreateAgentNode(agent.role, agent.responsibilities));
      nodes := nodes[agent.role := Specialist(agent.role)];
      assert agentRoles[..i + 1] == agentRoles[..i] + [agent.role];
      assert roster[..i + 1][i] == agent;
      i := i + 1;
    }
    assert agentRoles[..i] == agentRoles;
    assert roster[..i] == roster;
  }

  /** The edge loop: one edge from every role back to the supervisor. */
  method AddReturnEdges(agentRoles: seq<string>) returns (edges: set<(string, string)>)
    ensures edges == set r | r in agentRoles :: (r, Supervisor)
  {
    edges := {};
    var j := 0;
    while j < |agentRoles|
      invariant 0 <= j <= |agentRoles|
      invariant edges == set r | r in agentRoles[..j] :: (r, Supervisor)
    {
      edges := edges + {(agentRoles[j], Supervisor)};
      assert agentRoles[..j + 1] == agentRoles[..j] + [agentRoles[j]];
      j := j + 1;
    }
    assert agentRoles[..j] == agentRoles;
  }

  /** A built graph satisfies everything the run relies on. */
  lemma BuiltGraphIsCompiled(g: Graph, roster: seq<AgentSpec>)
    requires IsWorkflowFor(g, roster)
    requires Supervisor !in Roles(roster)
    ensures Compiled(g, g.env.agentNode)
  {
    var roles := Roles(roster);
    if g.nodes.Keys != {Supervisor} {
      var n :| n in g.nodes.Keys && n != Supervisor;
      assert n in roles;
      assert roster != [];
    }
  }

  /**
   * The node set is exactly the roles plus the supervisor; every specialist
   * has one outgoing edge, to the supervisor, and there is no other edge;
   * the run starts at the supervisor.
   */
  lemma StarTopology(g: Graph, roster: seq<AgentSpec>)
    requires IsWorkflowFor(g, roster)
    requires Supervisor !in Roles(roster)
    ensures forall n :: n in g.nodes <==> n == Supervisor || n in Roles(roster)
    ensures forall a, b :: (a, b) in g.edges <==> a in Roles(roster) && b == Supervisor
    ensures g.entry == Some(Supervisor)
  {
    forall a, b | a in Roles(roster) && b == Supervisor ensures (a, b) in g.edges {
    }
  }

  /** Every specialist node, whatever its role, runs the chain of the last roster entry. */
  lemma SpecialistsRunLastChain(g: Graph, roster: seq<AgentSpec>)
    requires IsWorkflowFor(g, roster)
    requires roster != []
    ensures g.env.agentNode == Some(AgentChain(roster[|roster| - 1].role, roster[|roster| - 1].responsibilities))
    ensures forall r | r in Roles(roster) :: g.nodes[r].Specialist?
  {
  }

  /** The key the routing lambda computes: the last message's content, stripped. */
  function RouteKey(messages: seq<Msg>): (key: string)
    requires |messages| > 0
    ensures |key| <= |messages[|messages| - 1].content|
    ensures key == [] || (!IsSpace(key[0]) && !IsSpace(key[|key| - 1]))
  {
    StripTrimsOnlySpace(messages[|messages| - 1].content);
    Strip(messages[|messages| - 1].content)
  }

  /** The routing lambda followed by the lookup in the dispatch map; None when the key is not mapped. */
  function Route(dispatch: map<string, Dest>, messages: seq<Msg>): (dest: Option<Dest>)
    requires |messages| > 0
    ensures dest.Some? <==> RouteKey(messages) in dispatch
    ensures dest.Some? ==> dest.value == dispatch[RouteKey(messages)]
  {
    var key := RouteKey(messages);
    if key in dispatch then Some(dispatch[key]) else None
  }

  /**
   * On the dispatch map of a roster, routing is exact: the completion token
   * ends the run, a role names its own node, and any other key has no
   * destination. No key is mapped to the node of a role named "FINISH".
   */
  lemma RouteOnDispatch(dispatch: map<string, Dest>, roles: seq<string>, messages: seq<Msg>)
    requires IsDispatchFor(dispatch, roles)
    requires |messages| > 0
    ensures Route(dispatch, messages) == Some(End) <==> RouteKey(messages) == Finish
    ensures forall r :: Route(dispatch, messages) == Some(Node(r)) <==>
                        r == RouteKey(messages) && r in roles && r != Finish
    ensures Route(dispatch, messages) == None <==> RouteKey(messages) !in roles && RouteKey(messages) != Finish
  {
  }

  /** The answers the supervisor is offered are exactly the keys the router accepts. */
  lemma OptionsAreDispatchKeys(dispatch: map<string, Dest>, roles: seq<string>)
    requires IsDispatchFor(dispatch, roles)
    ensures (set o | o in CreateSupervisorChain(roles).options) == dispatch.Keys
  {
    var options := CreateSupervisorChain(roles).options;
    assert options == roles + [Finish];
  }
}

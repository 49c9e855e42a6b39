/**
 * The two chain factories of backend/main.py, reduced to the interface the
 * workflow sees: which chain is invoked, on which message history. The
 * prompt text and the language model behind `| llm` are opaque; a
 * `Generator` stands for them.
 */
module Chains {
  import opened Wrappers
  import opened Schemas

  /** The completion token the supervisor is told to answer with. */
  const Finish := "FINISH"

  datatype Chain =
    /** `create_agent_node(role, responsibilities)`: a prompt naming the role, piped into the model. */
    | AgentChain(role: string, responsibilities: string)
    /** `create_supervisor_chain(agent_roles)`: a prompt listing the agents and the allowed answers. */
    | SupervisorChain(agentRoles: seq<string>, options: seq<string>)

  /** What the language model returns: the text and the optional `name` of the AI message. */
  datatype Reply = Reply(content: string, name: Option<string>)

  /** The opaque text generator: given the chain (its prompt) and the history, one reply. */
  type Generator = (Chain, seq<Msg>) -> Reply

  function CreateAgentNode(role: string, responsibilities: string): (chain: Chain)
  {
    AgentChain(role, responsibilities)
  }

  /** The allowed answers are the roles, in roster order, followed by the completion token. */
  function CreateSupervisorChain(agentRoles: seq<string>): (c: Chain)
    ensures c.SupervisorChain? && c.agentRoles == agentRoles
    ensures |c.options| == |agentRoles| + 1 && c.options[|agentRoles|] == Finish
    ensures forall k :: 0 <= k < |agentRoles| ==> c.options[k] == agentRoles[k]
  {
    SupervisorChain(agentRoles, agentRoles + [Finish])
  }

  /** `chain.invoke({"messages": history})`: the model's reply, as an AI message. */
  function Invoke(chain: Chain, history: seq<Msg>, gen: Generator): (m: Msg)
    ensures m.AIMessage?
    ensures m.content == gen(chain, history).content && m.name == gen(chain, history).name
  {
    var reply := gen(chain, history);
    AIMessage(reply.content, reply.name)
  }
}

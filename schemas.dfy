/**
 * The records of backend/schemas.py that the conversation workflow uses:
 * the roster shape (ProposedAgent, WorkflowResponse), the graph state
 * (AgentState, whose `messages` channel is combined with `operator.add`)
 * and the endpoint's result (ConversationResponse).
 */
module Schemas {
  import opened Wrappers

  /** One roster entry (ProposedAgent / AgentDefinition): both fields are required. */
  datatype AgentSpec = AgentSpec(role: string, responsibilities: string)

  /** The architect's proposal: an ordered roster. */
  datatype WorkflowResponse = WorkflowResponse(proposedAgents: seq<AgentSpec>)

  /**
   * A chat message. The user's input is a HumanMessage; every node of the
   * graph answers with an AIMessage, whose optional `name` is whatever the
   * text generator put there.
   */
  datatype Msg =
    | HumanMessage(content: string)
    | AIMessage(content: string, name: Option<string>)

  /** The result of the conversation endpoint: exactly these two fields. */
  datatype ConversationResponse = ConversationResponse(conversationId: int, finalResponse: string)

  /**
   * The reducer attached to the `messages` channel (`operator.add` on
   * sequences): a node's update is concatenated after the existing history.
   */
  function AddMessages(existing: seq<Msg>, update: seq<Msg>): (r: seq<Msg>)
    ensures |r| == |existing| + |update|
    ensures r[..|existing|] == existing
    ensures r[|existing|..] == update
  {
    existing + update
  }

  /**
   * The history is never replaced: folding any updates keeps the old history
   * as a prefix. This states the reducer fact on its own; the engine proves
   * the same prefix property of a run directly, turn by turn.
   */
  lemma {:induction false} AddMessagesKeepsHistory(existing: seq<Msg>, updates: seq<seq<Msg>>)
    ensures |FoldUpdates(existing, updates)| >= |existing|
    ensures FoldUpdates(existing, updates)[..|existing|] == existing
    decreases |updates|
  {
    if updates != [] {
      var last := updates[|updates| - 1];
      AddMessagesKeepsHistory(existing, updates[..|updates| - 1]);
      var before := FoldUpdates(existing, updates[..|updates| - 1]);
      assert FoldUpdates(existing, updates) == AddMessages(before, last);
      assert AddMessages(before, last)[..|existing|] == before[..|existing|];
    }
  }

  /** The state after applying a sequence of node updates, in order, with the reducer. */
  function FoldUpdates(existing: seq<Msg>, updates: seq<seq<Msg>>): (state: seq<Msg>)
    decreases |updates|
  {
    if updates == [] then existing
    else AddMessages(FoldUpdates(existing, updates[..|updates| - 1]), updates[|updates| - 1])
  }
}

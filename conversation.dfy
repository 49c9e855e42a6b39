/**
 * The conversation endpoint `run_conversation` (backend/main.py, lines
 * 142-211) and the roster-storing part of `create_use_case` (lines
 * 108-140), over a database reduced to the rows they read and write.
 */
module Conversation {
  import opened Wrappers
  import opened Schemas
  import opened Text
  import opened Chains
  import opened Workflow
  import opened Engine

  /** A stored use case with its agent definitions, in the order they were added. */
  datatype UseCase = UseCase(id: int, description: string, agents: seq<AgentSpec>)

  datatype ConversationRow = ConversationRow(id: int, useCaseId: int)

  /** A persisted message (the Message table without its id and timestamp). */
  datatype MessageRow = MessageRow(conversationId: int, senderRole: string, content: string)

  datatype ApiError =
    /** HTTP 404: no such use case, or it has no agents. */
    | NotFound
    /** HTTP 500: the architect call failed, or the graph raised (an unmapped routing key). */
    | InternalError
    /** Not a source behaviour: the model's turn bound ran out before the supervisor finished. */
    | FuelExhaustedError

  /**
   * The tables, with ids assigned as an autoincrement counter would: a new
   * conversation gets one more than the number of conversations so far.
   */
  class Database {
    var useCases: map<int, UseCase>
    var useCaseCount: nat
    var conversations: seq<ConversationRow>
    var messages: seq<MessageRow>

    ghost predicate Valid()
      reads this
    {
      forall id | id in useCases :: 1 <= id <= useCaseCount && useCases[id].id == id
    }

    constructor ()
      ensures Valid()
      ensures useCases == map[] && conversations == [] && messages == []
    {
      useCases, useCaseCount := map[], 0;
      conversations, messages := [], [];
    }

    /** Adds a use case row with no agents yet; its id is new. */
    method AddUseCase(description: string) returns (id: int)
      requires Valid()
      modifies this
      ensures Valid()
      ensures id !in old(useCases)
      ensures useCases == old(useCases)[id := UseCase(id, description, [])]
      ensures conversations == old(conversations) && messages == old(messages)
    {
      useCaseCount := useCaseCount + 1;
      id := useCaseCount;
      useCases := useCases[id := UseCase(id, description, [])];
    }

    /** Adds an agent definition to a use case, after the ones it already has. */
    method AddAgent(useCaseId: int, spec: AgentSpec)
      requires Valid() && useCaseId in useCases
      modifies this
      ensures Valid()
      ensures useCases == old(useCases)[useCaseId := old(useCases)[useCaseId].(agents := old(useCases)[useCaseId].agents + [spec])]
      ensures useCaseCount == old(useCaseCount)
      ensures conversations == old(conversations) && messages == old(messages)
    {
      var u := useCases[useCaseId];
      useCases := useCases[useCaseId := u.(agents := u.agents + [spec])];
    }

    method AddConversation(useCaseId: int) returns (id: int)
      modifies this
      ensures id == |old(conversations)| + 1
      ensures conversations == old(conversations) + [ConversationRow(id, useCaseId)]
      ensures useCases == old(useCases) && useCaseCount == old(useCaseCount) && messages == old(messages)
    {
      id := |conversations| + 1;
      conversations := conversations + [ConversationRow(id, useCaseId)];
    }

    method AddMessage(row: MessageRow)
      modifies this
      ensures messages == old(messages) + [row]
      ensures useCases == old(useCases) && useCaseCount == old(useCaseCount) && conversations == old(conversations)
    {
      messages := messages + [row];
    }
  }

  /** `msg.name or "agent"`: a missing or empty name falls back to "agent". */
  function SenderRole(m: Msg): (role: string)
    requires m.AIMessage?
    ensures role != ""
    ensures m.name.Some? && m.name.value != "" ==> role == m.name.value
  {
    if m.name.Some? && m.name.value != "" then m.name.value else "agent"
  }

  /** The rows persisted for a message sequence: one per AI message, in order; other messages are skipped. */
  function AgentRows(conversationId: int, ms: seq<Msg>): (rows: seq<MessageRow>)
    ensures |rows| <= |ms|
    ensures forall k :: 0 <= k < |rows| ==> rows[k].conversationId == conversationId && rows[k].senderRole != ""
    decreases |ms|
  {
    if ms == [] then []
    else
      var m := ms[|ms| - 1];
      AgentRows(conversationId, ms[..|ms| - 1])
        + (if m.AIMessage? then [MessageRow(conversationId, SenderRole(m), m.content)] else [])
  }

  /** When every message is an AI message, there is exactly one row per message, in the same order. */
  lemma {:induction false} AgentRowsOfAIMessages(conversationId: int, ms: seq<Msg>)
    requires forall i :: 0 <= i < |ms| ==> ms[i].AIMessage?
    ensures |AgentRows(conversationId, ms)| == |ms|
    ensures forall i :: 0 <= i < |ms| ==>
              AgentRows(conversationId, ms)[i] == MessageRow(conversationId, SenderRole(ms[i]), ms[i].content)
    decreases |ms|
  {
    if ms != [] {
      var init := ms[..|ms| - 1];
      AgentRowsOfAIMessages(conversationId, init);
      forall i | 0 <= i < |ms|
        ensures AgentRows(conversationId, ms)[i] == MessageRow(conversationId, SenderRole(ms[i]), ms[i].content)
      {
        if i < |init| {
          assert init[i] == ms[i];
        }
      }
    }
  }

  /** Human messages are never persisted by the agent loop. */
  lemma {:induction false} AgentRowsSkipHuman(conversationId: int, ms: seq<Msg>)
    requires forall i :: 0 <= i < |ms| ==> ms[i].HumanMessage?
    ensures AgentRows(conversationId, ms) == []
    decreases |ms|
  {
    if ms != [] {
      AgentRowsSkipHuman(conversationId, ms[..|ms| - 1]);
    }
  }

  /**
   * `create_use_case` once the architect has answered: `design` is None when
   * the architect call raised. Stores the use case, then its agents one by
   * one in roster order.
   */
  method CreateUseCase(db: Database, description: string, design: Option<WorkflowResponse>)
    returns (r: Result<UseCase, ApiError>)
    requires db.Valid()
    modifies db
    ensures db.Valid()
    ensures db.conversations == old(db.conversations) && db.messages == old(db.messages)
    ensures design.None? ==> r == Failure(InternalError) && db.useCases == old(db.useCases)
    ensures design.Some? ==>
      && r.Success? && r.value.id !in old(db.useCases)
      && r.value == UseCase(r.value.id, description, design.value.proposedAgents)
      && db.useCases == old(db.useCases)[r.value.id := r.value]
  {
    if design.None? {
      return Failure(InternalError);
    }
    var proposed := design.value.proposedAgents;
    var id := db.AddUseCase(description);
    var i := 0;
    while i < |proposed|
      invariant 0 <= i <= |proposed|
      invariant db.Valid() && id in db.useCases
      invariant db.useCases == old(db.useCases)[id := UseCase(id, description, proposed[..i])]
      invariant db.conversations == old(db.conversations) && db.messages == old(db.messages)
    {
      var spec := proposed[i];
      db.AddAgent(id, AgentSpec(spec.role, spec.responsibilities));
      assert proposed[..i + 1] == proposed[..i] + [spec];
      i := i + 1;
    }
    assert proposed[..i] == proposed;
    r := Success(db.useCases[id]);
  }

  /** Every roster stored under a use case can be turned into a graph. */
  ghost predicate Runnable(roster: seq<AgentSpec>)
  {
    RolesDistinct(roster) && Supervisor !in Roles(roster)
  }

  /**
   * The endpoint's answer for a run's outcome: the content of the last
   * message of a finished run, HTTP 500 when the graph raised (or when
   * there were no messages to index, which a finished run never has).
   */
  function ResponseFor(cid: int, out: Outcome): (r: Result<ConversationResponse, ApiError>)
    ensures r.Success? <==> out.Finished? && out.messages != []
    ensures r.Success? ==> r.value.conversationId == cid
    ensures out.Unrouted? ==> r == Failure(InternalError)
  {
    match out
    case Finished(fm) =>
      if fm == [] then Failure(InternalError) else Success(ConversationResponse(cid, fm[|fm| - 1].content))
    case Unrouted(_, _) => Failure(InternalError)
    case FuelExhausted(_) => Failure(FuelExhaustedError)
  }

  /** The AI rows written after the run: only a finished run writes any. */
  function StoredRows(cid: int, out: Outcome): (rows: seq<MessageRow>)
    ensures !out.Finished? ==> rows == []
    ensures out.Finished? && out.messages != [] ==> |rows| < |out.messages|
  {
    if out.Finished? && out.messages != [] then AgentRows(cid, out.messages[1..]) else []
  }

  /** The loop over `final_messages[1:]`: one row per AI message, in order. */
  method PersistAgentMessages(db: Database, cid: int, finalMessages: seq<Msg>)
    requires |finalMessages| >= 1
    modifies db
    ensures db.messages == old(db.messages) + AgentRows(cid, finalMessages[1..])
    ensures db.useCases == old(db.useCases) && db.useCaseCount == old(db.useCaseCount)
    ensures db.conversations == old(db.conversations)
  {
    var k := 1;
    while k < |finalMessages|
      invariant 1 <= k <= |finalMessages|
      invariant db.messages == old(db.messages) + AgentRows(cid, finalMessages[1..k])
      invariant db.useCases == old(db.useCases) && db.useCaseCount == old(db.useCaseCount)
      invariant db.conversations == old(db.conversations)
    {
      var msg := finalMessages[k];
      if msg.AIMessage? {
        db.AddMessage(MessageRow(cid, SenderRole(msg), msg.content));
      }
      assert finalMessages[1..k + 1][..k - 1] == finalMessages[1..k];
      k := k + 1;
    }
    assert finalMessages[1..k] == finalMessages[1..];
  }

  /**
   * `run_conversation`: reject a missing use case or an empty roster before
   * anything is written; otherwise build the graph, write the conversation
   * and the user's message, run the graph, write every AI message of the
   * final state after the first message, and answer with the content of the
   * last message.
   */
  method RunConversation(db: Database, caseId: int, userInput: string, gen: Generator, fuel: nat)
    returns (r: Result<ConversationResponse, ApiError>, ghost graph: Option<Graph>)
    requires caseId in db.useCases ==> Runnable(db.useCases[caseId].agents)
    modifies db
    ensures db.useCases == old(db.useCases) && db.useCaseCount == old(db.useCaseCount)
    ensures caseId !in old(db.useCases) || old(db.useCases)[caseId].agents == [] ==>
      && r == Failure(NotFound) && graph == None
      && db.conversations == old(db.conversations) && db.messages == old(db.messages)
    ensures caseId in old(db.useCases) && old(db.useCases)[caseId].agents != [] ==>
      && graph.Some?
      && IsWorkflowFor(graph.value, old(db.useCases)[caseId].agents)
      && Compiled(graph.value, graph.value.env.agentNode)
      && var cid := |old(db.conversations)| + 1;
      && var out := RunFrom(graph.value, graph.value.env.agentNode, gen, Supervisor, [HumanMessage(userInput)], fuel);
      && db.conversations == old(db.conversations) + [ConversationRow(cid, caseId)]
      && db.messages == old(db.messages) + [MessageRow(cid, "user", userInput)] + StoredRows(cid, out)
      && r == ResponseFor(cid, out)
  {
    if caseId !in db.useCases || db.useCases[caseId].agents == [] {
      return Failure(NotFound), None;
    }
    var roster := db.useCases[caseId].agents;
    var g := BuildWorkflow(roster);
    BuiltGraphIsCompiled(g, roster);
    graph := Some(g);

    r := Converse(db, g, caseId, userInput, gen, fuel);
  }

  /**
   * Steps 3 and 4 of `run_conversation` on a compiled graph: write the
   * conversation and the user's message, stream the graph to its end, then
   * write the AI messages of a finished run and answer.
   */
  method Converse(db: Database, g: Graph, caseId: int, userInput: string, gen: Generator, fuel: nat)
    returns (r: Result<ConversationResponse, ApiError>)
    requires Compiled(g, g.env.agentNode)
    modifies db
    ensures db.useCases == old(db.useCases) && db.useCaseCount == old(db.useCaseCount)
    ensures var cid := |old(db.conversations)| + 1;
      var out := RunFrom(g, g.env.agentNode, gen, Supervisor, [HumanMessage(userInput)], fuel);
      && db.conversations == old(db.conversations) + [ConversationRow(cid, caseId)]
      && db.messages == old(db.messages) + [MessageRow(cid, "user", userInput)] + StoredRows(cid, out)
      && r == ResponseFor(cid, out)
  {
    var cid := db.AddConversation(caseId);
    var initialMessage := HumanMessage(userInput);
    db.AddMessage(MessageRow(cid, "user", initialMessage.content));

    var outcome := Stream(g, gen, [initialMessage], fuel);
    match outcome {
      case Finished(finalMessages) =>
        RunStopsAfterSupervisor(g, g.env.agentNode, gen, Supervisor, [initialMessage], fuel);
        PersistAgentMessages(db, cid, finalMessages);
        r := Success(ConversationResponse(cid, finalMessages[|finalMessages| - 1].content));
      case Unrouted(_, _) =>
        r := Failure(InternalError);
      case FuelExhausted(_) =>
        r := Failure(FuelExhaustedError);
    }
  }

  /**
   * What a finished conversation stores and answers: the transcript is the
   * user's row followed by one row per generated message, in order, and the
   * final response is the supervisor's closing reply, which strips to the
   * completion token rather than being the last specialist's answer.
   */
  lemma FinishedConversation(g: Graph, roster: seq<AgentSpec>, gen: Generator, userInput: string, fuel: nat, cid: int)
    requires IsWorkflowFor(g, roster) && Runnable(roster) && roster != []
    ensures Compiled(g, g.env.agentNode)
    ensures var out := RunFrom(g, g.env.agentNode, gen, Supervisor, [HumanMessage(userInput)], fuel);
      out.Finished? ==>
        && |out.messages| >= 2
        && Strip(out.messages[|out.messages| - 1].content) == Finish
        && (forall i :: 1 <= i < |out.messages| ==> out.messages[i].AIMessage?)
        && var rows := AgentRows(cid, out.messages[1..]);
        && |rows| == |out.messages| - 1
        && forall i :: 1 <= i < |out.messages| ==>
             rows[i - 1] == MessageRow(cid, SenderRole(out.messages[i]), out.messages[i].content)
  {
    var input := [HumanMessage(userInput)];
    BuiltRunFinishes(g, roster, gen, input, fuel);
    RunRepliesAreAI(g, g.env.agentNode, gen, Supervisor, input, fuel);
    var out := RunFrom(g, g.env.agentNode, gen, Supervisor, input, fuel);
    if out.Finished? {
      var ms := out.messages;
      var tail := ms[1..];
      assert forall i :: 0 <= i < |tail| ==> tail[i] == ms[i + 1];
      AgentRowsOfAIMessages(cid, tail);
    }
  }
}

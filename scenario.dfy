/**
 * Worked runs of the barbershop example: a two-agent roster, a scripted
 * language model, and the exact message histories the workflow produces.
 */
module Scenario {
  import opened Wrappers
  import opened Schemas
  import opened Text
  import opened Chains
  import opened Workflow
  import opened Engine
  import opened Conversation

  /** Two specialists, intake first and scheduler last. */
  function Barbershop(): (roster: seq<AgentSpec>)
    ensures Roles(roster) == ["Intake", "Scheduler"]
  {
    [AgentSpec("Intake", "collect the client's name and service"),
     AgentSpec("Scheduler", "book a date and time")]
  }

  /**
   * A scripted model: on the first turn the supervisor names the intake
   * agent, with stray whitespace around it, and afterwards says FINISH; a
   * specialist answers with the role its prompt was built for. The reply's
   * `name` is set here only to show the `name or "agent"` rule when rows are
   * stored; nothing in the endpoint itself sets a message's name.
   */
  function Scripted(chain: Chain, history: seq<Msg>): (reply: Reply)
  {
    match chain
    case SupervisorChain(_, _) => if |history| == 1 then Reply(" Intake\n", None) else Reply(Finish, None)
    case AgentChain(role, _) => Reply(role, Some(role))
  }

  /** Like `Scripted`, but the supervisor's first answer is not an option. */
  function Misspelt(chain: Chain, history: seq<Msg>): (reply: Reply)
  {
    match chain
    case SupervisorChain(_, _) => Reply("Schedule", None)
    case AgentChain(role, _) => Reply(role, Some(role))
  }

  /** The histories of the scripted run, turn by turn. */
  function Greeting(): (history: seq<Msg>)
  {
    [HumanMessage("hi")]
  }

  function AfterIntakeAnswer(): (history: seq<Msg>)
  {
    [HumanMessage("hi"), AIMessage(" Intake\n", None)]
  }

  function AfterSpecialist(): (history: seq<Msg>)
  {
    [HumanMessage("hi"), AIMessage(" Intake\n", None), AIMessage("Scheduler", Some("Scheduler"))]
  }

  function Transcript(): (history: seq<Msg>)
  {
    [HumanMessage("hi"), AIMessage(" Intake\n", None), AIMessage("Scheduler", Some("Scheduler")), AIMessage(Finish, None)]
  }

  /** What the runs below use of the graph built for `Barbershop()`, and of the frame's chain. */
  ghost predicate BarbershopGraph(g: Graph, agentNode: Option<Chain>)
  {
    && Compiled(g, agentNode)
    && IsDispatchFor(g.dispatch, ["Intake", "Scheduler"])
    && "Intake" in g.nodes
    && g.nodes[Supervisor] == SupervisorNode(CreateSupervisorChain(["Intake", "Scheduler"]))
    && agentNode == Some(AgentChain("Scheduler", "book a date and time"))
  }

  lemma BuiltBarbershop(g: Graph)
    requires IsWorkflowFor(g, Barbershop())
    ensures BarbershopGraph(g, g.env.agentNode)
  {
    BuiltGraphIsCompiled(g, Barbershop());
  }

  /**
   * The supervisor picks "Intake", yet the scheduler's chain answers: the
   * specialist lambda runs the chain of the last roster entry. The run ends
   * on the supervisor's FINISH message, which is what the endpoint returns.
   */
  lemma LateBindingRun(g: Graph)
    requires IsWorkflowFor(g, Barbershop())
    ensures Compiled(g, g.env.agentNode)
    ensures RunFrom(g, g.env.agentNode, Scripted, Supervisor, Greeting(), 10) == Finished(Transcript())
  {
    BuiltBarbershop(g);
    SupervisorPicksIntake(g, g.env.agentNode, 10);
  }

  /** The supervisor's first answer, once stripped, routes to the intake node. */
  lemma SupervisorPicksIntake(g: Graph, agentNode: Option<Chain>, fuel: nat)
    requires BarbershopGraph(g, agentNode) && fuel >= 3
    ensures RunFrom(g, agentNode, Scripted, Supervisor, Greeting(), fuel) == Finished(Transcript())
  {
    var m0 := Greeting();
    var m1 := AfterIntakeAnswer();
    assert m0 + [AIMessage(" Intake\n", None)] == m1;
    assert Turn(g, agentNode, Scripted, Supervisor, m0) == m1;
    IntakeAnswerStrips();
    assert RouteKey(m1) == "Intake" && "Intake" != Finish;
    RouteOnDispatch(g.dispatch, ["Intake", "Scheduler"], m1);
    assert Route(g.dispatch, m1) == Some(Node("Intake"));
    assert After(g, agentNode, Supervisor, m1) == Goto("Intake");
    RunFromGoto(g, agentNode, Scripted, Supervisor, m0, fuel, "Intake");
    ScheduleAnswersForIntake(g, agentNode, fuel - 1);
  }

  /** The intake node runs the scheduler's chain, then hands back to the supervisor. */
  lemma ScheduleAnswersForIntake(g: Graph, agentNode: Option<Chain>, fuel: nat)
    requires BarbershopGraph(g, agentNode) && fuel >= 2
    ensures RunFrom(g, agentNode, Scripted, "Intake", AfterIntakeAnswer(), fuel) == Finished(Transcript())
  {
    var m1 := AfterIntakeAnswer();
    var m2 := AfterSpecialist();
    assert m1 + [AIMessage("Scheduler", Some("Scheduler"))] == m2;
    assert Turn(g, agentNode, Scripted, "Intake", m1) == m2;
    assert After(g, agentNode, "Intake", m2) == Goto(Supervisor);
    RunFromGoto(g, agentNode, Scripted, "Intake", m1, fuel, Supervisor);
    SupervisorFinishes(g, agentNode, fuel - 1);
  }

  /** Once the specialist has answered, the supervisor says FINISH and the run ends there. */
  lemma SupervisorFinishes(g: Graph, agentNode: Option<Chain>, fuel: nat)
    requires BarbershopGraph(g, agentNode) && fuel >= 1
    ensures RunFrom(g, agentNode, Scripted, Supervisor, AfterSpecialist(), fuel) == Finished(Transcript())
  {
    var m2 := AfterSpecialist();
    var m3 := Transcript();
    assert m2 + [AIMessage(Finish, None)] == m3;
    assert Turn(g, agentNode, Scripted, Supervisor, m2) == m3;
    FinishAnswerStrips();
    assert RouteKey(m3) == Finish;
    assert After(g, agentNode, Supervisor, m3) == Stop(Finished(m3));
  }

  /**
   * What the endpoint answers and stores for the scripted run: the final
   * response is the supervisor's FINISH, and the stored rows take the
   * message's name as sender, or "agent" when the model gave none.
   */
  lemma BarbershopConversation(g: Graph, cid: int)
    requires IsWorkflowFor(g, Barbershop())
    ensures Compiled(g, g.env.agentNode)
    ensures var out := RunFrom(g, g.env.agentNode, Scripted, Supervisor, Greeting(), 10);
      && ResponseFor(cid, out) == Success(ConversationResponse(cid, Finish))
      && StoredRows(cid, out) == [MessageRow(cid, "agent", " Intake\n"),
                                  MessageRow(cid, "Scheduler", "Scheduler"),
                                  MessageRow(cid, "agent", Finish)]
  {
    LateBindingRun(g);
    ScriptedRows(cid);
  }

  lemma ScriptedRows(cid: int)
    ensures AgentRows(cid, Transcript()[1..])
         == [MessageRow(cid, "agent", " Intake\n"), MessageRow(cid, "Scheduler", "Scheduler"), MessageRow(cid, "agent", Finish)]
  {
    var tail := Transcript()[1..];
    assert tail == [AIMessage(" Intake\n", None), AIMessage("Scheduler", Some("Scheduler")), AIMessage(Finish, None)];
    AgentRowsOfAIMessages(cid, tail);
  }

  /** An answer that is neither a role nor FINISH is not mapped anywhere: the run stops unrouted. */
  lemma MisspeltRun(g: Graph)
    requires IsWorkflowFor(g, Barbershop())
    ensures Compiled(g, g.env.agentNode)
    ensures RunFrom(g, g.env.agentNode, Misspelt, Supervisor, Greeting(), 10)
         == Unrouted([HumanMessage("hi"), AIMessage("Schedule", None)], "Schedule")
  {
    BuiltBarbershop(g);
    SupervisorMisspells(g, g.env.agentNode, 10);
  }

  lemma SupervisorMisspells(g: Graph, agentNode: Option<Chain>, fuel: nat)
    requires BarbershopGraph(g, agentNode) && fuel > 0
    ensures RunFrom(g, agentNode, Misspelt, Supervisor, Greeting(), fuel)
         == Unrouted([HumanMessage("hi"), AIMessage("Schedule", None)], "Schedule")
  {
    var m0 := Greeting();
    var m1 := m0 + [AIMessage("Schedule", None)];
    assert Turn(g, agentNode, Misspelt, Supervisor, m0) == m1;
    MisspeltAnswerStrips();
    assert RouteKey(m1) == "Schedule";
    assert "Schedule" !in g.dispatch;
    assert After(g, agentNode, Supervisor, m1) == Stop(Unrouted(m1, "Schedule"));
  }

  /** The surrounding space and newline are cut off the supervisor's first answer. */
  lemma IntakeAnswerStrips()
    ensures Strip(" Intake\n") == "Intake"
  {
    StripIsUniqueCut(" Intake\n", 1, 7);
  }

  lemma FinishAnswerStrips()
    ensures Strip(Finish) == Finish
  {
    StripIsUniqueCut(Finish, 0, 6);
  }

  lemma MisspeltAnswerStrips()
    ensures Strip("Schedule") == "Schedule"
  {
    StripIsUniqueCut("Schedule", 0, 8);
  }
}

# Dynamic multi-agent conversation workflow, in Dafny

`projeto_multiagents` is a FastAPI back end. The user describes a use case, a
language model proposes a team of specialist agents (a roster of role and
responsibilities), and the roster is stored. A conversation request rebuilds a
LangGraph state graph from the stored roster: a star with a `supervisor` node
in the middle and one node per role. The graph runs until the supervisor
answers `FINISH`, the messages it produced are stored, and the endpoint returns
the content of the last message.

This project models the part of `run_conversation` (backend/main.py) that
builds and runs that graph, together with the records and the message
reducer of backend/schemas.py, and proves what the workflow does for every
roster the graph library accepts and every reply the language model gives. A model call that raises
is not modelled (see "## Left out").

- `Wrappers`: `Option` and `Result`.
- `Schemas`: roster entries, messages, the endpoint's result, and the
  `operator.add` reducer of the `messages` channel.
- `Text`: Python's `str.strip()` with no argument (every `str.isspace()`
  character).
- `Chains`: the two chain factories, as the prompt a reply depends on. The
  language model is a `Generator`: a function from the chain and the message
  history to the reply's text and optional `name`.
- `Workflow`: graph construction (nodes, return edges, dispatch map, entry
  point) as imperative methods, and the routing rule. The specialist lambdas
  close over the local variable `agent_node`. That variable is the field of a
  `Frame` object shared by every lambda and assigned on each pass of the node
  loop.
- `Engine`: execution of the compiled graph. `Stream` is the `async for`
  loop that reassigns `final_state`. `RunFrom` is its specification, with
  lemmas about it.
- `Conversation`: the rows the endpoints read and write (a `Database`
  class). Also `create_use_case` after the architect has answered, and
  `run_conversation` end to end.
- `Scenario`: a two-agent barbershop roster with a scripted model, run to its
  exact message history.

Two behaviours of the code are reproduced as written:

- **Late binding.** The lambda at backend/main.py:162 reads `agent_node`
  when it is called, not when it is created. The `role=` default argument is
  bound but never used. Every specialist node therefore runs the chain of the
  last roster entry, whichever role the supervisor names.
  `SpecialistsRunLastChain`, `BuiltRunAlternates`, `SpecialistChoiceIrrelevant`
  and `Scenario.LateBindingRun` state this.
- **The final response is the supervisor's `FINISH` message.** The supervisor
  node appends its own decision, and routing reads that message. So when the
  run reaches END, the last message is the supervisor's reply, whose stripped
  text is `FINISH`. The endpoint returns that content
  (backend/main.py:211), not the last specialist's answer.
  `Conversation.FinishedConversation` and `Scenario.BarbershopConversation`
  state this. The prompts expect otherwise: the architect is asked for a
  last agent that delivers the final answer to the user
  (backend/main.py:56), and the supervisor is told to answer `FINISH` once
  that final answer has been given (backend/main.py:88). The model follows
  the code, which returns the `FINISH` message itself.

## Model

| member | source | states |
|---|---|---|
| Schemas.AddMessages | backend/schemas.py:27-28 | the reducer concatenates: the new state is the old one followed by the update, and its length is the sum of the two lengths |
| Schemas.AddMessagesKeepsHistory | backend/schemas.py:27-28 | after any number of node updates, the original history is still a prefix of the state; history is never replaced |
| Text.StripIsUniqueCut | backend/main.py:175 | `strip()` is the unique cut that removes whitespace-only pieces from both ends and leaves a string that is empty or starts and ends with a non-space |
| Text.StripTrimsOnlySpace | backend/main.py:175 | the stripped key never begins or ends with whitespace, and it is a substring whose surroundings are all whitespace |
| Text.StripIdempotent | backend/main.py:175 | stripping a stripped key changes nothing |
| Text.TrimStartShape | backend/main.py:175 | the leading trim keeps a suffix that starts with a non-space and removes only whitespace |
| Text.TrimEndShape | backend/main.py:175 | the trailing trim keeps a prefix that ends with a non-space and removes only whitespace |
| Text.TrimStartCut | backend/main.py:175 | when the first non-space is at `i`, the leading trim is exactly the suffix from `i` |
| Text.TrimEndCut | backend/main.py:175 | when the last non-space is before `j`, the trailing trim is exactly the prefix up to `j` |
| Text.Strip | backend/main.py:175 | `s.strip()` drops the leading, then the trailing whitespace (Python's full `isspace` set), and the result is never longer than `s` |
| Chains.CreateSupervisorChain | backend/main.py:78-80 | the supervisor's options are the roles in roster order, followed by `FINISH` as the last option |
| Chains.CreateAgentNode | backend/main.py:69-75 | a specialist's chain is determined by its role and responsibilities alone; its reply depends only on that chain and the history |
| Chains.Invoke | backend/main.py:162 | invoking a chain yields an AI message carrying the generator's text and name for that chain and history |
| Workflow.Roles | backend/main.py:157 | the role list has one entry per roster entry, in roster order |
| Workflow.BuildWorkflow | backend/main.py:155-177 | the built graph is, field by field, the graph for the roster: a specialist node per role plus the supervisor node, return edges, dispatch map, entry point, and the frame holding the last entry's chain |
| Workflow.AddAgentNodes | backend/main.py:159-162 | the node loop adds exactly one specialist node per role and leaves `agent_node` bound to the last roster entry's chain |
| Workflow.AddReturnEdges | backend/main.py:168-170 | the edge loop adds exactly one edge from each role to `supervisor` |
| Workflow.BuiltGraphIsCompiled | backend/main.py:155-178 | a built graph is a star around the supervisor whose dispatch map names only specialist nodes, and a chain is bound whenever there is a specialist |
| Workflow.StarTopology | backend/main.py:157-177 | the nodes are exactly the roles plus `supervisor`; an edge exists exactly from each role to `supervisor`; the entry point is `supervisor` |
| Workflow.SpecialistsRunLastChain | backend/main.py:160-162 | every role's node is a specialist, and the chain they all run is the last roster entry's |
| Workflow.RouteOnDispatch | backend/main.py:173-175 | with the roster's dispatch map, the stripped key ends the run iff it is `FINISH`; it names node `r` iff it equals `r`, a role other than `FINISH`; it has no destination iff it is neither a role nor `FINISH` |
| Workflow.OptionsAreDispatchKeys | backend/main.py:80 | the answers offered to the supervisor are exactly the keys the router accepts |
| Workflow.RouteKey | backend/main.py:175 | the routing key is the last message's content stripped: no longer than that content, and empty or free of whitespace at both ends |
| Workflow.Route | backend/main.py:173-175 | the routing lambda followed by the conditional-map lookup: a destination exists iff the key is in the map, and it is the map's entry for the key |
| Engine.Turn | backend/main.py:162 | a node execution appends exactly one message, the reply of the node's chain to the whole history, and keeps the old history as a prefix |
| Engine.After | backend/main.py:170-175 | after a specialist the run goes back to the supervisor; after the supervisor it ends iff the route is END, goes to the named node, or stops unrouted iff the key is unmapped |
| Engine.RunFrom | backend/main.py:162-196 | the run from a node: with no fuel left it stops with `FuelExhausted`; otherwise one turn, then stop or continue at the next node as `After` says |
| Engine.RunFromGoto | backend/main.py:193-196 | a run that moves on from one node to the next is the run from the next node on the extended history |
| Engine.RunFollowsRoute | backend/main.py:173-175 | when the supervisor's stripped reply names a role, the run continues at that role's node on the extended history |
| Engine.Stream | backend/main.py:192-198 | the streaming loop's outcome is the specified run from `supervisor` on the initial message |
| Engine.RunExtendsHistory | backend/main.py:162-198 | the final history extends the initial one by at most one message per node execution, and strictly if any node ran |
| Engine.RunAlternates | backend/main.py:162-177 | turns alternate between supervisor and specialist; each message is its chain's reply to all earlier messages, and every specialist message comes from the frame's one chain |
| Engine.AlternatesShift | backend/main.py:169-170 | one turn followed by alternating turns that start with the other party is an alternation starting with this party |
| Engine.RunRepliesAreAI | backend/main.py:162-166 | every message a run adds is an AI message |
| Engine.RunStopsAfterSupervisor | backend/main.py:166-175 | a run that ends on its own ends right after a supervisor turn; the last message is the supervisor's reply |
| Engine.RunStopRoute | backend/main.py:174-175 | a finished run routed its last message to END; an unrouted run's key is its last message stripped, and that key has no destination |
| Engine.SpecialistChoiceIrrelevant | backend/main.py:160-162 | the rest of the run is the same whichever specialist node the supervisor chose |
| Engine.BuiltRunAlternates | backend/main.py:155-198 | on a built graph, turns alternate starting with the supervisor, and every specialist turn is the last roster entry's chain |
| Engine.BuiltRunFinishes | backend/main.py:166-198 | a finished run of a built graph ends with the supervisor chain's reply, whose stripped text is `FINISH` |
| Engine.BuiltRunUnrouted | backend/main.py:173-175 | an unrouted run of a built graph ends on a supervisor reply that is neither a role nor `FINISH` |
| Engine.RunStopsOnDispatch | backend/main.py:165-175 | how a run stops, on any graph whose supervisor and dispatch map are those of a role list |
| Conversation.Database.constructor | backend/models/models.py:7-52 | the tables start empty |
| Conversation.Database.AddUseCase | backend/main.py:123-126 | a use case row with a fresh id and no agents is added; nothing else changes |
| Conversation.Database.AddAgent | backend/main.py:129-135 | the agent definition goes after the ones the use case already has; nothing else changes |
| Conversation.Database.AddConversation | backend/main.py:181-184 | one conversation row for the use case is appended, with the next id |
| Conversation.Database.AddMessage | backend/main.py:187-189 | exactly one message row is appended |
| Conversation.CreateUseCase | backend/main.py:117-140 | an architect failure stores nothing and is a 500; otherwise the stored use case has a fresh id and the proposed agents in proposal order |
| Conversation.AgentRowsOfAIMessages | backend/main.py:201-208 | when every message is an AI message, there is one row per message, in order, with sender `name or "agent"` and the message's content |
| Conversation.AgentRowsSkipHuman | backend/main.py:202 | human messages produce no rows |
| Conversation.SenderRole | backend/main.py:205 | `msg.name or "agent"`: a non-empty name is the sender, otherwise `agent`; the sender is never empty |
| Conversation.AgentRows | backend/main.py:201-208 | the `isinstance(msg, AIMessage)` filter: one row per AI message, in order; never more rows than messages, each for the conversation and with a non-empty sender |
| Conversation.PersistAgentMessages | backend/main.py:201-209 | the loop appends the rows for the AI messages after the first message, in order, and changes nothing else |
| Conversation.ResponseFor | backend/main.py:211 | the answer is a success iff the run finished with messages, and then carries the conversation's id and the last message's content; an unmapped key is a 500, an exhausted turn bound is `FuelExhaustedError` |
| Conversation.StoredRows | backend/main.py:198-209 | only a finished run writes AI rows: the rows of its messages after the first, so fewer rows than messages |
| Conversation.RunConversation | backend/main.py:150-211 | an unknown use case or an empty roster is a 404 before any graph, conversation or message is created; otherwise the built graph is the roster's, one conversation row and the user's row are written, then the run's AI rows, and the answer is the run's result |
| Conversation.Converse | backend/main.py:180-211 | writes the conversation row and the user's row, runs the graph, writes the AI rows of a finished run, and answers with the last message's content; an unmapped key is a 500 |
| Conversation.FinishedConversation | backend/main.py:166-211 | a finished conversation has at least two messages, its final response strips to `FINISH`, and the stored rows are one per generated message, in order |
| Scenario.Barbershop | backend/main.py:157 | the example roster's roles are `Intake` then `Scheduler` |
| Scenario.BuiltBarbershop | backend/main.py:155-178 | the graph built for the example roster has its dispatch map and supervisor, and the frame holds the scheduler's chain |
| Scenario.LateBindingRun | backend/main.py:160-198 | the supervisor answers " Intake\n", the intake node runs the scheduler's chain, and the run ends on the supervisor's `FINISH`, in exactly four messages |
| Scenario.SupervisorPicksIntake | backend/main.py:166-175 | the first answer, stripped, routes to the intake node |
| Scenario.ScheduleAnswersForIntake | backend/main.py:162-170 | the intake node answers with the scheduler's chain and returns to the supervisor |
| Scenario.SupervisorFinishes | backend/main.py:166-174 | the supervisor's `FINISH` ends the run |
| Scenario.BarbershopConversation | backend/main.py:201-211 | the endpoint answers `FINISH`, and after the user's row it stores three AI rows, with senders `agent`, `Scheduler` and `agent` |
| Scenario.ScriptedRows | backend/main.py:201-208 | the rows of the example transcript, with the `"agent"` fallback for unnamed messages |
| Scenario.MisspeltRun | backend/main.py:173-175 | an answer of "Schedule" is not a key, and the run stops unrouted after one turn |
| Scenario.SupervisorMisspells | backend/main.py:175 | the misspelt answer is not in the dispatch map |
| Scenario.IntakeAnswerStrips | backend/main.py:175 | `" Intake\n".strip()` is `"Intake"` |
| Scenario.FinishAnswerStrips | backend/main.py:175 | `"FINISH".strip()` is `"FINISH"` |
| Scenario.MisspeltAnswerStrips | backend/main.py:175 | `"Schedule".strip()` is `"Schedule"` |

## Left out

- HTTP and CORS plumbing, the session dependency and the GET endpoints
  (backend/main.py:24-47, 216-232). The endpoints' errors are the `ApiError`
  values, and 404 and 500 are their only meaning here, apart from the model's
  own `FuelExhaustedError`.
- The architect chain and all prompt text (backend/main.py:50-67, 72-75,
  82-102). A chain is reduced to what its reply may depend on. The language
  model is the `Generator` parameter: any function of the chain and the
  history. Whatever it answers, the properties above hold.
- SQLAlchemy sessions, commits and timestamps. The tables are sequences and a
  map. Autoincrement ids are counters: a conversation's id is one more than
  the number of conversations. Transactions and failures of the database are
  not modelled.
- LangGraph internals. The model runs one node at a time, as the compiled
  graph does for this star. It takes each streamed state as the full state,
  so `final_state['messages']` is the whole history. The library's choice of
  stream mode is not part of this model.
- Conversation.RunConversation: requires the stored roster to be `Runnable`,
  with distinct roles and no role named `supervisor`. The graph library
  refuses a roster that is not `Runnable`: a repeated node name at
  backend/main.py:162 or 166 raises, and the endpoint answers 500 before
  any conversation row is written. The source does not check this itself,
  and that error path is not modelled.
- Workflow.BuildWorkflow: requires the same of the roster, for the same
  reason; graph construction that raises on a repeated node name is not
  modelled.
- Conversation.Converse: a model call that raises during the run is not
  modelled; the `Generator` always answers. In the source, an exception
  from `agent_node.invoke` (backend/main.py:162) or
  `supervisor_chain.invoke` (backend/main.py:166) escapes the `async for`
  and the endpoint answers 500. The conversation row and the user's row
  are already committed at that point, and no AI rows are written.
- Conversation.RunConversation: the same failing model call is not
  modelled, for the same reason.
- The roster order is the order in which a use case's agents were added.
  The `agents` relationship (backend/models/models.py:14) has no `order_by`,
  so `run_conversation` (backend/main.py:157, 160) sees the rows in whatever
  order SQLite returns them; the model assumes insertion order. Which
  chain every specialist runs ("the last roster entry's") depends on it.
- A routing key missing from the dispatch map makes the graph library raise.
  The model stops with `Unrouted` and answers `InternalError` (HTTP 500).
- Engine.Stream: the source loops until the supervisor routes to END. The
  model bounds the number of node executions with `fuel`. Running out is the
  model's own `FuelExhausted` outcome (`FuelExhaustedError`), not a source
  behaviour. backend/main.py sets no turn limit and no retry; the graph
  library's own step limit is not modelled.
- `async` scheduling and the `print` logging (backend/main.py:114, 148, 195).
  The run is sequential.
- Conversation.CreateUseCase: the architect's answer is a parameter, `None`
  when the call raised. Parsing the model's output into `WorkflowResponse` is
  not modelled.
- Strings are sequences of characters. `strip()` uses Python's whitespace
  set; no encoding or normalisation is modelled.

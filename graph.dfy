/** The agent/tool graph the chat agent runs: a state machine over the
    nodes `__start__`, `agent`, `tools` and `__end__` whose state is the
    conversation's message list. The only reducer is concatenation, so a
    step can add messages but never change or drop one. The language model,
    the database and the library's JSON rendering are parameters. */
module Graph {
  import opened Errors
  import opened Catalog
  import opened ItemLookup
  import opened Messages
  import opened Retry

  datatype Node = Start | Agent | Tools | End

  /** The external services one run of the graph talks to:
      - `catalog`: the `items` collection, in storage order;
      - `similaritySearch`: the vector store's `similaritySearchWithScore`,
        keeping only the documents;
      - `model(messages, k)`: what the k-th attempt at invoking the
        language model on the prompt built from `messages` resolves to or
        throws;
      - `toolJson`: the text a tool message carries for an output that is
        not already a string;
      - `partJson`, `contentJson`: `JSON.stringify` of a content part and of
        a content object. */
  datatype Services = Services(
    catalog: seq<Doc>,
    similaritySearch: (string, int) -> seq<Doc>,
    model: (seq<Message>, nat) -> Outcome<Reply>,
    toolJson: ToolOutput -> string,
    partJson: Part -> string,
    contentJson: Content -> string)

  /** The step budget passed as `recursionLimit`. */
  const RecursionLimit := 15

  /** The error the graph throws when it runs out of steps. */
  const RecursionLimitError :=
    Error(None, "Recursion limit of 15 reached without hitting a stop condition.")

  /** The name under which the item lookup tool is bound. */
  const ItemLookupName := "item_lookup"

  /** The last message asks for at least one tool call
      (`tool_calls?.length` is truthy). */
  predicate WantsTools(messages: seq<Message>) {
    messages != [] && messages[|messages| - 1].Ai? && |messages[|messages| - 1].toolCalls| > 0
  }

  /** The conditional edge out of `agent`. */
  function Route(messages: seq<Message>): (n: Node)
    ensures n == Tools <==> WantsTools(messages)
    ensures n == End <==> !WantsTools(messages)
  {
    if WantsTools(messages) then Tools else End
  }

  /** The node that follows `node` once its output is merged into
      `messages`: `__start__` → `agent`, `agent` → `tools` or `__end__`,
      `tools` → `agent`. */
  function Next(node: Node, messages: seq<Message>): (n: Node)
    ensures node == Start || node == Tools ==> n == Agent
    ensures node == Agent ==> n == Route(messages)
    ensures node == End ==> n == End
  {
    match node
    case Start => Agent
    case Agent => Route(messages)
    case Tools => Agent
    case End => End
  }

  /** The tool calls of the last message, if it is the model's. */
  function PendingCalls(messages: seq<Message>): seq<ToolCall> {
    if messages != [] && messages[|messages| - 1].Ai? then messages[|messages| - 1].toolCalls else []
  }

  /** The text of a tool message: the lookup's own string for an empty
      catalog, the rendering of the output otherwise. */
  function ToolContent(s: Services, out: ToolOutput): string {
    if out == LookupOutput(NoItems) then NoItemsJson else s.toolJson(out)
  }

  /** The output of one tool call: the item lookup for `item_lookup`, a
      not-found error for any other name. */
  function RunToolCall(s: Services, call: ToolCall): (m: Message)
    ensures m.ToolMessage? && m.toolCallId == call.id
    ensures m.output.LookupOutput? <==> call.name == ItemLookupName
    ensures m.output.LookupOutput? ==>
      m.output.result == ItemLookup.ItemLookup(s.catalog, s.similaritySearch, call.query, call.n).result
  {
    if call.name == ItemLookupName then
      ToolMessage(LookupOutput(ItemLookup.ItemLookup(s.catalog, s.similaritySearch, call.query, call.n).result), call.id)
    else
      ToolMessage(ToolNotFound(call.name), call.id)
  }

  /** The `tools` node: one tool message per pending call, in call order. */
  function ToolStep(s: Services, messages: seq<Message>): (out: seq<Message>)
    ensures |out| == |PendingCalls(messages)|
    ensures forall i :: 0 <= i < |out| ==> out[i] == RunToolCall(s, PendingCalls(messages)[i])
  {
    var calls := PendingCalls(messages);
    seq(|calls|, i requires 0 <= i < |calls| => RunToolCall(s, calls[i]))
  }

  /** The attempts of one model call on `messages`, as the retry loop sees
      them. */
  function ModelAttempts(s: Services, messages: seq<Message>): nat -> Outcome<Reply> {
    (k: nat) => s.model(messages, k)
  }

  /** The `agent` node: the model's reply, under the retry policy with its
      default limit, becomes one AI message. */
  function AgentStep(s: Services, messages: seq<Message>): (r: Outcome<seq<Message>>)
    ensures r.Thrown? <==> RetryResult(ModelAttempts(s, messages), DefaultMaxRetries).Thrown?
    ensures r.Ok? ==> |r.value| == 1 && r.value[0].Ai?
    ensures var reply := RetryResult(ModelAttempts(s, messages), DefaultMaxRetries);
      r.Ok? ==> r.value == [Ai(reply.value.content, reply.value.toolCalls)]
    ensures var reply := RetryResult(ModelAttempts(s, messages), DefaultMaxRetries);
      r.Thrown? ==> r.error == reply.error
  {
    match RetryResult(ModelAttempts(s, messages), DefaultMaxRetries)
    case Ok(reply) => Ok([Ai(reply.content, reply.toolCalls)])
    case Thrown(e) => Thrown(e)
  }

  /** The messages a node adds, or the error it throws. */
  function Step(s: Services, node: Node, messages: seq<Message>): Outcome<seq<Message>> {
    if node == Agent then AgentStep(s, messages)
    else if node == Tools then Ok(ToolStep(s, messages))
    else Ok([])
  }

  /** The result of a run: the messages after the last completed step (what
      the checkpoint holds), the nodes executed in order, and the error the
      run ended with, if any. */
  datatype Run = Run(messages: seq<Message>, steps: seq<Node>, error: Option<Error>)

  /** The rest of a run that is about to execute `node` with `budget` steps
      left, having executed `steps` so far. */
  function Continue(s: Services, node: Node, messages: seq<Message>, steps: seq<Node>, budget: nat): Run
    decreases budget, if node == Start then 1 else 0
  {
    match node
    case End => Run(messages, steps, None)
    case Start => Continue(s, Agent, messages, steps, budget)
    case _ =>
      if budget == 0 then Run(messages, steps, Some(RecursionLimitError))
      else
        match Step(s, node, messages)
        case Thrown(e) => Run(messages, steps, Some(e))
        case Ok(out) =>
          Continue(s, Next(node, messages + out), messages + out, steps + [node], budget - 1)
  }

  /** One step of a run: a node that throws ends the run with its error;
      otherwise its output is merged and the run goes on from the next
      node with one step less. */
  lemma ContinueStep(s: Services, node: Node, messages: seq<Message>, steps: seq<Node>, budget: nat)
    requires node != Start && node != End && budget > 0
    ensures var step := Step(s, node, messages);
      step.Thrown? ==> Continue(s, node, messages, steps, budget) == Run(messages, steps, Some(step.error))
    ensures var step := Step(s, node, messages);
      step.Ok? ==>
        Continue(s, node, messages, steps, budget)
        == Continue(s, Next(node, messages + step.value), messages + step.value, steps + [node], budget - 1)
  {
  }

  /** `app.invoke` on the merged input with step budget `budget`: the
      conversation only grows, at most `budget` nodes run, and a run that
      ends without error ended after a model step that asks for no tool. */
  function RunGraph(s: Services, messages: seq<Message>, budget: nat): (r: Run)
    ensures messages <= r.messages && |r.steps| <= budget
    ensures r.error.None? ==>
      !WantsTools(r.messages) && |r.steps| > 0 && r.steps[|r.steps| - 1] == Agent
    ensures r.error.None? ==>
      r.messages != [] && r.messages[|r.messages| - 1].Ai? && r.messages[|r.messages| - 1].toolCalls == []
  {
    ContinueExtends(s, Start, messages, [], budget);
    ContinueSucceedsAtEnd(s, Start, messages, [], budget);
    Continue(s, Start, messages, [], budget)
  }

  /** The steps alternate `agent`, `tools`, `agent`, … starting with
      `agent`. */
  ghost predicate Alternates(steps: seq<Node>) {
    forall i :: 0 <= i < |steps| ==> steps[i] == if i % 2 == 0 then Agent else Tools
  }

  /** The node that may come after `steps` in an alternating run. */
  ghost predicate Expected(node: Node, steps: seq<Node>) {
    match node
    case Start => steps == []
    case Agent => |steps| % 2 == 0
    case Tools => |steps| % 2 == 1
    case End => |steps| % 2 == 1
  }

  /** A run only appends: the checkpointed messages extend the input, and
      nothing already in the conversation is changed or dropped; at most
      `budget` more nodes are executed. */
  lemma {:induction false} ContinueExtends(s: Services, node: Node, messages: seq<Message>,
                                            steps: seq<Node>, budget: nat)
    ensures var run := Continue(s, node, messages, steps, budget);
      messages <= run.messages && steps <= run.steps && |run.steps| <= |steps| + budget
    decreases budget, if node == Start then 1 else 0
  {
    match node
    case End =>
    case Start => ContinueExtends(s, Agent, messages, steps, budget);
    case _ =>
      if budget > 0 {
        match Step(s, node, messages)
        case Thrown(e) =>
        case Ok(out) =>
          ContinueExtends(s, Next(node, messages + out), messages + out, steps + [node], budget - 1);
      }
  }

  /** The executed nodes follow Agent → (Tools → Agent)*, and never exceed
      the budget. */
  lemma {:induction false} ContinueAlternates(s: Services, node: Node, messages: seq<Message>,
                                               steps: seq<Node>, budget: nat)
    requires Alternates(steps) && Expected(node, steps)
    ensures var run := Continue(s, node, messages, steps, budget);
      Alternates(run.steps) && |run.steps| <= |steps| + budget
    decreases budget, if node == Start then 1 else 0
  {
    match node
    case End =>
    case Start => ContinueAlternates(s, Agent, messages, steps, budget);
    case _ =>
      if budget > 0 {
        match Step(s, node, messages)
        case Thrown(e) =>
        case Ok(out) =>
          var steps' := steps + [node];
          assert Alternates(steps') by {
            forall i | 0 <= i < |steps'|
              ensures steps'[i] == if i % 2 == 0 then Agent else Tools
            {
              if i < |steps| {
                assert steps'[i] == steps[i];
              }
            }
          }
          ContinueAlternates(s, Next(node, messages + out), messages + out, steps', budget - 1);
      }
  }

  /** A run that ends without error ended at `__end__`: its last step was
      the model's, and the last message asks for no tool call. */
  lemma {:induction false} ContinueSucceedsAtEnd(s: Services, node: Node, messages: seq<Message>,
                                                 steps: seq<Node>, budget: nat)
    requires node != End
    ensures var run := Continue(s, node, messages, steps, budget);
      run.error.None? ==> !WantsTools(run.messages) && |run.steps| > |steps|
                          && run.steps[|run.steps| - 1] == Agent
    ensures var run := Continue(s, node, messages, steps, budget);
      run.error.None? ==> run.messages != [] && run.messages[|run.messages| - 1].Ai?
                          && run.messages[|run.messages| - 1].toolCalls == []
    decreases budget, if node == Start then 1 else 0
  {
    if node == Start {
      ContinueSucceedsAtEnd(s, Agent, messages, steps, budget);
    } else if budget > 0 && Step(s, node, messages).Ok? {
      var out := Step(s, node, messages).value;
      var next := Next(node, messages + out);
      ContinueStep(s, node, messages, steps, budget);
      if next != End {
        ContinueSucceedsAtEnd(s, next, messages + out, steps + [node], budget - 1);
      } else {
        assert node == Agent && !WantsTools(messages + out);
        var steps' := steps + [node];
        assert steps'[|steps'| - 1] == Agent;
        var m' := messages + out;
        assert m'[|m'| - 1] == out[0];
      }
    }
  }

  /** The properties of a whole run: it only appends to the conversation,
      its steps alternate between the model and the tools starting with the
      model, it executes at most `budget` steps, and when it ends without
      error the last step was the model's and the last message asks for no
      tool. */
  lemma RunGraphShape(s: Services, messages: seq<Message>, budget: nat)
    ensures var run := RunGraph(s, messages, budget);
      && messages <= run.messages
      && Alternates(run.steps) && |run.steps| <= budget
      && (run.error.None? ==> !WantsTools(run.messages) && |run.steps| % 2 == 1)
  {
    ContinueAlternates(s, Start, messages, [], budget);
  }

  /** The number of model calls among `steps`. */
  function AgentCalls(steps: seq<Node>): (n: nat)
    ensures n <= |steps|
  {
    if steps == [] then 0
    else AgentCalls(steps[..|steps| - 1]) + (if steps[|steps| - 1] == Agent then 1 else 0)
  }

  lemma {:induction false} AlternatingAgentCalls(steps: seq<Node>)
    requires Alternates(steps)
    ensures AgentCalls(steps) == (|steps| + 1) / 2
  {
    if steps != [] {
      var init := steps[..|steps| - 1];
      assert Alternates(init) by {
        forall i | 0 <= i < |init| ensures init[i] == if i % 2 == 0 then Agent else Tools {
          assert init[i] == steps[i];
        }
      }
      AlternatingAgentCalls(init);
    }
  }

  /** With the budget of 15 the model is asked at most 8 times and the
      tools run at most 7 times. */
  lemma ModelCallsWithinLimit(s: Services, messages: seq<Message>)
    ensures var run := RunGraph(s, messages, RecursionLimit);
      AgentCalls(run.steps) <= 8 && |run.steps| - AgentCalls(run.steps) <= 7
  {
    var run := RunGraph(s, messages, RecursionLimit);
    RunGraphShape(s, messages, RecursionLimit);
    AlternatingAgentCalls(run.steps);
  }

  /** A model that always asks for a tool on its first attempt never lets
      the run finish: it ends with the recursion-limit error. */
  lemma {:induction false} EndlessToolCallsHitLimit(s: Services, node: Node, messages: seq<Message>,
                                                    steps: seq<Node>, budget: nat)
    requires forall m :: s.model(m, 1).Ok? && |s.model(m, 1).value.toolCalls| > 0
    requires node != End
    ensures Continue(s, node, messages, steps, budget).error == Some(RecursionLimitError)
    decreases budget, if node == Start then 1 else 0
  {
    if node == Start {
      EndlessToolCallsHitLimit(s, Agent, messages, steps, budget);
    } else if budget > 0 {
      assert node == Agent ==>
        RetryResult(ModelAttempts(s, messages), DefaultMaxRetries) == s.model(messages, 1);
      var out := Step(s, node, messages).value;
      EndlessToolCallsHitLimit(s, Next(node, messages + out), messages + out, steps + [node], budget - 1);
    }
  }
}

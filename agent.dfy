/** `callAgent`: answers a customer's query within a conversation thread.
    Quick replies are answered from fixed texts; every other query is added
    to the thread's conversation and run through the agent/tool graph, whose
    state is checkpointed per thread, and the final message is turned into
    the response text. Errors are mapped to customer-facing messages. */
module ChatAgent {
  import opened Errors
  import opened Retry
  import opened QuickReplies
  import opened Messages
  import opened Formatter
  import opened Graph

  const RateLimitMessage := "Service temporarily unavailable due to rate limits."
  const AuthFailedMessage := "Authentication failed. Please check your API configuration."
  const AgentFailedPrefix := "Agent failed: "
  const AuthFailedStatus := 401

  /** The TypeError of reading `.content` of the missing last message of an
      empty list. No run reaches it: the input always holds the query and a
      run only appends. */
  const NoLastMessage := Error(None, "Cannot read properties of undefined (reading 'content')")

  /** The error `callAgent` throws for an error caught from its body. */
  function MapError(e: Error): (r: Error)
    ensures r.status == None
    ensures HasStatus(e, RateLimitStatus) ==> r.message == RateLimitMessage
    ensures HasStatus(e, AuthFailedStatus) ==> r.message == AuthFailedMessage
    ensures !HasStatus(e, RateLimitStatus) && !HasStatus(e, AuthFailedStatus) ==>
      |r.message| >= |AgentFailedPrefix| && r.message[..|AgentFailedPrefix|] == AgentFailedPrefix
      && r.message[|AgentFailedPrefix|..] == e.message
  {
    if HasStatus(e, RateLimitStatus) then Error(None, RateLimitMessage)
    else if HasStatus(e, AuthFailedStatus) then Error(None, AuthFailedMessage)
    else Error(None, AgentFailedPrefix + e.message)
  }

  /** The content of a message: a tool message carries its output as
      text. */
  function ContentOf(s: Services, m: Message): Content {
    match m
    case Human(c) => c
    case Ai(c, _) => c
    case ToolMessage(out, _) => Scalar(ToolContent(s, out))
  }

  /** The conversation saved for a thread; a new thread starts empty. */
  function History(threads: map<string, seq<Message>>, threadId: string): seq<Message> {
    if threadId in threads then threads[threadId] else []
  }

  /** The answer a finished run gives: the error it threw, or the response
      text of its last message, with any error mapped. */
  function Answer(s: Services, run: Run): (r: Outcome<string>)
    ensures r.Thrown? ==> r.error.status == None && exists e :: r.error == MapError(e)
    ensures run.error.Some? ==> r == Thrown(MapError(run.error.value))
    ensures r.Ok? ==> run.error.None? && run.messages != []
    ensures run.error.None? && run.messages != [] ==>
      var text := ResponseText(ContentOf(s, run.messages[|run.messages| - 1]), s.partJson, s.contentJson);
      && (r.Ok? <==> text.Ok?)
      && (r.Ok? ==> r.value == text.value)
      && (r.Thrown? ==> r.error == MapError(text.error))
  {
    match run.error
    case Some(e) => Thrown(MapError(e))
    case None =>
      if run.messages == [] then Thrown(MapError(NoLastMessage))
      else
        match ResponseText(ContentOf(s, run.messages[|run.messages| - 1]), s.partJson, s.contentJson)
        case Ok(text) => Ok(text)
        case Thrown(e) => Thrown(MapError(e))
  }

  /** The conversation a query starts from: the thread's saved messages
      with the query appended as a human message. */
  function Input(threads: map<string, seq<Message>>, threadId: string, query: string): (m: seq<Message>)
    ensures |m| == |History(threads, threadId)| + 1 && m[|m| - 1] == Human(Scalar(query))
    ensures m[..|m| - 1] == History(threads, threadId)
  {
    History(threads, threadId) + [Human(Scalar(query))]
  }

  /** The whole of `callAgent`: a quick reply when the query has one,
      otherwise the answer of a graph run on the thread's conversation. */
  function CallAgentResult(s: Services, threads: map<string, seq<Message>>,
                           threadId: string, query: string): (r: Outcome<string>)
    ensures QuickReply(query).Some? ==> r == Ok(QuickReply(query).value)
    ensures r.Thrown? ==> r.error.status == None && QuickReply(query).None?
    ensures r.Thrown? ==> exists e :: r.error == MapError(e)
  {
    match QuickReply(query)
    case Some(reply) => Ok(reply)
    case None => Answer(s, RunGraph(s, Input(threads, threadId, query), RecursionLimit))
  }

  /** A rate limit that outlasts the retries of the first model call is
      reported as the rate-limit message, with the query saved in the
      thread. */
  lemma PersistentRateLimitReported(s: Services, threads: map<string, seq<Message>>,
                                    threadId: string, query: string)
    requires QuickReply(query).None?
    requires forall k :: 1 <= k <= DefaultMaxRetries ==>
      IsRateLimit(s.model(Input(threads, threadId, query), k))
    ensures CallAgentResult(s, threads, threadId, query) == Thrown(Error(None, RateLimitMessage))
    ensures RunGraph(s, Input(threads, threadId, query), RecursionLimit).messages
            == Input(threads, threadId, query)
  {
    var input := Input(threads, threadId, query);
    var fn := ModelAttempts(s, input);
    assert IsRateLimit(fn(1)) && IsRateLimit(fn(2)) && IsRateLimit(fn(3));
    assert RetryResult(fn, DefaultMaxRetries) == fn(3);
  }

  /** `callModel`, the `agent` node: the model is invoked through the retry
      loop with its default limit, and its reply becomes one AI message. */
  method CallModel(s: Services, messages: seq<Message>) returns (r: Outcome<seq<Message>>)
    ensures r == AgentStep(s, messages)
  {
    var reply, calls, delays := RetryWithBackoff(ModelAttempts(s, messages), DefaultMaxRetries);
    RetryRunResult(ModelAttempts(s, messages), DefaultMaxRetries, reply, calls, delays);
    if reply.Thrown? {
      return Thrown(reply.error);
    }
    return Ok([Ai(reply.value.content, reply.value.toolCalls)]);
  }

  /** Executes one node of the graph: the model for `agent`, the tool
      calls of the last message for `tools`. */
  method RunNode(s: Services, node: Node, messages: seq<Message>) returns (step: Outcome<seq<Message>>)
    requires node == Agent || node == Tools
    ensures step == Step(s, node, messages)
  {
    if node == Agent {
      step := CallModel(s, messages);
    } else {
      step := Ok(ToolStep(s, messages));
    }
  }

  /** The agent with its checkpoint store: for each thread id, the
      conversation as saved after the last completed step. */
  class Agent {
    var threads: map<string, seq<Message>>

    constructor()
      ensures threads == map[]
    {
      threads := map[];
    }

    /** Runs the graph on `messages` for thread `threadId`, saving the
        conversation after the input is merged and after every completed
        step. The model is called through the retry loop. */
    method Run(s: Services, threadId: string, messages: seq<Message>, budget: nat)
      returns (run: Graph.Run)
      modifies this
      ensures run == RunGraph(s, messages, budget)
      ensures threads == old(threads)[threadId := run.messages]
    {
      var current := messages;
      threads := threads[threadId := current];
      var node := Agent;
      var steps: seq<Node> := [];
      var left := budget;
      while node != End && left > 0
        invariant Continue(s, node, current, steps, left) == RunGraph(s, messages, budget)
        invariant node != Start
        invariant threads == old(threads)[threadId := current]
        decreases left
      {
        var step := RunNode(s, node, current);
        ContinueStep(s, node, current, steps, left);
        if step.Thrown? {
          return Graph.Run(current, steps, Some(step.error));
        }
        var out := step.value;
        current := current + out;
        threads := threads[threadId := current];
        steps := steps + [node];
        node := Next(node, current);
        left := left - 1;
      }
      if node == End {
        run := Graph.Run(current, steps, None);
      } else {
        run := Graph.Run(current, steps, Some(RecursionLimitError));
      }
    }

    /** `callAgent(client, query, threadId)`: a quick reply returns before the
        store is touched; otherwise the query is run on the thread's
        conversation and the last message is formatted. */
    method CallAgent(s: Services, query: string, threadId: string) returns (r: Outcome<string>)
      modifies this
      ensures r == CallAgentResult(s, old(threads), threadId, query)
      ensures QuickReply(query).Some? ==> threads == old(threads)
      ensures QuickReply(query).None? ==>
        threads == old(threads)[threadId :=
          RunGraph(s, Input(old(threads), threadId, query), RecursionLimit).messages]
      ensures forall t :: t != threadId ==> History(threads, t) == History(old(threads), t)
    {
      var reply := QuickReply(query);
      if reply.Some? {
        return Ok(reply.value);
      }
      var run := Run(s, threadId, Input(threads, threadId, query), RecursionLimit);
      assert CallAgentResult(s, old(threads), threadId, query) == Answer(s, run);
      if run.error.Some? {
        return Thrown(MapError(run.error.value));
      }
      if run.messages == [] {
        return Thrown(MapError(NoLastMessage));
      }
      var text := FormatResponse(ContentOf(s, run.messages[|run.messages| - 1]), s.partJson, s.contentJson);
      if text.Thrown? {
        return Thrown(MapError(text.error));
      }
      return Ok(text.value);
    }
  }

  /** A thread's conversation only grows: after a query that is not a quick
      reply, the saved conversation starts with the old one followed by the
      query. */
  lemma ThreadOnlyGrows(s: Services, threads: map<string, seq<Message>>,
                        threadId: string, query: string)
    ensures var saved := RunGraph(s, Input(threads, threadId, query), RecursionLimit).messages;
      History(threads, threadId) + [Human(Scalar(query))] <= saved
  {
    RunGraphShape(s, Input(threads, threadId, query), RecursionLimit);
  }
}

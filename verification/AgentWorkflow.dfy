/** _run_with_client of app/services/agent_workflow.py: the bounded loop of a standalone agent.

    The provider and the tools are arbitrary functions of the request and of a running number, so they
    may answer anything at any time. */
module AgentWorkflow {
  import opened Conversations
  import opened Decimal
  import opened Sequences
  import opened Whitespace
  import opened Wrappers

  /** An entry of the provider's tool_calls list; an absent id is empty. */
  datatype RawCall = NotAnObject | RawCall(id: string, name: string, arguments: string)

  /** `summary` asks for the final answer; `offersTools` says the request carries tool definitions. */
  datatype Request = Request(summary: bool, offersTools: bool, messages: seq<Message>)

  datatype Reply =
    | Unreachable
    | HttpError
    | Malformed
    | Reply(content: Option<string>, calls: seq<RawCall>)

  /** A tool returns, raises AgentToolError (reported to the model), or raises anything else. */
  datatype ToolOutcome = Output(text: string) | ToolError(text: string) | Crash

  datatype Answer = Answer(text: string, steps: int, executions: seq<Execution>)

  datatype Failure =
    | ProviderUnreachable | ProviderFailed | BadMessage | NoAnswer | CallInSummary | NoValidCalls | ToolCrashed
    | StepsExhausted

  type Provider = (nat, Request) -> Reply
  type Tools = (nat, Call) -> ToolOutcome

  // ---- The calls of one reply ----

  function CallId(raw: RawCall, step: nat, index: nat): string
    requires raw.RawCall?
  {
    if raw.id != "" then raw.id else "agent-call-" + Dec(step) + "-" + Dec(index)
  }

  /** The calls among the first n entries. */
  function Calls(raws: seq<RawCall>, step: nat, n: nat): (calls: seq<Call>)
    requires n <= |raws|
    ensures |calls| <= n
  {
    if n == 0 then []
    else
      var before, raw := Calls(raws, step, n - 1), raws[n - 1];
      if raw.NotAnObject? then before else before + [Call(CallId(raw, step, n - 1), raw.name, raw.arguments)]
  }

  /** The calls that are run: all of them, as far as the budget goes. */
  function Budgeted(raws: seq<RawCall>, step: nat, budget: nat): (calls: seq<Call>)
    ensures |calls| <= budget
  {
    var calls := Calls(raws, step, |raws|);
    if |calls| <= budget then calls else calls[..budget]
  }

  lemma {:induction false} CallsGrow(raws: seq<RawCall>, step: nat, n: nat, m: nat)
    requires n <= m <= |raws|
    ensures Calls(raws, step, n) <= Calls(raws, step, m)
    decreases m
  {
    if n < m { CallsGrow(raws, step, n, m - 1); }
  }

  /** The places of the calls among the first n entries. */
  function Places(raws: seq<RawCall>, n: nat): (places: seq<nat>)
    requires n <= |raws|
    ensures forall j :: 0 <= j < |places| ==> places[j] < n
  {
    if n == 0 then [] else Places(raws, n - 1) + if raws[n - 1].NotAnObject? then [] else [n - 1]
  }

  /** The j-th call to run is the j-th entry that is an object, with its name and arguments and its own id, or
      one made of the step and its place if it has none. */
  ghost predicate IsCallOf(call: Call, raw: RawCall, step: nat, place: nat) {
    && raw.RawCall? && call.name == raw.name && call.arguments == raw.arguments
    && (raw.id != "" ==> call.id == raw.id)
    && (raw.id == "" ==> call.id == "agent-call-" + Dec(step) + "-" + Dec(place))
  }

  lemma {:induction false} CallsAre(raws: seq<RawCall>, step: nat, n: nat)
    requires n <= |raws|
    ensures var calls, places := Calls(raws, step, n), Places(raws, n);
            && |calls| == |places|
            && (forall i, j :: 0 <= i < j < |places| ==> places[i] < places[j])
            && (forall i :: 0 <= i < n && raws[i].RawCall? ==> i in places)
            && (forall j :: 0 <= j < |calls| ==> IsCallOf(calls[j], raws[places[j]], step, places[j]))
  {
    if n > 0 { CallsAre(raws, step, n - 1); }
  }

  /** What a round runs: the first calls of the reply, as many as the budget allows. */
  lemma BudgetedAre(raws: seq<RawCall>, step: nat, budget: nat)
    ensures var calls, places := Budgeted(raws, step, budget), Places(raws, |raws|);
            && |calls| == Min(budget, |places|)
            && (forall i, j :: 0 <= i < j < |places| ==> places[i] < places[j])
            && (forall i :: 0 <= i < |raws| ==> (i in places <==> raws[i].RawCall?))
            && (forall j :: 0 <= j < |calls| ==> IsCallOf(calls[j], raws[places[j]], step, places[j]))
  {
    CallsAre(raws, step, |raws|);
  }

  /** The outputs are what the tools returned for these calls, run in order after `from` earlier ones. */
  ghost predicate Ran(tools: Tools, calls: seq<Call>, outputs: seq<string>, from: nat) {
    && |outputs| == |calls|
    && forall i :: 0 <= i < |calls| ==> !tools(from + i, calls[i]).Crash? && outputs[i] == tools(from + i, calls[i]).text
  }

  /** One of the calls makes its tool raise an unexpected error. */
  ghost predicate Crashes(tools: Tools, calls: seq<Call>, from: nat) {
    exists i :: 0 <= i < |calls| && tools(from + i, calls[i]).Crash?
  }

  /** A call that crashes within the budget is among those to run. */
  lemma CrashFound(raws: seq<RawCall>, step: nat, budget: nat, tools: Tools, index: nat, calls: seq<Call>, call: Call,
                   from: nat)
    requires index < |raws| && |calls| < budget && calls == Calls(raws, step, index)
    requires raws[index].RawCall? && call == Call(CallId(raws[index], step, index), raws[index].name, raws[index].arguments)
    requires tools(from + |calls|, call).Crash?
    ensures Crashes(tools, Budgeted(raws, step, budget), from)
  {
    hide CallId, Calls;
    var all := Calls(raws, step, |raws|);
    CallsGrow(raws, step, index + 1, |raws|);
    OneMoreCall(raws, step, index);
    assert calls + [call] <= all;
    assert (calls + [call])[|calls|] == call;
    assert Budgeted(raws, step, budget)[|calls|] == call;
  }

  lemma OneMoreCall(raws: seq<RawCall>, step: nat, index: nat)
    requires index < |raws| && raws[index].RawCall?
    ensures Calls(raws, step, index + 1) ==
      Calls(raws, step, index) + [Call(CallId(raws[index], step, index), raws[index].name, raws[index].arguments)]
  {
  }

  /** The loop over the calls of one reply: runs them in order and appends their results. */
  method RunCalls(raws: seq<RawCall>, step: nat, budget: nat, tools: Tools, before: seq<Message>, done: seq<Execution>)
    returns (crashed: bool, calls: seq<Call>, conversation: seq<Message>, executions: seq<Execution>,
             ghost outputs: seq<string>)
    requires budget > 0
    ensures crashed <==> Crashes(tools, Budgeted(raws, step, budget), |done|)
    ensures !crashed ==> calls == Budgeted(raws, step, budget) && |outputs| == |calls| && Ran(tools, calls, outputs, |done|)
    ensures !crashed ==> conversation == before + Results(calls, outputs)
    ensures !crashed ==> executions == done + Executed(calls, outputs)
  {
    hide Results, Executed, CallId, Budgeted, Crashes;
    crashed, calls, conversation, executions, outputs := false, [], before, done, [];
    NoResults(before, done);
    var index := 0;
    while index < |raws| && |calls| < budget
      invariant index <= |raws| && |calls| <= budget
      invariant calls == Calls(raws, step, index) && Ran(tools, calls, outputs, |done|)
      invariant conversation == before + Results(calls, outputs)
      invariant executions == done + Executed(calls, outputs) && |executions| == |done| + |calls| && !crashed
    {
      var raw := raws[index];
      if raw.RawCall? {
        var call := Call(CallId(raw, step, index), raw.name, raw.arguments);
        var outcome := tools(|executions|, call);
        if outcome.Crash? {
          CrashFound(raws, step, budget, tools, index, calls, call, |done|);
          crashed := true;
          return;
        }
        ResultsNext(calls, outputs, call, outcome.text);
        Assoc(before, Results(calls, outputs), [Tool(call.id, outcome.text)]);
        Assoc(done, Executed(calls, outputs), [Execution(call.id, call.name, outcome.text)]);
        calls, outputs := calls + [call], outputs + [outcome.text];
        executions := executions + [Execution(call.id, call.name, outcome.text)];
        conversation := conversation + [Tool(call.id, outcome.text)];
      }
      index := index + 1;
    }
    BudgetReached(raws, step, budget, index, calls);
    NoneCrashed(tools, calls, outputs, |done|);
  }

  lemma NoneCrashed(tools: Tools, calls: seq<Call>, outputs: seq<string>, from: nat)
    requires Ran(tools, calls, outputs, from)
    ensures !Crashes(tools, calls, from)
  {
  }

  lemma BudgetReached(raws: seq<RawCall>, step: nat, budget: nat, index: nat, calls: seq<Call>)
    requires index <= |raws| && calls == Calls(raws, step, index) && |calls| <= budget
    requires index == |raws| || |calls| == budget
    ensures calls == Budgeted(raws, step, budget)
  {
    CallsGrow(raws, step, index, |raws|);
  }

  // ---- The loop ----

  /** The messages of a request: the conversation after some rounds, behind the summary prompt if it asks
      for the final answer. */
  function Messages(prompt: string, blocks: seq<Block>, summary: bool): seq<Message>
    requires AllComplete(blocks)
  {
    (if summary then [System] else []) + Conversation([User(prompt)], blocks)
  }

  /** The i-th request shows the rounds completed before it. It asks for the final answer, without tools,
      exactly when the step limit is reached, or after a reply that was no round. */
  ghost predicate RequestOk(prompt: string, maxSteps: int, hasTools: bool, blocks: seq<Block>, request: Request, i: nat)
    requires AllComplete(blocks)
  {
    && request.messages == Messages(prompt, blocks[..Min(i, |blocks|)], request.summary)
    && (request.summary <==> i > |blocks| || |Executions(blocks[..Min(i, |blocks|)])| >= maxSteps)
    && request.offersTools == (hasTools && !request.summary)
  }

  ghost predicate RequestsOk(prompt: string, maxSteps: int, hasTools: bool, blocks: seq<Block>, requests: seq<Request>)
    requires AllComplete(blocks)
  {
    forall i :: 0 <= i < |requests| ==> RequestOk(prompt, maxSteps, hasTools, blocks, requests[i], i)
  }

  /** Round k answers the k-th request: its calls are the reply's, cut to what is left of the budget, and
      its outputs are what the tools returned for them. */
  ghost predicate RoundOk(provider: Provider, tools: Tools, maxSteps: int, blocks: seq<Block>, requests: seq<Request>,
                          k: nat)
    requires AllComplete(blocks) && k < |blocks|
  {
    var ran := |Executions(blocks[..k])|;
    && k < |requests| && !requests[k].summary && ran < maxSteps
    && var reply := provider(k + 1, requests[k]);
       && reply.Reply? && blocks[k].content == reply.content
       && blocks[k].calls == Budgeted(reply.calls, k + 1, maxSteps - ran)
       && Ran(tools, blocks[k].calls, blocks[k].outputs, ran)
  }

  ghost predicate RoundsOk(provider: Provider, tools: Tools, maxSteps: int, blocks: seq<Block>, requests: seq<Request>)
    requires AllComplete(blocks)
  {
    forall k :: 0 <= k < |blocks| ==> RoundOk(provider, tools, maxSteps, blocks, requests, k)
  }

  predicate NonBlank(content: Option<string>) {
    content.Some? && Strip(content.value) != ""
  }

  /** A reply that was no round and yet not the last one: text after a round, instead of which a final answer
      was asked for. */
  ghost predicate Continued(provider: Provider, blocks: seq<Block>, request: Request, k: nat) {
    && k == |blocks| && blocks != [] && !request.summary && provider(k + 1, request).Reply?
    && provider(k + 1, request).calls == [] && NonBlank(provider(k + 1, request).content)
  }

  /** Of the first n replies at most one was no round. */
  ghost predicate ContinuedOk(provider: Provider, blocks: seq<Block>, requests: seq<Request>, n: nat) {
    forall k :: |blocks| <= k < n && k < |requests| ==> Continued(provider, blocks, requests[k], k)
  }

  ghost predicate Inv(prompt: string, maxSteps: int, hasTools: bool, step: int, force: bool,
                      conversation: seq<Message>, executions: seq<Execution>, blocks: seq<Block>,
                      requests: seq<Request>) {
    && AllComplete(blocks)
    && conversation == Conversation([User(prompt)], blocks) && executions == Executions(blocks) && |executions| <= maxSteps
    && RequestsOk(prompt, maxSteps, hasTools, blocks, requests) && |requests| == step - 1
    && |blocks| == if force then step - 2 else step - 1
  }

  lemma Asked(prompt: string, maxSteps: int, hasTools: bool, blocks: seq<Block>, requests: seq<Request>,
              request: Request)
    requires AllComplete(blocks) && RequestsOk(prompt, maxSteps, hasTools, blocks, requests) && |blocks| <= |requests|
    requires request.messages == Messages(prompt, blocks, request.summary)
    requires request.offersTools == (hasTools && !request.summary)
    requires request.summary <==> |requests| > |blocks| || |Executions(blocks)| >= maxSteps
    ensures RequestsOk(prompt, maxSteps, hasTools, blocks, requests + [request])
  {
    assert blocks[..|blocks|] == blocks;
  }

  /** The round's assistant message goes in front of its results, which were appended first. */
  lemma RoundInserted(prompt: string, blocks: seq<Block>, b: Block, conversation: seq<Message>)
    requires AllComplete(blocks) && Complete(b)
    requires conversation == Conversation([User(prompt)], blocks) + Results(b.calls, b.outputs)
    ensures AllComplete(blocks + [b])
    ensures var at := |conversation| - |b.calls|;
            && 0 <= at
            && conversation[..at] + [Assistant(b.content, b.calls)] + conversation[at..] == Conversation([User(prompt)], blocks + [b])
  {
    var at := |Conversation([User(prompt)], blocks)|;
    assert conversation[..at] == Conversation([User(prompt)], blocks);
    assert conversation[at..] == Results(b.calls, b.outputs);
  }

  lemma RequestsKept(prompt: string, maxSteps: int, hasTools: bool, blocks: seq<Block>, b: Block,
                     requests: seq<Request>)
    requires AllComplete(blocks) && Complete(b) && |requests| == |blocks| + 1
    requires RequestsOk(prompt, maxSteps, hasTools, blocks, requests)
    ensures AllComplete(blocks + [b]) && RequestsOk(prompt, maxSteps, hasTools, blocks + [b], requests)
  {
    forall i | 0 <= i < |requests| ensures RequestOk(prompt, maxSteps, hasTools, blocks + [b], requests[i], i) {
      assert RequestOk(prompt, maxSteps, hasTools, blocks, requests[i], i);
      assert (blocks + [b])[..i] == blocks[..i];
    }
  }

  lemma RoundAdded(provider: Provider, tools: Tools, maxSteps: int, blocks: seq<Block>, b: Block,
                   requests: seq<Request>, more: seq<Request>)
    requires AllComplete(blocks) && Complete(b) && RoundsOk(provider, tools, maxSteps, blocks, requests)
    requires |requests| == |blocks| && |more| == |blocks| + 1 && more[..|blocks|] == requests && !more[|blocks|].summary
    requires |Executions(blocks)| < maxSteps
    requires var reply := provider(|more|, more[|blocks|]);
             && reply.Reply? && b.content == reply.content
             && b.calls == Budgeted(reply.calls, |more|, maxSteps - |Executions(blocks)|)
             && Ran(tools, b.calls, b.outputs, |Executions(blocks)|)
    ensures AllComplete(blocks + [b]) && RoundsOk(provider, tools, maxSteps, blocks + [b], more)
  {
    var all := blocks + [b];
    forall k | 0 <= k < |all| ensures RoundOk(provider, tools, maxSteps, all, more, k) {
      assert all[..k] == blocks[..k];
      if k < |blocks| {
        assert RoundOk(provider, tools, maxSteps, blocks, requests, k);
        assert more[k] == requests[k];
      } else {
        assert blocks[..k] == blocks;
      }
    }
  }

  lemma RoundsKept(provider: Provider, tools: Tools, maxSteps: int, blocks: seq<Block>, requests: seq<Request>,
                   request: Request)
    requires AllComplete(blocks) && RoundsOk(provider, tools, maxSteps, blocks, requests)
    ensures RoundsOk(provider, tools, maxSteps, blocks, requests + [request])
  {
    forall k | 0 <= k < |blocks| ensures RoundOk(provider, tools, maxSteps, blocks, requests + [request], k) {
      assert RoundOk(provider, tools, maxSteps, blocks, requests, k);
    }
  }

  /** The result that the last reply calls for. */
  ghost predicate EndsAs(provider: Provider, tools: Tools, maxSteps: int, blocks: seq<Block>, requests: seq<Request>,
                         r: Result<Answer, Failure>)
    requires AllComplete(blocks)
  {
    && requests != []
    && var n, last, ran := |requests|, requests[|requests| - 1], |Executions(blocks)|;
       match provider(n, last)
       case Unreachable => r == Err(ProviderUnreachable)
       case HttpError => r == Err(ProviderFailed)
       case Malformed => r == Err(BadMessage)
       case Reply(content, raws) =>
         if raws == [] then
           && (blocks == [] || last.summary || !NonBlank(content))
           && r == (if NonBlank(content) then Ok(Answer(content.value, Min(n, maxSteps), Executions(blocks)))
                    else Err(NoAnswer))
         else if last.summary then r == Err(CallInSummary)
         else
           && ran < maxSteps
           && var calls := Budgeted(raws, n, maxSteps - ran);
              && (calls == [] || Crashes(tools, calls, ran))
              && r == Err(if Crashes(tools, calls, ran) then ToolCrashed else NoValidCalls)
  }

  lemma EndsInText(provider: Provider, tools: Tools, maxSteps: int, blocks: seq<Block>, requests: seq<Request>,
                   content: Option<string>)
    requires AllComplete(blocks) && requests != []
    requires provider(|requests|, requests[|requests| - 1]) == Reply(content, [])
    requires blocks == [] || requests[|requests| - 1].summary || !NonBlank(content)
    ensures EndsAs(provider, tools, maxSteps, blocks, requests,
                   if NonBlank(content) then Ok(Answer(content.value, Min(|requests|, maxSteps), Executions(blocks)))
                   else Err(NoAnswer))
  {
  }

  lemma EndsInCalls(provider: Provider, tools: Tools, maxSteps: int, blocks: seq<Block>, requests: seq<Request>,
                    content: Option<string>, raws: seq<RawCall>)
    requires AllComplete(blocks) && requests != [] && raws != []
    requires provider(|requests|, requests[|requests| - 1]) == Reply(content, raws)
    requires !requests[|requests| - 1].summary ==>
      && |Executions(blocks)| < maxSteps
      && var calls := Budgeted(raws, |requests|, maxSteps - |Executions(blocks)|);
         calls == [] || Crashes(tools, calls, |Executions(blocks)|)
    ensures EndsAs(provider, tools, maxSteps, blocks, requests, Err(
      if requests[|requests| - 1].summary then CallInSummary
      else if Crashes(tools, Budgeted(raws, |requests|, maxSteps - |Executions(blocks)|), |Executions(blocks)|)
      then ToolCrashed else NoValidCalls))
  {
  }

  lemma EndsInFailure(provider: Provider, tools: Tools, maxSteps: int, blocks: seq<Block>, requests: seq<Request>)
    requires AllComplete(blocks) && requests != [] && !provider(|requests|, requests[|requests| - 1]).Reply?
    ensures EndsAs(provider, tools, maxSteps, blocks, requests, Err(
      match provider(|requests|, requests[|requests| - 1])
      case Unreachable => ProviderUnreachable
      case HttpError => ProviderFailed
      case Malformed => BadMessage))
  {
  }

  /** The one reply after which the loop goes on without a round. */
  lemma TextContinues(provider: Provider, blocks: seq<Block>, requests: seq<Request>, content: Option<string>)
    requires blocks != [] && |requests| == |blocks| + 1 && !requests[|blocks|].summary
    requires provider(|requests|, requests[|blocks|]) == Reply(content, []) && NonBlank(content)
    ensures ContinuedOk(provider, blocks, requests, |requests|)
  {
  }

  lemma RequestContinues(provider: Provider, blocks: seq<Block>, requests: seq<Request>, request: Request)
    requires ContinuedOk(provider, blocks, requests, |requests|)
    ensures ContinuedOk(provider, blocks, requests + [request], |requests|)
  {
    hide Continued;
  }

  lemma RoundContinues(provider: Provider, blocks: seq<Block>, requests: seq<Request>)
    requires |requests| <= |blocks|
    ensures ContinuedOk(provider, blocks, requests, |requests|)
  {
  }

  /** Runs the agent. `blocks` are the completed rounds and `requests` the requests sent: at most
      maxSteps tools run, in at most maxSteps + 1 requests. The last reply decides the result, and which
      failure it is. The closing error is raised only for a negative step limit. */
  method RunWithClient(prompt: string, maxSteps: int, hasTools: bool, provider: Provider, tools: Tools)
    returns (r: Result<Answer, Failure>, ghost blocks: seq<Block>, ghost requests: seq<Request>)
    ensures AllComplete(blocks) && RequestsOk(prompt, maxSteps, hasTools, blocks, requests)
    ensures RoundsOk(provider, tools, maxSteps, blocks, requests)
    ensures maxSteps >= 0 ==> |requests| <= maxSteps + 1 && |Executions(blocks)| <= maxSteps
    ensures maxSteps >= 0 ==> requests != [] && ContinuedOk(provider, blocks, requests, |requests| - 1)
    ensures maxSteps >= 0 ==> EndsAs(provider, tools, maxSteps, blocks, requests, r)
    ensures r == Err(StepsExhausted) <==> maxSteps < 0
  {
    hide Strip, Ran, Budgeted, RequestOk, Results, Executed, Crashes, EndsAs, ContinuedOk, RoundsOk, RequestsOk, Messages;
    hide Conversation, Executions, Calls;
    var conversation, executions: seq<Execution> := [User(prompt)], [];
    var force := false;
    blocks, requests := [], [];
    Initially(prompt, maxSteps, hasTools, provider, tools);
    var step := 1;
    while step < maxSteps + 2
      invariant maxSteps >= 0 ==> step <= maxSteps + 1
      invariant maxSteps < 0 ==> step == 1 && blocks == [] && requests == []
      invariant 1 <= step && (maxSteps >= 0 ==> Inv(prompt, maxSteps, hasTools, step, force, conversation, executions, blocks, requests))
      invariant AllComplete(blocks) && RoundsOk(provider, tools, maxSteps, blocks, requests)
      invariant RequestsOk(prompt, maxSteps, hasTools, blocks, requests)
      invariant |requests| == step - 1 && ContinuedOk(provider, blocks, requests, |requests|)
      decreases maxSteps + 2 - step
    {
      var summary := force || |executions| >= maxSteps || step == maxSteps + 1;
      var messages := if summary then [System] + conversation else conversation;
      var request := Request(summary, hasTools && !summary, messages);
      ghost var earlier := requests;
      RoundsBelowRuns(blocks);
      MessagesAre(prompt, blocks, summary);
      Asked(prompt, maxSteps, hasTools, blocks, requests, request);
      RoundsKept(provider, tools, maxSteps, blocks, requests, request);
      RequestContinues(provider, blocks, requests, request);
      requests := requests + [request];
      match provider(step, request) {
        case Unreachable =>
          EndsInFailure(provider, tools, maxSteps, blocks, requests);
          return Err(ProviderUnreachable), blocks, requests;
        case HttpError =>
          EndsInFailure(provider, tools, maxSteps, blocks, requests);
          return Err(ProviderFailed), blocks, requests;
        case Malformed =>
          EndsInFailure(provider, tools, maxSteps, blocks, requests);
          return Err(BadMessage), blocks, requests;
        case Reply(content, raws) =>
          if raws == [] {
            if content.None? || Strip(content.value) == "" {
              EndsInText(provider, tools, maxSteps, blocks, requests, content);
              return Err(NoAnswer), blocks, requests;
            }
            NothingRan(blocks);
            if executions == [] || summary {
              EndsInText(provider, tools, maxSteps, blocks, requests, content);
              return Ok(Answer(content.value, Min(step, maxSteps), executions)), blocks, requests;
            }
            TextContinues(provider, blocks, requests, content);
            force := true;
          } else {
            if summary {
              EndsInCalls(provider, tools, maxSteps, blocks, requests, content, raws);
              return Err(CallInSummary), blocks, requests;
            }
            var crashed, calls, extended, done, outputs :=
              RunCalls(raws, step, maxSteps - |executions|, tools, conversation, executions);
            if crashed || calls == [] {
              EndsInCalls(provider, tools, maxSteps, blocks, requests, content, raws);
            }
            if crashed { return Err(ToolCrashed), blocks, requests; }
            if calls == [] { return Err(NoValidCalls), blocks, requests; }
            var assistant := Assistant(content, calls);
            ghost var b := Block(content, calls, outputs);
            RoundInserted(prompt, blocks, b, extended);
            RoundExecuted(blocks, b);
            RequestsKept(prompt, maxSteps, hasTools, blocks, b, requests);
            RoundAdded(provider, tools, maxSteps, blocks, b, earlier, requests);
            blocks := blocks + [b];
            RoundContinues(provider, blocks, requests);
            executions := done;
            conversation := extended[..|extended| - |calls|] + [assistant] + extended[|extended| - |calls|..];
          }
      }
      step := step + 1;
    }
    return Err(StepsExhausted), blocks, requests;
  }

  lemma NothingRan(blocks: seq<Block>)
    requires AllComplete(blocks)
    ensures Executions(blocks) == [] <==> blocks == []
  {
    RoundsBelowRuns(blocks);
  }

  lemma MessagesAre(prompt: string, blocks: seq<Block>, summary: bool)
    requires AllComplete(blocks)
    ensures Messages(prompt, blocks, summary) ==
      if summary then [System] + Conversation([User(prompt)], blocks) else Conversation([User(prompt)], blocks)
  {
    assert [] + Conversation([User(prompt)], blocks) == Conversation([User(prompt)], blocks);
  }

  lemma Initially(prompt: string, maxSteps: int, hasTools: bool, provider: Provider, tools: Tools)
    ensures Conversation([User(prompt)], []) == [User(prompt)]
    ensures RequestsOk(prompt, maxSteps, hasTools, [], []) && RoundsOk(provider, tools, maxSteps, [], [])
    ensures ContinuedOk(provider, [], [], 0) && Executions([]) == []
  {
  }
}

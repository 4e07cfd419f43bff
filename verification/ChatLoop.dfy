/** The tool loop of stream_chat, app/api/routes/chat.py. Provider, tools and the DSML grammar are
    arbitrary functions, so the provider may answer anything at any time. */
module ChatLoop {
  import opened ChatResponse
  import opened Conversations
  import opened IncrementalUserText
  import opened MarkerFilter
  import opened Sequences
  import opened Wrappers

  const MAX_CHAT_TOOL_STEPS: nat := 10

  /** A request: `summary` puts the final-summary prompt in front, `warned` the one used for its retry;
      `offered` are the names of the tools it carries. */
  datatype Request = Request(summary: bool, warned: bool, offered: set<string>, messages: seq<Message>)

  /** A broken stream ends in a connection error after some chunks. */
  datatype Response = Unreachable | HttpError | Stream(chunks: seq<Chunk>, broken: bool)

  /** A DSML invoke tag; `valid` says that its parameters parse. */
  datatype Invoke = Invoke(name: string, valid: bool, arguments: string)

  datatype Environment = Environment(
    provider: (nat, Request) -> Response,     // numbered requests
    tools: (nat, Call) -> string,             // numbered executions; errors are outputs too
    invokes: string -> seq<Invoke>,           // the invoke tags in a text
    callId: (nat, int) -> string,             // generated ids
    scope: (string, string) -> string)        // adds the selected knowledge base to a tool's arguments

  // ---- Calls in index order ----

  predicate IsMin(s: set<int>, m: int) {
    m in s && forall y <- s :: m <= y
  }

  lemma {:induction false} MinExists(s: set<int>)
    requires s != {}
    ensures exists m :: IsMin(s, m)
    decreases |s|
  {
    var x := Element(s);
    var rest := s - {x};
    if rest == {} {
      assert s == {x};
      assert IsMin(s, x);
    } else {
      MinExists(rest);
      var m :| IsMin(rest, m);
      var least := if x < m then x else m;
      forall y | y in s ensures least <= y {
        if y != x { assert y in rest; }
      }
      assert IsMin(s, least);
    }
  }

  /** sorted(). */
  ghost function SortedKeys(s: set<int>): seq<int>
    decreases |s|
  {
    if s == {} then []
    else
      MinExists(s);
      var m :| IsMin(s, m);
      [m] + SortedKeys(s - {m})
  }

  lemma SortedKeysCons(s: set<int>) returns (m: int)
    requires s != {}
    ensures IsMin(s, m) && SortedKeys(s) == [m] + SortedKeys(s - {m})
  {
    MinExists(s);
    m := SortedKeys(s)[0];
    assert SortedKeys(s)[1..] == SortedKeys(s - {m});
  }

  lemma {:induction false} SortedKeysAreSorted(s: set<int>)
    ensures |SortedKeys(s)| == |s|
    ensures forall i :: 0 <= i < |SortedKeys(s)| ==> SortedKeys(s)[i] in s
    ensures forall k :: k in s ==> k in SortedKeys(s)
    ensures forall i, j :: 0 <= i < j < |SortedKeys(s)| ==> SortedKeys(s)[i] < SortedKeys(s)[j]
    decreases |s|
  {
    if s != {} {
      var m := SortedKeysCons(s);
      SortedKeysAreSorted(s - {m});
    }
  }

  ghost function CallsAt(calls: map<int, Call>, keys: seq<int>): seq<Call>
    requires forall i :: 0 <= i < |keys| ==> keys[i] in calls
  {
    if keys == [] then [] else [calls[keys[0]]] + CallsAt(calls, keys[1..])
  }

  /** The calls in the order of their indexes. */
  ghost function Ordered(calls: map<int, Call>): seq<Call> {
    SortedKeysAreSorted(calls.Keys);
    CallsAt(calls, SortedKeys(calls.Keys))
  }

  lemma {:induction false} CallsAtIs(calls: map<int, Call>, keys: seq<int>)
    requires forall i :: 0 <= i < |keys| ==> keys[i] in calls
    ensures |CallsAt(calls, keys)| == |keys|
    ensures forall i :: 0 <= i < |keys| ==> CallsAt(calls, keys)[i] == calls[keys[i]]
  {
    if keys != [] { CallsAtIs(calls, keys[1..]); }
  }

  lemma OrderedIs(calls: map<int, Call>)
    ensures |Ordered(calls)| == |calls|
    ensures forall i :: 0 <= i < |calls| ==>
      i < |SortedKeys(calls.Keys)| && SortedKeys(calls.Keys)[i] in calls
      && Ordered(calls)[i] == calls[SortedKeys(calls.Keys)[i]]
  {
    SortedKeysAreSorted(calls.Keys);
    CallsAtIs(calls, SortedKeys(calls.Keys));
    assert |calls.Keys| == |calls|;
  }

  method Order(calls: map<int, Call>) returns (ordered: seq<Call>)
    ensures ordered == Ordered(calls)
  {
    ordered := [];
    var rest := calls.Keys;
    SortedKeysAreSorted(rest);
    while rest != {}
      invariant rest <= calls.Keys
      invariant forall i :: 0 <= i < |SortedKeys(rest)| ==> SortedKeys(rest)[i] in calls
      invariant ordered + CallsAt(calls, SortedKeys(rest)) == Ordered(calls)
      decreases |rest|
    {
      MinExists(rest);
      var m :| m in rest && forall y :: y in rest ==> m <= y;
      SortedStep(calls, rest, m);
      Assoc(ordered, [calls[m]], CallsAt(calls, SortedKeys(rest - {m})));
      ordered := ordered + [calls[m]];
      rest := rest - {m};
    }
  }

  lemma SortedStep(calls: map<int, Call>, rest: set<int>, m: int)
    requires rest <= calls.Keys && m in rest && forall y :: y in rest ==> m <= y
    ensures forall i :: 0 <= i < |SortedKeys(rest - {m})| ==> SortedKeys(rest - {m})[i] in calls
    ensures forall i :: 0 <= i < |SortedKeys(rest)| ==> SortedKeys(rest)[i] in calls
    ensures CallsAt(calls, SortedKeys(rest)) == [calls[m]] + CallsAt(calls, SortedKeys(rest - {m}))
  {
    SortedKeysAreSorted(rest);
    SortedKeysAreSorted(rest - {m});
    var least := SortedKeysCons(rest);
    assert least == m;
    assert ([m] + SortedKeys(rest - {m}))[1..] == SortedKeys(rest - {m});
  }

  // ---- DSML calls ----

  predicate HasOpenMarker(text: string) {
    Find(text, DsmlOpen) >= 0
  }

  predicate AllAllowed(invokes: seq<Invoke>, allowed: set<string>) {
    forall i :: 0 <= i < |invokes| ==> invokes[i].name in allowed && invokes[i].valid
  }

  function DsmlCall(env: Environment, step: nat, i: nat, invoke: Invoke): Call {
    Call(env.callId(step, i), invoke.name, invoke.arguments)
  }

  function DsmlCalls(env: Environment, step: nat, invokes: seq<Invoke>): (calls: seq<Call>)
    ensures |calls| == |invokes|
  {
    seq(|invokes|, i requires 0 <= i < |invokes| => DsmlCall(env, step, i, invokes[i]))
  }

  /** The calls _parse_dsml_tool_calls finds; none if it rejects the text. */
  function DsmlIn(env: Environment, step: nat, text: string, allowed: set<string>): (calls: seq<Call>)
    ensures calls != [] ==> allowed != {}
  {
    if HasOpenMarker(text) && AllAllowed(env.invokes(text), allowed) then
      var calls := DsmlCalls(env, step, env.invokes(text));
      assert calls != [] ==> env.invokes(text)[0].name in allowed;
      calls
    else []
  }

  /** _parse_dsml_tool_calls: every call it returns names a tool offered with this request. */
  method ParseDsmlToolCalls(env: Environment, step: nat, text: string, allowed: set<string>)
    returns (r: Option<seq<Call>>)
    ensures r == if DsmlIn(env, step, text, allowed) == [] then None else Some(DsmlIn(env, step, text, allowed))
    ensures r.Some? ==> forall i :: 0 <= i < |r.value| ==> r.value[i].name in allowed
  {
    if !HasOpenMarker(text) { return None; }
    var invokes := env.invokes(text);
    var calls: seq<Call> := [];
    for i := 0 to |invokes|
      invariant |calls| == i && calls == DsmlCalls(env, step, invokes)[..i]
      invariant forall k :: 0 <= k < i ==> invokes[k].name in allowed && invokes[k].valid
    {
      if invokes[i].name !in allowed || !invokes[i].valid { return None; }
      calls := calls + [DsmlCall(env, step, i, invokes[i])];
    }
    assert calls == DsmlCalls(env, step, invokes);
    return if calls == [] then None else Some(calls);
  }

  // ---- The calls of one response ----

  function IdsOf(env: Environment, step: nat): FreshIds {
    i => env.callId(step, i)
  }

  ghost predicate Markup(text: string) {
    HasMarker(text, DsmlMarkers)
  }

  /** The calls a response asks for: the structured ones, or else those in its markup. */
  ghost function CallsIn(env: Environment, step: nat, chunks: seq<Chunk>, offered: set<string>,
                         budget: nat): seq<Call> {
    var structured := Ordered(Assembled(map[], AllFragments(chunks), budget, IdsOf(env, step)));
    if structured != [] then structured
    else if Markup(AllText(chunks)) then DsmlIn(env, step, AllText(chunks), offered) else []
  }

  /** Without budget and without offered tools no call survives. */
  lemma NoCallSurvives(env: Environment, step: nat, chunks: seq<Chunk>)
    ensures CallsIn(env, step, chunks, {}, 0) == []
  {
    var calls := Assembled(map[], AllFragments(chunks), 0, IdsOf(env, step));
    AssembledIs(AllFragments(chunks), 0, IdsOf(env, step), 0);
    OrderedIs(calls);
  }

  /** _has_dsml_control_text. */
  method HasDsmlControlText(text: string) returns (markup: bool)
    ensures markup == Markup(text)
  {
    DsmlIsStable();
    HasMarkerIff(text, DsmlMarkers);
    var openAt := Find(text, DsmlOpen);
    var closeAt := Find(text, DsmlClose);
    FirstOfTwo(text, DsmlOpen, DsmlClose);
    markup := openAt >= 0 || closeAt >= 0;
  }

  predicate Terminal(e: Event) {
    e.Error? || e.TextEnd? || e.Finish?
  }

  predicate NoTerminal(events: seq<Event>) {
    forall i :: 0 <= i < |events| ==> !Terminal(events[i])
  }

  lemma {:induction false} NoTerminalInOthers(events: seq<Event>)
    requires NoTerminal(OthersOf(events))
    ensures NoTerminal(events)
  {
    if events != [] {
      var init, last := events[..|events| - 1], events[|events| - 1];
      EventAdded(init, last);
      SplitLast(events);
      NoTerminalPrefix(events);
      NoTerminalInOthers(init);
    }
  }

  lemma NoTerminalPrefix(events: seq<Event>)
    requires events != [] && NoTerminal(OthersOf(events))
    ensures NoTerminal(OthersOf(events[..|events| - 1])) && !Terminal(events[|events| - 1])
  {
    var before := OthersOf(events[..|events| - 1]);
    forall i | 0 <= i < |before| ensures !Terminal(before[i]) { assert OthersOf(events)[i] == before[i]; }
    if !events[|events| - 1].TextDelta? { assert OthersOf(events)[|before|] == events[|events| - 1]; }
  }

  /** The start events of DSML calls; also the calls that are cut by the budget get one. */
  function StartEvents(calls: seq<Call>): (events: seq<Event>)
    ensures |events| == |calls|
  {
    seq(|calls|, i requires 0 <= i < |calls| => InputStart(calls[i].id, calls[i].name))
  }

  /** The events of a response besides its text: the input of the structured calls as it arrives or, if
      there are none, a start for every call in the markup. */
  ghost function ResponseEvents(env: Environment, step: nat, chunks: seq<Chunk>, offered: set<string>, budget: nat,
                                broken: bool): seq<Event> {
    InputEvents(map[], AllFragments(chunks), budget, IdsOf(env, step))
    + if broken || Ordered(Assembled(map[], AllFragments(chunks), budget, IdsOf(env, step))) != []
         || !Markup(AllText(chunks)) then []
      else StartEvents(DsmlIn(env, step, AllText(chunks), offered))
  }

  /** Every call in the markup is announced, also one behind the budget. */
  lemma CutCallsAreAnnounced(env: Environment, step: nat, chunks: seq<Chunk>, offered: set<string>, budget: nat,
                             i: nat)
    requires Assembled(map[], AllFragments(chunks), budget, IdsOf(env, step)) == map[]
    requires i < |CallsIn(env, step, chunks, offered, budget)|
    ensures var call := CallsIn(env, step, chunks, offered, budget)[i];
            InputStart(call.id, call.name) in ResponseEvents(env, step, chunks, offered, budget, false)
  {
    hide DsmlIn, InputEvents, Assembled, AllText, AllFragments, Markup;
    var structured := Assembled(map[], AllFragments(chunks), budget, IdsOf(env, step));
    OrderedIs(structured);
    var calls := CallsIn(env, step, chunks, offered, budget);
    assert StartEvents(calls)[i] == InputStart(calls[i].id, calls[i].name);
  }

  /** Reads a response to its end and determines its calls. */
  method Collect(env: Environment, step: nat, chunks: seq<Chunk>, offered: set<string>, budget: nat)
    returns (content: string, text: string, markup: bool, calls: seq<Call>, events: seq<Event>)
    ensures content == AllText(chunks) && markup == Markup(content)
    ensures calls == CallsIn(env, step, chunks, offered, budget)
    ensures text == TextOf(events) == Visible(content, DsmlMarkers) && NoTerminal(events)
    ensures OthersOf(events) == ResponseEvents(env, step, chunks, offered, budget, false)
  {
    hide DsmlIn, Assembled, SortedKeys, CallsAt, TextOf;
    hide OthersOf, InputEvents, Visible, AllText, AllFragments, HasMarker;
    var structured;
    content, text, structured, events := ReadResponse(chunks, false, budget, IdsOf(env, step));
    InputEventsAreNoText(map[], AllFragments(chunks), budget, IdsOf(env, step));
    NoTerminalInOthers(events);
    markup := HasDsmlControlText(content);
    OrderedIs(structured);
    calls := Order(structured);
    if calls == [] && markup {
      var parsed := ParseDsmlToolCalls(env, step, content, offered);
      if parsed.Some? {
        calls := parsed.value;
        AllOthers(StartEvents(calls));
        EventsSum(events, StartEvents(calls));
        events := events + StartEvents(calls);
      }
    }
  }

  // ---- Running the calls ----

  function Cut(calls: seq<Call>, budget: nat): (cut: seq<Call>)
    ensures |cut| == if |calls| < budget then |calls| else budget
  {
    if |calls| <= budget then calls else calls[..budget]
  }

  function Scoped(env: Environment, calls: seq<Call>): (scoped: seq<Call>)
    ensures |scoped| == |calls|
  {
    seq(|calls|, i requires 0 <= i < |calls| => calls[i].(arguments := env.scope(calls[i].name, calls[i].arguments)))
  }

  /** Each output is what the tool returned for its call, run in order after `from` earlier ones. */
  ghost predicate Ran(env: Environment, calls: seq<Call>, outputs: seq<string>, from: nat) {
    |outputs| == |calls| && forall i :: 0 <= i < |calls| ==> outputs[i] == env.tools(from + i, calls[i])
  }

  /** Each call is announced with its input and then its output. */
  function ToolEvents(calls: seq<Call>, outputs: seq<string>): seq<Event>
    requires |outputs| == |calls|
  {
    if calls == [] then []
    else
      var n := |calls| - 1;
      ToolEvents(calls[..n], outputs[..n])
        + [InputAvailable(calls[n].id, calls[n].name), OutputAvailable(calls[n].id, outputs[n])]
  }

  lemma ToolEventsNext(shown: seq<Event>, calls: seq<Call>, outputs: seq<string>, call: Call, output: string)
    requires |outputs| == |calls|
    ensures shown + ToolEvents(calls + [call], outputs + [output]) ==
      shown + ToolEvents(calls, outputs) + [InputAvailable(call.id, call.name), OutputAvailable(call.id, output)]
  {
    assert (calls + [call])[..|calls|] == calls && (outputs + [output])[..|calls|] == outputs;
  }

  /** The loop over the calls: runs each and appends its result. */
  method RunTools(env: Environment, calls: seq<Call>, from: nat, before: seq<Message>, shown: seq<Event>)
    returns (conversation: seq<Message>, events: seq<Event>, ghost outputs: seq<string>)
    requires NoTerminal(shown)
    ensures Ran(env, calls, outputs, from)
    ensures conversation == before + Results(calls, outputs)
    ensures events == shown + ToolEvents(calls, outputs)
    ensures TextOf(events) == TextOf(shown) && NoTerminal(events)
    ensures OthersOf(events) == OthersOf(shown) + ToolEvents(calls, outputs)
  {
    hide Results, Executed, TextOf, OthersOf, ToolEvents;
    conversation, events, outputs := before, shown, [];
    NoResults(before, []);
    NoToolEvents(shown);
    assert calls[..0] == [];
    for i := 0 to |calls|
      invariant Ran(env, calls[..i], outputs, from)
      invariant conversation == before + Results(calls[..i], outputs)
      invariant events == shown + ToolEvents(calls[..i], outputs)
    {
      var call := calls[i];
      var output := env.tools(from + i, call);
      ResultsNext(calls[..i], outputs, call, output);
      Assoc(before, Results(calls[..i], outputs), [Tool(call.id, output)]);
      Take(calls, i);
      ToolEventsNext(shown, calls[..i], outputs, call, output);
      events := events + [InputAvailable(call.id, call.name), OutputAvailable(call.id, output)];
      conversation := conversation + [Tool(call.id, output)];
      outputs := outputs + [output];
    }
    assert calls[..|calls|] == calls;
    ToolEventsAdded(shown, calls, outputs);
  }

  lemma NoToolEvents(shown: seq<Event>)
    ensures shown + ToolEvents([], []) == shown
  {
  }

  lemma {:induction false} ToolEventsKind(calls: seq<Call>, outputs: seq<string>, i: nat)
    requires |outputs| == |calls| && i < |ToolEvents(calls, outputs)|
    ensures ToolEvents(calls, outputs)[i].InputAvailable? || ToolEvents(calls, outputs)[i].OutputAvailable?
    decreases calls
  {
    var n := |calls| - 1;
    if i < |ToolEvents(calls[..n], outputs[..n])| { ToolEventsKind(calls[..n], outputs[..n], i); }
  }

  lemma ToolEventsAdded(shown: seq<Event>, calls: seq<Call>, outputs: seq<string>)
    requires |outputs| == |calls| && NoTerminal(shown)
    ensures TextOf(shown + ToolEvents(calls, outputs)) == TextOf(shown)
    ensures NoTerminal(shown + ToolEvents(calls, outputs))
    ensures OthersOf(shown + ToolEvents(calls, outputs)) == OthersOf(shown) + ToolEvents(calls, outputs)
  {
    hide ToolEvents;
    var events := ToolEvents(calls, outputs);
    forall i | 0 <= i < |events| ensures events[i].InputAvailable? || events[i].OutputAvailable? {
      ToolEventsKind(calls, outputs, i);
    }
    AllOthers(events);
    EventsSum(shown, events);
  }

  // ---- The loop ----

  function BlockContent(content: string, markup: bool): Option<string> {
    if markup || content == "" then None else Some(content)
  }

  /** How many tools had run when the i-th request was sent. */
  ghost function RanBefore(blocks: seq<Block>, i: nat): nat
    requires AllComplete(blocks)
  {
    |Executions(blocks[..Min(i, |blocks|)])|
  }

  /** The i-th request shows the rounds completed before it. It is the tool-free summary request exactly
      when the tool budget is used up, or after a response that was no round. */
  ghost predicate RequestOk(opening: seq<Message>, toolNames: set<string>, blocks: seq<Block>, request: Request, i: nat)
    requires AllComplete(blocks)
  {
    && request.messages == Conversation(opening, blocks[..Min(i, |blocks|)])
    && (request.summary <==> i > |blocks| || RanBefore(blocks, i) == MAX_CHAT_TOOL_STEPS)
    && request.offered == (if request.summary then {} else toolNames)
    && (request.warned ==> request.summary)
  }

  ghost predicate RequestsOk(opening: seq<Message>, toolNames: set<string>, blocks: seq<Block>, requests: seq<Request>)
    requires AllComplete(blocks)
  {
    forall i :: 0 <= i < |requests| ==> RequestOk(opening, toolNames, blocks, requests[i], i)
  }

  /** Round k keeps the text of the k-th response, unless it is empty or holds markup, and runs its calls in
      order and as far as the budget goes. */
  ghost predicate RoundOk(env: Environment, blocks: seq<Block>, requests: seq<Request>, k: nat)
    requires AllComplete(blocks) && k < |blocks|
  {
    var ran := RanBefore(blocks, k);
    && k < |requests| && ran < MAX_CHAT_TOOL_STEPS && !requests[k].summary
    && env.provider(k, requests[k]).Stream? && !env.provider(k, requests[k]).broken
    && var chunks := env.provider(k, requests[k]).chunks;
       var budget := MAX_CHAT_TOOL_STEPS - ran;
       && blocks[k].content == (if AllText(chunks) == "" || Markup(AllText(chunks)) then None else Some(AllText(chunks)))
       && blocks[k].calls == Scoped(env, Cut(CallsIn(env, k, chunks, requests[k].offered, budget), budget))
       && Ran(env, blocks[k].calls, blocks[k].outputs, ran)
  }

  ghost predicate RoundsOk(env: Environment, blocks: seq<Block>, requests: seq<Request>)
    requires AllComplete(blocks)
  {
    forall k :: 0 <= k < |blocks| ==> RoundOk(env, blocks, requests, k)
  }

  /** What the user sees of the k-th response. */
  ghost function ShownOf(env: Environment, k: nat, request: Request): string {
    match env.provider(k, request)
    case Stream(chunks, broken) =>
      if broken then Emitted(AllText(chunks), DsmlMarkers) else Visible(AllText(chunks), DsmlMarkers)
    case _ => ""
  }

  ghost function Shown(env: Environment, requests: seq<Request>): string {
    if requests == [] then ""
    else
      var k := |requests| - 1;
      Shown(env, requests[..k]) + ShownOf(env, k, requests[k])
  }

  lemma ShownNext(env: Environment, requests: seq<Request>, request: Request)
    ensures Shown(env, requests + [request]) == Shown(env, requests) + ShownOf(env, |requests|, request)
  {
    assert (requests + [request])[..|requests|] == requests;
  }

  /** What was left of the tool budget when the k-th response was read. */
  ghost function BudgetAt(blocks: seq<Block>, request: Request, k: nat): nat
    requires AllComplete(blocks)
  {
    if request.summary then 0 else MAX_CHAT_TOOL_STEPS - Min(RanBefore(blocks, k), MAX_CHAT_TOOL_STEPS)
  }

  /** The events of the k-th response besides its text, and those of the tools run for it. */
  ghost function EventsAt(env: Environment, blocks: seq<Block>, request: Request, k: nat): seq<Event>
    requires AllComplete(blocks)
  {
    match env.provider(k, request)
    case Stream(chunks, broken) =>
      ResponseEvents(env, k, chunks, request.offered, BudgetAt(blocks, request, k), broken)
      + if k < |blocks| then ToolEvents(blocks[k].calls, blocks[k].outputs) else []
    case _ => []
  }

  /** All events before the end besides the text. */
  ghost function EventLog(env: Environment, blocks: seq<Block>, requests: seq<Request>): seq<Event>
    requires AllComplete(blocks)
  {
    if requests == [] then [Start, TextStart]
    else
      var k := |requests| - 1;
      EventLog(env, blocks, requests[..k]) + EventsAt(env, blocks, requests[k], k)
  }

  lemma LogNext(env: Environment, blocks: seq<Block>, requests: seq<Request>, request: Request)
    requires AllComplete(blocks)
    ensures EventLog(env, blocks, requests + [request])
      == EventLog(env, blocks, requests) + EventsAt(env, blocks, request, |requests|)
  {
    assert (requests + [request])[..|requests|] == requests;
  }

  lemma EventsKept(env: Environment, blocks: seq<Block>, b: Block, request: Request, k: nat)
    requires AllComplete(blocks) && Complete(b) && k < |blocks|
    ensures AllComplete(blocks + [b]) && EventsAt(env, blocks + [b], request, k) == EventsAt(env, blocks, request, k)
  {
    hide ResponseEvents, ToolEvents, Executions, EventLog;
    assert (blocks + [b])[..k] == blocks[..k] && (blocks + [b])[k] == blocks[k];
  }

  /** A later round does not change what earlier responses logged. */
  lemma {:induction false} LogKept(env: Environment, blocks: seq<Block>, b: Block, requests: seq<Request>)
    requires AllComplete(blocks) && Complete(b) && |requests| <= |blocks|
    ensures AllComplete(blocks + [b]) && EventLog(env, blocks + [b], requests) == EventLog(env, blocks, requests)
  {
    hide EventsAt;
    if requests != [] {
      var k := |requests| - 1;
      LogKept(env, blocks, b, requests[..k]);
      EventsKept(env, blocks, b, requests[k], k);
    }
  }

  /** A new round logs its tools after its response. */
  lemma LogWithRound(env: Environment, blocks: seq<Block>, b: Block, requests: seq<Request>, request: Request)
    requires AllComplete(blocks) && Complete(b) && |requests| == |blocks| && env.provider(|blocks|, request).Stream?
    ensures AllComplete(blocks + [b])
    ensures EventLog(env, blocks + [b], requests + [request])
      == EventLog(env, blocks, requests + [request]) + ToolEvents(b.calls, b.outputs)
  {
    hide EventsAt, ToolEvents, EventLog;
    LogKept(env, blocks, b, requests);
    LogNext(env, blocks, requests, request);
    LogNext(env, blocks + [b], requests, request);
    RoundEvents(env, blocks, b, request);
    Assoc(EventLog(env, blocks, requests), EventsAt(env, blocks, request, |blocks|), ToolEvents(b.calls, b.outputs));
  }

  lemma RoundEvents(env: Environment, blocks: seq<Block>, b: Block, request: Request)
    requires AllComplete(blocks) && Complete(b) && env.provider(|blocks|, request).Stream?
    ensures AllComplete(blocks + [b])
    ensures EventsAt(env, blocks + [b], request, |blocks|)
      == EventsAt(env, blocks, request, |blocks|) + ToolEvents(b.calls, b.outputs)
  {
    hide ResponseEvents, ToolEvents, Executions;
    assert (blocks + [b])[..|blocks|] == blocks == blocks[..|blocks|] && (blocks + [b])[|blocks|] == b;
  }

  datatype Ending = Finished | Failed(kind: ErrorKind)

  /** The calls in the last response, read with what was left of the budget. */
  ghost function LastCalls(env: Environment, blocks: seq<Block>, requests: seq<Request>, chunks: seq<Chunk>): seq<Call>
    requires AllComplete(blocks) && requests != []
  {
    var k := |requests| - 1;
    CallsIn(env, k, chunks, requests[k].offered, BudgetAt(blocks, requests[k], k))
  }

  /** Why the stream ended. A complete last response without calls finishes the answer if it is clean, and
      also if it holds invalid markup for the first time in the very last request. */
  ghost predicate EndsAs(env: Environment, blocks: seq<Block>, requests: seq<Request>, ending: Ending)
    requires AllComplete(blocks)
  {
    && requests != []
    && var k := |requests| - 1;
       var last := requests[k];
       match env.provider(k, last)
       case Unreachable => ending == Failed(ProviderUnreachable)
       case HttpError => ending == Failed(ProviderStatus)
       case Stream(chunks, broken) =>
         if broken then ending == Failed(ProviderUnreachable)
         else
           && LastCalls(env, blocks, requests, chunks) == []
           && ending == (if Markup(AllText(chunks)) && last.warned then Failed(InvalidMarkup) else Finished)
           && (Markup(AllText(chunks)) && !last.warned ==> k == MAX_CHAT_TOOL_STEPS)
           && (!Markup(AllText(chunks)) && blocks != [] ==> last.summary)
  }

  ghost predicate MarkupIn(env: Environment, k: nat, request: Request) {
    env.provider(k, request).Stream? && Markup(AllText(env.provider(k, request).chunks))
  }

  /** A response that was no round had markup. */
  ghost predicate MarkupSeen(env: Environment, blocks: seq<Block>, requests: seq<Request>, n: nat) {
    exists k :: |blocks| <= k < n && k < |requests| && MarkupIn(env, k, requests[k])
  }

  /** A response that was no round, and after which the loop went on, was complete and held no call. It had
      markup for the first time, or it was clean text between the tools and the summary. */
  ghost predicate Continued(env: Environment, blocks: seq<Block>, request: Request, k: nat)
    requires AllComplete(blocks)
  {
    match env.provider(k, request)
    case Stream(chunks, broken) =>
      && !broken && CallsIn(env, k, chunks, request.offered, BudgetAt(blocks, request, k)) == []
      && (if Markup(AllText(chunks)) then !request.warned else !request.summary && blocks != [])
    case _ => false
  }

  /** The first n responses were rounds or continued, and a request carries the warning exactly after markup. */
  ghost predicate ContinuedUpTo(env: Environment, blocks: seq<Block>, requests: seq<Request>, n: nat)
    requires AllComplete(blocks)
  {
    && (forall k :: |blocks| <= k < n && k < |requests| ==> Continued(env, blocks, requests[k], k))
    && (forall i :: 0 <= i < |requests| ==> (requests[i].warned <==> MarkupSeen(env, blocks, requests, i)))
  }

  ghost predicate Inv(env: Environment, opening: seq<Message>, toolNames: set<string>, step: nat, count: nat,
                      retries: nat, conversation: seq<Message>, blocks: seq<Block>, requests: seq<Request>) {
    && AllComplete(blocks) && conversation == Conversation(opening, blocks)
    && RequestsOk(opening, toolNames, blocks, requests) && RoundsOk(env, blocks, requests)
    && |requests| == step && |blocks| <= step && |Executions(blocks)| <= MAX_CHAT_TOOL_STEPS
    && count == (if |blocks| < step then MAX_CHAT_TOOL_STEPS else |Executions(blocks)|)
    && retries <= 1 && (retries == 1 ==> |blocks| < step)
  }

  /** At the start of every iteration step <= tool_step_count <= 10. */
  lemma StepBelowCount(env: Environment, opening: seq<Message>, toolNames: set<string>, step: nat, count: nat,
                       retries: nat, conversation: seq<Message>, blocks: seq<Block>, requests: seq<Request>)
    requires step <= MAX_CHAT_TOOL_STEPS
    requires Inv(env, opening, toolNames, step, count, retries, conversation, blocks, requests)
    ensures step <= count <= MAX_CHAT_TOOL_STEPS
  {
    RoundsBelowRuns(blocks);
  }

  /** The state after the step's request was sent. */
  ghost predicate Sent(env: Environment, opening: seq<Message>, toolNames: set<string>, step: nat, count: nat,
                       retries: nat, conversation: seq<Message>, blocks: seq<Block>, requests: seq<Request>,
                       request: Request) {
    && AllComplete(blocks) && conversation == Conversation(opening, blocks)
    && RequestsOk(opening, toolNames, blocks, requests) && RoundsOk(env, blocks, requests)
    && |requests| == step + 1 && requests[step] == request && |blocks| <= step <= MAX_CHAT_TOOL_STEPS
    && |Executions(blocks)| <= MAX_CHAT_TOOL_STEPS
    && count == (if |blocks| < step then MAX_CHAT_TOOL_STEPS else |Executions(blocks)|)
    && retries <= 1 && (retries == 1 ==> |blocks| < step)
    && (request.summary <==> count == MAX_CHAT_TOOL_STEPS)
    && (request.warned <==> request.summary && retries == 1)
    && request.offered == if request.summary then {} else toolNames
  }

  lemma RanBeforeAll(blocks: seq<Block>, i: nat)
    requires AllComplete(blocks) && |blocks| <= i
    ensures RanBefore(blocks, i) == |Executions(blocks)| && blocks[..Min(i, |blocks|)] == blocks
  {
    assert blocks[..|blocks|] == blocks;
  }

  lemma RoundsKept(env: Environment, blocks: seq<Block>, requests: seq<Request>, request: Request)
    requires AllComplete(blocks) && RoundsOk(env, blocks, requests)
    ensures RoundsOk(env, blocks, requests + [request])
  {
    hide CallsIn, Ran, RanBefore, AllText, Cut, Scoped;
    forall k | 0 <= k < |blocks| ensures RoundOk(env, blocks, requests + [request], k) {
      assert RoundOk(env, blocks, requests, k);
    }
  }

  lemma SendKeeps(env: Environment, opening: seq<Message>, toolNames: set<string>, step: nat, count: nat,
                  retries: nat, conversation: seq<Message>, blocks: seq<Block>, requests: seq<Request>,
                  request: Request)
    requires Inv(env, opening, toolNames, step, count, retries, conversation, blocks, requests)
    requires step <= MAX_CHAT_TOOL_STEPS
    requires var summary := count >= MAX_CHAT_TOOL_STEPS || step == MAX_CHAT_TOOL_STEPS;
             request == Request(summary, summary && retries > 0, if summary then {} else toolNames, conversation)
    ensures Sent(env, opening, toolNames, step, count, retries, conversation, blocks, requests + [request], request)
  {
    StepBelowCount(env, opening, toolNames, step, count, retries, conversation, blocks, requests);
    RanBeforeAll(blocks, step);
    RoundsKept(env, blocks, requests, request);
  }

  /** A response that is no round forces the summary: tool_step_count is set to its maximum. */
  lemma Forced(env: Environment, opening: seq<Message>, toolNames: set<string>, step: nat, count: nat, retries: nat,
               conversation: seq<Message>, blocks: seq<Block>, requests: seq<Request>, request: Request, retries': nat)
    requires Sent(env, opening, toolNames, step, count, retries, conversation, blocks, requests, request)
    requires retries' <= 1
    ensures Inv(env, opening, toolNames, step + 1, MAX_CHAT_TOOL_STEPS, retries', conversation, blocks, requests)
  {
  }

  lemma RequestsWithRound(opening: seq<Message>, toolNames: set<string>, blocks: seq<Block>, b: Block,
                          requests: seq<Request>)
    requires AllComplete(blocks) && Complete(b) && RequestsOk(opening, toolNames, blocks, requests)
    requires |requests| == |blocks| + 1
    ensures AllComplete(blocks + [b]) && RequestsOk(opening, toolNames, blocks + [b], requests)
  {
    var all := blocks + [b];
    forall i | 0 <= i < |requests| ensures RequestOk(opening, toolNames, all, requests[i], i) {
      assert RequestOk(opening, toolNames, blocks, requests[i], i);
      assert all[..i] == blocks[..i];
    }
  }

  lemma RoundsWithRound(env: Environment, blocks: seq<Block>, b: Block, requests: seq<Request>)
    requires AllComplete(blocks) && Complete(b) && RoundsOk(env, blocks, requests)
    requires AllComplete(blocks + [b]) ==> RoundOk(env, blocks + [b], requests, |blocks|)
    ensures AllComplete(blocks + [b]) && RoundsOk(env, blocks + [b], requests)
  {
    hide CallsIn, Ran, AllText, Cut, Scoped;
    var all := blocks + [b];
    forall k | 0 <= k < |all| ensures RoundOk(env, all, requests, k) {
      if k < |blocks| {
        assert RoundOk(env, blocks, requests, k);
        assert all[..k] == blocks[..k];
      }
    }
  }

  /** A round was run. */
  lemma RoundKeeps(env: Environment, opening: seq<Message>, toolNames: set<string>, step: nat, count: nat,
                   retries: nat, conversation: seq<Message>, blocks: seq<Block>, requests: seq<Request>,
                   request: Request, chunks: seq<Chunk>, calls: seq<Call>, b: Block)
    requires Sent(env, opening, toolNames, step, count, retries, conversation, blocks, requests, request)
    requires !request.summary && env.provider(step, request) == Stream(chunks, false)
    requires count < MAX_CHAT_TOOL_STEPS
    requires calls == CallsIn(env, step, chunks, request.offered, MAX_CHAT_TOOL_STEPS - count)
    requires calls != [] && b.calls == Scoped(env, Cut(calls, MAX_CHAT_TOOL_STEPS - count))
    requires b.content == BlockContent(AllText(chunks), Markup(AllText(chunks))) && Ran(env, b.calls, b.outputs, count)
    ensures Inv(env, opening, toolNames, step + 1, count + |b.calls|, retries,
                conversation + [Assistant(b.content, b.calls)] + Results(b.calls, b.outputs), blocks + [b], requests)
  {
    hide CallsIn, AllText, Markup;
    assert Complete(b) && |blocks| == step;
    RoundExecuted(blocks, b);
    RequestsWithRound(opening, toolNames, blocks, b, requests);
    RoundsWithRound(env, blocks, b, requests);
  }

  /** The last response was complete and held no call. */
  lemma EndsQuietly(env: Environment, opening: seq<Message>, toolNames: set<string>, step: nat, count: nat,
                    retries: nat, conversation: seq<Message>, blocks: seq<Block>, requests: seq<Request>,
                    request: Request, chunks: seq<Chunk>)
    requires Sent(env, opening, toolNames, step, count, retries, conversation, blocks, requests, request)
    requires env.provider(step, request) == Stream(chunks, false)
    requires CallsIn(env, step, chunks, request.offered, MAX_CHAT_TOOL_STEPS - count) == []
    requires Markup(AllText(chunks)) && retries == 0 ==> step == MAX_CHAT_TOOL_STEPS
    requires !Markup(AllText(chunks)) && count > 0 ==> request.summary
    ensures EndsAs(env, blocks, requests,
                   if Markup(AllText(chunks)) && request.warned then Failed(InvalidMarkup) else Finished)
  {
    hide CallsIn, AllText, Markup;
    RanBeforeAll(blocks, step);
    RoundsBelowRuns(blocks);
    assert LastCalls(env, blocks, requests, chunks)
      == CallsIn(env, step, chunks, request.offered, MAX_CHAT_TOOL_STEPS - count);
  }

  lemma SummaryHasNoCalls(env: Environment, step: nat, chunks: seq<Chunk>, request: Request, budget: nat)
    requires request.summary && request.offered == {} && budget == 0
    ensures CallsIn(env, step, chunks, request.offered, budget) == []
  {
    NoCallSurvives(env, step, chunks);
  }

  lemma Initially(env: Environment, opening: seq<Message>, toolNames: set<string>)
    ensures Inv(env, opening, toolNames, 0, 0, 0, opening, [], []) && Shown(env, []) == ""
  {
  }

  lemma EndsBadly(env: Environment, blocks: seq<Block>, requests: seq<Request>, ending: Ending)
    requires AllComplete(blocks) && requests != []
    requires var response := env.provider(|requests| - 1, requests[|requests| - 1]);
             && (!response.Stream? || response.broken)
             && ending == Failed(if response.HttpError? then ProviderStatus else ProviderUnreachable)
    ensures EndsAs(env, blocks, requests, ending)
  {
  }

  /** What a failed response logged before it broke. */
  ghost function FailedEvents(env: Environment, step: nat, request: Request, budget: nat): seq<Event> {
    match env.provider(step, request)
    case Stream(chunks, broken) => ResponseEvents(env, step, chunks, request.offered, budget, true)
    case _ => []
  }

  /** A failed status, a refused connection, or one that breaks after some chunks. */
  method Fails(env: Environment, step: nat, request: Request, budget: nat, events0: seq<Event>, text0: string)
    returns (events: seq<Event>, text: string, ending: Ending)
    requires !env.provider(step, request).Stream? || env.provider(step, request).broken
    requires NoTerminal(events0) && text0 == TextOf(events0)
    ensures ending == Failed(if env.provider(step, request).HttpError? then ProviderStatus else ProviderUnreachable)
    ensures EndsWith(events, ending) && text == TextOf(events) == text0 + ShownOf(env, step, request)
    ensures OthersOf(events) == OthersOf(events0) + FailedEvents(env, step, request, budget) + EndEvents(ending)
    ensures events0 <= events
  {
    hide TextOf, NoTerminal, AllText, Emitted, Visible, OthersOf, Assembled, InputEvents, AllFragments, SortedKeys, CallsAt;
    events, text := events0, text0;
    var response := env.provider(step, request);
    match response {
    case HttpError =>
      ending := Failed(ProviderStatus);
    case Unreachable =>
      ending := Failed(ProviderUnreachable);
    case Stream(chunks, _) =>
      var content, shown, calls, emitted := ReadResponse(chunks, true, budget, IdsOf(env, step));
      InputEventsAreNoText(map[], AllFragments(chunks), budget, IdsOf(env, step));
      InputsNotTerminal(InputEvents(map[], AllFragments(chunks), budget, IdsOf(env, step)));
      NoTerminalInOthers(emitted);
      EventsAdded(events, emitted);
      events, text := events + emitted, text + shown;
      ending := Failed(ProviderUnreachable);
    }
    Closed(events, ending);
    events := events + [Error(ending.kind)];
  }

  // ---- Responses that are no rounds ----

  lemma SendContinues(env: Environment, blocks: seq<Block>, requests: seq<Request>, request: Request, retries: nat)
    requires AllComplete(blocks) && ContinuedUpTo(env, blocks, requests, |requests|)
    requires retries >= 1 <==> MarkupSeen(env, blocks, requests, |requests|)
    requires request.warned <==> retries >= 1
    ensures ContinuedUpTo(env, blocks, requests + [request], |requests|)
    ensures retries >= 1 <==> MarkupSeen(env, blocks, requests + [request], |requests|)
  {
    hide MarkupIn, Continued;
    var all := requests + [request];
    forall n: nat | n <= |requests|
      ensures MarkupSeen(env, blocks, all, n) <==> MarkupSeen(env, blocks, requests, n)
    {
      if MarkupSeen(env, blocks, requests, n) {
        var k :| |blocks| <= k < n && k < |requests| && MarkupIn(env, k, requests[k]);
        assert all[k] == requests[k];
      }
    }
  }

  lemma ForcedContinues(env: Environment, blocks: seq<Block>, requests: seq<Request>, step: nat, retries: nat)
    requires AllComplete(blocks) && |requests| == step + 1 && |blocks| <= step
    requires ContinuedUpTo(env, blocks, requests, step) && Continued(env, blocks, requests[step], step)
    requires retries >= 1 <==> MarkupSeen(env, blocks, requests, step)
    ensures ContinuedUpTo(env, blocks, requests, step + 1)
    ensures MarkupSeen(env, blocks, requests, step + 1) <==> retries >= 1 || MarkupIn(env, step, requests[step])
  {
    hide MarkupIn, Continued;
    if MarkupIn(env, step, requests[step]) { assert MarkupSeen(env, blocks, requests, step + 1); }
    if MarkupSeen(env, blocks, requests, step) {
      var k :| |blocks| <= k < step && k < |requests| && MarkupIn(env, k, requests[k]);
      assert MarkupSeen(env, blocks, requests, step + 1);
    }
  }

  lemma RoundContinues(env: Environment, blocks: seq<Block>, b: Block, requests: seq<Request>)
    requires AllComplete(blocks) && AllComplete(blocks + [b]) && |requests| == |blocks| + 1
    requires ContinuedUpTo(env, blocks, requests, |blocks|)
    ensures ContinuedUpTo(env, blocks + [b], requests, |requests|)
    ensures !MarkupSeen(env, blocks, requests, |blocks|) && !MarkupSeen(env, blocks + [b], requests, |requests|)
  {
  }

  /** The remaining steps are the budget the log speaks of. */
  lemma BudgetIs(env: Environment, opening: seq<Message>, toolNames: set<string>, step: nat, count: nat, retries: nat,
                 conversation: seq<Message>, blocks: seq<Block>, requests: seq<Request>, request: Request)
    requires Sent(env, opening, toolNames, step, count, retries, conversation, blocks, requests, request)
    ensures count <= MAX_CHAT_TOOL_STEPS && BudgetAt(blocks, request, step) == MAX_CHAT_TOOL_STEPS - count
  {
    hide RequestsOk, RoundsOk, Conversation;
    if !request.summary { RanBeforeAll(blocks, step); }
  }

  /** What the response to the request just sent adds to the text and to the other events. */
  lemma ResponseLogged(env: Environment, opening: seq<Message>, toolNames: set<string>, step: nat, count: nat,
                       retries: nat, conversation: seq<Message>, blocks: seq<Block>, requests: seq<Request>,
                       request: Request)
    requires Sent(env, opening, toolNames, step, count, retries, conversation, blocks, requests, request)
    ensures count <= MAX_CHAT_TOOL_STEPS
    ensures var before, budget := requests[..step], MAX_CHAT_TOOL_STEPS - count;
            var shown, log := Shown(env, before), EventLog(env, blocks, before);
            match env.provider(step, request)
            case Stream(chunks, false) =>
              && Shown(env, requests) == shown + Visible(AllText(chunks), DsmlMarkers)
              && EventLog(env, blocks, requests) == log + ResponseEvents(env, step, chunks, request.offered, budget, false)
            case _ =>
              && Shown(env, requests) == shown + ShownOf(env, step, request)
              && EventLog(env, blocks, requests) == log + FailedEvents(env, step, request, budget)
  {
    hide RequestsOk, RoundsOk, Conversation, EventLog, Shown, ResponseEvents, BudgetAt, AllText, Visible, Emitted;
    BudgetIs(env, opening, toolNames, step, count, retries, conversation, blocks, requests, request);
    assert requests == requests[..step] + [request];
    ShownNext(env, requests[..step], request);
    LogNext(env, blocks, requests[..step], request);
  }

  lemma RoundLogged(env: Environment, opening: seq<Message>, toolNames: set<string>, step: nat, count: nat,
                    retries: nat, conversation: seq<Message>, blocks: seq<Block>, requests: seq<Request>,
                    request: Request, calls: seq<Call>, b: Block)
    requires Sent(env, opening, toolNames, step, count, retries, conversation, blocks, requests, request)
    requires !request.summary && env.provider(step, request).Stream? && count < MAX_CHAT_TOOL_STEPS
    requires calls != [] && b.calls == Scoped(env, Cut(calls, MAX_CHAT_TOOL_STEPS - count))
    requires Ran(env, b.calls, b.outputs, count)
    ensures AllComplete(blocks + [b])
    ensures EventLog(env, blocks + [b], requests) == EventLog(env, blocks, requests) + ToolEvents(b.calls, b.outputs)
  {
    hide RequestsOk, RoundsOk, Conversation, EventLog, ToolEvents;
    assert requests == requests[..step] + [request];
    LogWithRound(env, blocks, b, requests[..step], request);
  }

  lemma AtTheEnd(env: Environment, opening: seq<Message>, toolNames: set<string>, step: nat, count: nat, retries: nat,
                 conversation: seq<Message>, blocks: seq<Block>, requests: seq<Request>)
    requires Inv(env, opening, toolNames, step, count, retries, conversation, blocks, requests)
    ensures AllComplete(blocks) && |Executions(blocks)| <= MAX_CHAT_TOOL_STEPS && |requests| == step
    ensures RequestsOk(opening, toolNames, blocks, requests) && RoundsOk(env, blocks, requests)
  {
  }

  lemma ContinuedBefore(env: Environment, blocks: seq<Block>, requests: seq<Request>, n: nat)
    requires AllComplete(blocks) && ContinuedUpTo(env, blocks, requests, n + 1)
    ensures ContinuedUpTo(env, blocks, requests, n)
  {
  }

  lemma NothingContinued(env: Environment)
    ensures ContinuedUpTo(env, [], [], 0) && !MarkupSeen(env, [], [], 0)
  {
  }

  /** After a retry only the summary is asked for. */
  lemma RetriesSummarize(env: Environment, opening: seq<Message>, toolNames: set<string>, step: nat, count: nat,
                         retries: nat, conversation: seq<Message>, blocks: seq<Block>, requests: seq<Request>)
    requires Inv(env, opening, toolNames, step, count, retries, conversation, blocks, requests)
    ensures retries >= 1 ==> count == MAX_CHAT_TOOL_STEPS
  {
  }

  /** While steps remain and the last request was no summary, all responses before it were rounds. */
  lemma AllRounds(env: Environment, opening: seq<Message>, toolNames: set<string>, step: nat, count: nat,
                  retries: nat, conversation: seq<Message>, blocks: seq<Block>, requests: seq<Request>,
                  request: Request)
    requires Sent(env, opening, toolNames, step, count, retries, conversation, blocks, requests, request)
    requires !request.summary
    ensures |blocks| == step && |requests| == |blocks| + 1
  {
  }

  lemma ResponseContinues(env: Environment, opening: seq<Message>, toolNames: set<string>, step: nat, count: nat,
                          retries: nat, conversation: seq<Message>, blocks: seq<Block>, requests: seq<Request>,
                          request: Request, chunks: seq<Chunk>)
    requires Sent(env, opening, toolNames, step, count, retries, conversation, blocks, requests, request)
    requires env.provider(step, request) == Stream(chunks, false)
    requires CallsIn(env, step, chunks, request.offered, MAX_CHAT_TOOL_STEPS - count) == []
    requires if Markup(AllText(chunks)) then retries == 0 else count > 0 && !request.summary
    ensures |blocks| <= step && Continued(env, blocks, requests[step], step)
    ensures MarkupIn(env, step, requests[step]) <==> Markup(AllText(chunks))
  {
    hide CallsIn, Markup, AllText, RequestsOk, RoundsOk, Conversation;
    BudgetIs(env, opening, toolNames, step, count, retries, conversation, blocks, requests, request);
  }

  lemma NoLog(env: Environment)
    ensures EventLog(env, [], []) == [Start, TextStart]
  {
  }

  lemma InputsNotTerminal(events: seq<Event>)
    requires forall i :: 0 <= i < |events| ==> events[i].InputStart? || events[i].InputDelta?
    ensures NoTerminal(events)
  {
  }

  function EndEvents(ending: Ending): seq<Event> {
    if ending.Finished? then [TextEnd, Finish] else [Error(ending.kind)]
  }

  predicate EndsWith(events: seq<Event>, ending: Ending) {
    match ending
    case Finished =>
      |events| >= 2 && events[|events| - 2..] == [TextEnd, Finish] && NoTerminal(events[..|events| - 2])
    case Failed(kind) =>
      |events| >= 1 && events[|events| - 1] == Error(kind) && NoTerminal(events[..|events| - 1])
  }

  lemma Closed(events: seq<Event>, ending: Ending)
    requires NoTerminal(events)
    ensures var tail := EndEvents(ending);
            && EndsWith(events + tail, ending) && TextOf(events + tail) == TextOf(events)
            && OthersOf(events + tail) == OthersOf(events) + tail
  {
    var tail := EndEvents(ending);
    assert (events + tail)[..|events|] == events && (events + tail)[|events|..] == tail;
    AllOthers(tail);
    EventsSum(events, tail);
  }

  lemma EventsAdded(a: seq<Event>, b: seq<Event>)
    requires NoTerminal(a) && NoTerminal(b)
    ensures NoTerminal(a + b) && TextOf(a + b) == TextOf(a) + TextOf(b) && OthersOf(a + b) == OthersOf(a) + OthersOf(b)
  {
    EventsSum(a, b);
  }

  lemma Opening()
    ensures NoTerminal([Start, TextStart]) && TextOf([Start, TextStart]) == ""
    ensures OthersOf([Start, TextStart]) == [Start, TextStart]
  {
    AllOthers([Start, TextStart]);
  }

  // ---- In what order ----

  /** At some point the stream consists of exactly what belongs to these requests. */
  ghost predicate Reached(env: Environment, blocks: seq<Block>, requests: seq<Request>, events: seq<Event>)
    requires AllComplete(blocks)
  {
    exists n :: 0 <= n <= |events| && TextOf(events[..n]) == Shown(env, requests)
      && OthersOf(events[..n]) == EventLog(env, blocks, requests)
  }

  /** Before each of the first requests exactly what belongs to the earlier ones has been sent. */
  ghost predicate InOrder(env: Environment, blocks: seq<Block>, requests: seq<Request>, events: seq<Event>, m: nat)
    requires AllComplete(blocks) && m <= |requests|
  {
    forall k :: 0 <= k <= m ==> Reached(env, blocks, requests[..k], events)
  }

  lemma OrderAtFirst(env: Environment)
    ensures InOrder(env, [], [], [Start, TextStart], 0)
  {
    Opening();
    NoLog(env);
    var events, requests: seq<Request> := [Start, TextStart], [];
    assert events[..2] == events && requests[..0] == [];
    assert Shown(env, []) == "";
    assert Reached(env, [], requests[..0], events);
  }

  /** More events and one more request. */
  lemma OrderMore(env: Environment, blocks: seq<Block>, requests: seq<Request>, events: seq<Event>, m: nat,
                  all: seq<Request>, more: seq<Event>)
    requires AllComplete(blocks) && m <= |requests| <= |all| && all[..m] == requests[..m]
    requires InOrder(env, blocks, requests, events, m) && events <= more
    ensures InOrder(env, blocks, all, more, m)
  {
    hide TextOf, OthersOf, EventLog, Shown;
    forall k | 0 <= k <= m ensures Reached(env, blocks, all[..k], more) {
      assert all[..k] == all[..m][..k] == requests[..k];
      assert Reached(env, blocks, requests[..k], events);
      var n :| 0 <= n <= |events| && TextOf(events[..n]) == Shown(env, requests[..k])
        && OthersOf(events[..n]) == EventLog(env, blocks, requests[..k]);
      assert more[..n] == events[..n];
    }
  }

  lemma OrderNow(env: Environment, blocks: seq<Block>, requests: seq<Request>, events: seq<Event>)
    requires AllComplete(blocks) && requests != [] && InOrder(env, blocks, requests, events, |requests| - 1)
    requires TextOf(events) == Shown(env, requests) && OthersOf(events) == EventLog(env, blocks, requests)
    ensures InOrder(env, blocks, requests, events, |requests|)
  {
    hide TextOf, OthersOf, EventLog, Shown;
    assert events[..|events|] == events && requests[..|requests|] == requests;
    assert Reached(env, blocks, requests[..|requests|], events);
  }

  lemma OrderAtEnd(env: Environment, blocks: seq<Block>, requests: seq<Request>, events: seq<Event>, more: seq<Event>)
    requires AllComplete(blocks) && requests != [] && InOrder(env, blocks, requests, events, |requests|)
    requires events <= more
    ensures InOrder(env, blocks, requests, more, |requests| - 1)
  {
    hide Reached;
    OrderMore(env, blocks, requests, events, |requests| - 1, requests, more);
  }

  lemma OrderWithRound(env: Environment, blocks: seq<Block>, b: Block, requests: seq<Request>, events: seq<Event>,
                       more: seq<Event>)
    requires AllComplete(blocks) && AllComplete(blocks + [b]) && |requests| == |blocks| + 1 && events <= more
    requires InOrder(env, blocks, requests, events, |blocks|)
    ensures InOrder(env, blocks + [b], requests, more, |blocks|)
  {
    hide TextOf, OthersOf, EventLog, Shown;
    assert (blocks + [b])[|blocks|] == b;
    OrderMore(env, blocks, requests, events, |blocks|, requests, more);
    forall k | 0 <= k <= |blocks|
      ensures Reached(env, blocks + [b], requests[..k], more)
    {
      LogKept(env, blocks, b, requests[..k]);
      assert Reached(env, blocks, requests[..k], more);
    }
  }

  /** What the answer to a chat message consists of: the completed rounds and the requests sent. At most ten
      tools run, in at most eleven requests; each request, each round, each response after which the loop
      went on and the ending are as they must be. */
  ghost predicate Outcome(env: Environment, opening: seq<Message>, toolNames: set<string>, blocks: seq<Block>,
                          requests: seq<Request>, ending: Ending) {
    && AllComplete(blocks) && |Executions(blocks)| <= MAX_CHAT_TOOL_STEPS
    && requests != [] && |requests| <= MAX_CHAT_TOOL_STEPS + 1
    && RequestsOk(opening, toolNames, blocks, requests) && RoundsOk(env, blocks, requests)
    && ContinuedUpTo(env, blocks, requests, |requests| - 1)
    && EndsAs(env, blocks, requests, ending)
  }

  /** stream_chat. The user sees of each response exactly the text before its first
      DSML marker. The stream ends with one error, or with text-end and finish; only a finished answer is
      passed to on_complete. */
  method StreamChat(env: Environment, opening: seq<Message>, toolNames: set<string>)
    returns (events: seq<Event>, ending: Ending, saved: Option<string>, ghost blocks: seq<Block>, ghost requests: seq<Request>)
    ensures Outcome(env, opening, toolNames, blocks, requests, ending) && EndsWith(events, ending)
    ensures TextOf(events) == Shown(env, requests)
    ensures OthersOf(events) == EventLog(env, blocks, requests) + EndEvents(ending)
    ensures InOrder(env, blocks, requests, events, |requests| - 1)
    ensures saved == if ending.Finished? && TextOf(events) != "" then Some(TextOf(events)) else None
  {
    hide TextOf, NoTerminal, EndsWith, CallsIn, EndsAs, RequestsOk, RoundsOk, Shown, AllText, Markup, Conversation, Executions,
         Visible, Emitted, Ran, Scoped, Cut, Results, OthersOf, ResponseEvents, EventLog, BudgetAt, ToolEvents, RanBefore,
         ShownOf, EventsAt, FailedEvents, EndEvents, Inv, Sent, InOrder, ContinuedUpTo, MarkupSeen, Continued, MarkupIn;
    events := [Start, TextStart];
    Opening();
    NoLog(env);
    OrderAtFirst(env);
    NothingContinued(env);
    var text, conversation := "", opening;
    var count: nat, retries: nat := 0, 0;
    blocks, requests := [], [];
    Initially(env, opening, toolNames);
    var step := 0;
    while step < MAX_CHAT_TOOL_STEPS + 1
      invariant step <= MAX_CHAT_TOOL_STEPS + 1 && retries <= 1 && |requests| == step && AllComplete(blocks)
      invariant Inv(env, opening, toolNames, step, count, retries, conversation, blocks, requests)
      invariant NoTerminal(events) && text == TextOf(events) == Shown(env, requests)
      invariant OthersOf(events) == EventLog(env, blocks, requests)
      invariant InOrder(env, blocks, requests, events, step)
      invariant step == MAX_CHAT_TOOL_STEPS + 1 ==> EndsAs(env, blocks, requests, Finished)
      invariant ContinuedUpTo(env, blocks, requests, step)
      invariant retries >= 1 <==> MarkupSeen(env, blocks, requests, step)
      decreases MAX_CHAT_TOOL_STEPS + 1 - step
    {
      StepBelowCount(env, opening, toolNames, step, count, retries, conversation, blocks, requests);
      var summary := count >= MAX_CHAT_TOOL_STEPS || step == MAX_CHAT_TOOL_STEPS;
      var remaining := MAX_CHAT_TOOL_STEPS - count;
      var request := Request(summary, summary && retries > 0, if summary then {} else toolNames, conversation);
      SendKeeps(env, opening, toolNames, step, count, retries, conversation, blocks, requests, request);
      RetriesSummarize(env, opening, toolNames, step, count, retries, conversation, blocks, requests);
      SendContinues(env, blocks, requests, request, retries);
      ghost var earlier := requests;
      requests := requests + [request];
      assert requests[..step] == earlier == earlier[..step];
      ghost var sent := events;
      ResponseLogged(env, opening, toolNames, step, count, retries, conversation, blocks, requests, request);
      var response := env.provider(step, request);
      if !response.Stream? || response.broken {
        events, text, ending := Fails(env, step, request, remaining, events, text);
        saved := None;
        OrderMore(env, blocks, earlier, sent, step, requests, events);
        EndsBadly(env, blocks, requests, ending);
        return;
      }
      var chunks := response.chunks;
      var content, shown, markup, calls, emitted := Collect(env, step, chunks, request.offered, remaining);
      EventsAdded(events, emitted);
      events, text := events + emitted, text + shown;
      OrderMore(env, blocks, earlier, sent, step, requests, events);
      OrderNow(env, blocks, requests, events);
      if summary { SummaryHasNoCalls(env, step, chunks, request, remaining); }
      if calls == [] && markup {
        if retries < 1 {
          ResponseContinues(env, opening, toolNames, step, count, retries, conversation, blocks, requests, request, chunks);
          ForcedContinues(env, blocks, requests, step, retries);
          Forced(env, opening, toolNames, step, count, retries, conversation, blocks, requests, request, 1);
          if step == MAX_CHAT_TOOL_STEPS {
            EndsQuietly(env, opening, toolNames, step, count, retries, conversation, blocks, requests, request, chunks);
          }
          retries, count := retries + 1, MAX_CHAT_TOOL_STEPS;
          step := step + 1;
          continue;
        }
        EndsQuietly(env, opening, toolNames, step, count, retries, conversation, blocks, requests, request, chunks);
        ending, saved := Failed(InvalidMarkup), None;
        Closed(events, ending);
        OrderAtEnd(env, blocks, requests, events, events + EndEvents(ending));
        events := events + EndEvents(ending);
        return;
      }
      if calls == [] {
        if count > 0 && !summary {
          ResponseContinues(env, opening, toolNames, step, count, retries, conversation, blocks, requests, request, chunks);
          ForcedContinues(env, blocks, requests, step, retries);
          Forced(env, opening, toolNames, step, count, retries, conversation, blocks, requests, request, retries);
          count := MAX_CHAT_TOOL_STEPS;
          step := step + 1;
          continue;
        }
        EndsQuietly(env, opening, toolNames, step, count, retries, conversation, blocks, requests, request, chunks);
        break;
      }
      if summary {
        assert false;  // the branch for a tool call in the final summary is dead
      }
      var ordered := Scoped(env, Cut(calls, remaining));
      var assistant := Assistant(BlockContent(content, markup), ordered);
      ghost var outputs;
      ghost var before, read := conversation, events;
      conversation, events, outputs := RunTools(env, ordered, count, conversation + [assistant], events);
      ghost var b := Block(BlockContent(content, markup), ordered, outputs);
      RoundLogged(env, opening, toolNames, step, count, retries, before, blocks, requests, request, calls, b);
      AllRounds(env, opening, toolNames, step, count, retries, before, blocks, requests, request);
      RoundContinues(env, blocks, b, requests);
      RoundKeeps(env, opening, toolNames, step, count, retries, before, blocks, requests, request, chunks, calls, b);
      OrderWithRound(env, blocks, b, requests, read, events);
      blocks := blocks + [b];
      OrderNow(env, blocks, requests, events);
      count := count + |ordered|;
      step := step + 1;
    }
    if step == MAX_CHAT_TOOL_STEPS + 1 {
      AtTheEnd(env, opening, toolNames, step, count, retries, conversation, blocks, requests);
      ContinuedBefore(env, blocks, requests, step - 1);
    }
    ending := Finished;
    Closed(events, ending);
    OrderAtEnd(env, blocks, requests, events, events + EndEvents(ending));
    events := events + EndEvents(ending);
    saved := if text != "" then Some(text) else None;
  }
}

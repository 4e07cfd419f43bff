/** Two answers of stream_chat, app/api/routes/chat.py, that its documentation does not lead one to expect, and
    what is true of all answers there. */
module ChatQuirks {
  import opened ChatLoop
  import opened ChatResponse
  import opened Conversations
  import opened Decimal
  import opened IncrementalUserText
  import opened MarkerFilter
  import opened Sequences

  // ---- The shape of every answer ----

  /** How many calls a response holds. */
  ghost function CallCount(env: Environment, blocks: seq<Block>, requests: seq<Request>, k: nat): nat
    requires AllComplete(blocks) && k < |requests| && env.provider(k, requests[k]).Stream?
  {
    |CallsIn(env, k, env.provider(k, requests[k]).chunks, requests[k].offered, BudgetAt(blocks, requests[k], k))|
  }

  /** A complete response with calls was a round, and a round had calls: no call is passed over. */
  lemma RoundIffCalls(env: Environment, opening: seq<Message>, toolNames: set<string>, blocks: seq<Block>,
                      requests: seq<Request>, ending: Ending, k: nat)
    requires Outcome(env, opening, toolNames, blocks, requests, ending) && k < |requests|
    ensures |blocks| < |requests|
    ensures k < |blocks| <==>
      && env.provider(k, requests[k]).Stream? && !env.provider(k, requests[k]).broken
      && CallCount(env, blocks, requests, k) > 0
  {
    hide CallsIn, Conversation, Markup, AllText, Ran, RanBefore;
    var last := |requests| - 1;
    assert last < |blocks| ==> RoundOk(env, blocks, requests, last);
    if k < |blocks| {
      assert RoundOk(env, blocks, requests, k);
    } else if k < last {
      assert Continued(env, blocks, requests[k], k);
    }
  }

  /** The calls a round runs are those assembled from the fragments of its response, in the order of their
      indexes: each with the id of its first fragment, its last name and all its arguments. */
  ghost predicate FromFragments(env: Environment, k: nat, fragments: seq<Fragment>, keys: seq<int>, calls: seq<Call>) {
    && |calls| <= |keys|
    && (forall i, j :: 0 <= i < j < |keys| ==> keys[i] < keys[j])
    && (forall j :: 0 <= j < |calls| ==>
          && IsIdOf(fragments, keys[j], IdsOf(env, k), calls[j].id)
          && calls[j].name == NameOf(fragments, keys[j])
          && calls[j].arguments == env.scope(calls[j].name, ArgumentsOf(fragments, keys[j])))
  }

  /** Or they are the calls in its markup, all of them of offered tools. */
  ghost predicate FromMarkup(env: Environment, k: nat, text: string, toolNames: set<string>, calls: seq<Call>) {
    var invokes := env.invokes(text);
    && |calls| <= |invokes|
    && (forall j :: 0 <= j < |invokes| ==> invokes[j].name in toolNames && invokes[j].valid)
    && (forall j :: 0 <= j < |calls| ==>
          && calls[j].id == env.callId(k, j) && calls[j].name == invokes[j].name
          && calls[j].arguments == env.scope(invokes[j].name, invokes[j].arguments))
  }

  lemma MarkupCalls(env: Environment, k: nat, text: string, toolNames: set<string>, budget: nat, calls: seq<Call>)
    requires calls != [] && calls == Scoped(env, Cut(DsmlIn(env, k, text, toolNames), budget))
    ensures FromMarkup(env, k, text, toolNames, calls)
  {
    var all := DsmlIn(env, k, text, toolNames);
    forall j | 0 <= j < |calls|
      ensures calls[j] == all[j].(arguments := env.scope(all[j].name, all[j].arguments))
      ensures all[j] == DsmlCall(env, k, j, env.invokes(text)[j])
    {
    }
  }

  /** In every answer, the ids, names and arguments of each round's calls are those the provider sent. */
  lemma RoundCallsAre(env: Environment, opening: seq<Message>, toolNames: set<string>, blocks: seq<Block>,
                      requests: seq<Request>, ending: Ending, k: nat)
    requires Outcome(env, opening, toolNames, blocks, requests, ending) && k < |blocks| && k < |requests|
    ensures env.provider(k, requests[k]).Stream?
    ensures var chunks := env.provider(k, requests[k]).chunks;
            || (exists keys :: FromFragments(env, k, AllFragments(chunks), keys, blocks[k].calls))
            || FromMarkup(env, k, AllText(chunks), toolNames, blocks[k].calls)
  {
    hide Assembled, Conversation, Ran, RanBefore, Markup, ContinuedUpTo, EndsAs, DsmlIn, Cut, Scoped;
    hide SortedKeys, CallsAt;
    assert RoundOk(env, blocks, requests, k);
    assert RequestOk(opening, toolNames, blocks, requests[k], k);
    var chunks, budget := env.provider(k, requests[k]).chunks, MAX_CHAT_TOOL_STEPS - RanBefore(blocks, k);
    NoneScoped(env, budget);
    if Ordered(Assembled(map[], AllFragments(chunks), budget, IdsOf(env, k))) != [] {
      var keys := StructuredCalls(env, k, AllFragments(chunks), budget, blocks[k].calls);
      assert FromFragments(env, k, AllFragments(chunks), keys, blocks[k].calls);
    } else {
      MarkupCalls(env, k, AllText(chunks), toolNames, budget, blocks[k].calls);
    }
  }

  lemma NoneScoped(env: Environment, budget: nat)
    ensures Scoped(env, Cut([], budget)) == []
  {
  }

  lemma StructuredCalls(env: Environment, k: nat, fragments: seq<Fragment>, budget: nat, calls: seq<Call>)
    returns (keys: seq<int>)
    requires calls == Scoped(env, Cut(Ordered(Assembled(map[], fragments, budget, IdsOf(env, k))), budget))
    ensures FromFragments(env, k, fragments, keys, calls)
  {
    hide Assembled, IsIdOf, SortedKeys, CallsAt;
    var assembled := Assembled(map[], fragments, budget, IdsOf(env, k));
    OrderedIs(assembled);
    keys := SortedKeys(assembled.Keys);
    SortedKeysAreSorted(assembled.Keys);
    forall j | 0 <= j < |calls|
      ensures IsIdOf(fragments, keys[j], IdsOf(env, k), calls[j].id)
      ensures calls[j].name == NameOf(fragments, keys[j])
      ensures calls[j].arguments == env.scope(calls[j].name, ArgumentsOf(fragments, keys[j]))
    {
      AssembledIs(fragments, budget, IdsOf(env, k), keys[j]);
    }
  }

  /** The remaining budget is that of the tools that have run before. */
  lemma {:induction false} BudgetOfRounds(blocks: seq<Block>, k: nat)
    requires AllComplete(blocks) && k <= |blocks| && forall j :: 0 <= j < |blocks| ==> |blocks[j].calls| == 1
    ensures RanBefore(blocks, k) == k
  {
    if k > 0 {
      BudgetOfRounds(blocks, k - 1);
      assert blocks[..k][..k - 1] == blocks[..k - 1];
    }
  }

  // ---- Invalid markup in the last request ----

  /** Every answer: it is finished on a response with invalid markup exactly if that is a complete response to
      the very last request, and the first one with invalid markup. */
  lemma FinishedOnMarkupIff(env: Environment, opening: seq<Message>, toolNames: set<string>, blocks: seq<Block>,
                            requests: seq<Request>, ending: Ending)
    requires Outcome(env, opening, toolNames, blocks, requests, ending)
    ensures var k := |requests| - 1;
            ending == Finished && MarkupIn(env, k, requests[k]) <==>
              && k == MAX_CHAT_TOOL_STEPS && MarkupIn(env, k, requests[k]) && !env.provider(k, requests[k]).broken
              && !MarkupSeen(env, blocks, requests, k)
  {
    hide CallsIn, Conversation, Markup, AllText, Ran, RoundsOk, RequestsOk, Continued, MarkupSeen;
    var k := |requests| - 1;
    assert requests[k].warned <==> MarkupSeen(env, blocks, requests, k);
  }

  /** Ten responses with one call each, and then a marker. */
  function CallsThenMarkup(): Environment {
    Environment(
      (k: nat, request: Request) =>
        if k < MAX_CHAT_TOOL_STEPS then Stream([Chunk("", [Fragment(0, "", "search", "")])], false)
        else Stream([Chunk(DsmlOpen, [])], false),
      (k: nat, call: Call) => "",
      (text: string) => [],
      (k: nat, i: int) => "",
      (name: string, arguments: string) => arguments)
  }

  lemma OneCall(k: nat, offered: set<string>, budget: nat)
    requires budget > 0
    ensures |CallsIn(CallsThenMarkup(), k, [Chunk("", [Fragment(0, "", "search", "")])], offered, budget)| == 1
  {
    var f, newId := Fragment(0, "", "search", ""), IdsOf(CallsThenMarkup(), k);
    var chunks := [Chunk("", [f])];
    assert AllFragments(chunks) == [f] by { assert chunks[..0] == []; }
    AssembledLast(map[], [], f, budget, newId);
    assert [] + [f] == [f];
    OrderedIs(Assembled(map[], [f], budget, newId));
  }

  lemma MarkerIsMarkup()
    ensures AllText([Chunk(DsmlOpen, [])]) == DsmlOpen && Markup(DsmlOpen)
  {
    assert [Chunk(DsmlOpen, [])][..0] == [];
    DsmlIsStable();
    HasMarkerIff(DsmlOpen, DsmlMarkers);
    assert DsmlMarkers[0] == DsmlOpen && OccursAt(DsmlOpen, DsmlMarkers[0], 0);
    assert MarkerAt(DsmlOpen, DsmlMarkers, 0);
  }

  /** The provider uses up its ten steps and then answers with a marker: no retry is left in the loop, and the
      answer is finished although the response was invalid. */
  lemma LastMarkupFinishes(opening: seq<Message>, toolNames: set<string>, blocks: seq<Block>, requests: seq<Request>,
                           ending: Ending)
    requires Outcome(CallsThenMarkup(), opening, toolNames, blocks, requests, ending)
    ensures |blocks| == MAX_CHAT_TOOL_STEPS && |requests| == MAX_CHAT_TOOL_STEPS + 1
    ensures MarkupIn(CallsThenMarkup(), MAX_CHAT_TOOL_STEPS, requests[MAX_CHAT_TOOL_STEPS]) && ending == Finished
  {
    hide CallsIn, Markup, AllText, Conversation, Ran, RoundsOk, RequestsOk, ContinuedUpTo, EndsAs;
    TenRounds(opening, toolNames, blocks, requests, ending);
    MarkerIsMarkup();
    NotWarned(opening, toolNames, blocks, requests, ending);
  }

  lemma OneCallPerRound(opening: seq<Message>, toolNames: set<string>, blocks: seq<Block>, requests: seq<Request>,
                        ending: Ending, k: nat)
    requires Outcome(CallsThenMarkup(), opening, toolNames, blocks, requests, ending) && k < |blocks|
    ensures k < MAX_CHAT_TOOL_STEPS ==> |blocks[k].calls| == 1
  {
    hide CallsIn, Conversation, Markup, AllText, Ran, RanBefore;
    assert RoundOk(CallsThenMarkup(), blocks, requests, k);
    if k < MAX_CHAT_TOOL_STEPS {
      OneCall(k, requests[k].offered, MAX_CHAT_TOOL_STEPS - RanBefore(blocks, k));
    }
  }

  lemma TenRounds(opening: seq<Message>, toolNames: set<string>, blocks: seq<Block>, requests: seq<Request>,
                  ending: Ending)
    requires Outcome(CallsThenMarkup(), opening, toolNames, blocks, requests, ending)
    ensures |blocks| == MAX_CHAT_TOOL_STEPS && |requests| == MAX_CHAT_TOOL_STEPS + 1
  {
    hide CallsIn, Conversation, Markup, AllText, Ran, RoundsOk, EndsAs, ContinuedUpTo;
    RoundIffCalls(CallsThenMarkup(), opening, toolNames, blocks, requests, ending, 0);
    RoundsBelowRuns(blocks);
    forall k | 0 <= k < |blocks| ensures |blocks[k].calls| == 1 {
      OneCallPerRound(opening, toolNames, blocks, requests, ending, k);
    }
    var k := |blocks|;
    if k < MAX_CHAT_TOOL_STEPS {
      BudgetOfRounds(blocks, k);
      assert RequestOk(opening, toolNames, blocks, requests[k], k);
      OneCall(k, requests[k].offered, BudgetAt(blocks, requests[k], k));
      RoundIffCalls(CallsThenMarkup(), opening, toolNames, blocks, requests, ending, k);
    }
  }

  lemma NotWarned(opening: seq<Message>, toolNames: set<string>, blocks: seq<Block>, requests: seq<Request>,
                  ending: Ending)
    requires Outcome(CallsThenMarkup(), opening, toolNames, blocks, requests, ending)
    requires |blocks| == MAX_CHAT_TOOL_STEPS && |requests| == MAX_CHAT_TOOL_STEPS + 1
    ensures ending == Finished
  {
    hide CallsIn, Conversation, Markup, AllText, Ran, RoundsOk, RequestsOk, Continued, MarkupIn;
    var k := MAX_CHAT_TOOL_STEPS;
    assert requests[k].warned <==> MarkupSeen(CallsThenMarkup(), blocks, requests, k);
  }

  /** So stream_chat ends this answer with text-end and finish. */
  method FinishesOnMarkup(opening: seq<Message>, toolNames: set<string>) returns (events: seq<Event>)
    ensures |events| >= 2 && events[|events| - 2..] == [TextEnd, Finish]
  {
    hide Outcome, NoTerminal;
    var ending, saved;
    ghost var blocks, requests;
    events, ending, saved, blocks, requests := StreamChat(CallsThenMarkup(), opening, toolNames);
    LastMarkupFinishes(opening, toolNames, blocks, requests, ending);
  }

  // ---- Calls behind the budget ----

  lemma {:induction false} ToolEventIds(calls: seq<Call>, outputs: seq<string>, e: Event)
    requires |outputs| == |calls| && e in ToolEvents(calls, outputs)
    ensures e.InputAvailable? || e.OutputAvailable?
    ensures exists j :: 0 <= j < |calls| && e.callId == calls[j].id
    decreases |calls|
  {
    if calls != [] {
      var n := |calls| - 1;
      if e in ToolEvents(calls[..n], outputs[..n]) {
        ToolEventIds(calls[..n], outputs[..n], e);
        var j :| 0 <= j < n && e.callId == calls[..n][j].id;
        assert calls[j].id == e.callId;
      }
    }
  }

  lemma NoToolInResponse(env: Environment, step: nat, chunks: seq<Chunk>, offered: set<string>, budget: nat,
                         broken: bool, e: Event)
    requires e in ResponseEvents(env, step, chunks, offered, budget, broken)
    ensures !e.InputAvailable? && !e.OutputAvailable?
  {
    hide Assembled, DsmlIn, AllText, AllFragments, InputEvents, Markup, SortedKeys, CallsAt;
    InputEventsAreNoText(map[], AllFragments(chunks), budget, IdsOf(env, step));
  }

  /** The calls of the k-th response are those in its markup, and the i-th of them has an id of its own. */
  ghost predicate InMarkup(env: Environment, blocks: seq<Block>, requests: seq<Request>, k: nat, i: nat)
    requires AllComplete(blocks) && k < |requests|
  {
    && env.provider(k, requests[k]).Stream? && !env.provider(k, requests[k]).broken
    && var chunks, budget := env.provider(k, requests[k]).chunks, BudgetAt(blocks, requests[k], k);
       var calls := CallsIn(env, k, chunks, requests[k].offered, budget);
       && Assembled(map[], AllFragments(chunks), budget, IdsOf(env, k)) == map[]
       && i < |calls| && forall j :: 0 <= j < |calls| && j != i ==> calls[j].id != calls[i].id
  }

  ghost function CallAt(env: Environment, blocks: seq<Block>, requests: seq<Request>, k: nat, i: nat): Call
    requires AllComplete(blocks) && k < |requests| && InMarkup(env, blocks, requests, k, i)
  {
    CallsIn(env, k, env.provider(k, requests[k]).chunks, requests[k].offered, BudgetAt(blocks, requests[k], k))[i]
  }

  /** A response with calls is a round of the first of them, as far as the budget goes. */
  lemma CallsOfRound(env: Environment, opening: seq<Message>, toolNames: set<string>, blocks: seq<Block>,
                     requests: seq<Request>, ending: Ending, k: nat, i: nat)
    requires Outcome(env, opening, toolNames, blocks, requests, ending) && k < |requests|
    requires InMarkup(env, blocks, requests, k, i)
    ensures k < |blocks|
    ensures var budget, id := BudgetAt(blocks, requests[k], k), CallAt(env, blocks, requests, k, i).id;
            && (i < budget ==> i < |blocks[k].calls| && blocks[k].calls[i].id == id)
            && (i >= budget ==> forall j :: 0 <= j < |blocks[k].calls| ==> blocks[k].calls[j].id != id)
  {
    hide CallsIn, Conversation, Markup, AllText, AllFragments, Assembled, Ran, RanBefore;
    RoundIffCalls(env, opening, toolNames, blocks, requests, ending, k);
    assert RoundOk(env, blocks, requests, k);
  }

  lemma {:induction false} RunCallHasEvents(calls: seq<Call>, outputs: seq<string>, i: nat)
    requires |outputs| == |calls| && i < |calls|
    ensures InputAvailable(calls[i].id, calls[i].name) in ToolEvents(calls, outputs)
    ensures OutputAvailable(calls[i].id, outputs[i]) in ToolEvents(calls, outputs)
  {
    if i < |calls| - 1 { RunCallHasEvents(calls[..|calls| - 1], outputs[..|calls| - 1], i); }
  }

  ghost predicate HasOutput(events: seq<Event>, id: string) {
    exists e <- events :: e.OutputAvailable? && e.callId == id
  }

  ghost predicate HasInput(events: seq<Event>, id: string) {
    exists e <- events :: e.InputAvailable? && e.callId == id
  }

  ghost predicate HasResult(messages: seq<Message>, id: string) {
    exists m <- messages :: m.Tool? && m.callId == id
  }

  /** In every answer, each call in the markup is announced; its input and output become available, and a tool
      message answers it, if and only if it is within the budget of its round. */
  lemma RunIffWithinBudget(env: Environment, opening: seq<Message>, toolNames: set<string>, blocks: seq<Block>,
                           requests: seq<Request>, ending: Ending, k: nat, i: nat)
    requires Outcome(env, opening, toolNames, blocks, requests, ending) && k < |requests|
    requires InMarkup(env, blocks, requests, k, i)
    ensures var events, call := EventsAt(env, blocks, requests[k], k), CallAt(env, blocks, requests, k, i);
            var within := i < BudgetAt(blocks, requests[k], k);
            && InputStart(call.id, call.name) in events
            && (HasInput(events, call.id) <==> within)
            && (HasOutput(events, call.id) <==> within)
            && k < |blocks| && (HasResult(Results(blocks[k].calls, blocks[k].outputs), call.id) <==> within)
  {
    hide CallsIn, Markup, AllText, AllFragments, Assembled, BudgetAt, ResponseEvents, ToolEvents, Conversation;
    hide RequestsOk, RoundsOk, ContinuedUpTo, EndsAs;
    CallsOfRound(env, opening, toolNames, blocks, requests, ending, k, i);
    var chunks, budget := env.provider(k, requests[k]).chunks, BudgetAt(blocks, requests[k], k);
    var calls, outputs, id := blocks[k].calls, blocks[k].outputs, CallAt(env, blocks, requests, k, i).id;
    var events := EventsAt(env, blocks, requests[k], k);
    CutCallsAreAnnounced(env, k, chunks, requests[k].offered, budget, i);
    if i < budget {
      RunCallHasEvents(calls, outputs, i);
      assert InputAvailable(id, calls[i].name) in events && OutputAvailable(id, outputs[i]) in events;
      assert Results(calls, outputs)[i] == Tool(id, outputs[i]);
    } else {
      forall e | e in events && (e.InputAvailable? || e.OutputAvailable?) ensures e.callId != id {
        if e in ResponseEvents(env, k, chunks, requests[k].offered, budget, false) {
          NoToolInResponse(env, k, chunks, requests[k].offered, budget, false, e);
        } else {
          ToolEventIds(calls, outputs, e);
        }
      }
    }
  }

  /** One response whose markup holds eleven calls, and a clean answer. */
  function ElevenCalls(): Environment {
    Environment(
      (k: nat, request: Request) => Stream([Chunk(if k == 0 then DsmlOpen else "Done.", [])], false),
      (k: nat, call: Call) => "",
      (text: string) => seq(MAX_CHAT_TOOL_STEPS + 1, i => Invoke("search", true, "")),
      (k: nat, i: int) => if i < 0 then "" else Dec(i),
      (name: string, arguments: string) => arguments)
  }

  lemma ElevenInMarkup(k: nat, budget: nat)
    ensures Assembled(map[], AllFragments([Chunk(DsmlOpen, [])]), budget, IdsOf(ElevenCalls(), k)) == map[]
    ensures var calls := CallsIn(ElevenCalls(), k, [Chunk(DsmlOpen, [])], {"search"}, budget);
            && |calls| == MAX_CHAT_TOOL_STEPS + 1
            && forall i :: 0 <= i < |calls| ==> calls[i].id == Dec(i) && calls[i].name == "search"
  {
    var chunks := [Chunk(DsmlOpen, [])];
    assert chunks[..0] == [];
    assert AllFragments(chunks) == [];
    MarkerIsMarkup();
    OrderedIs(Assembled(map[], [], budget, IdsOf(ElevenCalls(), k)));
    assert HasOpenMarker(DsmlOpen);
  }

  lemma CleanAnswer(k: nat, offered: set<string>, budget: nat)
    ensures CallsIn(ElevenCalls(), k, [Chunk("Done.", [])], offered, budget) == []
  {
    var chunks := [Chunk("Done.", [])];
    assert chunks[..0] == [];
    assert AllFragments(chunks) == [] && AllText(chunks) == "Done.";
    OrderedIs(Assembled(map[], [], budget, IdsOf(ElevenCalls(), k)));
    DsmlIsStable();
    HasMarkerIff("Done.", DsmlMarkers);
  }

  lemma OneFullRound(opening: seq<Message>, blocks: seq<Block>, requests: seq<Request>, ending: Ending)
    requires Outcome(ElevenCalls(), opening, {"search"}, blocks, requests, ending)
    ensures AllComplete(blocks) && |blocks| == 1 && |blocks[0].calls| == MAX_CHAT_TOOL_STEPS && requests != []
    ensures requests[0].offered == {"search"} && BudgetAt(blocks, requests[0], 0) == MAX_CHAT_TOOL_STEPS
  {
    hide CallsIn, Conversation, Markup, AllText, Ran, EndsAs, ContinuedUpTo, RoundsOk;
    var env := ElevenCalls();
    assert RequestOk(opening, {"search"}, blocks, requests[0], 0);
    assert blocks[..0] == [];
    ElevenInMarkup(0, MAX_CHAT_TOOL_STEPS);
    RoundIffCalls(env, opening, {"search"}, blocks, requests, ending, 0);
    FullRound(opening, blocks, requests, ending);
    if |blocks| > 1 {
      CleanAnswer(1, requests[1].offered, BudgetAt(blocks, requests[1], 1));
      RoundIffCalls(env, opening, {"search"}, blocks, requests, ending, 1);
    }
  }

  lemma FullRound(opening: seq<Message>, blocks: seq<Block>, requests: seq<Request>, ending: Ending)
    requires Outcome(ElevenCalls(), opening, {"search"}, blocks, requests, ending) && blocks != []
    requires requests[0].offered == {"search"}
    ensures |blocks[0].calls| == MAX_CHAT_TOOL_STEPS
  {
    hide CallsIn, Conversation, Markup, AllText, Ran, EndsAs, ContinuedUpTo, RequestsOk;
    assert RoundOk(ElevenCalls(), blocks, requests, 0);
    assert blocks[..0] == [];
    ElevenInMarkup(0, MAX_CHAT_TOOL_STEPS);
  }

  /** What the log of an answer holds comes from one of its responses. */
  lemma {:induction false} InLog(env: Environment, blocks: seq<Block>, requests: seq<Request>, e: Event)
    requires AllComplete(blocks)
    ensures e in EventLog(env, blocks, requests) <==>
      e == Start || e == TextStart || exists k :: 0 <= k < |requests| && e in EventsAt(env, blocks, requests[k], k)
  {
    hide EventsAt;
    if requests != [] {
      var n := |requests| - 1;
      InLog(env, blocks, requests[..n], e);
      forall k | 0 <= k < n ensures requests[..n][k] == requests[k] {}
    }
  }

  lemma {:induction false} InOthers(events: seq<Event>, e: Event)
    requires !e.TextDelta?
    ensures e in events <==> e in OthersOf(events)
  {
    if events != [] {
      InOthers(events[..|events| - 1], e);
      SplitLast(events);
    }
  }

  /** The eleventh call is announced under its own id and never run. */
  lemma EleventhCallIsCut(opening: seq<Message>, blocks: seq<Block>, requests: seq<Request>, ending: Ending)
    requires Outcome(ElevenCalls(), opening, {"search"}, blocks, requests, ending)
    ensures InputStart("10", "search") in EventLog(ElevenCalls(), blocks, requests)
    ensures forall e <- EventLog(ElevenCalls(), blocks, requests) ::
      e.InputAvailable? || e.OutputAvailable? ==> e.callId != "10"
  {
    hide CallsIn, Conversation, Markup, AllText, AllFragments, Assembled, Ran, ResponseEvents, Outcome, EventLog;
    hide BudgetAt, ToolEvents;
    var env := ElevenCalls();
    OneFullRound(opening, blocks, requests, ending);
    ElevenInMarkup(0, MAX_CHAT_TOOL_STEPS);
    assert Dec(10) == "10" by { assert Dec(1) == "1" && Digit(0) == '0'; }
    forall j: nat | j < MAX_CHAT_TOOL_STEPS ensures Dec(j) != Dec(MAX_CHAT_TOOL_STEPS) {
      if Dec(j) == Dec(MAX_CHAT_TOOL_STEPS) { DecInjective(j, MAX_CHAT_TOOL_STEPS); }
    }
    RunIffWithinBudget(env, opening, {"search"}, blocks, requests, ending, 0, MAX_CHAT_TOOL_STEPS);
    InLog(env, blocks, requests, InputStart("10", "search"));
    forall e | e in EventLog(env, blocks, requests) && (e.InputAvailable? || e.OutputAvailable?)
      ensures e.callId != "10"
    {
      InLog(env, blocks, requests, e);
      var k :| 0 <= k < |requests| && e in EventsAt(env, blocks, requests[k], k);
      if k > 0 {
        NoToolInResponse(env, k, [Chunk("Done.", [])], requests[k].offered, BudgetAt(blocks, requests[k], k), false, e);
      }
    }
  }

  /** So stream_chat announces a call it never runs. */
  method AnnouncesACutCall(opening: seq<Message>) returns (events: seq<Event>)
    ensures InputStart("10", "search") in events
    ensures forall e <- events :: e.InputAvailable? || e.OutputAvailable? ==> e.callId != "10"
  {
    hide Outcome, NoTerminal, EndsWith, OthersOf, EventLog, TextOf;
    var ending, saved;
    ghost var blocks, requests;
    events, ending, saved, blocks, requests := StreamChat(ElevenCalls(), opening, {"search"});
    EleventhCallIsCut(opening, blocks, requests, ending);
    InOthers(events, InputStart("10", "search"));
    forall e | e in events && (e.InputAvailable? || e.OutputAvailable?) ensures e.callId != "10" {
      InOthers(events, e);
    }
  }
}

/** Reading one streamed provider response in stream_chat (app/api/routes/chat.py): the visible text and
    the tool calls assembled from fragments. */
module ChatResponse {
  import opened Conversations
  import opened IncrementalUserText
  import opened MarkerFilter
  import opened Sequences

  /** An entry of delta.tool_calls; an absent id, name or argument text is empty. Entries that are no
      objects or have no integer index are skipped. */
  datatype Fragment = Skipped | Fragment(index: int, id: string, name: string, arguments: string)

  /** One data line: its content delta and its tool call fragments. */
  datatype Chunk = Chunk(text: string, fragments: seq<Fragment>)

  datatype ErrorKind = ProviderStatus | ProviderUnreachable | InvalidMarkup

  datatype Event =
    | Start
    | TextStart
    | TextDelta(text: string)
    | InputStart(callId: string, name: string)
    | InputDelta(callId: string, text: string)
    | InputAvailable(callId: string, name: string)
    | OutputAvailable(callId: string, output: string)
    | Error(kind: ErrorKind)
    | TextEnd
    | Finish

  function AllText(chunks: seq<Chunk>): string {
    if chunks == [] then "" else AllText(chunks[..|chunks| - 1]) + chunks[|chunks| - 1].text
  }

  function AllFragments(chunks: seq<Chunk>): seq<Fragment> {
    if chunks == [] then [] else AllFragments(chunks[..|chunks| - 1]) + chunks[|chunks| - 1].fragments
  }

  /** The text shown to the user by some events. */
  function TextOf(events: seq<Event>): string {
    if events == [] then ""
    else
      var last := events[|events| - 1];
      TextOf(events[..|events| - 1]) + if last.TextDelta? then last.text else ""
  }

  /** All events but the text deltas. */
  function OthersOf(events: seq<Event>): seq<Event> {
    if events == [] then []
    else
      var last := events[|events| - 1];
      OthersOf(events[..|events| - 1]) + if last.TextDelta? then [] else [last]
  }

  lemma EventAdded(events: seq<Event>, e: Event)
    ensures TextOf(events + [e]) == if e.TextDelta? then TextOf(events) + e.text else TextOf(events)
    ensures OthersOf(events + [e]) == if e.TextDelta? then OthersOf(events) else OthersOf(events) + [e]
  {
    assert (events + [e])[..|events|] == events;
  }

  // ---- Assembling calls ----

  /** Ids the server generates for calls that come without one. */
  type FreshIds = int -> string

  function CallId(f: Fragment, newId: FreshIds): string
    requires f.Fragment?
  {
    if f.id != "" then f.id else newId(f.index)
  }

  /** Whether a fragment is taken: its call is known, or there is budget for another one. */
  predicate Accepted(calls: map<int, Call>, f: Fragment, budget: nat) {
    f.Fragment? && (f.index in calls || |calls| < budget)
  }

  function Extended(calls: map<int, Call>, f: Fragment, newId: FreshIds): Call
    requires f.Fragment?
  {
    var call := if f.index in calls then calls[f.index] else Call(CallId(f, newId), f.name, "");
    Call(call.id, if f.name != "" then f.name else call.name, call.arguments + f.arguments)
  }

  function Assembled(calls: map<int, Call>, fragments: seq<Fragment>, budget: nat, newId: FreshIds): map<int, Call> {
    if fragments == [] then calls
    else
      var before, f := Assembled(calls, fragments[..|fragments| - 1], budget, newId), fragments[|fragments| - 1];
      if Accepted(before, f, budget) then before[f.index := Extended(before, f, newId)] else before
  }

  /** The events of one accepted fragment: its argument text, announced the first time. */
  function FragmentEvents(calls: map<int, Call>, f: Fragment, newId: FreshIds): seq<Event>
    requires f.Fragment?
  {
    var call := Extended(calls, f, newId);
    if f.arguments == "" then []
    else if f.index in calls && calls[f.index].arguments != "" then [InputDelta(call.id, f.arguments)]
    else [InputStart(call.id, call.name), InputDelta(call.id, f.arguments)]
  }

  function InputEvents(calls: map<int, Call>, fragments: seq<Fragment>, budget: nat, newId: FreshIds): seq<Event> {
    if fragments == [] then []
    else
      var init, f := fragments[..|fragments| - 1], fragments[|fragments| - 1];
      var before := Assembled(calls, init, budget, newId);
      InputEvents(calls, init, budget, newId) + if Accepted(before, f, budget) then FragmentEvents(before, f, newId) else []
  }

  lemma AssembledLast(calls: map<int, Call>, fragments: seq<Fragment>, f: Fragment, budget: nat, newId: FreshIds)
    ensures var before := Assembled(calls, fragments, budget, newId);
            Assembled(calls, fragments + [f], budget, newId) ==
              if Accepted(before, f, budget) then before[f.index := Extended(before, f, newId)] else before
    ensures var before := Assembled(calls, fragments, budget, newId);
            InputEvents(calls, fragments + [f], budget, newId) == InputEvents(calls, fragments, budget, newId)
              + if Accepted(before, f, budget) then FragmentEvents(before, f, newId) else []
  {
    assert (fragments + [f])[..|fragments|] == fragments;
  }

  /** Reading fragments in two goes is reading them at once. */
  lemma {:induction false} AssembledSum(calls: map<int, Call>, a: seq<Fragment>, b: seq<Fragment>, budget: nat,
                                        newId: FreshIds)
    ensures Assembled(calls, a + b, budget, newId) == Assembled(Assembled(calls, a, budget, newId), b, budget, newId)
    ensures InputEvents(calls, a + b, budget, newId) ==
      InputEvents(calls, a, budget, newId) + InputEvents(Assembled(calls, a, budget, newId), b, budget, newId)
    decreases |b|
  {
    hide Accepted, Extended, FragmentEvents;
    if b == [] {
      assert a + b == a;
    } else {
      var init, f := b[..|b| - 1], b[|b| - 1];
      AssembledSum(calls, a, init, budget, newId);
      SplitLast(b);
      Assoc(a, init, [f]);
      AssembledLast(calls, a + init, f, budget, newId);
    }
  }

  // ---- What the assembled calls are ----

  function ArgumentsOf(fragments: seq<Fragment>, index: int): string {
    if fragments == [] then ""
    else
      var f := fragments[|fragments| - 1];
      ArgumentsOf(fragments[..|fragments| - 1], index) + if f.Fragment? && f.index == index then f.arguments else ""
  }

  /** The last name given for a call; empty if none is. */
  function NameOf(fragments: seq<Fragment>, index: int): string {
    if fragments == [] then ""
    else
      var f := fragments[|fragments| - 1];
      if f.Fragment? && f.index == index && f.name != "" then f.name else NameOf(fragments[..|fragments| - 1], index)
  }

  predicate Mentions(fragments: seq<Fragment>, index: int) {
    exists i :: 0 <= i < |fragments| && fragments[i].Fragment? && fragments[i].index == index
  }

  /** Fragment k is the first one of its index. */
  predicate IsFirstMention(fragments: seq<Fragment>, index: int, k: nat) {
    && k < |fragments| && fragments[k].Fragment? && fragments[k].index == index
    && forall i :: 0 <= i < k ==> !(fragments[i].Fragment? && fragments[i].index == index)
  }

  /** The id the first fragment of an index gives, or if it gives none the one generated for the index. */
  ghost predicate IsIdOf(fragments: seq<Fragment>, index: int, newId: FreshIds, id: string) {
    exists k: nat :: IsFirstMention(fragments, index, k) && id == if fragments[k].id != "" then fragments[k].id else newId(index)
  }

  /** Each assembled call has the id that came with its first fragment, all the argument text sent for its
      index, in order, and the last name sent; calls are left out only when the budget is used up by others. */
  lemma {:induction false} AssembledIs(fragments: seq<Fragment>, budget: nat, newId: FreshIds, index: int)
    ensures var calls := Assembled(map[], fragments, budget, newId);
            && |calls| <= budget
            && (index in calls ==>
                  && Mentions(fragments, index)
                  && IsIdOf(fragments, index, newId, calls[index].id)
                  && calls[index].arguments == ArgumentsOf(fragments, index)
                  && calls[index].name == NameOf(fragments, index))
            && (index !in calls && Mentions(fragments, index) ==> |calls| == budget)
  {
    if fragments != [] {
      var init, f := fragments[..|fragments| - 1], fragments[|fragments| - 1];
      AssembledIs(init, budget, newId, index);
      var before := Assembled(map[], init, budget, newId);
      if index in before {
        IdStays(init, f, index, newId, before[index].id);
      } else if f.Fragment? && f.index == index && !Mentions(init, index) {
        NothingOf(init, index);
        assert IsFirstMention(fragments, index, |init|);
      }
      SplitLast(fragments);
    }
  }

  lemma IdStays(fragments: seq<Fragment>, f: Fragment, index: int, newId: FreshIds, id: string)
    requires IsIdOf(fragments, index, newId, id)
    ensures IsIdOf(fragments + [f], index, newId, id)
  {
    var k: nat :| IsFirstMention(fragments, index, k) && id == if fragments[k].id != "" then fragments[k].id else newId(index);
    assert IsFirstMention(fragments + [f], index, k);
  }

  lemma {:induction false} NothingOf(fragments: seq<Fragment>, index: int)
    ensures !Mentions(fragments, index) ==> ArgumentsOf(fragments, index) == "" && NameOf(fragments, index) == ""
  {
    if fragments != [] {
      NothingOf(fragments[..|fragments| - 1], index);
    }
  }

  // ---- What the input events are ----

  /** The argument text shown for a call id. */
  function DeltaText(events: seq<Event>, id: string): string {
    if events == [] then ""
    else
      var last := events[|events| - 1];
      DeltaText(events[..|events| - 1], id) + if last.InputDelta? && last.callId == id then last.text else ""
  }

  /** How often the input of a call id is announced. */
  function StartCount(events: seq<Event>, id: string): nat {
    if events == [] then 0
    else
      var last := events[|events| - 1];
      StartCount(events[..|events| - 1], id) + if last.InputStart? && last.callId == id then 1 else 0
  }

  lemma DeltaNext(events: seq<Event>, e: Event, id: string)
    ensures DeltaText(events + [e], id) == DeltaText(events, id) + if e.InputDelta? && e.callId == id then e.text else ""
    ensures StartCount(events + [e], id) == StartCount(events, id) + if e.InputStart? && e.callId == id then 1 else 0
  {
    assert (events + [e])[..|events|] == events;
  }

  lemma FragmentShown(events: seq<Event>, calls: map<int, Call>, f: Fragment, newId: FreshIds, id: string)
    requires f.Fragment?
    ensures var own := Extended(calls, f, newId).id == id;
            var first := !(f.index in calls && calls[f.index].arguments != "") && f.arguments != "";
            var more := events + FragmentEvents(calls, f, newId);
            && DeltaText(more, id) == DeltaText(events, id) + (if own then f.arguments else "")
            && StartCount(more, id) == StartCount(events, id) + if own && first then 1 else 0
  {
    hide DeltaText, StartCount;
    var call := Extended(calls, f, newId);
    var start, delta := InputStart(call.id, call.name), InputDelta(call.id, f.arguments);
    if f.arguments == "" {
      assert events + [] == events;
    } else if f.index in calls && calls[f.index].arguments != "" {
      DeltaNext(events, delta, id);
    } else {
      DeltaNext(events, start, id);
      DeltaNext(events + [start], delta, id);
      assert events + [start, delta] == events + [start] + [delta];
    }
  }

  /** No other call has the id of this one. */
  predicate OwnId(calls: map<int, Call>, index: int) {
    index in calls && forall j <- calls :: j != index ==> calls[j].id != calls[index].id
  }

  /** Of a call with an id of its own, exactly its arguments are shown, and it is announced once if it has any;
      nothing is shown for an id that no call has. */
  ghost predicate Shows(calls: map<int, Call>, events: seq<Event>, id: string) {
    && (forall index <- calls :: OwnId(calls, index) && calls[index].id == id ==>
          && DeltaText(events, id) == calls[index].arguments
          && StartCount(events, id) == if calls[index].arguments == "" then 0 else 1)
    && ((forall index <- calls :: calls[index].id != id) ==> DeltaText(events, id) == "" && StartCount(events, id) == 0)
  }

  /** The input events of a response show its calls. */
  lemma {:induction false} InputIsShown(fragments: seq<Fragment>, budget: nat, newId: FreshIds, id: string)
    ensures Shows(Assembled(map[], fragments, budget, newId), InputEvents(map[], fragments, budget, newId), id)
  {
    hide Shows, FragmentEvents;
    if fragments == [] {
      NothingShown(id);
    } else {
      var init, f := fragments[..|fragments| - 1], fragments[|fragments| - 1];
      InputIsShown(init, budget, newId, id);
      var before, events := Assembled(map[], init, budget, newId), InputEvents(map[], init, budget, newId);
      assert events + [] == events;
      if Accepted(before, f, budget) { ShownNext(before, events, f, newId, id); }
    }
  }

  lemma NothingShown(id: string)
    ensures Shows(map[], [], id)
  {
  }

  lemma ShownNext(calls: map<int, Call>, events: seq<Event>, f: Fragment, newId: FreshIds, id: string)
    requires f.Fragment? && Shows(calls, events, id)
    ensures Shows(calls[f.index := Extended(calls, f, newId)], events + FragmentEvents(calls, f, newId), id)
  {
    hide FragmentEvents;
    FragmentShown(events, calls, f, newId, id);
    var call := Extended(calls, f, newId);
    var calls' := calls[f.index := call];
    forall index | index in calls' && OwnId(calls', index) && calls'[index].id == id
      ensures index in calls && index != f.index ==> OwnId(calls, index)
      ensures f.index == index && index in calls ==> OwnId(calls, index)
      ensures f.index == index && index !in calls ==> forall j <- calls :: calls[j].id != id
    {
      forall j | j in calls ensures j in calls' && calls'[j].id == calls[j].id {}
    }
  }

  // ---- Reading ----

  lemma {:induction false} InputEventsAreNoText(calls: map<int, Call>, fragments: seq<Fragment>, budget: nat,
                                                newId: FreshIds)
    ensures forall i :: 0 <= i < |InputEvents(calls, fragments, budget, newId)| ==>
      var e := InputEvents(calls, fragments, budget, newId)[i]; e.InputStart? || e.InputDelta?
  {
    if fragments != [] { InputEventsAreNoText(calls, fragments[..|fragments| - 1], budget, newId); }
  }

  lemma NoEvents()
    ensures TextOf([]) == "" && OthersOf([]) == []
  {
  }

  lemma {:induction false} EventsSum(a: seq<Event>, b: seq<Event>)
    ensures TextOf(a + b) == TextOf(a) + TextOf(b)
    ensures OthersOf(a + b) == OthersOf(a) + OthersOf(b)
    decreases |b|
  {
    hide TextOf, OthersOf;
    if b == [] {
      assert a + b == a;
      NoEvents();
    } else {
      var init, last := b[..|b| - 1], b[|b| - 1];
      EventsSum(a, init);
      SplitLast(b);
      Assoc(a, init, [last]);
      EventAdded(a + init, last);
      EventAdded(init, last);
      if last.TextDelta? {
        Assoc(TextOf(a), TextOf(init), last.text);
      } else {
        Assoc(OthersOf(a), OthersOf(init), [last]);
      }
    }
  }

  lemma {:induction false} AllOthers(events: seq<Event>)
    requires forall i :: 0 <= i < |events| ==> !events[i].TextDelta?
    ensures TextOf(events) == "" && OthersOf(events) == events
  {
    if events != [] {
      hide TextOf, OthersOf;
      var init, last := events[..|events| - 1], events[|events| - 1];
      forall i | 0 <= i < |init| ensures !init[i].TextDelta? { assert init[i] == events[i]; }
      AllOthers(init);
      SplitLast(events);
      EventAdded(init, last);
    }
  }

  /** One accepted fragment. */
  method AddFragment(f: Fragment, newId: FreshIds, calls0: map<int, Call>, events0: seq<Event>)
    returns (calls: map<int, Call>, events: seq<Event>)
    requires f.Fragment?
    ensures calls == calls0[f.index := Extended(calls0, f, newId)]
    ensures events == events0 + FragmentEvents(calls0, f, newId)
  {
    var before := if f.index in calls0 then calls0[f.index] else Call(CallId(f, newId), f.name, "");
    var name := if f.name != "" then f.name else before.name;
    events := events0;
    if f.arguments != "" {
      if before.arguments == "" { events := events + [InputStart(before.id, name)]; }
      events := events + [InputDelta(before.id, f.arguments)];
    }
    calls := calls0[f.index := Call(before.id, name, before.arguments + f.arguments)];
  }

  /** The loop over the fragments of one chunk. `allowed` is allowed_tool_call_indexes. */
  method AddFragments(fragments: seq<Fragment>, budget: nat, newId: FreshIds, allowed0: set<int>,
                      calls0: map<int, Call>, events0: seq<Event>)
    returns (allowed: set<int>, calls: map<int, Call>, events: seq<Event>)
    requires allowed0 == calls0.Keys
    ensures allowed == calls.Keys && calls == Assembled(calls0, fragments, budget, newId)
    ensures events == events0 + InputEvents(calls0, fragments, budget, newId)
  {
    hide Extended, FragmentEvents;
    allowed, calls, events := allowed0, calls0, events0;
    assert fragments[..0] == [];
    for i := 0 to |fragments|
      invariant allowed == calls.Keys && calls == Assembled(calls0, fragments[..i], budget, newId)
      invariant events == events0 + InputEvents(calls0, fragments[..i], budget, newId)
    {
      var f := fragments[i];
      AssembledLast(calls0, fragments[..i], f, budget, newId);
      Take(fragments, i);
      assert |allowed| == |calls|;
      if f.Fragment? && (f.index in allowed || |allowed| < budget) {
        Assoc(events0, InputEvents(calls0, fragments[..i], budget, newId), FragmentEvents(calls, f, newId));
        allowed := allowed + {f.index};
        calls, events := AddFragment(f, newId, calls, events);
      }
    }
    assert fragments[..|fragments|] == fragments;
  }

  /** What has been shown and collected after some chunks. */
  ghost predicate ReadSoFar(chunks: seq<Chunk>, budget: nat, newId: FreshIds, markers: seq<string>, seen: string,
                            calls: map<int, Call>, events: seq<Event>) {
    && seen == AllText(chunks)
    && calls == Assembled(map[], AllFragments(chunks), budget, newId)
    && TextOf(events) == Emitted(seen, markers)
    && OthersOf(events) == InputEvents(map[], AllFragments(chunks), budget, newId)
  }

  lemma NothingRead(budget: nat, newId: FreshIds, markers: seq<string>)
    ensures ReadSoFar([], budget, newId, markers, "", map[], [])
  {
    NothingEmitted(markers);
  }

  lemma ChunkRead(chunks: seq<Chunk>, chunk: Chunk, budget: nat, newId: FreshIds, markers: seq<string>, seen: string,
                  calls: map<int, Call>, events: seq<Event>, seen': string, shown: seq<Event>, visible: string)
    requires ReadSoFar(chunks, budget, newId, markers, seen, calls, events)
    requires seen' == seen + chunk.text && Emitted(seen', markers) == Emitted(seen, markers) + visible
    requires shown == if visible == "" then events else events + [TextDelta(visible)]
    ensures ReadSoFar(chunks + [chunk], budget, newId, markers, seen', Assembled(calls, chunk.fragments, budget, newId),
                      shown + InputEvents(calls, chunk.fragments, budget, newId))
  {
    hide Assembled, InputEvents, Emitted, TextOf, OthersOf;
    var more := InputEvents(calls, chunk.fragments, budget, newId);
    assert (chunks + [chunk])[..|chunks|] == chunks;
    EventAdded(events, TextDelta(visible));
    EventsSum(shown, more);
    InputEventsAreNoText(calls, chunk.fragments, budget, newId);
    AllOthers(more);
    AssembledSum(map[], AllFragments(chunks), chunk.fragments, budget, newId);
  }

  /** At some point the stream consists of exactly what these chunks let out. */
  ghost predicate LetOut(chunks: seq<Chunk>, budget: nat, newId: FreshIds, events: seq<Event>) {
    exists n :: 0 <= n <= |events| && TextOf(events[..n]) == Emitted(AllText(chunks), DsmlMarkers)
      && OthersOf(events[..n]) == InputEvents(map[], AllFragments(chunks), budget, newId)
  }

  /** Nothing is held up: after each chunk exactly what it and those before it let out has been sent. */
  ghost predicate Timely(chunks: seq<Chunk>, budget: nat, newId: FreshIds, events: seq<Event>, m: nat)
    requires m <= |chunks|
  {
    forall k :: 0 <= k <= m ==> LetOut(chunks[..k], budget, newId, events)
  }

  lemma TimelyMore(chunks: seq<Chunk>, budget: nat, newId: FreshIds, events: seq<Event>, more: seq<Event>, m: nat)
    requires m <= |chunks| && Timely(chunks, budget, newId, events, m) && events <= more
    ensures Timely(chunks, budget, newId, more, m)
  {
    hide TextOf, OthersOf, Emitted, AllText, InputEvents, AllFragments;
    forall k | 0 <= k <= m ensures LetOut(chunks[..k], budget, newId, more) {
      assert LetOut(chunks[..k], budget, newId, events);
      var n :| 0 <= n <= |events| && TextOf(events[..n]) == Emitted(AllText(chunks[..k]), DsmlMarkers)
        && OthersOf(events[..n]) == InputEvents(map[], AllFragments(chunks[..k]), budget, newId);
      assert more[..n] == events[..n];
    }
  }

  lemma TimelyNext(chunks: seq<Chunk>, budget: nat, newId: FreshIds, events: seq<Event>, more: seq<Event>, m: nat,
                   seen: string, calls: map<int, Call>)
    requires m < |chunks| && Timely(chunks, budget, newId, events, m) && events <= more
    requires ReadSoFar(chunks[..m + 1], budget, newId, DsmlMarkers, seen, calls, more)
    ensures Timely(chunks, budget, newId, more, m + 1)
  {
    hide TextOf, OthersOf, Emitted, AllText, InputEvents, AllFragments;
    TimelyMore(chunks, budget, newId, events, more, m);
    assert more[..|more|] == more;
    assert LetOut(chunks[..m + 1], budget, newId, more);
  }

  lemma TimelyAtFirst(chunks: seq<Chunk>, budget: nat, newId: FreshIds)
    ensures Timely(chunks, budget, newId, [], 0)
  {
    NothingEmitted(DsmlMarkers);
    var events: seq<Event> := [];
    assert events[..0] == [] && chunks[..0] == [];
    assert LetOut(chunks[..0], budget, newId, events);
  }

  /** Reads one response. If the connection breaks, the held back text is not released. */
  method ReadResponse(chunks: seq<Chunk>, broken: bool, budget: nat, newId: FreshIds)
    returns (content: string, text: string, calls: map<int, Call>, events: seq<Event>)
    ensures content == AllText(chunks) && text == TextOf(events)
    ensures calls == Assembled(map[], AllFragments(chunks), budget, newId)
    ensures TextOf(events) == if broken then Emitted(content, DsmlMarkers) else Visible(content, DsmlMarkers)
    ensures OthersOf(events) == InputEvents(map[], AllFragments(chunks), budget, newId)
    ensures Timely(chunks, budget, newId, events, |chunks|)
  {
    hide Timely, Assembled, InputEvents, Emitted, AllText, AllFragments, Visible, TextOf, OthersOf;
    NothingEmitted(DsmlMarkers);
    var userText := new UserText();
    ghost var markers := userText.Markers();
    assert markers == DsmlMarkers;
    var allowed: set<int> := {};
    content, text, calls, events := "", "", map[], [];
    NothingRead(budget, newId, markers);
    TimelyAtFirst(chunks, budget, newId);
    for i := 0 to |chunks|
      invariant userText.Valid() && fresh(userText) && markers == userText.Markers() && userText.seen == content
      invariant allowed == calls.Keys && text == Emitted(content, markers)
      invariant ReadSoFar(chunks[..i], budget, newId, markers, content, calls, events)
      invariant Timely(chunks, budget, newId, events, i)
    {
      ghost var sent := events;
      var visible := userText.Push(chunks[i].text);
      var shown := if visible == "" then events else events + [TextDelta(visible)];
      ChunkRead(chunks[..i], chunks[i], budget, newId, markers, content, calls, events, content + chunks[i].text, shown, visible);
      Take(chunks, i);
      content, text := content + chunks[i].text, text + visible;
      allowed, calls, events := AddFragments(chunks[i].fragments, budget, newId, allowed, calls, shown);
      TimelyNext(chunks, budget, newId, sent, events, i, content, calls);
    }
    assert chunks[..|chunks|] == chunks;
    if !broken {
      var tail := userText.Finish();
      EventAdded(events, TextDelta(tail));
      TimelyMore(chunks, budget, newId, events, events + [TextDelta(tail)], |chunks|);
      if tail != "" { text, events := text + tail, events + [TextDelta(tail)]; }
    }
  }
}

/** _IncrementalUserText of app/api/routes/chat.py: provider text is released at once, except for
    DSML control markup, however the text is cut into deltas. */
module IncrementalUserText {
  import opened MarkerFilter

  // Two full-width bars (U+FF5C) stand on either side of the letters.
  const DsmlOpen: string := "<\U{FF5C}\U{FF5C}DSML\U{FF5C}\U{FF5C}"
  const DsmlClose: string := "</\U{FF5C}\U{FF5C}DSML\U{FF5C}\U{FF5C}"
  const DsmlMarkers: seq<string> := [DsmlOpen, DsmlClose]

  lemma DsmlIsStable()
    ensures NonEmpty(DsmlMarkers) && Stable(DsmlMarkers)
  {
    assert forall m <- DsmlMarkers :: m == DsmlOpen || m == DsmlClose;
    AnchoredIsStable(DsmlMarkers, '<');
  }

  function Concat(deltas: seq<string>): string {
    if deltas == [] then "" else deltas[0] + Concat(deltas[1..])
  }

  lemma {:induction false} ConcatLast(deltas: seq<string>, last: string)
    ensures Concat(deltas + [last]) == Concat(deltas) + last
  {
    if deltas == [] {
      assert deltas + [last] == [last];
      assert Concat([last]) == last + Concat([]) == last;
    } else {
      ConcatLast(deltas[1..], last);
      assert (deltas + [last])[1..] == deltas[1..] + [last];
    }
  }

  /** The longest suffix of `pending` that is a proper prefix of one of the markers, found by trying
      each marker's lengths from the longest down. */
  method RetainedLength(pending: string, markers: seq<string>) returns (retained: nat)
    ensures retained == Held(pending, markers)
  {
    retained := 0;
    for i := 0 to |markers|
      invariant retained <= |pending|
      invariant retained == 0 || Partial(pending, markers, retained)
      invariant forall j, k :: 0 <= k < i && retained < j <= |pending| && j < |markers[k]| ==>
                  pending[|pending| - j..] != markers[k][..j]
    {
      var marker := markers[i];
      var length := if |marker| - 1 < |pending| then |marker| - 1 else |pending|;
      while length > 0 && pending[|pending| - length..] != marker[..length]
        invariant length <= |pending| && length < |marker|
        invariant forall j :: 0 < j <= |pending| && length < j < |marker| ==>
                    pending[|pending| - j..] != marker[..j]
      {
        length := length - 1;
      }
      if length > retained {
        retained := length;
        assert marker in markers;
      }
    }
    forall j | retained < j <= |pending| ensures !Partial(pending, markers, j) {
    }
    HeldIs(pending, markers, retained);
  }

  class UserText {
    const open: string
    const close: string
    var pending: string
    var blocked: bool
    ghost var seen: string  // everything pushed so far

    ghost function Markers(): seq<string> { [open, close] }

    ghost predicate Valid()
      reads this
    {
      && NonEmpty(Markers()) && Stable(Markers())
      && blocked == HasMarker(seen, Markers())
      && pending == if blocked then "" else Tail(seen, Markers())
    }

    constructor ()
      ensures Valid() && seen == "" && open == DsmlOpen && close == DsmlClose
    {
      open, close := DsmlOpen, DsmlClose;
      pending, blocked, seen := "", false, "";
      new;
      DsmlIsStable();
    }

    /** Returns exactly what the new delta lets through. */
    method Push(delta: string) returns (visible: string)
      requires Valid()
      modifies this
      ensures Valid() && seen == old(seen) + delta
      ensures Emitted(seen, Markers()) == Emitted(old(seen), Markers()) + visible
      ensures (visible, pending, blocked) == Fed(old(pending), old(blocked), delta, Markers())
    {
      ghost var before := seen;
      seen := seen + delta;
      if blocked {
        StableCut(before, delta, Markers());
        return "";
      }
      EmitMore(before, delta, Markers());
      var found;
      visible, pending, found := Scan(pending + delta, open, close);
      blocked := found;
    }

    /** What is left when the response ends. */
    method Finish() returns (visible: string)
      requires Valid()
      modifies this
      ensures Emitted(old(seen), Markers()) + visible == Visible(old(seen), Markers())
      ensures pending == "" && blocked == old(blocked) && seen == old(seen)
    {
      if blocked {
        return "";
      }
      visible := pending;
      pending := "";
    }
  }

  /** The part of push that looks at the pending text: cut it at the earliest marker, or hold back the
      longest suffix that may still become one. */
  method Scan(pending: string, open: string, close: string)
    returns (visible: string, retained: string, found: bool)
    requires NonEmpty([open, close])
    ensures found == HasMarker(pending, [open, close])
    ensures visible == Release(pending, [open, close])
    ensures retained == if found then "" else Tail(pending, [open, close])
  {
    var openAt := Find(pending, open);
    var closeAt := Find(pending, close);
    FirstOfTwo(pending, open, close);
    found := openAt >= 0 || closeAt >= 0;
    if found {
      var position :=
        if openAt < 0 then closeAt
        else if closeAt < 0 then openAt
        else if openAt < closeAt then openAt else closeAt;
      visible, retained := pending[..position], "";
    } else {
      var length := RetainedLength(pending, [open, close]);
      HeldIs(pending, [open, close], length);
      visible, retained := pending[..|pending| - length], pending[|pending| - length..];
    }
  }

  /** The two find results give the earliest marker. */
  lemma FirstOfTwo(t: string, open: string, close: string)
    requires NonEmpty([open, close])
    ensures var openAt, closeAt := Find(t, open), Find(t, close);
            CutPoint(t, [open, close]) ==
            if openAt < 0 && closeAt < 0 then |t|
            else if openAt < 0 then closeAt
            else if closeAt < 0 then openAt
            else if openAt < closeAt then openAt else closeAt
  {
    var openAt, closeAt := Find(t, open), Find(t, close);
    var ms := [open, close];
    assert ms[0] == open && ms[1] == close;
    forall i ensures MarkerAt(t, ms, i) <==> OccursAt(t, open, i) || OccursAt(t, close, i) {
    }
    var first := if openAt < 0 && closeAt < 0 then |t|
                 else if openAt < 0 then closeAt
                 else if closeAt < 0 then openAt
                 else if openAt < closeAt then openAt else closeAt;
    CutPointIs(t, ms, first);
  }

  lemma NothingEmitted(ms: seq<string>)
    ensures Emitted("", ms) == ""
  {
  }

  /** For every cutting of a response into deltas, the user sees the text before the first DSML marker,
      or all of it: the output depends on the text alone. */
  method FilterResponse(deltas: seq<string>) returns (out: string)
    ensures out == Visible(Concat(deltas), DsmlMarkers)
  {
    var filter := new UserText();
    ghost var ms := filter.Markers();
    assert ms == DsmlMarkers;
    out := "";
    NothingEmitted(ms);
    for i := 0 to |deltas|
      invariant filter.Valid() && fresh(filter) && ms == filter.Markers()
      invariant filter.seen == Concat(deltas[..i])
      invariant out == Emitted(filter.seen, ms)
    {
      var visible := filter.Push(deltas[i]);
      out := out + visible;
      ConcatStep(deltas, i);
    }
    assert deltas[..|deltas|] == deltas;
    var tail := filter.Finish();
    out := out + tail;
  }

  lemma ConcatStep(deltas: seq<string>, i: nat)
    requires i < |deltas|
    ensures Concat(deltas[..i + 1]) == Concat(deltas[..i]) + deltas[i]
  {
    assert deltas[..i + 1] == deltas[..i] + [deltas[i]];
    ConcatLast(deltas[..i], deltas[i]);
  }

  // ---- Which markers the filter is right for ----

  /** One push on a filter that holds `pending` back: what it lets through, and what it holds then. */
  ghost function Fed(pending: string, blocked: bool, delta: string, ms: seq<string>): (string, string, bool) {
    if blocked then ("", pending, true)
    else if HasMarker(pending + delta, ms) then (Release(pending + delta, ms), "", true)
    else (Release(pending + delta, ms), Tail(pending + delta, ms), false)
  }

  /** The output of the filter for some deltas. */
  ghost function Filtered(pending: string, blocked: bool, deltas: seq<string>, ms: seq<string>): string
    decreases deltas
  {
    if deltas == [] then if blocked then "" else pending
    else
      var (visible, pending', blocked') := Fed(pending, blocked, deltas[0], ms);
      visible + Filtered(pending', blocked', deltas[1..], ms)
  }

  lemma {:induction false} FilteredIs(t: string, deltas: seq<string>, ms: seq<string>)
    requires NonEmpty(ms) && Stable(ms)
    ensures Emitted(t, ms) + Filtered(if HasMarker(t, ms) then "" else Tail(t, ms), HasMarker(t, ms), deltas, ms)
      == Visible(t + Concat(deltas), ms)
    decreases deltas
  {
    hide Emitted, Tail, Release, Visible, HasMarker, Stable;
    if deltas == [] {
      assert t + Concat(deltas) == t;
      if HasMarker(t, ms) { EmittedAll(t, ms); } else { TailCompletes(t, ms); }
    } else {
      var d := deltas[0];
      FilteredIs(t + d, deltas[1..], ms);
      assert t + d + Concat(deltas[1..]) == t + Concat(deltas);
      if HasMarker(t, ms) {
        StableCut(t, d, ms);
        EmittedAll(t, ms);
        EmittedAll(t + d, ms);
        VisibleStays(t, d, ms);
      } else {
        EmitMore(t, d, ms);
        TailIs(Tail(t, ms) + d, ms);
      }
    }
  }

  lemma TailIs(u: string, ms: seq<string>)
    ensures Tail(u, ms) == u[|u| - Held(u, ms)..]
  {
  }

  lemma EmittedAll(t: string, ms: seq<string>)
    requires HasMarker(t, ms)
    ensures Emitted(t, ms) == Visible(t, ms)
  {
  }

  lemma TailCompletes(t: string, ms: seq<string>)
    requires !HasMarker(t, ms)
    ensures Emitted(t, ms) + Tail(t, ms) == t == Visible(t, ms)
  {
  }

  lemma VisibleStays(t: string, d: string, ms: seq<string>)
    requires HasMarker(t, ms) && CutPoint(t + d, ms) == CutPoint(t, ms)
    ensures Visible(t + d, ms) == Visible(t, ms)
  {
  }

  lemma StartsEmpty(deltas: seq<string>, ms: seq<string>)
    requires NonEmpty(ms)
    ensures !HasMarker("", ms) && Emitted("", ms) == "" && Tail("", ms) == ""
  {
  }

  /** After a text with a marker, the filter has let through what precedes the first one, and lets through
      no more. */
  lemma FirstThenMore(t: string, more: seq<string>, ms: seq<string>)
    requires NonEmpty(ms) && HasMarker(t, ms)
    ensures Filtered("", false, [t] + more, ms) == Visible(t, ms)
  {
    assert "" + t == t && ([t] + more)[1..] == more;
    BlockedShowsNothing(more, ms);
  }

  lemma {:induction false} BlockedShowsNothing(deltas: seq<string>, ms: seq<string>)
    ensures Filtered("", true, deltas, ms) == ""
    decreases deltas
  {
    if deltas != [] { BlockedShowsNothing(deltas[1..], ms); }
  }

  /** The markers for which the filter is independent of the chunking are exactly the stable ones. */
  lemma ChunkIndependentIff(ms: seq<string>)
    requires NonEmpty(ms)
    ensures Stable(ms) <==>
      forall deltas: seq<string> :: Filtered("", false, deltas, ms) == Visible(Concat(deltas), ms)
  {
    if Stable(ms) {
      forall deltas: seq<string> ensures Filtered("", false, deltas, ms) == Visible(Concat(deltas), ms) {
        StartsEmpty(deltas, ms);
        FilteredIs("", deltas, ms);
        assert "" + Concat(deltas) == Concat(deltas);
      }
    } else {
      StableIff(ms);
      var t, d :| HasMarker(t, ms) && CutPoint(t + d, ms) != CutPoint(t, ms);
      FirstThenMore(t, [d], ms);
      assert [t] + [d] == [t, d];
      assert Concat([t, d]) == t + d by { assert [t, d][1..] == [d] && Concat([d]) == d + Concat([]) == d; }
      assert |Visible(t, ms)| == CutPoint(t, ms) && |Visible(t + d, ms)| == CutPoint(t + d, ms);
    }
  }

  /** For an arbitrary pair the output depends on the chunking: "abcd" in one piece starts with the second
      marker, and shows nothing; cut before its last character, it shows what precedes the first. */
  lemma UnanchoredPairIsUnstable()
    ensures !Stable(["bc", "abcd"])
    ensures Filtered("", false, ["abcd"], ["bc", "abcd"]) == ""
    ensures Filtered("", false, ["abc", "d"], ["bc", "abcd"]) == "a"
  {
    var short, long := "bc", "abcd";
    var ms := [short, long];
    assert ms[0] == short && ms[1] == long;
    ShortMarkerFirst(ms);
    FirstThenMore("abc", ["d"], ms);
    assert ["abc"] + ["d"] == ["abc", "d"];
    assert OccursAt(long, ms[1], 0) && MarkerAt(long, ms, 0);
    CutPointIs(long, ms, 0);
    FirstThenMore(long, [], ms);
    assert [long] + [] == [long];
    assert long[..3] == "abc" && !MarkerAt("abc", ms, 0);
  }

  lemma ShortMarkerFirst(ms: seq<string>)
    requires ms == ["bc", "abcd"]
    ensures HasMarker("abc", ms) && Visible("abc", ms) == "a" && !MarkerAt("abc", ms, 0)
  {
    var start, short, long := "abc", "bc", "abcd";
    assert ms[0] == short && ms[1] == long;
    assert start[1..3] == short;
    assert OccursAt(start, ms[0], 1) && MarkerAt(start, ms, 1);
    assert start[0..2][0] != short[0];
    assert !OccursAt(start, short, 0) && !OccursAt(start, long, 0);
    CutPointIs(start, ms, 1);
  }

  /** What the user sees never contains a marker. */
  lemma VisibleIsClean(t: string, ms: seq<string>)
    requires NonEmpty(ms) && Stable(ms)
    ensures !HasMarker(Visible(t, ms), ms)
  {
    var c := CutPoint(t, ms);
    assert t == t[..c] + t[c..];
    if HasMarker(t[..c], ms) {
      StableCut(t[..c], t[c..], ms);
    }
  }
}

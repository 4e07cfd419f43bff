/** _ReviewTextStream of app/services/business_imports.py and its agreement with the regular expression
    that later parses the whole completion. */
module ReviewTextStream {
  import opened MarkerFilter
  import opened Whitespace
  import opened IncrementalUserText

  const OpenTag: string := "<review_report>"
  const CloseTag: string := "</review_report>"

  /** What the stream has shown after reading t. */
  ghost function Shown(t: string, open: string, close: string): string
    requires open != "" && close != ""
  {
    if !HasMarker(t, [open]) then "" else Emitted(After(t, open), [close])
  }

  /** _keep_marker_prefix. */
  method KeepMarkerPrefix(value: string, marker: string) returns (kept: string)
    ensures kept == Tail(value, [marker])
  {
    var length := if |value| < |marker| - 1 then |value| else |marker| - 1;
    while length > 0
      invariant length <= |value| && length < |marker|
      invariant forall j :: 0 < j <= |value| && length < j < |marker| ==>
                  value[|value| - j..] != marker[..j]
    {
      if value[|value| - length..] == marker[..length] {
        assert marker in [marker];
        HeldIs(value, [marker], length);
        return value[|value| - length..];
      }
      length := length - 1;
    }
    HeldIs(value, [marker], 0);
    return "";
  }

  /** _split_marker_prefix. */
  method SplitMarkerPrefix(value: string, marker: string) returns (visible: string, retained: string)
    ensures retained == Tail(value, [marker]) && visible + retained == value
  {
    retained := KeepMarkerPrefix(value, marker);
    if retained == "" {
      visible := value;
    } else {
      visible := value[..|value| - |retained|];
    }
  }

  /** The part of push that looks for the close tag in the pending text. */
  method ScanForClose(pending: string, close: string) returns (visible: string, retained: string, found: bool)
    requires close != ""
    ensures NonEmpty([close])
    ensures found == HasMarker(pending, [close])
    ensures visible == Release(pending, [close])
    ensures retained == if found then "" else Tail(pending, [close])
  {
    FindIsCut(pending, close);
    var end := Find(pending, close);
    found := end >= 0;
    if found {
      visible, retained := pending[..end], "";
    } else {
      visible, retained := SplitMarkerPrefix(pending, close);
      assert pending == pending[..|pending| - Held(pending, [close])] + retained;
    }
  }

  datatype Phase = Seeking | Report | Finished

  /** The pending text decides what the step from t to t' shows and keeps. */
  ghost predicate Progress(t: string, t': string, pending: string, open: string, close: string)
    requires open != "" && close != ""
  {
    && HasMarker(t', [open])
    && (HasMarker(After(t', open), [close]) <==> HasMarker(pending, [close]))
    && Tail(After(t', open), [close]) == Tail(pending, [close])
    && Shown(t', open, close) == Shown(t, open, close) + Release(pending, [close])
  }

  method AfterTag(pending: string, open: string, start: nat) returns (rest: string)
    requires open != "" && start == Find(pending, open)
    ensures HasMarker(pending, [open]) && rest == After(pending, open)
  {
    FindIsCut(pending, open);
    rest := pending[start + |open|..];
  }

  lemma SeekMore(t: string, d: string, open: string, close: string)
    requires open != "" && close != "" && !HasMarker(t, [open])
    ensures var u := Tail(t, [open]) + d;
            && Shown(t, open, close) == ""
            && (HasMarker(t + d, [open]) <==> HasMarker(u, [open]))
            && (if HasMarker(u, [open])
                then After(t + d, open) == After(u, open) &&
                     Shown(t + d, open, close) == Release(After(u, open), [close])
                else Tail(t + d, [open]) == Tail(u, [open]) && Shown(t + d, open, close) == "")
  {
    Arrives(t, d, open);
  }

  lemma ReportMore(t: string, d: string, open: string, close: string)
    requires open != "" && close != ""
    requires HasMarker(t, [open]) && !HasMarker(After(t, open), [close])
    ensures HasMarker(t + d, [open])
    ensures var w := Tail(After(t, open), [close]) + d;
            && (HasMarker(After(t + d, open), [close]) <==> HasMarker(w, [close]))
            && Tail(After(t + d, open), [close]) == Tail(w, [close])
            && Shown(t + d, open, close) == Shown(t, open, close) + Release(w, [close])
  {
    Stays(t, d, open);
    EmitMore(After(t, open), d, [close]);
  }

  lemma FinishedMore(t: string, d: string, open: string, close: string)
    requires open != "" && close != ""
    requires HasMarker(t, [open]) && HasMarker(After(t, open), [close])
    ensures HasMarker(t + d, [open]) && HasMarker(After(t + d, open), [close])
    ensures Shown(t + d, open, close) == Shown(t, open, close)
  {
    Stays(t, d, open);
    StableCut(After(t, open), d, [close]);
  }

  class ReviewStream {
    const open: string
    const close: string
    var pending: string
    var phase: Phase
    ghost var seen: string  // everything pushed so far

    ghost predicate Valid()
      reads this
    {
      && open != "" && close != ""
      && match phase
         case Seeking => !HasMarker(seen, [open]) && pending == Tail(seen, [open])
         case Report =>
           && HasMarker(seen, [open]) && !HasMarker(After(seen, open), [close])
           && pending == Tail(After(seen, open), [close])
         case Finished => HasMarker(seen, [open]) && HasMarker(After(seen, open), [close])
    }

    constructor ()
      ensures Valid() && seen == "" && open == OpenTag && close == CloseTag
    {
      open, close := OpenTag, CloseTag;
      pending, phase, seen := "", Seeking, "";
    }

    /** Returns exactly what the new piece of the completion shows. */
    method Push(value: string) returns (visible: string)
      requires Valid()
      modifies this
      ensures Valid() && seen == old(seen) + value
      ensures Shown(seen, open, close) == Shown(old(seen), open, close) + visible
    {
      ghost var before := seen;
      seen := seen + value;
      pending := pending + value;
      if phase == Finished {
        FinishedMore(before, value, open, close);
        pending := "";
        return "";
      }
      if phase == Seeking {
        SeekMore(before, value, open, close);
        FindIsCut(pending, open);
        var start := Find(pending, open);
        if start < 0 {
          pending := KeepMarkerPrefix(pending, open);
          return "";
        }
        phase := Report;
        pending := AfterTag(pending, open, start);
        assert Progress(before, seen, pending, open, close);
      } else {
        ReportMore(before, value, open, close);
        assert Progress(before, seen, pending, open, close);
      }
      var found;
      visible, pending, found := ScanForClose(pending, close);
      if found {
        phase := Finished;
      }
    }
  }

  /** For every chunking, what is shown depends on the completion alone. */
  method StreamReport(deltas: seq<string>) returns (out: string)
    ensures out == Shown(Concat(deltas), OpenTag, CloseTag)
  {
    var stream := new ReviewStream();
    ghost var open, close := stream.open, stream.close;
    out := "";
    for i := 0 to |deltas|
      invariant stream.Valid() && fresh(stream) && open == stream.open && close == stream.close
      invariant stream.seen == Concat(deltas[..i])
      invariant out == Shown(stream.seen, open, close)
    {
      var visible := stream.Push(deltas[i]);
      out := out + visible;
      ConcatStep(deltas, i);
    }
    assert deltas[..|deltas|] == deltas;
  }

  /** With a close tag after the first open tag, exactly the text between them is shown. */
  lemma ShowsTextBetweenTags(before: string, body: string, after: string, open: string, close: string)
    requires open != "" && close != ""
    requires forall i :: 0 <= i < |before| ==> !OccursAt(before + open + (body + close + after), open, i)
    requires forall i :: 0 <= i < |body| ==> !OccursAt(body + close + after, close, i)
    ensures Shown(before + open + (body + close + after), open, close) == body
  {
    var rest := body + close + after;
    var t := before + open + rest;
    assert OccursAt(t, open, |before|);
    assert MarkerAt(t, [open], |before|) by { assert open in [open]; }
    CutPointIs(t, [open], |before|);
    assert After(t, open) == rest;
    assert OccursAt(rest, close, |body|);
    assert MarkerAt(rest, [close], |body|) by { assert close in [close]; }
    CutPointIs(rest, [close], |body|);
  }

  // ---- The regular expression <review_report>\s*(?P<report>.*?)\s*</review_report> ----

  /** One way the pattern can match: the tag at o, white space up to a, the group up to g, white space
      up to b, the close tag at b. */
  ghost predicate Matches(t: string, open: string, close: string, o: int, a: int, g: int, b: int) {
    && 0 <= o && o + |open| <= a <= g <= b <= |t|
    && OccursAt(t, open, o)
    && AllSpace(t[o + |open|..a])
    && AllSpace(t[g..b])
    && OccursAt(t, close, b)
  }

  ghost predicate MatchesFrom(t: string, open: string, close: string, o: int, a: int, g: int) {
    exists b :: Matches(t, open, close, o, a, g, b)
  }

  /** What search() returns: the leftmost start, then the longest leading white space, then the
      shortest group. */
  ghost predicate SearchResult(t: string, open: string, close: string, o: int, a: int, g: int) {
    && MatchesFrom(t, open, close, o, a, g)
    && (forall o', a', g' :: o' < o ==> !MatchesFrom(t, open, close, o', a', g'))
    && (forall a', g' :: a' > a ==> !MatchesFrom(t, open, close, o, a', g'))
    && (forall g' :: g' < g ==> !MatchesFrom(t, open, close, o, a, g'))
  }

  /** The first open tag is no later than any match, and the first close tag after it no later than
      that match's. */
  lemma FirstTags(t: string, open: string, close: string, o: int, a: int, g: int, b: int)
    requires open != "" && close != "" && Matches(t, open, close, o, a, g, b)
    ensures HasMarker(t, [open]) && HasMarker(After(t, open), [close])
    ensures var first := CutPoint(t, [open]);
            var c := first + |open| + CutPoint(After(t, open), [close]);
            && first <= o && OccursAt(t, open, first)
            && c <= b && OccursAt(t, close, c)
            && Shown(t, open, close) == t[first + |open|..c]
  {
    assert open in [open] && close in [close];
    assert MarkerAt(t, [open], o);
    var start := CutPoint(t, [open]) + |open|;
    OccursInSuffix(t, start, close, b);
    assert MarkerAt(After(t, open), [close], b - start);
    OccursInSuffix(t, start, close, start + CutPoint(After(t, open), [close]));
  }

  lemma SearchStartsAtFirstOpen(t: string, open: string, close: string, o: int, a: int, g: int)
    requires open != "" && close != ""
    requires SearchResult(t, open, close, o, a, g)
    ensures HasMarker(t, [open]) && HasMarker(After(t, open), [close])
    ensures o == CutPoint(t, [open])
  {
    var b :| Matches(t, open, close, o, a, g, b);
    FirstTags(t, open, close, o, a, g, b);
    var first := CutPoint(t, [open]);
    var start := first + |open|;
    var c := start + CutPoint(After(t, open), [close]);
    assert Matches(t, open, close, first, start, c, c);
    assert MatchesFrom(t, open, close, first, start, c);
  }

  lemma ShortestGroup(t: string, open: string, close: string, o: int, a: int, g: int, c: int)
    requires SearchResult(t, open, close, o, a, g) && Matches(t, open, close, o, a, c, c)
    ensures g <= c
  {
    assert MatchesFrom(t, open, close, o, a, c);
  }

  lemma SearchEndsAtFirstClose(t: string, open: string, close: string, o: int, a: int, g: int) returns (c: int)
    requires open != "" && close != "" && !IsSpace(close[0])
    requires SearchResult(t, open, close, o, a, g)
    ensures Matches(t, open, close, o, a, g, c)
    ensures Shown(t, open, close) == t[o + |open|..c]
  {
    SearchStartsAtFirstOpen(t, open, close, o, a, g);
    var b :| Matches(t, open, close, o, a, g, b);
    c := FirstClose(t, open, close, o, a, g, b);
    ShortestGroup(t, open, close, o, a, g, c);
  }

  lemma FirstClose(t: string, open: string, close: string, o: int, a: int, g: int, b: int) returns (c: int)
    requires open != "" && close != "" && !IsSpace(close[0])
    requires Matches(t, open, close, o, a, g, b)
    requires o == CutPoint(t, [open])
    ensures c <= b && Matches(t, open, close, o, a, c, c)
    ensures Shown(t, open, close) == t[o + |open|..c]
  {
    FirstTags(t, open, close, o, a, g, b);
    c := o + |open| + CutPoint(After(t, open), [close]);
  }

  /** The report the pattern stores, stripped, is the streamed report, stripped. */
  lemma RegexAgreesWithStream(t: string, open: string, close: string, o: int, a: int, g: int)
    requires open != "" && close != "" && !IsSpace(close[0])
    requires SearchResult(t, open, close, o, a, g)
    ensures HasMarker(t, [open]) && HasMarker(After(t, open), [close])
    ensures 0 <= a <= g <= |t| && Strip(t[a..g]) == Strip(Shown(t, open, close))
  {
    SearchStartsAtFirstOpen(t, open, close, o, a, g);
    var c := SearchEndsAtFirstClose(t, open, close, o, a, g);
    var start := o + |open|;
    assert t[start..c] == t[start..a] + t[a..g] + t[g..c];
    StripPadded(t[start..a], t[a..g], t[g..c]);
  }

  /** The pattern can match exactly when the stream has seen its close tag. */
  lemma RegexMatchesIffFinished(t: string, open: string, close: string)
    requires open != "" && close != ""
    ensures (exists o, a, g :: MatchesFrom(t, open, close, o, a, g)) <==>
            HasMarker(t, [open]) && HasMarker(After(t, open), [close])
  {
    if o, a, g :| MatchesFrom(t, open, close, o, a, g) {
      var b :| Matches(t, open, close, o, a, g, b);
      FirstTags(t, open, close, o, a, g, b);
    }
    if HasMarker(t, [open]) && HasMarker(After(t, open), [close]) {
      var o := CutPoint(t, [open]);
      var start := o + |open|;
      var c := start + CutPoint(After(t, open), [close]);
      OccursInSuffix(t, start, close, c);
      assert Matches(t, open, close, o, start, c, c);
      assert MatchesFrom(t, open, close, o, start, c);
    }
  }
}

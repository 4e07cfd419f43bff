/** Text facts shared by the two streaming filters: occurrences of markers, the earliest occurrence,
    and the longest suffix that may still grow into a marker. */
module MarkerFilter {

  predicate OccursAt(t: string, m: string, i: int) {
    0 <= i && i + |m| <= |t| && t[i..i + |m|] == m
  }

  predicate MarkerAt(t: string, ms: seq<string>, i: int) {
    exists m <- ms :: OccursAt(t, m, i)
  }

  predicate NonEmpty(ms: seq<string>) {
    "" !in ms
  }

  /** r is the position of the first occurrence of m at or after `from`, or -1. */
  ghost predicate IsFirst(t: string, m: string, from: nat, r: int) {
    && -1 <= r
    && (r >= 0 ==> from <= r && OccursAt(t, m, r))
    && forall i :: from <= i && (r < 0 || i < r) ==> !OccursAt(t, m, i)
  }

  ghost function First(t: string, m: string, from: nat := 0): (r: int)
    ensures IsFirst(t, m, from, r)
  {
    assert IsFirst(t, m, from, Find(t, m, from));
    var r :| IsFirst(t, m, from, r);
    r
  }

  /** Python's t.find(m, from). */
  function Find(t: string, m: string, from: nat := 0): (r: int)
    ensures IsFirst(t, m, from, r)
    decreases |t| - from
  {
    if from + |m| > |t| then -1
    else if OccursAt(t, m, from) then from
    else Find(t, m, from + 1)
  }

  /** c is the position of the earliest marker, or the length of the text. */
  ghost predicate IsCutPoint(t: string, ms: seq<string>, c: nat) {
    && c <= |t|
    && (c < |t| ==> MarkerAt(t, ms, c))
    && forall i :: 0 <= i < c ==> !MarkerAt(t, ms, i)
  }

  ghost function CutPoint(t: string, ms: seq<string>): (c: nat)
    ensures IsCutPoint(t, ms, c)
  {
    CutPointExists(t, ms, 0);
    var c: nat :| IsCutPoint(t, ms, c);
    c
  }

  lemma {:induction false} CutPointExists(t: string, ms: seq<string>, from: nat)
    requires from <= |t| && forall i :: 0 <= i < from ==> !MarkerAt(t, ms, i)
    ensures exists c: nat :: IsCutPoint(t, ms, c)
    decreases |t| - from
  {
    if from == |t| || MarkerAt(t, ms, from) {
      assert IsCutPoint(t, ms, from);
    } else {
      CutPointExists(t, ms, from + 1);
    }
  }

  lemma CutPointIs(t: string, ms: seq<string>, c: nat)
    requires IsCutPoint(t, ms, c)
    ensures CutPoint(t, ms) == c
  {
  }

  ghost predicate HasMarker(t: string, ms: seq<string>) {
    CutPoint(t, ms) < |t|
  }

  lemma HasMarkerIff(t: string, ms: seq<string>)
    requires NonEmpty(ms)
    ensures HasMarker(t, ms) <==> exists i :: MarkerAt(t, ms, i)
  {
    if i :| MarkerAt(t, ms, i) {
      assert 0 <= i < |t|;
    }
  }

  /** The text before the earliest marker. */
  ghost function Visible(t: string, ms: seq<string>): string {
    t[..CutPoint(t, ms)]
  }

  /** The last k characters are a proper prefix of some marker. */
  predicate Partial(t: string, ms: seq<string>, k: int) {
    0 < k <= |t| && exists m <- ms :: k < |m| && t[|t| - k..] == m[..k]
  }

  ghost predicate IsHeld(t: string, ms: seq<string>, k: nat) {
    && (k == 0 || Partial(t, ms, k))
    && forall j :: k < j <= |t| ==> !Partial(t, ms, j)
  }

  /** The length of the longest suffix that is a proper prefix of a marker. */
  ghost function Held(t: string, ms: seq<string>): (k: nat)
    ensures k <= |t| && IsHeld(t, ms, k)
  {
    HeldExists(t, ms, |t|);
    var k: nat :| IsHeld(t, ms, k);
    k
  }

  lemma {:induction false} HeldExists(t: string, ms: seq<string>, limit: nat)
    requires limit <= |t| && forall j :: limit < j <= |t| ==> !Partial(t, ms, j)
    ensures exists k: nat :: IsHeld(t, ms, k)
  {
    if limit == 0 || Partial(t, ms, limit) {
      assert IsHeld(t, ms, limit);
    } else {
      HeldExists(t, ms, limit - 1);
    }
  }

  lemma HeldIs(t: string, ms: seq<string>, k: nat)
    requires IsHeld(t, ms, k)
    ensures Held(t, ms) == k
  {
  }

  /** What a filter has let through after reading t. */
  ghost function Emitted(t: string, ms: seq<string>): string {
    if HasMarker(t, ms) then Visible(t, ms) else t[..|t| - Held(t, ms)]
  }

  /** The part of t that still matters. */
  ghost function Tail(t: string, ms: seq<string>): string {
    t[|t| - Held(t, ms)..]
  }

  lemma OccursInSuffix(t: string, n: nat, m: string, i: int)
    requires n <= |t| && n <= i
    ensures OccursAt(t, m, i) <==> OccursAt(t[n..], m, i - n)
  {
    if i + |m| <= |t| {
      assert t[i..i + |m|] == t[n..][i - n..i - n + |m|];
    }
  }

  lemma OccursInPrefix(t: string, d: string, m: string, i: int)
    requires i + |m| <= |t|
    ensures OccursAt(t + d, m, i) <==> OccursAt(t, m, i)
  {
    if 0 <= i {
      assert (t + d)[i..i + |m|] == t[i..i + |m|];
    }
  }

  /** An occurrence that reaches past t starts inside the held tail. */
  lemma StraddlingStartsInTail(t: string, d: string, ms: seq<string>, m: string, i: int)
    requires m in ms && OccursAt(t + d, m, i) && i < |t| < i + |m|
    ensures i >= |t| - Held(t, ms)
  {
    var k := |t| - i;
    assert t[i..] == (t + d)[i..i + |m|][..k];
    assert Partial(t, ms, k);
  }

  /** While t has no marker, everything about t + d can be read off Tail(t) + d. */
  lemma TailSufficesForMarkers(t: string, d: string, ms: seq<string>, i: int)
    requires NonEmpty(ms) && !HasMarker(t, ms)
    ensures var n := |t| - Held(t, ms);
            MarkerAt(t + d, ms, i) <==> n <= i && MarkerAt(Tail(t, ms) + d, ms, i - n)
  {
    var n := |t| - Held(t, ms);
    assert (t + d)[n..] == Tail(t, ms) + d;
    if MarkerAt(t + d, ms, i) {
      var m :| m in ms && OccursAt(t + d, m, i);
      if i + |m| <= |t| {
        OccursInPrefix(t, d, m, i);
        assert MarkerAt(t, ms, i);
        assert false;
      }
      if i < |t| { StraddlingStartsInTail(t, d, ms, m, i); }
      OccursInSuffix(t + d, n, m, i);
    }
    if n <= i && MarkerAt(Tail(t, ms) + d, ms, i - n) {
      var m :| m in ms && OccursAt(Tail(t, ms) + d, m, i - n);
      OccursInSuffix(t + d, n, m, i);
    }
  }

  lemma TailSufficesForCut(t: string, d: string, ms: seq<string>)
    requires NonEmpty(ms) && !HasMarker(t, ms)
    ensures var n := |t| - Held(t, ms);
            && CutPoint(t + d, ms) == n + CutPoint(Tail(t, ms) + d, ms)
            && (HasMarker(t + d, ms) <==> HasMarker(Tail(t, ms) + d, ms))
  {
    var n := |t| - Held(t, ms);
    var u := Tail(t, ms) + d;
    var c := CutPoint(u, ms);
    forall i ensures MarkerAt(t + d, ms, i) <==> n <= i && MarkerAt(u, ms, i - n) {
      TailSufficesForMarkers(t, d, ms, i);
    }
    CutPointIs(t + d, ms, n + c);
  }

  lemma PartialShrinks(t: string, d: string, ms: seq<string>, k: int)
    requires |d| < k && Partial(t + d, ms, k)
    ensures Partial(t, ms, k - |d|)
  {
    var m :| m in ms && k < |m| && (t + d)[|t + d| - k..] == m[..k];
    var j := k - |d|;
    assert t[|t| - j..] == (t + d)[|t + d| - k..][..j] == m[..j];
  }

  lemma PartialInTail(t: string, d: string, ms: seq<string>, k: int)
    requires 0 < k <= |t + d|
    ensures Partial(t + d, ms, k) <==> k <= |Tail(t, ms) + d| && Partial(Tail(t, ms) + d, ms, k)
  {
    var u := Tail(t, ms) + d;
    if k <= |u| {
      assert (t + d)[|t + d| - k..] == u[|u| - k..];
    } else if Partial(t + d, ms, k) {
      PartialShrinks(t, d, ms, k);
    }
  }

  lemma TailSufficesForHeld(t: string, d: string, ms: seq<string>)
    ensures Held(t + d, ms) == Held(Tail(t, ms) + d, ms)
  {
    var u := Tail(t, ms) + d;
    forall k | 0 < k <= |t + d| ensures Partial(t + d, ms, k) <==> k <= |u| && Partial(u, ms, k) {
      PartialInTail(t, d, ms, k);
    }
    HeldIs(t + d, ms, Held(u, ms));
  }

  /** What a filter lets through of the text u it holds. */
  ghost function Release(u: string, ms: seq<string>): string {
    if HasMarker(u, ms) then u[..CutPoint(u, ms)] else u[..|u| - Held(u, ms)]
  }

  lemma EmitMoreHeld(t: string, d: string, ms: seq<string>)
    requires NonEmpty(ms) && !HasMarker(t, ms)
    ensures var u := Tail(t, ms) + d;
            var n := |t + d| - Held(t + d, ms);
            && (t + d)[..n] == t[..|t| - Held(t, ms)] + u[..|u| - Held(u, ms)]
            && Tail(t + d, ms) == u[|u| - Held(u, ms)..]
  {
    TailSufficesForHeld(t, d, ms);
    var u := Tail(t, ms) + d;
    SplitAt(t, d, |t| - Held(t, ms), |u| - Held(u, ms));
  }

  lemma EmitMoreMarked(t: string, d: string, ms: seq<string>)
    requires NonEmpty(ms) && !HasMarker(t, ms)
    ensures var u := Tail(t, ms) + d;
            && (HasMarker(t + d, ms) <==> HasMarker(u, ms))
            && Visible(t + d, ms) == t[..|t| - Held(t, ms)] + u[..CutPoint(u, ms)]
  {
    TailSufficesForCut(t, d, ms);
    SplitAt(t, d, |t| - Held(t, ms), CutPoint(Tail(t, ms) + d, ms));
  }

  /** Feeding d to a filter that has read t and not met a marker. */
  lemma EmitMore(t: string, d: string, ms: seq<string>)
    requires NonEmpty(ms) && !HasMarker(t, ms)
    ensures var u := Tail(t, ms) + d;
            && (HasMarker(t + d, ms) <==> HasMarker(u, ms))
            && Emitted(t + d, ms) == Emitted(t, ms) + Release(u, ms)
            && Tail(t + d, ms) == u[|u| - Held(u, ms)..]
  {
    EmitMoreHeld(t, d, ms);
    EmitMoreMarked(t, d, ms);
  }

  lemma SplitAt(t: string, d: string, n: nat, k: nat)
    requires n <= |t| && k <= |t[n..] + d|
    ensures (t + d)[..n + k] == t[..n] + (t[n..] + d)[..k]
    ensures (t + d)[n + k..] == (t[n..] + d)[k..]
  {
    assert t + d == t[..n] + (t[n..] + d);
  }

  /** Each marker whose prefix already contains a marker begins with one: what a filter decided when it
      first met a marker is never overturned by later text. */
  ghost predicate Stable(ms: seq<string>) {
    forall m, q :: m in ms && 0 <= q <= |m| && HasMarker(m[..q], ms) ==> MarkerAt(m[..q], ms, 0)
  }

  /** A marker that begins before another one and reaches past t has that other one inside a prefix. */
  lemma StraddlerContains(t: string, d: string, ms: seq<string>, m: string, j: nat, c: nat)
    requires NonEmpty(ms) && m in ms && OccursAt(t + d, m, j) && j <= c <= |t| < j + |m|
    requires MarkerAt(t, ms, c)
    ensures m[..|t| - j] == t[j..]
    ensures HasMarker(m[..|t| - j], ms)
  {
    var q := |t| - j;
    assert t[j..] == (t + d)[j..j + |m|][..q] == m[..q];
    var found :| found in ms && OccursAt(t, found, c);
    OccursInSuffix(t, j, found, c);
    assert MarkerAt(m[..q], ms, c - j);
    HasMarkerIff(m[..q], ms);
  }

  lemma StableStart(t: string, d: string, ms: seq<string>, j: nat, c: nat)
    requires Stable(ms) && j <= c && MarkerAt(t, ms, c) && MarkerAt(t + d, ms, j)
    requires NonEmpty(ms)
    ensures MarkerAt(t, ms, j)
  {
    var m :| m in ms && OccursAt(t + d, m, j);
    if j + |m| <= |t| {
      OccursInPrefix(t, d, m, j);
    } else {
      StraddlerContains(t, d, ms, m, j, c);
      var other :| other in ms && OccursAt(m[..|t| - j], other, 0);
      OccursInSuffix(t, j, other, j);
    }
  }

  lemma StableCut(t: string, d: string, ms: seq<string>)
    requires NonEmpty(ms) && Stable(ms) && HasMarker(t, ms)
    ensures HasMarker(t + d, ms) && CutPoint(t + d, ms) == CutPoint(t, ms)
  {
    var c := CutPoint(t, ms);
    var found :| found in ms && OccursAt(t, found, c);
    OccursInPrefix(t, d, found, c);
    assert MarkerAt(t + d, ms, c);
    forall j | 0 <= j < c ensures !MarkerAt(t + d, ms, j) {
      if MarkerAt(t + d, ms, j) {
        StableStart(t, d, ms, j, c);
      }
    }
    CutPointIs(t + d, ms, c);
  }

  /** Stability of the markers is exactly what chunk-independence of the first cut needs. */
  lemma StableIff(ms: seq<string>)
    requires NonEmpty(ms)
    ensures Stable(ms) <==>
            forall t: string, d: string :: HasMarker(t, ms) ==> CutPoint(t + d, ms) == CutPoint(t, ms)
  {
    if Stable(ms) {
      forall t: string, d: string | HasMarker(t, ms) ensures CutPoint(t + d, ms) == CutPoint(t, ms) {
        StableCut(t, d, ms);
      }
    }
    if forall t: string, d: string :: HasMarker(t, ms) ==> CutPoint(t + d, ms) == CutPoint(t, ms) {
      forall m, q | m in ms && 0 <= q <= |m| && HasMarker(m[..q], ms) ensures MarkerAt(m[..q], ms, 0) {
        assert m[..q] + m[q..] == m;
        assert OccursAt(m, m, 0) && MarkerAt(m, ms, 0);
        CutPointIs(m, ms, 0);
        assert CutPoint(m[..q] + m[q..], ms) == CutPoint(m[..q], ms);
      }
    }
  }

  /** Markers that all begin with a character they contain nowhere else are stable. */
  lemma AnchoredIsStable(ms: seq<string>, anchor: char)
    requires forall m <- ms :: |m| > 0 && m[0] == anchor && anchor !in m[1..]
    ensures NonEmpty(ms) && Stable(ms)
  {
    forall m, q | m in ms && 0 <= q <= |m| && HasMarker(m[..q], ms) ensures MarkerAt(m[..q], ms, 0) {
      HasMarkerIff(m[..q], ms);
      var i :| MarkerAt(m[..q], ms, i);
      var found :| found in ms && OccursAt(m[..q], found, i);
      assert m[i] == m[..q][i..i + |found|][0];
    }
  }

  // ---- The text after the first occurrence of one marker ----

  lemma FindIsCut(t: string, m: string)
    requires m != ""
    ensures NonEmpty([m])
    ensures Find(t, m) < 0 ==> !HasMarker(t, [m])
    ensures Find(t, m) >= 0 ==> HasMarker(t, [m]) && CutPoint(t, [m]) == Find(t, m)
  {
    var r := Find(t, m);
    if r >= 0 {
      assert m in [m];
      assert MarkerAt(t, [m], r);
      CutPointIs(t, [m], r);
    }
  }

  ghost function After(t: string, m: string): string
    requires m != "" && HasMarker(t, [m])
  {
    t[CutPoint(t, [m]) + |m|..]
  }

  /** Before the marker has arrived, its arrival is decided by the held tail. */
  lemma Arrives(t: string, d: string, m: string)
    requires m != "" && !HasMarker(t, [m])
    ensures var u := Tail(t, [m]) + d;
            && (HasMarker(t + d, [m]) <==> HasMarker(u, [m]))
            && (HasMarker(u, [m]) ==> After(t + d, m) == After(u, m))
            && Tail(t + d, [m]) == Tail(u, [m])
  {
    TailSufficesForCut(t, d, [m]);
    EmitMoreHeld(t, d, [m]);
    var u := Tail(t, [m]) + d;
    if HasMarker(u, [m]) {
      SplitAt(t, d, |t| - Held(t, [m]), CutPoint(u, [m]) + |m|);
    }
  }

  /** Once it has arrived, everything further comes after it. */
  lemma Stays(t: string, d: string, m: string)
    requires m != "" && HasMarker(t, [m])
    ensures HasMarker(t + d, [m]) && After(t + d, m) == After(t, m) + d
  {
    StableCut(t, d, [m]);
  }
}

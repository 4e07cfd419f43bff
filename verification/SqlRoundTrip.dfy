/** Splitting loses nothing, cuts only between complete lexemes, and is stable under re-joining. */
module SqlRoundTrip {
  import opened MarkerFilter
  import opened Whitespace
  import opened SqlSplitter

  // ---- Nothing is lost ----

  ghost function JoinRaw(segments: seq<string>): string {
    if segments == [] then ""
    else if |segments| == 1 then segments[0]
    else segments[0] + ";" + JoinRaw(segments[1..])
  }

  lemma {:induction false} CutIsSemicolon(u: string)
    requires Cut(u) < |u|
    ensures u[Cut(u)] == ';'
    decreases |u|
  {
    if u[0] != ';' {
      CutIsSemicolon(u[LexemeEnd(u)..]);
    }
  }

  /** The raw pieces with their semicolons put back are the input. */
  lemma {:induction false} RawSegmentsRejoin(u: string)
    ensures JoinRaw(RawSegments(u)) == u
    decreases |u|
  {
    var c := Cut(u);
    if c < |u| {
      RawSegmentsRejoin(u[c + 1..]);
      CutIsSemicolon(u);
      SemicolonParts(u, c);
    }
  }

  lemma SemicolonParts(u: string, c: nat)
    requires c < |u| && u[c] == ';'
    ensures u[..c] + ";" + u[c + 1..] == u
  {
    assert [u[c]] == ";";
  }

  // ---- Where the cuts are ----

  /** The first c characters of u are complete lexemes, one after the other, none of them a semicolon. */
  ghost predicate Lexes(u: string, c: nat)
    requires c <= |u|
    decreases c
  {
    c == 0 || (u[0] != ';' && LexemeEnd(u) <= c && Lexes(u[LexemeEnd(u)..], c - LexemeEnd(u)))
  }

  /** A cut is exactly the semicolon reached by complete lexemes: never inside a literal, a dollar quote
      or a comment, and never missed outside them. */
  lemma {:induction false} CutIffBetweenLexemes(u: string, c: nat)
    requires c < |u|
    ensures Cut(u) == c <==> u[c] == ';' && Lexes(u, c)
    decreases |u|
  {
    hide LexemeEnd;
    if u[0] != ';' && LexemeEnd(u) <= |u| && c >= LexemeEnd(u) {
      var k := LexemeEnd(u);
      if k < |u| {
        CutIffBetweenLexemes(u[k..], c - k);
        assert u[k..][c - k] == u[c];
      }
    }
  }

  // ---- A lexeme depends only on its own text and one character more ----

  /** Text that can follow a trimmed statement: nothing, white space or a semicolon. */
  predicate Boundary(y: string) {
    y == "" || IsSpace(y[0]) || y[0] == ';'
  }

  predicate EndsTrimmed(w: string) {
    w == "" || !IsSpace(w[|w| - 1])
  }

  lemma {:induction false} IdentEndLocal(w: string, y: string, from: nat)
    requires from <= |w| && Boundary(y)
    ensures IdentEnd(w + y, from) == IdentEnd(w, from)
    decreases |w| - from
  {
    if from < |w| {
      assert (w + y)[from] == w[from];
      if IsIdent(w[from]) { IdentEndLocal(w, y, from + 1); }
    } else if y != "" {
      assert (w + y)[from] == y[0];
    }
  }

  lemma DollarTagLocal(w: string, y: string)
    requires w != "" && Boundary(y)
    ensures DollarTag(w + y) == DollarTag(w)
    ensures (w + y)[..DollarTag(w)] == w[..DollarTag(w)]
    ensures (w + y)[DollarTag(w)..] == w[DollarTag(w)..] + y
  {
    assert (w + y)[0] == w[0];
    if w[0] == '$' {
      IdentEndLocal(w, y, 1);
      var k := IdentEnd(w, 1);
      if k < |w| {
        assert (w + y)[k] == w[k];
        if k > 1 { assert (w + y)[1] == w[1]; }
      }
    }
  }

  lemma PastLocal(w: string, y: string, m: string, from: nat)
    requires m != "" && Past(w, m, from) <= |w|
    ensures Past(w + y, m, from) == Past(w, m, from)
  {
    var r := First(w, m, from);
    OccursInPrefix(w, y, m, r);
    forall i | from <= i < r ensures !OccursAt(w + y, m, i) {
      OccursInPrefix(w, y, m, i);
    }
  }

  lemma StartsLocal(w: string, y: string, m: string)
    requires w != "" && |m| == 2 && Boundary(y) && !IsSpace(m[1]) && m[1] != ';'
    ensures OccursAt(w + y, m, 0) <==> OccursAt(w, m, 0)
  {
    if |w| >= 2 { OccursInPrefix(w, y, m, 0); }
  }

  lemma {:induction false} QuoteEndLocal(w: string, y: string, quote: char)
    requires IsQuote(quote) && Boundary(y) && QuoteEnd(w, quote) <= |w|
    ensures QuoteEnd(w + y, quote) == QuoteEnd(w, quote)
    decreases |w|
  {
    var u := w + y;
    assert u[0] == w[0];
    if |w| > 1 { assert u[1] == w[1]; } else if y != "" { assert u[1] == y[0]; }
    if w[0] == quote && !(|w| > 1 && w[1] == quote) {
    } else if w[0] == quote || (w[0] == '\\' && quote == '\'') {
      assert u[2..] == w[2..] + y;
      QuoteEndLocal(w[2..], y, quote);
    } else {
      assert u[1..] == w[1..] + y;
      QuoteEndLocal(w[1..], y, quote);
    }
  }

  /** What kind of lexeme starts w does not depend on what follows. */
  lemma SameKind(w: string, y: string)
    requires w != "" && Boundary(y)
    ensures (w + y)[0] == w[0]
    ensures OccursAt(w + y, "--", 0) <==> OccursAt(w, "--", 0)
    ensures OccursAt(w + y, "/*", 0) <==> OccursAt(w, "/*", 0)
    ensures DollarTag(w + y) == DollarTag(w)
  {
    StartsLocal(w, y, "--");
    StartsLocal(w, y, "/*");
    DollarTagLocal(w, y);
  }

  /** A lexeme that is complete in w is the same lexeme in w + y. */
  lemma LexemeLocal(w: string, y: string)
    requires w != "" && Boundary(y) && LexemeEnd(w) <= |w|
    ensures LexemeEnd(w + y) == LexemeEnd(w)
  {
    SameKind(w, y);
    if OccursAt(w, "--", 0) {
      PastLocal(w, y, "\n", 2);
    } else if OccursAt(w, "/*", 0) {
      PastLocal(w, y, "*/", 2);
    } else if IsQuote(w[0]) {
      assert (w + y)[1..] == w[1..] + y;
      QuoteEndLocal(w[1..], y, w[0]);
    } else if DollarTag(w) > 0 {
      var n := DollarTag(w);
      DollarTagLocal(w, y);
      PastLocal(w[n..], y, w[..n], 0);
    }
  }

  // ---- A lexeme left open by a statement reaches past the semicolon that follows it ----

  /** White space, the semicolon of a cut, and anything. */
  ghost function Following(sp: string, rest: string): string {
    sp + ";" + rest
  }

  lemma FollowingAt(sp: string, rest: string, i: nat)
    requires AllSpace(sp) && i <= |sp|
    ensures i < |Following(sp, rest)|
    ensures IsSpace(Following(sp, rest)[i]) || Following(sp, rest)[i] == ';'
    ensures Boundary(Following(sp, rest))
  {
  }

  /** A marker with no white space and no semicolon in it that w does not contain is found only past them. */
  lemma NotInFollowing(w: string, sp: string, rest: string, m: string, from: nat)
    requires AllSpace(sp) && m != "" && from <= |w| && Past(w, m, from) > |w|
    requires forall i :: 0 <= i < |m| ==> !IsSpace(m[i]) && m[i] != ';'
    ensures Past(w + Following(sp, rest), m, from) > |w| + |sp|
  {
    var y := Following(sp, rest);
    var u := w + y;
    var r := First(u, m, from);
    if 0 <= r {
      if r + |m| <= |w| {
        OccursInPrefix(w, y, m, r);
      } else if r <= |w| + |sp| {
        var i := if r < |w| then 0 else r - |w|;
        FollowingAt(sp, rest, i);
        assert u[|w| + i] == y[i];
      }
    }
  }

  lemma {:induction false} QuoteNotInFollowing(sp: string, rest: string, quote: char)
    requires IsQuote(quote) && AllSpace(sp)
    ensures QuoteEnd(Following(sp, rest), quote) > |sp| + 1
    decreases |sp|
  {
    var u := Following(sp, rest);
    FollowingAt(sp, rest, 0);
    assert u[0] != quote && u[0] != '\\';
    if sp != "" {
      assert u[1..] == Following(sp[1..], rest);
      QuoteNotInFollowing(sp[1..], rest, quote);
    }
  }

  lemma {:induction false} QuoteStaysOpen(w: string, sp: string, rest: string, quote: char)
    requires IsQuote(quote) && AllSpace(sp) && QuoteEnd(w, quote) > |w|
    ensures QuoteEnd(w + Following(sp, rest), quote) > |w| + |sp| + 1
    decreases |w|
  {
    var y := Following(sp, rest);
    if w == "" {
      assert w + y == y;
      QuoteNotInFollowing(sp, rest, quote);
    } else if |w| == 1 {
      OneLeft(w, sp, rest, quote);
    } else {
      var u := w + y;
      assert u[0] == w[0] && u[1] == w[1];
      if w[0] == quote || (w[0] == '\\' && quote == '\'') {
        assert u[2..] == w[2..] + y;
        QuoteStaysOpen(w[2..], sp, rest, quote);
      } else {
        assert u[1..] == w[1..] + y;
        QuoteStaysOpen(w[1..], sp, rest, quote);
      }
    }
  }

  lemma OneLeft(w: string, sp: string, rest: string, quote: char)
    requires |w| == 1 && IsQuote(quote) && AllSpace(sp) && QuoteEnd(w, quote) > |w|
    ensures QuoteEnd(w + Following(sp, rest), quote) > |sp| + 2
  {
    var y := Following(sp, rest);
    var u := w + y;
    assert u[0] == w[0] && w[0] != quote;
    if w[0] == '\\' && quote == '\'' {
      if sp != "" {
        assert u[2..] == Following(sp[1..], rest);
        QuoteNotInFollowing(sp[1..], rest, quote);
      }
    } else {
      assert u[1..] == y;
      QuoteNotInFollowing(sp, rest, quote);
    }
  }

  lemma TagHasNoSpace(tag: string)
    requires ValidTag(tag)
    ensures forall i :: 0 <= i < |tag| ==> !IsSpace(tag[i]) && tag[i] != ';'
  {
    forall i | 0 <= i < |tag| ensures !IsSpace(tag[i]) && tag[i] != ';' {
      assert tag[i] in tag;
    }
  }

  /** Apart from line comments, an open lexeme swallows the white space and the semicolon. */
  lemma OpenLexemePasses(w: string, sp: string, rest: string)
    requires w != "" && AllSpace(sp) && LexemeEnd(w) > |w| && !OccursAt(w, "--", 0)
    ensures LexemeEnd(w + Following(sp, rest)) > |w| + |sp|
  {
    var y := Following(sp, rest);
    FollowingAt(sp, rest, 0);
    SameKind(w, y);
    if OccursAt(w, "/*", 0) {
      NotInFollowing(w, sp, rest, "*/", 2);
    } else if IsQuote(w[0]) {
      assert (w + y)[1..] == w[1..] + y;
      QuoteStaysOpen(w[1..], sp, rest, w[0]);
    } else if DollarTag(w) > 0 {
      var n := DollarTag(w);
      DollarTagLocal(w, y);
      TagHasNoSpace(w[..n]);
      NotInFollowing(w[n..], sp, rest, w[..n], 0);
    }
  }

  // ---- Scanning a statement outside its original context ----

  /** One lexeme of a scan. */
  lemma CutLexeme(u: string, k: nat, v: string)
    requires u != "" && u[0] != ';' && LexemeEnd(u) == k <= |u| && v == u[k..]
    ensures Cut(u) == k + Cut(v)
  {
  }

  lemma DropPrefix(w: string, y: string, k: nat)
    requires k <= |w|
    ensures w[k..] + y == (w + y)[k..]
  {
  }

  /** A statement found before a cut is scanned to its end, and then cut, also before newline-semicolon. */
  lemma {:induction false} StatementThenSeparator(w: string, sp: string, rest: string, more: string)
    requires EndsTrimmed(w) && AllSpace(sp)
    requires Cut(w + Following(sp, rest)) == |w| + |sp|
    ensures Cut(w + Following("\n", more)) == |w| + 1
    decreases |w|
  {
    var y, z := Following(sp, rest), Following("\n", more);
    FollowingAt(sp, rest, 0);
    SpaceAlone();
    FollowingAt("\n", more, 0);
    if w == "" {
      assert w + z == z;
    } else {
      SameKind(w, y);
      SameKind(w, z);
      if LexemeEnd(w) > |w| {
        if OccursAt(w, "--", 0) {
          LineComment(w, more);
        } else {
          OpenLexemePasses(w, sp, rest);
        }
      } else {
        var k := LexemeEnd(w);
        LexemeLocal(w, y);
        LexemeLocal(w, z);
        DropPrefix(w, y, k);
        DropPrefix(w, z, k);
        CutLexeme(w + y, k, w[k..] + y);
        CutLexeme(w + z, k, w[k..] + z);
        StatementThenSeparator(w[k..], sp, rest, more);
      }
    }
  }

  lemma SpaceAlone()
    ensures AllSpace("\n")
  {
  }

  lemma SpaceLexeme(u: string)
    requires u != "" && IsSpace(u[0])
    ensures LexemeEnd(u) == 1
  {
  }

  /** A line comment that runs into the separator ends at its newline. */
  lemma LineComment(w: string, more: string)
    requires w != "" && OccursAt(w, "--", 0) && LexemeEnd(w) > |w|
    ensures Cut(w + Following("\n", more)) == |w| + 1
  {
    var z := Following("\n", more);
    var v := w + z;
    OccursInPrefix(w, z, "--", 0);
    NewlineAfter(w, more);
    assert v[0] == w[0];
    assert v[|w| + 1..][0] == ';';
    CutLexeme(v, |w| + 1, v[|w| + 1..]);
  }

  lemma NewlineAfter(w: string, more: string)
    requires |w| >= 2 && Past(w, "\n", 2) > |w|
    ensures Past(w + Following("\n", more), "\n", 2) == |w| + 1
  {
    var z := Following("\n", more);
    var v := w + z;
    assert v[|w|..|w| + 1] == "\n";
    assert OccursAt(v, "\n", |w|);
    forall i | 2 <= i < |w| ensures !OccursAt(v, "\n", i) {
      OccursInPrefix(w, z, "\n", i);
    }
    assert First(v, "\n", 2) == |w|;
  }

  /** A statement scanned on its own contains no cut. */
  lemma {:induction false} StatementAlone(w: string, sp: string, tail: string)
    requires EndsTrimmed(w) && AllSpace(sp)
    requires tail == "" || tail[0] == ';'
    requires Cut(w + (sp + tail)) == |w| + |sp|
    ensures Cut(w) == |w|
    decreases |w|
  {
    if w != "" {
      var y := sp + tail;
      if sp != "" { assert y[0] == sp[0]; }
      SameKind(w, y);
      if w[0] != ';' && LexemeEnd(w) <= |w| {
        var k := LexemeEnd(w);
        LexemeLocal(w, y);
        DropPrefix(w, y, k);
        CutLexeme(w + y, k, w[k..] + y);
        StatementAlone(w[k..], sp, tail);
        CutLexeme(w, k, w[k..]);
      }
    }
  }

  /** White space in front of a text shifts its first cut. */
  lemma {:induction false} LeadingSpace(l: string, v: string)
    requires AllSpace(l)
    ensures Cut(l + v) == |l| + Cut(v)
  {
    if l == "" {
      assert l + v == v;
    } else {
      var u := l + v;
      assert u[0] == l[0];
      SpaceLexeme(u);
      DropPrefix(l, v, 1);
      CutLexeme(u, 1, l[1..] + v);
      LeadingSpace(l[1..], v);
    }
  }

  // ---- Re-joining ----

  const Separator: string := "\n;\n"

  function Join(statements: seq<string>): string {
    if statements == [] then ""
    else if |statements| == 1 then statements[0]
    else statements[0] + Separator + Join(statements[1..])
  }

  /** The first piece of u, stripped, and how it is followed. */
  lemma FirstPiece(u: string) returns (x: string, sp: string)
    ensures AllSpace(sp) && Trimmed(x) && x == Strip(u[..Cut(u)])
    ensures Cut(x + (sp + u[Cut(u)..])) == |x| + |sp|
  {
    var c := Cut(u);
    var l;
    l, sp := StripParts(u[..c]);
    x := Strip(u[..c]);
    PieceParts(u, c, l, x, sp);
    LeadingSpace(l, x + (sp + u[c..]));
  }

  lemma PieceParts(u: string, c: nat, l: string, x: string, sp: string)
    requires c <= |u| && u[..c] == l + x + sp
    ensures u == l + (x + (sp + u[c..])) && c == |l| + |x| + |sp|
  {
    assert u == u[..c] + u[c..];
  }

  /** A newline in front does not change the statements. */
  lemma SplitAfterNewline(v: string)
    ensures Split("\n" + v) == Split(v)
  {
    var newline := "\n";
    var u := newline + v;
    var c := Cut(v);
    SpaceAlone();
    LeadingSpace(newline, v);
    if c == |v| {
      SplitUncut(u);
      SplitUncut(v);
      StripPadded(newline, v, "");
      assert newline + v + "" == u;
    } else {
      var a, b := v[..c], v[c + 1..];
      SplitAtCut(u, newline + a, b);
      SplitAtCut(v, a, b);
      StripPadded(newline, a, "");
      assert newline + a + "" == newline + a;
    }
  }

  lemma SplitSeparated(x: string, v: string)
    requires Trimmed(x) && x != "" && Cut(x + Separator + v) == |x| + 1
    ensures Split(x + Separator + v) == [x] + Split(v)
  {
    var newline := "\n";
    SeparatedParts(x, v, newline);
    StatementPadded(x, newline);
    SplitAfterNewline(v);
  }

  lemma StatementPadded(x: string, newline: string)
    requires Trimmed(x) && x != "" && AllSpace(newline)
    ensures Statement(x + newline) == [x]
  {
    StripOf("", x, newline);
    assert "" + x + newline == x + newline;
  }

  lemma SeparatedParts(x: string, v: string, newline: string)
    requires newline == "\n"
    ensures AllSpace(newline)
    ensures var u := x + Separator + v;
            && |x| + 2 <= |u|
            && u[..|x| + 1] == x + newline
            && u[|x| + 2..] == newline + v
  {
  }

  lemma SeparatorParts(x: string, v: string, more: string)
    requires more == "\n" + v
    ensures x + Following("\n", more) == x + Separator + v
  {
    assert Following("\n", more) == Separator + v;
  }

  lemma TailParts(sp: string, tail: string, rest: string)
    requires tail != "" && tail[0] == ';' && rest == tail[1..]
    ensures sp + tail == Following(sp, rest)
  {
  }

  /** Splitting the re-joined statements gives the statements back, for every input. */
  lemma {:induction false} SplitJoinStable(sql: string)
    ensures Split(Join(Split(sql))) == Split(sql)
    decreases |sql|
  {
    var c := Cut(sql);
    var x, sp := FirstPiece(sql);
    if c < |sql| { CutIsSemicolon(sql); }
    StatementAlone(x, sp, sql[c..]);
    if c == |sql| {
      assert sql[..c] == sql;
      SplitUncut(sql);
      JoinOne(x);
    } else {
      var xs := Split(sql[c + 1..]);
      SplitAtCut(sql, sql[..c], sql[c + 1..]);
      SplitJoinStable(sql[c + 1..]);
      if x == "" {
        assert Split(sql) == xs;
      } else if xs == [] {
        assert Split(sql) == [x];
        JoinOne(x);
      } else {
        assert Split(sql) == [x] + xs;
        JoinMore(x, sp, sql[c..], xs);
      }
    }
  }

  lemma JoinOne(x: string)
    requires Trimmed(x) && Cut(x) == |x|
    ensures Split(Join(if x == "" then [] else [x])) == if x == "" then [] else [x]
  {
    SplitUncut(x);
  }

  lemma JoinMore(x: string, sp: string, tail: string, xs: seq<string>)
    requires Trimmed(x) && x != "" && AllSpace(sp) && tail != "" && tail[0] == ';'
    requires Cut(x + (sp + tail)) == |x| + |sp|
    requires xs != [] && Split(Join(xs)) == xs
    ensures Split(Join([x] + xs)) == [x] + xs
  {
    CutAtSeparator(x, sp, tail, Join(xs));
    SplitSeparated(x, Join(xs));
  }

  lemma CutAtSeparator(x: string, sp: string, tail: string, v: string)
    requires Trimmed(x) && x != "" && AllSpace(sp) && tail != "" && tail[0] == ';'
    requires Cut(x + (sp + tail)) == |x| + |sp|
    ensures Cut(x + Separator + v) == |x| + 1
  {
    var rest, more := tail[1..], "\n" + v;
    TailParts(sp, tail, rest);
    SeparatorParts(x, v, more);
    StatementThenSeparator(x, sp, rest, more);
  }
}

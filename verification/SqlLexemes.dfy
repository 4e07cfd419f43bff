/** What split_sql_statements of app/db/migration_utils.py passes over, said of the text alone: comments, quoted
    literals and identifiers, dollar quotes and other characters, complete or open at the end of the script. */
module SqlLexemes {
  import opened MarkerFilter
  import opened SqlSplitter
  import opened Whitespace

  /** The characters of m stand in u from position i on. */
  predicate StandsAt(u: string, m: string, i: int) {
    0 <= i && i + |m| <= |u| && forall j :: 0 <= j < |m| ==> u[i + j] == m[j]
  }

  lemma OccursIff(u: string, m: string, i: int)
    ensures OccursAt(u, m, i) <==> StandsAt(u, m, i)
  {
    if 0 <= i && i + |m| <= |u| {
      var w := u[i..i + |m|];
      assert forall j :: 0 <= j < |m| ==> w[j] == u[i + j];
      if StandsAt(u, m, i) { assert w == m; }
    }
  }

  lemma OneCharacter(u: string, c: char, i: int)
    ensures StandsAt(u, [c], i) ==> i < |u| && u[i] == c
  {
    var j := 0;
    assert StandsAt(u, [c], i) ==> u[i + j] == [c][j];
  }

  // ---- Dollar quote tags ----

  predicate StartsName(c: char) { 'A' <= c <= 'Z' || 'a' <= c <= 'z' || c == '_' }

  predicate InName(c: char) { StartsName(c) || '0' <= c <= '9' }

  /** Two dollar signs with nothing or a name between them. */
  predicate IsTag(t: string) {
    && |t| >= 2 && t[0] == '$' && t[|t| - 1] == '$'
    && (|t| > 2 ==> StartsName(t[1]))
    && forall i :: 1 <= i < |t| - 1 ==> InName(t[i])
  }

  lemma {:induction false} NameRun(u: string, from: nat)
    requires from <= |u|
    ensures forall i :: from <= i < IdentEnd(u, from) ==> InName(u[i])
    ensures IdentEnd(u, from) < |u| ==> !InName(u[IdentEnd(u, from)])
    decreases |u| - from
  {
    if from < |u| && IsIdent(u[from]) { NameRun(u, from + 1); }
  }

  /** A tag opens a dollar quote exactly where a text begins with one. */
  lemma TagOpensIff(u: string, n: nat)
    requires 0 < n <= |u|
    ensures DollarTag(u) == n <==> IsTag(u[..n])
  {
    if u[0] == '$' {
      NameRun(u, 1);
      var k := IdentEnd(u, 1);
      var t := u[..n];
      assert forall i :: 0 <= i < n ==> t[i] == u[i];
      assert !InName('$');
      assert IsTag(t) ==> forall i :: 1 <= i < n - 1 ==> InName(u[i]);
      assert IsTag(t) ==> u[n - 1] == '$';
    }
  }

  lemma NoTagIff(u: string)
    ensures DollarTag(u) == 0 <==> forall n :: 0 < n <= |u| ==> !IsTag(u[..n])
  {
    forall n | 0 < n <= |u| ensures DollarTag(u) == n <==> IsTag(u[..n]) { TagOpensIff(u, n); }
    assert DollarTag(u) > 0 ==> IsTag(u[..DollarTag(u)]);
  }

  // ---- One lexeme ----

  /** A lexeme of k characters is passed over. */
  lemma Passed(a: string, rest: string)
    requires a != "" && a[0] != ';' && LexemeEnd(a + rest) == |a|
    ensures Cut(a + rest) == |a| + Cut(rest)
  {
    assert (a + rest)[|a|..] == rest;
  }

  lemma Open(a: string)
    requires a != "" && a[0] != ';' && LexemeEnd(a) > |a|
    ensures Cut(a) == |a|
  {
  }

  lemma Shifted(a: string, b: string, m: string, i: int)
    requires |a| <= i && !StandsAt(b, m, i - |a|)
    ensures !StandsAt(a + b, m, i)
  {
    if i + |m| <= |a + b| {
      var j :| 0 <= j < |m| && b[i - |a| + j] != m[j];
      assert (a + b)[i + j] == b[i - |a| + j];
    }
  }

  /** m is found in body + m + rest just behind body. */
  lemma PastBody(body: string, m: string, rest: string, lead: nat)
    requires m != "" && lead <= |body|
    requires forall i :: lead <= i < |body| ==> !StandsAt(body + m, m, i)
    ensures Past(body + m + rest, m, lead) == |body| + |m|
  {
    var u := body + m + rest;
    OccursIff(u, m, |body|);
    forall i | lead <= i < |body| ensures !OccursAt(u, m, i) {
      OccursIff(u, m, i);
      assert !StandsAt(body + m, m, i);
      var j :| 0 <= j < |m| && (body + m)[i + j] != m[j];
      assert u[i + j] == (body + m)[i + j];
    }
  }

  lemma PastNone(u: string, m: string, lead: nat)
    requires m != "" && lead <= |u| && forall i :: lead <= i ==> !StandsAt(u, m, i)
    ensures Past(u, m, lead) == |u| + 1
  {
    forall i | lead <= i ensures !OccursAt(u, m, i) { OccursIff(u, m, i); }
  }

  // ---- Dollar quotes ----

  /** From a tag to its next occurrence nothing is cut. */
  lemma DollarQuote(t: string, body: string, rest: string)
    requires IsTag(t) && forall i :: 0 <= i < |body| ==> !StandsAt(body + t, t, i)
    ensures Cut(t + body + t + rest) == |t + body + t| + Cut(rest)
  {
    var u := t + body + t + rest;
    assert u[..|t|] == t && u[|t|..] == body + t + rest;
    TagOpensIff(u, |t|);
    PastBody(body, t, rest, 0);
    SecondCharacterDiffers(u);
    Passed(t + body + t, rest);
  }

  lemma SecondCharacterDiffers(u: string)
    requires u != ""
    ensures OccursAt(u, "--", 0) ==> |u| >= 2 && u[0] == '-' && u[1] == '-'
    ensures OccursAt(u, "/*", 0) ==> |u| >= 2 && u[0] == '/' && u[1] == '*'
    ensures |u| >= 2 && u[0] == '-' && u[1] == '-' ==> OccursAt(u, "--", 0)
    ensures |u| >= 2 && u[0] == '/' && u[1] == '*' ==> OccursAt(u, "/*", 0)
  {
    if |u| >= 2 { assert u[0..2] == [u[0], u[1]]; }
  }

  /** An open dollar quote takes the rest of the script. */
  lemma OpenDollarQuote(t: string, body: string)
    requires IsTag(t) && forall i :: 0 <= i ==> !StandsAt(body, t, i)
    ensures Cut(t + body) == |t + body|
  {
    var u := t + body;
    assert u[..|t|] == t && u[|t|..] == body;
    TagOpensIff(u, |t|);
    PastNone(body, t, 0);
    SecondCharacterDiffers(u);
    Open(u);
  }

  // ---- Quoted literals and identifiers ----

  /** Text between quotes: a quote is doubled in it, and in a string a backslash takes the next character. */
  predicate Quotable(body: string, quote: char) {
    || body == ""
    || (|body| >= 2 && body[0] == quote && body[1] == quote && Quotable(body[2..], quote))
    || (|body| >= 2 && body[0] == '\\' && quote == '\'' && Quotable(body[2..], quote))
    || (body[0] != quote && !(body[0] == '\\' && quote == '\'') && Quotable(body[1..], quote))
  }

  lemma {:induction false} QuoteEnds(body: string, quote: char, rest: string)
    requires quote == '\'' || quote == '"'
    requires Quotable(body, quote) && (rest == "" || rest[0] != quote)
    ensures QuoteEnd(body + [quote] + rest, quote) == |body| + 1
    decreases |body|
  {
    var u := body + [quote] + rest;
    if body == "" {
      assert u == [quote] + rest;
    } else if |body| >= 2 && body[0] == quote && body[1] == quote {
      assert u[2..] == body[2..] + [quote] + rest;
      QuoteEnds(body[2..], quote, rest);
    } else if |body| >= 2 && body[0] == '\\' && quote == '\'' {
      assert u[2..] == body[2..] + [quote] + rest;
      QuoteEnds(body[2..], quote, rest);
    } else {
      assert u[1..] == body[1..] + [quote] + rest;
      QuoteEnds(body[1..], quote, rest);
    }
  }

  lemma {:induction false} QuoteOpen(body: string, quote: char)
    requires (quote == '\'' || quote == '"') && Quotable(body, quote)
    ensures QuoteEnd(body, quote) == |body| + 1
    ensures quote == '\'' ==> QuoteEnd(body + "\\", quote) == |body| + 2
    decreases |body|
  {
    var more := body + "\\";
    if body == "" {
    } else if |body| >= 2 && ((body[0] == quote && body[1] == quote) || (body[0] == '\\' && quote == '\'')) {
      assert more[2..] == body[2..] + "\\";
      QuoteOpen(body[2..], quote);
    } else {
      assert more[1..] == body[1..] + "\\";
      QuoteOpen(body[1..], quote);
    }
  }

  /** Nothing is cut in a string literal or a quoted identifier. */
  lemma Quotation(quote: char, body: string, rest: string)
    requires quote == '\'' || quote == '"'
    requires Quotable(body, quote) && (rest == "" || rest[0] != quote)
    ensures Cut([quote] + body + [quote] + rest) == |[quote] + body + [quote]| + Cut(rest)
  {
    hide Quotable, QuoteEnd, Past, DollarTag, Cut;
    var u := [quote] + body + [quote] + rest;
    assert u[1..] == body + [quote] + rest;
    QuoteEnds(body, quote, rest);
    SecondCharacterDiffers(u);
    Passed([quote] + body + [quote], rest);
  }

  /** An open literal takes the rest of the script, also with a backslash at its very end. */
  lemma OpenQuotation(quote: char, body: string)
    requires (quote == '\'' || quote == '"') && Quotable(body, quote)
    ensures Cut([quote] + body) == |[quote] + body|
    ensures quote == '\'' ==> Cut([quote] + body + "\\") == |[quote] + body + "\\"|
  {
    QuoteOpen(body, quote);
    var u, v := [quote] + body, [quote] + body + "\\";
    assert u[1..] == body && v[1..] == body + "\\";
    SecondCharacterDiffers(u);
    SecondCharacterDiffers(v);
    Open(u);
    if quote == '\'' { Open(v); }
  }

  // ---- Comments ----

  /** A line comment ends with its line. */
  lemma LineComment(body: string, rest: string)
    requires '\n' !in body
    ensures Cut("--" + body + "\n" + rest) == |"--" + body + "\n"| + Cut(rest)
  {
    var a := "--" + body;
    var u := a + "\n" + rest;
    assert u == "--" + body + "\n" + rest;
    SecondCharacterDiffers(u);
    forall i | 2 <= i < |a| ensures !StandsAt(a + "\n", "\n", i) {
      OneCharacter(a + "\n", '\n', i);
      assert (a + "\n")[i] == body[i - 2];
    }
    PastBody(a, "\n", rest, 2);
    Passed(a + "\n", rest);
  }

  lemma OpenLineComment(body: string)
    requires '\n' !in body
    ensures Cut("--" + body) == |"--" + body|
  {
    var u := "--" + body;
    SecondCharacterDiffers(u);
    forall i | 2 <= i ensures !StandsAt(u, "\n", i) {
      OneCharacter(u, '\n', i);
      if i < |u| { assert u[i] == body[i - 2]; }
    }
    PastNone(u, "\n", 2);
    Open(u);
  }

  /** A block comment ends with the first end mark after its beginning. */
  lemma BlockComment(body: string, rest: string)
    requires forall i :: 0 <= i < |body| ==> !StandsAt(body + "*/", "*/", i)
    ensures Cut("/*" + body + "*/" + rest) == |"/*" + body + "*/"| + Cut(rest)
  {
    var a := "/*" + body;
    var u := a + "*/" + rest;
    assert u == "/*" + body + "*/" + rest;
    SecondCharacterDiffers(u);
    forall i | 2 <= i < |a| ensures !StandsAt(a + "*/", "*/", i) {
      Shifted("/*", body + "*/", "*/", i);
      assert a + "*/" == "/*" + (body + "*/");
    }
    PastBody(a, "*/", rest, 2);
    Passed(a + "*/", rest);
  }

  lemma OpenBlockComment(body: string)
    requires forall i :: 0 <= i ==> !StandsAt(body, "*/", i)
    ensures Cut("/*" + body) == |"/*" + body|
  {
    var u := "/*" + body;
    SecondCharacterDiffers(u);
    forall i | 2 <= i ensures !StandsAt(u, "*/", i) { Shifted("/*", body, "*/", i); }
    PastNone(u, "*/", 2);
    Open(u);
  }

  // ---- Other characters ----

  /** Any other character stands for itself, also a dash, slash or dollar sign that opens nothing. */
  lemma OtherCharacter(c: char, rest: string)
    requires c != ';' && c != '\'' && c != '"'
    requires c == '-' ==> rest == "" || rest[0] != '-'
    requires c == '/' ==> rest == "" || rest[0] != '*'
    requires c == '$' ==> forall n :: 0 < n <= |rest| + 1 ==> !IsTag(([c] + rest)[..n])
    ensures Cut([c] + rest) == 1 + Cut(rest)
  {
    var u := [c] + rest;
    SecondCharacterDiffers(u);
    NoTagIff(u);
    Passed([c], rest);
  }

  /** A semicolon that is reached is a cut, and nothing is cut at the end of the script. */
  lemma Semicolon(rest: string)
    ensures Cut(";" + rest) == 0 && Cut("") == 0
  {
  }

  // ---- A whole statement ----

  /** Text without a character that can open anything. */
  predicate Plain(text: string) {
    forall i :: 0 <= i < |text| ==>
      && text[i] != ';' && text[i] != '\'' && text[i] != '"' && text[i] != '-' && text[i] != '/' && text[i] != '$'
  }

  lemma {:induction false} PlainText(text: string, rest: string)
    requires Plain(text)
    ensures Cut(text + rest) == |text| + Cut(rest)
  {
    if text == "" {
      assert text + rest == rest;
    } else {
      assert text + rest == [text[0]] + (text[1..] + rest);
      OtherCharacter(text[0], text[1..] + rest);
      PlainText(text[1..], rest);
    }
  }

  /** A statement with a dollar-quoted block in it is one statement, whatever semicolons the block holds. */
  lemma BlockIsOneStatement(before: string, t: string, body: string, after: string, rest: string)
    requires Plain(before) && Plain(after) && IsTag(t)
    requires forall i :: 0 <= i < |body| ==> !StandsAt(body + t, t, i)
    ensures var quoted := t + body + t;
            Split(before + quoted + after + ";" + rest) == Statement(before + quoted + after) + Split(rest)
  {
    hide Cut, IsTag, Plain, Split, Statement, StandsAt;
    var quoted, end := t + body + t, ";" + rest;
    Semicolon(rest);
    PlainText(after, end);
    DollarQuote(t, body, after + end);
    PlainText(before, quoted + (after + end));
    var block := before + quoted + after;
    Regrouped(before, quoted, after, rest);
    SplitAtCut(block + ";" + rest, block, rest);
  }

  lemma Regrouped(before: string, quoted: string, after: string, rest: string)
    ensures var block := before + quoted + after;
            var u := block + ";" + rest;
            && u == before + (quoted + (after + (";" + rest)))
            && |block| == |before| + |quoted| + |after| < |u|
            && u[..|block|] == block && u[|block| + 1..] == rest
  {
  }
}

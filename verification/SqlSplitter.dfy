/** split_sql_statements of app/db/migration_utils.py.

    The specification cuts a text at the first semicolon that is reached by complete lexemes; the
    scanner with its quote and dollar-quote modes is proved to make exactly these cuts. */
module SqlSplitter {
  import opened MarkerFilter
  import opened Sequences
  import opened Whitespace

  // ---- Lexemes ----

  predicate IsIdent(c: char) {
    'A' <= c <= 'Z' || 'a' <= c <= 'z' || '0' <= c <= '9' || c == '_'
  }

  predicate IsDigit(c: char) { '0' <= c <= '9' }

  predicate IsQuote(c: char) { c == '\'' || c == '"' }

  function IdentEnd(u: string, from: nat): (k: nat)
    requires from <= |u|
    ensures from <= k <= |u|
    decreases |u| - from
  {
    if from < |u| && IsIdent(u[from]) then IdentEnd(u, from + 1) else from
  }

  /** The length of the match of \$(?:[A-Za-z_][A-Za-z0-9_]*)?\$ at the start of u, or 0. */
  function DollarTag(u: string): (n: nat)
    ensures n <= |u|
    ensures n > 0 ==> ValidTag(u[..n])
  {
    if u == "" || u[0] != '$' then 0
    else
      var k := IdentEnd(u, 1);
      if k < |u| && u[k] == '$' && (k == 1 || !IsDigit(u[1])) then
        DollarTagIsValid(u, k);
        k + 1
      else 0
  }

  predicate ValidTag(tag: string) {
    && |tag| >= 2 && tag[0] == '$' && tag[|tag| - 1] == '$'
    && forall c <- tag :: IsIdent(c) || c == '$'
  }

  lemma {:induction false} IdentRun(u: string, from: nat)
    requires from <= |u|
    ensures forall c <- u[from..IdentEnd(u, from)] :: IsIdent(c)
    decreases |u| - from
  {
    if from < |u| && IsIdent(u[from]) {
      IdentRun(u, from + 1);
      assert u[from..IdentEnd(u, from)] == [u[from]] + u[from + 1..IdentEnd(u, from)];
    }
  }

  lemma DollarTagIsValid(u: string, k: nat)
    requires u != "" && u[0] == '$' && k == IdentEnd(u, 1) && k < |u| && u[k] == '$'
    ensures ValidTag(u[..k + 1])
  {
    IdentRun(u, 1);
    assert u[..k + 1] == [u[0]] + u[1..k] + [u[k]];
  }

  /** Where a literal whose opening quote precedes u ends, just past its closing quote: a doubled quote
      and, in string literals, an escaped character do not close it. |u| + 1 if it never closes. */
  ghost function QuoteEnd(u: string, quote: char): (e: nat)
    ensures 1 <= e <= |u| + 1
  {
    if u == "" then 1
    else if u[0] == quote then
      if |u| > 1 && u[1] == quote then 2 + QuoteEnd(u[2..], quote) else 1
    else if u[0] == '\\' && quote == '\'' then
      if |u| == 1 then 2 else 2 + QuoteEnd(u[2..], quote)
    else 1 + QuoteEnd(u[1..], quote)
  }

  /** Just past the first occurrence of m at or after `from`; |u| + 1 if there is none. */
  ghost function Past(u: string, m: string, from: nat := 0): (e: nat)
    requires m != ""
    ensures 1 <= e <= |u| + 1
    ensures e <= |u| ==> from + |m| <= e
  {
    var r := First(u, m, from);
    if r < 0 then |u| + 1 else r + |m|
  }

  /** The length of the lexeme at the start of u: a line comment with its newline, a block comment, a
      quoted literal, a dollar-quoted text or a single other character; |u| + 1 if it is not closed. */
  ghost function LexemeEnd(u: string): (k: nat)
    requires u != ""
    ensures 1 <= k <= |u| + 1
  {
    if OccursAt(u, "--", 0) then Past(u, "\n", 2)
    else if OccursAt(u, "/*", 0) then Past(u, "*/", 2)
    else if IsQuote(u[0]) then 1 + QuoteEnd(u[1..], u[0])
    else if DollarTag(u) > 0 then DollarTag(u) + Past(u[DollarTag(u)..], u[..DollarTag(u)])
    else 1
  }

  /** How far into u the first cut lies; |u| if there is none. */
  ghost function Cut(u: string): (c: nat)
    ensures c <= |u|
    decreases |u|
  {
    if u == "" || u[0] == ';' then 0
    else
      var k := LexemeEnd(u);
      if k > |u| then |u| else k + Cut(u[k..])
  }

  /** The pieces between cuts, semicolons removed. */
  ghost function RawSegments(u: string): (segments: seq<string>)
    ensures |segments| >= 1
    decreases |u|
  {
    var c := Cut(u);
    if c == |u| then [u] else [u[..c]] + RawSegments(u[c + 1..])
  }

  /** A piece as it is added to the result: stripped, and dropped if nothing is left. */
  function Statement(segment: string): seq<string> {
    if Strip(segment) == "" then [] else [Strip(segment)]
  }

  function Statements(segments: seq<string>): seq<string> {
    if segments == [] then [] else Statement(segments[0]) + Statements(segments[1..])
  }

  ghost function Split(sql: string): seq<string> {
    Statements(RawSegments(sql))
  }

  lemma StatementsCons(segment: string, rest: seq<string>)
    ensures Statements([segment] + rest) == Statement(segment) + Statements(rest)
  {
    assert ([segment] + rest)[1..] == rest;
  }

  lemma SplitAtCut(u: string, a: string, v: string)
    requires Cut(u) < |u| && a == u[..Cut(u)] && v == u[Cut(u) + 1..]
    ensures Split(u) == Statement(a) + Split(v)
  {
    hide Cut, Statements, Statement;
    StatementsCons(a, RawSegments(v));
  }

  lemma SplitUncut(u: string)
    requires Cut(u) == |u|
    ensures Split(u) == Statement(u)
  {
    StatementsCons(u, []);
    assert [u] + [] == [u];
    assert Statement(u) + [] == Statement(u);
  }

  // ---- The scanner ----

  /** Where the scanner is: in plain SQL, in a quoted literal or identifier, or in a dollar quote. */
  datatype Mode = Normal | Quoted(quote: char) | Dollar(tag: string)

  predicate ValidMode(mode: Mode) {
    match mode
    case Normal => true
    case Quoted(quote) => IsQuote(quote)
    case Dollar(tag) => ValidTag(tag)
  }

  /** The first cut after what is left of the current lexeme. */
  ghost function CutFrom(u: string, mode: Mode): (c: nat)
    requires ValidMode(mode)
  {
    match mode
    case Normal => Cut(u)
    case Quoted(quote) => CutAfter(u, QuoteEnd(u, quote))
    case Dollar(tag) => CutAfter(u, Past(u, tag))
  }

  ghost function CutAfter(u: string, e: nat): nat {
    if e > |u| then |u| else e + Cut(u[e..])
  }

  /** Moving k characters ahead into the new mode leads to the same cut. */
  ghost predicate Keeps(u: string, mode: Mode, k: nat, mode': Mode) {
    && k > 0 && ValidMode(mode) && ValidMode(mode')
    && CutFrom(u, mode) == if k >= |u| then |u| else k + CutFrom(u[k..], mode')
  }

  lemma DropTwice(u: string, m: nat, n: nat)
    requires m + n <= |u|
    ensures u[m..][n..] == u[m + n..]
  {
  }

  /** A lexeme opened with k characters and closed e characters later. */
  lemma KeepsAfter(u: string, mode: Mode, k: nat, mode': Mode, e: nat)
    requires ValidMode(mode) && ValidMode(mode') && 0 < k <= |u|
    requires CutFrom(u, mode) == CutAfter(u, k + e)
    requires CutFrom(u[k..], mode') == CutAfter(u[k..], e)
    ensures Keeps(u, mode, k, mode')
  {
  }

  lemma FirstDropOne(u: string, m: string)
    requires u != "" && m != "" && !OccursAt(u, m, 0)
    ensures Past(u, m) == 1 + Past(u[1..], m)
  {
    var r := First(u, m);
    var r' := First(u[1..], m);
    if r >= 0 { OccursInSuffix(u, 1, m, r); }
    if r' >= 0 { OccursInSuffix(u, 1, m, r' + 1); }
  }

  lemma PastIsFind(s: string, i: nat, m: string, from: nat)
    requires m != "" && i + from <= |s|
    ensures Past(s[i..], m, from) == if Find(s, m, i + from) < 0 then |s| - i + 1 else Find(s, m, i + from) - i + |m|
  {
    var r := Find(s, m, i + from);
    var r' := First(s[i..], m, from);
    if r >= 0 { OccursInSuffix(s, i, m, r); }
    if r' >= 0 { OccursInSuffix(s, i, m, r' + i); }
  }

  /** A turn of the loop inside a dollar quote. */
  method AdvanceDollar(sql: string, index: nat, tag: string) returns (moved: nat, mode: Mode)
    requires index < |sql| && ValidTag(tag)
    ensures Keeps(sql[index..], Dollar(tag), moved, mode)
  {
    OccursInSuffix(sql, index, tag, index);
    if OccursAt(sql, tag, index) {
      moved, mode := |tag|, Normal;
    } else {
      DollarContinues(sql[index..], tag);
      moved, mode := 1, Dollar(tag);
    }
  }

  lemma DollarContinues(u: string, tag: string)
    requires ValidTag(tag) && u != "" && !OccursAt(u, tag, 0)
    ensures Keeps(u, Dollar(tag), 1, Dollar(tag))
  {
    FirstDropOne(u, tag);
    KeepsAfter(u, Dollar(tag), 1, Dollar(tag), Past(u[1..], tag));
  }

  /** A turn of the loop inside a quoted literal; an escape at the very end moves past the text. */
  method AdvanceQuoted(sql: string, index: nat, quote: char) returns (moved: nat, mode: Mode)
    requires index < |sql| && IsQuote(quote)
    ensures Keeps(sql[index..], Quoted(quote), moved, mode)
  {
    moved, mode := 1, Quoted(quote);
    if sql[index] == quote {
      if index + 1 < |sql| && sql[index + 1] == quote {
        moved := 2;
      } else {
        mode := Normal;
      }
    } else if sql[index] == '\\' && quote == '\'' {
      moved := 2;
    }
  }

  /** Inside a comment that ends with m: find its end, or run to the end of the text. */
  method AdvanceComment(sql: string, index: nat, m: string) returns (moved: nat)
    requires index + 2 <= |sql| && m != "" && sql[index] != ';'
    requires LexemeEnd(sql[index..]) == Past(sql[index..], m, 2)
    ensures Keeps(sql[index..], Normal, moved, Normal)
  {
    PastIsFind(sql, index, m, 2);
    var found := Find(sql, m, index + 2);
    moved := if found == -1 then |sql| - index else found + |m| - index;
  }

  /** A turn of the loop in plain SQL, except at a semicolon. */
  method AdvanceNormal(sql: string, index: nat) returns (moved: nat, mode: Mode)
    requires index < |sql| && sql[index] != ';'
    ensures Keeps(sql[index..], Normal, moved, mode)
  {
    mode := Normal;
    OccursInSuffix(sql, index, "--", index);
    OccursInSuffix(sql, index, "/*", index);
    if OccursAt(sql, "--", index) {
      moved := AdvanceComment(sql, index, "\n");
    } else if OccursAt(sql, "/*", index) {
      moved := AdvanceComment(sql, index, "*/");
    } else {
      moved, mode := AdvanceCharacter(sql, index);
    }
  }

  method AdvanceCharacter(sql: string, index: nat) returns (moved: nat, mode: Mode)
    requires index < |sql| && sql[index] != ';'
    requires !OccursAt(sql[index..], "--", 0) && !OccursAt(sql[index..], "/*", 0)
    ensures Keeps(sql[index..], Normal, moved, mode)
  {
    ghost var u := sql[index..];
    moved, mode := 1, Normal;
    if IsQuote(sql[index]) {
      mode := Quoted(sql[index]);
      KeepsAfter(u, Normal, 1, mode, QuoteEnd(u[1..], u[0]));
    } else {
      var length := DollarTag(sql[index..]);
      if length > 0 {
        assert u[..length] == sql[index..index + length];
        moved, mode := length, Dollar(sql[index..index + length]);
        KeepsAfter(u, Normal, length, mode, Past(u[length..], u[..length]));
      }
    }
  }

  method Advance(sql: string, index: nat, mode: Mode) returns (moved: nat, mode': Mode)
    requires index < |sql| && ValidMode(mode) && !(mode.Normal? && sql[index] == ';')
    ensures Keeps(sql[index..], mode, moved, mode')
  {
    match mode
    case Dollar(tag) => moved, mode' := AdvanceDollar(sql, index, tag);
    case Quoted(quote) => moved, mode' := AdvanceQuoted(sql, index, quote);
    case Normal => moved, mode' := AdvanceNormal(sql, index);
  }

  function Clamp(sql: string, index: nat): nat {
    if index < |sql| then index else |sql|
  }

  /** What the current segment's end looks like from index. */
  ghost predicate Scanned(sql: string, start: nat, index: nat, mode: Mode) {
    && ValidMode(mode) && start <= index <= |sql|
    && Cut(sql[start..]) == index - start + CutFrom(sql[index..], mode)
  }

  /** The current segment runs from start; the cut ahead of index is its end, and the statements found
      so far and those still to come are all of them. */
  ghost predicate LoopInv(sql: string, statements: seq<string>, start: nat, index: nat, mode: Mode) {
    && Scanned(sql, start, Clamp(sql, index), mode)
    && statements + Split(sql[start..]) == Split(sql)
  }

  lemma LoopStarts(sql: string)
    ensures LoopInv(sql, [], 0, 0, Normal)
  {
    assert sql[0..] == sql;
  }

  lemma CutTurn(sql: string, statements: seq<string>, start: nat, index: nat)
    requires LoopInv(sql, statements, start, index, Normal) && index < |sql| && sql[index] == ';'
    ensures start <= index
    ensures LoopInv(sql, statements + Statement(sql[start..index]), index + 1, index + 1, Normal)
  {
    FoundHere(sql, start, index);
    Assoc(statements, Statement(sql[start..index]), Split(sql[index + 1..]));
  }

  lemma FoundHere(sql: string, start: nat, index: nat)
    requires start <= index < |sql| && Cut(sql[start..]) == index - start
    ensures Split(sql[start..]) == Statement(sql[start..index]) + Split(sql[index + 1..])
  {
    SplitAtCut(sql[start..], sql[start..index], sql[index + 1..]);
  }

  lemma SkipTurn(sql: string, statements: seq<string>, start: nat, index: nat, mode: Mode, moved: nat, next: nat,
                 mode': Mode)
    requires LoopInv(sql, statements, start, index, mode) && index < |sql| && next == index + moved
    requires Keeps(sql[index..], mode, moved, mode')
    ensures LoopInv(sql, statements, start, next, mode')
  {
    if next < |sql| {
      ScannedOn(sql, start, index, mode, moved, next, mode');
    } else {
    }
  }

  lemma ScannedOn(sql: string, start: nat, index: nat, mode: Mode, moved: nat, next: nat, mode': Mode)
    requires Scanned(sql, start, index, mode) && next == index + moved < |sql|
    requires Keeps(sql[index..], mode, moved, mode')
    ensures Scanned(sql, start, next, mode')
  {
    DropTwice(sql, index, moved);
    KeepsOn(sql[index..], sql[next..], mode, moved, mode');
  }

  lemma KeepsOn(u: string, v: string, mode: Mode, moved: nat, mode': Mode)
    requires Keeps(u, mode, moved, mode') && moved < |u| && v == u[moved..]
    ensures CutFrom(u, mode) == moved + CutFrom(v, mode')
  {
  }

  lemma EndTurn(sql: string, statements: seq<string>, start: nat, index: nat, mode: Mode)
    requires LoopInv(sql, statements, start, index, mode) && index >= |sql|
    ensures start <= |sql| && statements + Statement(sql[start..]) == Split(sql)
  {
    SplitUncut(sql[start..]);
  }

  /** Strip a piece and append it unless it is blank. */
  method AddStatement(statements: seq<string>, segment: string) returns (result: seq<string>)
    ensures result == statements + Statement(segment)
  {
    var statement := Strip(segment);
    if statement != "" {
      result := statements + [statement];
    } else {
      result := statements;
    }
  }

  method SplitSqlStatements(sql: string) returns (statements: seq<string>)
    ensures statements == Split(sql)
  {
    statements := [];
    var statementStart: nat, index: nat, mode := 0, 0, Normal;
    LoopStarts(sql);
    while index < |sql|
      invariant LoopInv(sql, statements, statementStart, index, mode)
      decreases |sql| - index
    {
      if mode.Normal? && sql[index] == ';' {
        CutTurn(sql, statements, statementStart, index);
        statements := AddStatement(statements, sql[statementStart..index]);
        statementStart := index + 1;
        index := index + 1;
      } else {
        var moved, mode' := Advance(sql, index, mode);
        var next := index + moved;
        SkipTurn(sql, statements, statementStart, index, mode, moved, next, mode');
        index, mode := next, mode';
      }
    }
    EndTurn(sql, statements, statementStart, index, mode);
    statements := AddStatement(statements, sql[statementStart..]);
  }
}

/** Which rows the price filters select, app/api/routes/business_data_tables.py, in a database whose ILIKE reads
    patterns as SQL defines them. */
module PriceMeaning {
  import opened PriceFilters
  import opened Whitespace
  import opened Wrappers

  // ---- LIKE ----

  /** s matches the pattern: % is any text, _ any character, and a backslash takes the next character literally. */
  predicate Glob(pattern: string, s: string)
    decreases |pattern| + |s|
  {
    if pattern == "" then s == ""
    else if pattern[0] == '%' then Glob(pattern[1..], s) || (s != "" && Glob(pattern, s[1..]))
    else if pattern[0] == '\\' && |pattern| >= 2 then s != "" && s[0] == pattern[1] && Glob(pattern[2..], s[1..])
    else s != "" && (pattern[0] == '_' || s[0] == pattern[0]) && Glob(pattern[1..], s[1..])
  }

  predicate Special(c: char) { c == '%' || c == '_' || c == '\\' }

  predicate Literal(text: string) {
    forall i :: 0 <= i < |text| ==> !Special(text[i])
  }

  lemma {:induction false} GlobLiteral(p: string, s: string)
    requires Literal(p)
    ensures Glob(p, s) <==> s == p
  {
    if p != "" && s != "" {
      GlobLiteral(p[1..], s[1..]);
      assert p == [p[0]] + p[1..] && s == [s[0]] + s[1..];
    }
  }

  lemma {:induction false} GlobAny(s: string)
    ensures Glob("%", s)
  {
    assert "%"[1..] == "";
    if s != "" { GlobAny(s[1..]); }
  }

  lemma {:induction false} GlobPrefix(p: string, s: string)
    requires Literal(p)
    ensures Glob(p + "%", s) <==> p <= s
  {
    if p == "" {
      assert p + "%" == "%";
      GlobAny(s);
    } else if s != "" {
      assert (p + "%")[1..] == p[1..] + "%";
      GlobPrefix(p[1..], s[1..]);
      assert p == [p[0]] + p[1..] && s == [s[0]] + s[1..];
    }
  }

  /** From some place on, s matches the pattern. */
  predicate Somewhere(pattern: string, s: string) {
    exists i :: 0 <= i <= |s| && Glob(pattern, s[i..])
  }

  lemma {:induction false} GlobSomewhere(pattern: string, s: string)
    ensures Glob("%" + pattern, s) <==> Somewhere(pattern, s)
    decreases |s|
  {
    var all := "%" + pattern;
    assert all[1..] == pattern && s[0..] == s;
    if s != "" {
      GlobSomewhere(pattern, s[1..]);
      if Somewhere(pattern, s[1..]) {
        var i :| 0 <= i <= |s[1..]| && Glob(pattern, s[1..][i..]);
        assert s[1..][i..] == s[i + 1..];
      }
      if Somewhere(pattern, s) && !Glob(pattern, s) {
        var i :| 0 <= i <= |s| && Glob(pattern, s[i..]);
        assert i > 0 && s[1..][i - 1..] == s[i..];
      }
    }
  }

  predicate EndsIn(s: string, t: string) { |t| <= |s| && s[|s| - |t|..] == t }

  predicate Includes(s: string, t: string) {
    exists i :: 0 <= i <= |s| && t <= s[i..]
  }

  lemma GlobSuffix(p: string, s: string)
    requires Literal(p)
    ensures Glob("%" + p, s) <==> EndsIn(s, p)
  {
    GlobSomewhere(p, s);
    forall i | 0 <= i <= |s| ensures Glob(p, s[i..]) <==> s[i..] == p { GlobLiteral(p, s[i..]); }
    if EndsIn(s, p) { assert Glob(p, s[|s| - |p|..]); }
  }

  lemma GlobWithin(p: string, s: string)
    requires Literal(p)
    ensures Glob("%" + p + "%", s) <==> Includes(s, p)
  {
    assert "%" + p + "%" == "%" + (p + "%");
    GlobSomewhere(p + "%", s);
    forall i | 0 <= i <= |s| ensures Glob(p + "%", s[i..]) <==> p <= s[i..] { GlobPrefix(p, s[i..]); }
  }

  // ---- Letter case ----

  /** A case folding keeps the special characters and makes no others special. */
  predicate Folding(fold: char -> char) {
    forall c: char :: (Special(c) ==> fold(c) == c) && (Special(fold(c)) ==> Special(c))
  }

  function Folded(fold: char -> char, s: string): (t: string)
    ensures |t| == |s| && forall i :: 0 <= i < |s| ==> t[i] == fold(s[i])
  {
    seq(|s|, i requires 0 <= i < |s| => fold(s[i]))
  }

  /** ILIKE is LIKE up to the case of letters. */
  ghost predicate Standard(db: Database, fold: char -> char) {
    Folding(fold) && forall s: string, p: string :: db.ilike(s, p) <==> Glob(Folded(fold, p), Folded(fold, s))
  }

  // ---- What each condition selects ----

  /** The text operators, on a value that is not NULL, for a text without special characters. */
  lemma TextFiltersMean(db: Database, fold: char -> char, text: string, v: Value)
    requires Standard(db, fold) && Literal(text) && !v.Null?
    ensures var s, t := Folded(fold, db.cast(v)), Folded(fold, text);
            && Direct(db, Text(Contains, text), v) == Truth(Includes(s, t))
            && Direct(db, Text(NotContains, text), v) == Truth(!Includes(s, t))
            && Direct(db, Text(StartsWith, text), v) == Truth(t <= s)
            && Direct(db, Text(EndsWith, text), v) == Truth(EndsIn(s, t))
            && Direct(db, Text(TextEquals, text), v) == Truth(s == t)
            && Direct(db, Text(TextNotEqual, text), v) == Truth(s != t)
  {
    hide Glob;
    var s, t := Folded(fold, db.cast(v)), Folded(fold, text);
    FoldedLiteral(fold, text);
    FoldedPatterns(fold, text);
    GlobLiteral(t, s);
    GlobPrefix(t, s);
    GlobSuffix(t, s);
    GlobWithin(t, s);
  }

  lemma FoldedLiteral(fold: char -> char, text: string)
    requires Folding(fold) && Literal(text)
    ensures Literal(Folded(fold, text))
  {
    forall i | 0 <= i < |text| ensures !Special(fold(text[i])) { assert !Special(text[i]); }
  }

  lemma FoldedPatterns(fold: char -> char, text: string)
    requires Folding(fold)
    ensures Folded(fold, ['%'] + text) == "%" + Folded(fold, text)
    ensures Folded(fold, text + ['%']) == Folded(fold, text) + "%"
    ensures Folded(fold, ['%'] + text + ['%']) == "%" + Folded(fold, text) + "%"
  {
    assert Special('%');
  }

  /** NULL is blank and matches nothing, in neither sense; a text is blank if it is empty. */
  lemma NullsAndBlanksMean(db: Database, v: Value, op: TextOp, text: string, n: NumberOp, x: real, y: real)
    ensures Direct(db, Text(op, text), Null) == Unknown && Direct(db, Number(n, x), Null) == Unknown
    ensures Direct(db, InRange(x, y), Null) == Unknown
    ensures Direct(db, Blank(true), v) == (if v == Null then True else False)
    ensures Direct(db, NotBlank(true), v) == (if v == Null then False else True)
    ensures Direct(db, Blank(false), v) == (if v == Null || db.cast(v) == "" then True else False)
    ensures Direct(db, NotBlank(false), v) == (if v == Null || db.cast(v) == "" then False else True)
  {
  }

  /** The number operators. */
  lemma NumberFiltersMean(db: Database, a: real, x: real, y: real)
    ensures (Direct(db, Number(Equals, x), NumberValue(a)) == True) <==> a == x
    ensures (Direct(db, Number(NotEqual, x), NumberValue(a)) == True) <==> a != x
    ensures (Direct(db, Number(LessThan, x), NumberValue(a)) == True) <==> a < x
    ensures (Direct(db, Number(LessThanOrEqual, x), NumberValue(a)) == True) <==> a <= x
    ensures (Direct(db, Number(GreaterThan, x), NumberValue(a)) == True) <==> a > x
    ensures (Direct(db, Number(GreaterThanOrEqual, x), NumberValue(a)) == True) <==> a >= x
    ensures (Direct(db, InRange(x, y), NumberValue(a)) == True) <==> x <= a <= y
  {
  }

  // ---- Which rows are selected ----

  lemma {:induction false} All3Iff(values: seq<Bool3>)
    ensures All3(values) == True <==> forall i :: 0 <= i < |values| ==> values[i] == True
    ensures All3(values) == False <==> exists i :: 0 <= i < |values| && values[i] == False
  {
    if values != [] { All3Iff(values[..|values| - 1]); }
  }

  lemma {:induction false} Any3Iff(values: seq<Bool3>)
    ensures Any3(values) == True <==> exists i :: 0 <= i < |values| && values[i] == True
    ensures Any3(values) == False <==> forall i :: 0 <= i < |values| ==> values[i] == False
  {
    if values != [] { Any3Iff(values[..|values| - 1]); }
  }

  /** A row passes the filter of a column. */
  ghost predicate Passes(db: Database, m: Model, row: Row) {
    if m.any then exists i :: 0 <= i < |m.conditions| && Direct(db, m.conditions[i], row(m.column)) == True
    else forall i :: 0 <= i < |m.conditions| ==> Direct(db, m.conditions[i], row(m.column)) == True
  }

  lemma PassesIff(db: Database, m: Model, row: Row)
    ensures DirectModel(db, m, row) == True <==> Passes(db, m, row)
  {
    var values := seq(|m.conditions|, i requires 0 <= i < |m.conditions| => Direct(db, m.conditions[i], row(m.column)));
    All3Iff(values);
    Any3Iff(values);
    forall i | 0 <= i < |m.conditions| ensures values[i] == Direct(db, m.conditions[i], row(m.column)) {}
  }

  /** A row is searched for: one of the columns includes the text. */
  ghost predicate Found(db: Database, fold: char -> char, columns: seq<Column>, text: string, row: Row) {
    exists i :: 0 <= i < |columns| && row(columns[i]) != Null
      && Includes(Folded(fold, db.cast(row(columns[i]))), Folded(fold, text))
  }

  lemma ValueFound(db: Database, fold: char -> char, text: string, v: Value)
    requires Standard(db, fold) && Literal(text)
    ensures Like(db, v, ['%'] + text + ['%'], false) == True <==>
      v != Null && Includes(Folded(fold, db.cast(v)), Folded(fold, text))
  {
    hide Standard, Includes, Folded, Literal;
    if v != Null { TextFiltersMean(db, fold, text, v); }
  }

  lemma SearchedIff(db: Database, fold: char -> char, r: Request, columns: seq<Column>, row: Row)
    requires Standard(db, fold) && Literal(Strip(r.query)) && Strip(r.query) != ""
    ensures |Searched(db, r, columns, row)| == 1
    ensures Searched(db, r, columns, row)[0] == True <==> Found(db, fold, columns, Strip(r.query), row)
  {
    hide Strip, Standard, Literal, Includes, Folded, Like, Any3;
    var text := Strip(r.query);
    var pattern := ['%'] + text + ['%'];
    var values := seq(|columns|, i requires 0 <= i < |columns| => Like(db, row(columns[i]), pattern, false));
    Any3Iff(values);
    forall i | 0 <= i < |columns|
      ensures values[i] == True <==>
        row(columns[i]) != Null && Includes(Folded(fold, db.cast(row(columns[i]))), Folded(fold, text))
    {
      ValueFound(db, fold, text, row(columns[i]));
    }
  }

  /** The rows the query returns: those of the workspace, ready, of an authorized source, that include the
      searched text in one of the columns, and pass every filter. */
  lemma SelectedIff(db: Database, fold: char -> char, clauses: seq<Clause>, params: Params, r: Request,
                    columns: seq<Column>, row: Row)
    requires Equivalent(clauses, params, r, columns) && Standard(db, fold) && Literal(Strip(r.query))
    ensures EvalWhere(db, clauses, params, row) == True <==>
      && row("source.workspaceId") == TextValue(r.workspace) && row("source.status") == TextValue("ready")
      && row("research_source.workspaceId") == TextValue(r.workspace)
      && (r.authorized.Some? ==>
            exists i :: 0 <= i < |r.authorized.value| && row("source.knowledgeBaseId") == TextValue(r.authorized.value[i]))
      && (Strip(r.query) != "" ==> Found(db, fold, columns, Strip(r.query), row))
      && (forall i :: 0 <= i < |r.filters| ==> Passes(db, r.filters[i], row))
  {
    hide Strip, Found, Passes, DirectModel;
    var models := DirectModels(db, r.filters, row);
    var base := [EqualText(row(WORKSPACE), r.workspace), EqualText(row(STATUS), READY),
                 EqualText(row(RESEARCH_WORKSPACE), r.workspace)];
    var authorized, searched := Authorized(r, row), Searched(db, r, columns, row);
    All3Sum(base + authorized + searched, models);
    All3Sum(base + authorized, searched);
    All3Sum(base, authorized);
    All3Iff(base);
    All3Iff(authorized);
    All3Iff(searched);
    All3Iff(models);
    assert base[0] == EqualText(row(WORKSPACE), r.workspace) && base[1] == EqualText(row(STATUS), READY)
      && base[2] == EqualText(row(RESEARCH_WORKSPACE), r.workspace);
    if Strip(r.query) != "" { SearchedIff(db, fold, r, columns, row); }
    forall i | 0 <= i < |r.filters| ensures models[i] == True <==> Passes(db, r.filters[i], row) {
      PassesIff(db, r.filters[i], row);
    }
  }

  lemma All3Sum(a: seq<Bool3>, b: seq<Bool3>)
    ensures All3(a + b) == True <==> All3(a) == True && All3(b) == True
  {
    All3Iff(a);
    All3Iff(b);
    All3Iff(a + b);
    if All3(a + b) == True {
      forall i | 0 <= i < |a| ensures a[i] == True { assert (a + b)[i] == a[i]; }
      forall i | 0 <= i < |b| ensures b[i] == True { assert (a + b)[|a| + i] == b[i]; }
    }
  }
}

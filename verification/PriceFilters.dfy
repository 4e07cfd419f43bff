/** Compiling ProductPrice filters to a WHERE condition with bind parameters,
    app/api/routes/business_data_tables.py: the condition means what the filter model says, on every row. */
module PriceFilters {
  import opened Decimal
  import opened Whitespace
  import opened Wrappers

  // ---- Three-valued logic ----

  datatype Bool3 = True | False | Unknown

  function Truth(b: bool): Bool3 { if b then True else False }

  function And3(a: Bool3, b: Bool3): Bool3 {
    if a.False? || b.False? then False else if a.True? && b.True? then True else Unknown
  }

  function Or3(a: Bool3, b: Bool3): Bool3 {
    if a.True? || b.True? then True else if a.False? && b.False? then False else Unknown
  }

  function Not3(a: Bool3): Bool3 {
    match a case True => False case False => True case Unknown => Unknown
  }

  function All3(values: seq<Bool3>): Bool3 {
    if values == [] then True else And3(All3(values[..|values| - 1]), values[|values| - 1])
  }

  function Any3(values: seq<Bool3>): Bool3 {
    if values == [] then False else Or3(Any3(values[..|values| - 1]), values[|values| - 1])
  }

  // ---- Rows and the filter model ----

  datatype Value = Null | TextValue(text: string) | NumberValue(number: real)

  type Column = string

  type Row = Column -> Value

  /** CAST AS TEXT and ILIKE. */
  datatype Database = Database(cast: Value -> string, ilike: (string, string) -> bool)

  datatype NumberOp = Equals | NotEqual | LessThan | LessThanOrEqual | GreaterThan | GreaterThanOrEqual

  datatype TextOp = Contains | NotContains | StartsWith | EndsWith | TextEquals | TextNotEqual

  /** A normalized filter condition. */
  datatype Condition =
    | Blank(numeric: bool)
    | NotBlank(numeric: bool)
    | Number(op: NumberOp, value: real)
    | InRange(from: real, to: real)
    | Text(textOp: TextOp, text: string)

  /** The filter of one column: its conditions, joined by AND or OR. */
  datatype Model = Model(column: Column, any: bool, conditions: seq<Condition>)

  function Holds(op: NumberOp, a: real, b: real): bool {
    match op
    case Equals => a == b
    case NotEqual => a != b
    case LessThan => a < b
    case LessThanOrEqual => a <= b
    case GreaterThan => a > b
    case GreaterThanOrEqual => a >= b
  }

  function Pattern(op: TextOp, text: string): string {
    match op
    case Contains => ['%'] + text + ['%']
    case NotContains => ['%'] + text + ['%']
    case StartsWith => text + ['%']
    case EndsWith => ['%'] + text
    case TextEquals => text
    case TextNotEqual => text
  }

  predicate Negated(op: TextOp) { op.NotContains? || op.TextNotEqual? }

  /** A comparison with a value that may be NULL. */
  function Compare(op: NumberOp, v: Value, x: real): Bool3 {
    if v.NumberValue? then Truth(Holds(op, v.number, x)) else Unknown
  }

  function Like(db: Database, v: Value, pattern: string, negated: bool): Bool3 {
    if v.Null? then Unknown
    else if negated then Not3(Truth(db.ilike(db.cast(v), pattern))) else Truth(db.ilike(db.cast(v), pattern))
  }

  predicate BlankText(db: Database, v: Value) { v.Null? || db.cast(v) == "" }

  /** What a condition says about a value. */
  function Direct(db: Database, c: Condition, v: Value): Bool3 {
    match c
    case Blank(numeric) => Truth(if numeric then v.Null? else BlankText(db, v))
    case NotBlank(numeric) => Truth(!(if numeric then v.Null? else BlankText(db, v)))
    case Number(op, x) => Compare(op, v, x)
    case InRange(from, to) => And3(Compare(GreaterThanOrEqual, v, from), Compare(LessThanOrEqual, v, to))
    case Text(op, text) => Like(db, v, Pattern(op, text), Negated(op))
  }

  function DirectModel(db: Database, m: Model, row: Row): Bool3 {
    var values := seq(|m.conditions|, i requires 0 <= i < |m.conditions| => Direct(db, m.conditions[i], row(m.column)));
    if m.any then Any3(values) else All3(values)
  }

  // ---- SQL ----

  datatype Param = TextParam(text: string) | NumberParam(number: real) | ListParam(items: seq<string>)

  type Params = map<string, Param>

  datatype SqlOp = SqlEq | SqlNe | SqlLt | SqlLe | SqlGt | SqlGe

  /** NUMBER_SQL_OPERATORS. */
  function SqlOperator(op: NumberOp): SqlOp {
    match op
    case Equals => SqlEq
    case NotEqual => SqlNe
    case LessThan => SqlLt
    case LessThanOrEqual => SqlLe
    case GreaterThan => SqlGt
    case GreaterThanOrEqual => SqlGe
  }

  /** An SQL comparison with a parameter; with NULL, or without the parameter, it is neither true nor false. */
  function SqlCompare(op: SqlOp, v: Value, x: Option<real>): Bool3 {
    if x.None? || !v.NumberValue? then Unknown
    else
      var a, b := v.number, x.value;
      Truth(match op case SqlEq => a == b case SqlNe => a != b case SqlLt => a < b case SqlLe => !(b < a)
                     case SqlGt => b < a case SqlGe => !(a < b))
  }

  /** An SQL condition; `bind` names a parameter. */
  datatype Atom =
    | IsNull(column: Column, negated: bool)
    | IsBlank(column: Column, negated: bool)           // COALESCE(CAST(column AS TEXT), '') = '' or <> ''
    | CompareSql(column: Column, op: SqlOp, bind: string)
    | Between(column: Column, bind: string, endBind: string)
    | ILike(column: Column, negated: bool, bind: string)
    | EqualsParam(column: Column, bind: string)
    | EqualsText(column: Column, text: string)
    | InParam(column: Column, bind: string)
    | FalseAtom

  /** Conditions joined by OR or AND. */
  datatype Clause = Clause(any: bool, atoms: seq<Atom>)

  function NumberOf(params: Params, bind: string): Option<real> {
    if bind in params && params[bind].NumberParam? then Some(params[bind].number) else None
  }

  function TextOf(params: Params, bind: string): Option<string> {
    if bind in params && params[bind].TextParam? then Some(params[bind].text) else None
  }

  function EqualText(v: Value, t: string): Bool3 {
    if v.Null? then Unknown else Truth(v == TextValue(t))
  }

  function EvalAtom(db: Database, a: Atom, params: Params, row: Row): Bool3 {
    match a
    case IsNull(column, negated) => Truth(row(column).Null? != negated)
    case IsBlank(column, negated) => Truth(BlankText(db, row(column)) != negated)
    case CompareSql(column, op, bind) => SqlCompare(op, row(column), NumberOf(params, bind))
    case Between(column, bind, endBind) =>
      And3(SqlCompare(SqlGe, row(column), NumberOf(params, bind)),
           SqlCompare(SqlLe, row(column), NumberOf(params, endBind)))
    case ILike(column, negated, bind) =>
      var pattern := TextOf(params, bind);
      if pattern.None? then Unknown else Like(db, row(column), pattern.value, negated)
    case EqualsParam(column, bind) =>
      var text := TextOf(params, bind);
      if text.None? then Unknown else EqualText(row(column), text.value)
    case EqualsText(column, text) => EqualText(row(column), text)
    case InParam(column, bind) =>
      if bind !in params || !params[bind].ListParam? || !row(column).TextValue? then Unknown
      else Truth(row(column).text in params[bind].items)
    case FalseAtom => False
  }

  function EvalAtoms(db: Database, atoms: seq<Atom>, params: Params, row: Row): seq<Bool3> {
    seq(|atoms|, i requires 0 <= i < |atoms| => EvalAtom(db, atoms[i], params, row))
  }

  function EvalClause(db: Database, c: Clause, params: Params, row: Row): Bool3 {
    var values := EvalAtoms(db, c.atoms, params, row);
    if c.any then Any3(values) else All3(values)
  }

  function EvalClauses(db: Database, clauses: seq<Clause>, params: Params, row: Row): seq<Bool3> {
    seq(|clauses|, i requires 0 <= i < |clauses| => EvalClause(db, clauses[i], params, row))
  }

  /** The whole WHERE condition. */
  function EvalWhere(db: Database, clauses: seq<Clause>, params: Params, row: Row): Bool3 {
    All3(EvalClauses(db, clauses, params, row))
  }

  // ---- Bind names ----

  const FILTER: string := "filter_"

  function Name(i: nat): string { FILTER + Dec(i) }

  lemma NameInjective(i: nat, j: nat)
    ensures Name(i) == Name(j) ==> i == j
  {
    if Name(i) == Name(j) {
      assert Dec(i) == Name(i)[|FILTER|..] && Dec(j) == Name(j)[|FILTER|..];
      DecInjective(i, j);
    }
  }

  /** A name that is no filter name: the fixed parameters. */
  predicate Fixed(name: string) { name == "" || name[0] != 'f' }

  /** A name in use before filter index n. */
  ghost predicate Below(name: string, n: nat) {
    Fixed(name) || exists i: nat :: i < n && name == Name(i)
  }

  ghost predicate UsesBelow(a: Atom, n: nat) {
    match a
    case CompareSql(_, _, bind) => Below(bind, n)
    case Between(_, bind, endBind) => Below(bind, n) && Below(endBind, n)
    case ILike(_, _, bind) => Below(bind, n)
    case EqualsParam(_, bind) => Below(bind, n)
    case InParam(_, bind) => Below(bind, n)
    case _ => true
  }

  ghost predicate AllBelow(atoms: seq<Atom>, n: nat) {
    forall i :: 0 <= i < |atoms| ==> UsesBelow(atoms[i], n)
  }

  /** The parameters agree on all names below n. */
  ghost predicate Agree(p: Params, q: Params, n: nat) {
    forall name: string :: Below(name, n) ==> (name in p <==> name in q) && (name in p ==> p[name] == q[name])
  }

  lemma AddAbove(p: Params, n: nat, i: nat, v: Param)
    requires n <= i
    ensures Agree(p, p[Name(i) := v], n)
  {
    forall name: string | Below(name, n) ensures name != Name(i) {
      assert Name(i)[0] == 'f';
      if !Fixed(name) {
        var j: nat :| j < n && name == Name(j);
        NameInjective(j, i);
      }
    }
  }

  lemma AgreeTrans(p: Params, q: Params, r: Params, n: nat)
    requires Agree(p, q, n) && Agree(q, r, n)
    ensures Agree(p, r, n)
  {
    hide Below;
  }

  lemma UsesMore(a: Atom, n: nat, m: nat)
    requires UsesBelow(a, n) && n <= m
    ensures UsesBelow(a, m)
  {
  }

  lemma EvalAgrees(db: Database, a: Atom, p: Params, q: Params, n: nat, row: Row)
    requires UsesBelow(a, n) && Agree(p, q, n)
    ensures EvalAtom(db, a, p, row) == EvalAtom(db, a, q, row)
  {
    hide Below;
  }

  // ---- One condition ----

  /** On every row of every database, the atom says what the condition says. */
  ghost predicate AtomMeans(a: Atom, params: Params, c: Condition, column: Column) {
    forall db: Database, row: Row :: EvalAtom(db, a, params, row) == Direct(db, c, row(column))
  }

  /** _filter_condition_sql: writes the condition's values under fresh names and threads the index. */
  method FilterConditionSql(column: Column, c: Condition, params0: Params, index: nat)
    returns (a: Atom, params: Params, next: nat)
    ensures index <= next && Agree(params0, params, index) && UsesBelow(a, next)
    ensures AtomMeans(a, params, c, column)
  {
    hide AtomMeans, Agree, UsesBelow;
    params := params0;
    AgreeSame(params0, index);
    match c
    case Blank(numeric) =>
      a := if numeric then IsNull(column, false) else IsBlank(column, false);
      next := index;
      BlankAtom(a, params, c, column, index);
    case NotBlank(numeric) =>
      a := if numeric then IsNull(column, true) else IsBlank(column, true);
      next := index;
      BlankAtom(a, params, c, column, index);
    case Number(op, x) =>
      AddAbove(params0, index, index, NumberParam(x));
      a, params, next := CompareSql(column, SqlOperator(op), Name(index)), params[Name(index) := NumberParam(x)], index + 1;
      NumberAtom(params, op, x, column, index);
    case InRange(from, to) =>
      AddAbove(params0, index, index, NumberParam(from));
      params := params[Name(index) := NumberParam(from)];
      AddAbove(params, index, index + 1, NumberParam(to));
      AgreeTrans(params0, params, params[Name(index + 1) := NumberParam(to)], index);
      NameInjective(index, index + 1);
      params := params[Name(index + 1) := NumberParam(to)];
      a, next := Between(column, Name(index), Name(index + 1)), index + 2;
      RangeAtom(params, from, to, column, index);
    case Text(op, text) =>
      AddAbove(params0, index, index, TextParam(Pattern(op, text)));
      a, params, next := ILike(column, Negated(op), Name(index)), params[Name(index) := TextParam(Pattern(op, text))], index + 1;
      TextAtom(params, op, text, column, index);
  }

  lemma BlankAtom(a: Atom, params: Params, c: Condition, column: Column, index: nat)
    requires c.Blank? || c.NotBlank?
    requires a == if c.numeric then IsNull(column, c.NotBlank?) else IsBlank(column, c.NotBlank?)
    ensures AtomMeans(a, params, c, column) && UsesBelow(a, index)
  {
  }

  lemma NumberAtom(params: Params, op: NumberOp, x: real, column: Column, index: nat)
    requires NumberOf(params, Name(index)) == Some(x)
    ensures AtomMeans(CompareSql(column, SqlOperator(op), Name(index)), params, Number(op, x), column)
    ensures UsesBelow(CompareSql(column, SqlOperator(op), Name(index)), index + 1)
  {
    hide Name;
  }

  lemma RangeAtom(params: Params, from: real, to: real, column: Column, index: nat)
    requires NumberOf(params, Name(index)) == Some(from) && NumberOf(params, Name(index + 1)) == Some(to)
    ensures AtomMeans(Between(column, Name(index), Name(index + 1)), params, InRange(from, to), column)
    ensures UsesBelow(Between(column, Name(index), Name(index + 1)), index + 2)
  {
    hide Name;
  }

  lemma TextAtom(params: Params, op: TextOp, text: string, column: Column, index: nat)
    requires TextOf(params, Name(index)) == Some(Pattern(op, text))
    ensures AtomMeans(ILike(column, Negated(op), Name(index)), params, Text(op, text), column)
    ensures UsesBelow(ILike(column, Negated(op), Name(index)), index + 1)
  {
    hide Name, Pattern, Negated;
  }

  // ---- One column ----

  ghost predicate AtomsMean(atoms: seq<Atom>, params: Params, conditions: seq<Condition>, column: Column) {
    |atoms| == |conditions| && forall i :: 0 <= i < |atoms| ==> AtomMeans(atoms[i], params, conditions[i], column)
  }

  lemma AtomStays(a: Atom, p: Params, q: Params, n: nat, c: Condition, column: Column)
    requires AtomMeans(a, p, c, column) && UsesBelow(a, n) && Agree(p, q, n)
    ensures AtomMeans(a, q, c, column)
  {
    forall db: Database, row: Row ensures EvalAtom(db, a, q, row) == Direct(db, c, row(column)) {
      EvalAgrees(db, a, p, q, n, row);
    }
  }

  /** One more condition: the earlier ones keep their meaning, because their names are not reused. */
  lemma AtomAdded(atoms: seq<Atom>, p: Params, conditions: seq<Condition>, column: Column, n: nat, a: Atom, q: Params,
                  c: Condition, m: nat)
    requires AtomsMean(atoms, p, conditions, column) && AllBelow(atoms, n)
    requires n <= m && Agree(p, q, n) && UsesBelow(a, m) && AtomMeans(a, q, c, column)
    ensures AtomsMean(atoms + [a], q, conditions + [c], column) && AllBelow(atoms + [a], m)
  {
    hide AtomMeans, UsesBelow, Agree;
    var all := atoms + [a];
    forall i | 0 <= i < |all| ensures AtomMeans(all[i], q, (conditions + [c])[i], column) && UsesBelow(all[i], m) {
      if i < |atoms| {
        assert all[i] == atoms[i];
        AtomStays(atoms[i], p, q, n, conditions[i], column);
        UsesMore(atoms[i], n, m);
      }
    }
  }

  ghost predicate ClauseMeans(c: Clause, params: Params, m: Model) {
    c.any == m.any && AtomsMean(c.atoms, params, m.conditions, m.column)
  }

  lemma ClauseEvaluates(db: Database, c: Clause, params: Params, m: Model, row: Row)
    requires ClauseMeans(c, params, m)
    ensures EvalClause(db, c, params, row) == DirectModel(db, m, row)
  {
    var a := EvalAtoms(db, c.atoms, params, row);
    var b := seq(|m.conditions|, i requires 0 <= i < |m.conditions| => Direct(db, m.conditions[i], row(m.column)));
    forall i | 0 <= i < |a| ensures a[i] == b[i] {
      assert AtomMeans(c.atoms[i], params, m.conditions[i], m.column);
    }
    assert a == b;
  }

  /** The conditions of one column. */
  method ModelSql(m: Model, params0: Params, index: nat) returns (c: Clause, params: Params, next: nat)
    ensures index <= next && Agree(params0, params, index)
    ensures AllBelow(c.atoms, next) && ClauseMeans(c, params, m)
  {
    hide AtomMeans, UsesBelow, Agree;
    var atoms: seq<Atom> := [];
    params, next := params0, index;
    AgreeSame(params0, index);
    for i := 0 to |m.conditions|
      invariant index <= next && Agree(params0, params, index)
      invariant AtomsMean(atoms, params, m.conditions[..i], m.column) && AllBelow(atoms, next)
    {
      var a, params', next' := FilterConditionSql(m.column, m.conditions[i], params, next);
      AtomAdded(atoms, params, m.conditions[..i], m.column, next, a, params', m.conditions[i], next');
      assert m.conditions[..i + 1] == m.conditions[..i] + [m.conditions[i]];
      AgreeFewer(params, params', next, index);
      AgreeTrans(params0, params, params', index);
      atoms, params, next := atoms + [a], params', next';
    }
    assert m.conditions[..|m.conditions|] == m.conditions;
    c := Clause(m.any, atoms);
  }

  lemma AgreeSame(p: Params, n: nat)
    ensures Agree(p, p, n)
  {
  }

  lemma AgreeFewer(p: Params, q: Params, n: nat, m: nat)
    requires Agree(p, q, n) && m <= n
    ensures Agree(p, q, m)
  {
    forall name: string | Below(name, m) ensures Below(name, n) {}
  }

  // ---- The whole query ----

  /** What list_product_price_rows asks for. */
  datatype Request = Request(
    workspace: string, authorized: Option<seq<string>>, query: string, filters: seq<Model>, offset: nat, limit: nat)

  const WORKSPACE: Column := "source.workspaceId"
  const STATUS: Column := "source.status"
  const RESEARCH_WORKSPACE: Column := "research_source.workspaceId"
  const KNOWLEDGE_BASE: Column := "source.knowledgeBaseId"
  const READY: string := "ready"
  const WORKSPACE_PARAM: string := "workspace_id"
  const AUTHORIZED_PARAM: string := "authorized_source_ids"
  const QUERY_PARAM: string := "query_pattern"
  const OFFSET_PARAM: string := "offset"
  const LIMIT_PARAM: string := "limit"

  function Single(a: Atom): Clause { Clause(false, [a]) }

  function SearchClause(columns: seq<Column>): Clause {
    Clause(true, seq(|columns|, i requires 0 <= i < |columns| => ILike(columns[i], false, QUERY_PARAM)))
  }

  function InList(v: Value, items: seq<string>): Bool3 {
    if v.TextValue? then Truth(v.text in items) else Unknown
  }

  function Authorized(r: Request, row: Row): seq<Bool3> {
    match r.authorized
    case None => []
    case Some(items) => [if items == [] then False else InList(row(KNOWLEDGE_BASE), items)]
  }

  function Searched(db: Database, r: Request, columns: seq<Column>, row: Row): seq<Bool3> {
    if Strip(r.query) == "" then []
    else
      var pattern := ['%'] + Strip(r.query) + ['%'];
      [Any3(seq(|columns|, i requires 0 <= i < |columns| => Like(db, row(columns[i]), pattern, false)))]
  }

  /** The conditions before the filters: the workspace, the authorized sources and the search text. */
  function DirectBase(db: Database, r: Request, columns: seq<Column>, row: Row): seq<Bool3> {
    [EqualText(row(WORKSPACE), r.workspace), EqualText(row(STATUS), READY), EqualText(row(RESEARCH_WORKSPACE), r.workspace)]
    + Authorized(r, row) + Searched(db, r, columns, row)
  }

  function DirectModels(db: Database, models: seq<Model>, row: Row): seq<Bool3> {
    seq(|models|, i requires 0 <= i < |models| => DirectModel(db, models[i], row))
  }

  /** Whether a row is asked for, evaluated without SQL. */
  function DirectWhere(db: Database, r: Request, columns: seq<Column>, row: Row): Bool3 {
    All3(DirectBase(db, r, columns, row) + DirectModels(db, r.filters, row))
  }

  ghost predicate ClausesBelow(clauses: seq<Clause>, n: nat) {
    forall i :: 0 <= i < |clauses| ==> AllBelow(clauses[i].atoms, n)
  }

  lemma ClauseStays(db: Database, c: Clause, p: Params, q: Params, n: nat, row: Row)
    requires AllBelow(c.atoms, n) && Agree(p, q, n)
    ensures EvalClause(db, c, p, row) == EvalClause(db, c, q, row)
  {
    hide UsesBelow, Agree;
    var a, b := EvalAtoms(db, c.atoms, p, row), EvalAtoms(db, c.atoms, q, row);
    forall i | 0 <= i < |a| ensures a[i] == b[i] { EvalAgrees(db, c.atoms[i], p, q, n, row); }
    assert a == b;
  }

  lemma ClausesStay(db: Database, clauses: seq<Clause>, p: Params, q: Params, n: nat, row: Row)
    requires ClausesBelow(clauses, n) && Agree(p, q, n)
    ensures EvalClauses(db, clauses, p, row) == EvalClauses(db, clauses, q, row)
  {
    hide Agree, AllBelow;
    var a, b := EvalClauses(db, clauses, p, row), EvalClauses(db, clauses, q, row);
    forall i | 0 <= i < |a| ensures a[i] == b[i] { ClauseStays(db, clauses[i], p, q, n, row); }
  }

  /** What the clauses built so far say on every row. */
  ghost predicate Means(clauses: seq<Clause>, params: Params, r: Request, columns: seq<Column>, models: seq<Model>) {
    forall db: Database, row: Row :: EvalClauses(db, clauses, params, row)
      == DirectBase(db, r, columns, row) + DirectModels(db, models, row)
  }

  lemma ModelAdded(clauses: seq<Clause>, p: Params, r: Request, columns: seq<Column>, models: seq<Model>, n: nat,
                   c: Clause, q: Params, m: Model, next: nat)
    requires Means(clauses, p, r, columns, models) && ClausesBelow(clauses, n) && n <= next
    requires Agree(p, q, n) && AllBelow(c.atoms, next) && ClauseMeans(c, q, m)
    ensures Means(clauses + [c], q, r, columns, models + [m]) && ClausesBelow(clauses + [c], next)
  {
    hide Agree, UsesBelow, DirectBase, ClauseMeans, DirectModel, EvalClause;
    forall db: Database, row: Row
      ensures EvalClauses(db, clauses + [c], q, row) == DirectBase(db, r, columns, row) + DirectModels(db, models + [m], row)
    {
      ClausesStay(db, clauses, p, q, n, row);
      ClauseEvaluates(db, c, q, m, row);
      EvalAdded(db, clauses, c, q, row);
    }
    forall i | 0 <= i < |clauses| ensures AllBelow(clauses[i].atoms, next) {
      forall j | 0 <= j < |clauses[i].atoms| ensures UsesBelow(clauses[i].atoms[j], next) {
        assert AllBelow(clauses[i].atoms, n);
        UsesMore(clauses[i].atoms[j], n, next);
      }
    }
  }

  lemma EvalAdded(db: Database, clauses: seq<Clause>, c: Clause, q: Params, row: Row)
    ensures EvalClauses(db, clauses + [c], q, row) == EvalClauses(db, clauses, q, row) + [EvalClause(db, c, q, row)]
  {
  }

  // ---- The conditions before the filters ----

  lemma SingleEvaluates(db: Database, a: Atom, params: Params, row: Row)
    ensures EvalClause(db, Single(a), params, row) == EvalAtom(db, a, params, row)
  {
    var values := EvalAtoms(db, [a], params, row);
    assert values == [EvalAtom(db, a, params, row)];
    All3One(EvalAtom(db, a, params, row));
  }

  lemma All3One(x: Bool3)
    ensures All3([x]) == x
  {
    assert All3([x]) == And3(All3([x][..0]), x);
  }

  lemma SearchEvaluates(db: Database, columns: seq<Column>, params: Params, row: Row, pattern: string)
    requires TextOf(params, QUERY_PARAM) == Some(pattern)
    ensures EvalClause(db, SearchClause(columns), params, row) ==
      Any3(seq(|columns|, i requires 0 <= i < |columns| => Like(db, row(columns[i]), pattern, false)))
  {
    var a := EvalAtoms(db, SearchClause(columns).atoms, params, row);
    var b := seq(|columns|, i requires 0 <= i < |columns| => Like(db, row(columns[i]), pattern, false));
    assert a == b;
  }

  function WorkspaceClauses(): seq<Clause> {
    [Single(EqualsParam(WORKSPACE, WORKSPACE_PARAM)), Single(EqualsText(STATUS, READY)),
     Single(EqualsParam(RESEARCH_WORKSPACE, WORKSPACE_PARAM))]
  }

  lemma WorkspaceEvaluates(db: Database, params: Params, row: Row, workspace: string)
    requires TextOf(params, WORKSPACE_PARAM) == Some(workspace)
    ensures EvalClauses(db, WorkspaceClauses(), params, row) ==
      [EqualText(row(WORKSPACE), workspace), EqualText(row(STATUS), READY), EqualText(row(RESEARCH_WORKSPACE), workspace)]
  {
    SingleEvaluates(db, EqualsParam(WORKSPACE, WORKSPACE_PARAM), params, row);
    SingleEvaluates(db, EqualsText(STATUS, READY), params, row);
    SingleEvaluates(db, EqualsParam(RESEARCH_WORKSPACE, WORKSPACE_PARAM), params, row);
  }

  function AuthorizedClauses(authorized: Option<seq<string>>): seq<Clause> {
    match authorized
    case None => []
    case Some(items) => [Single(if items == [] then FalseAtom else InParam(KNOWLEDGE_BASE, AUTHORIZED_PARAM))]
  }

  lemma AuthorizedEvaluates(db: Database, r: Request, params: Params, row: Row)
    requires r.authorized.Some? && r.authorized.value != [] ==>
      AUTHORIZED_PARAM in params && params[AUTHORIZED_PARAM] == ListParam(r.authorized.value)
    ensures EvalClauses(db, AuthorizedClauses(r.authorized), params, row) == Authorized(r, row)
  {
    if r.authorized.Some? {
      var a := if r.authorized.value == [] then FalseAtom else InParam(KNOWLEDGE_BASE, AUTHORIZED_PARAM);
      SingleEvaluates(db, a, params, row);
    }
  }

  function SearchClauses(query: string, columns: seq<Column>): seq<Clause> {
    if Strip(query) == "" then [] else [SearchClause(columns)]
  }

  lemma SearchClausesEvaluate(db: Database, r: Request, columns: seq<Column>, params: Params, row: Row)
    requires Strip(r.query) != "" ==> TextOf(params, QUERY_PARAM) == Some(['%'] + Strip(r.query) + ['%'])
    ensures EvalClauses(db, SearchClauses(r.query, columns), params, row) == Searched(db, r, columns, row)
  {
    hide Strip;
    if Strip(r.query) != "" {
      SearchEvaluates(db, columns, params, row, ['%'] + Strip(r.query) + ['%']);
    }
  }

  lemma EvalSum(db: Database, a: seq<Clause>, b: seq<Clause>, params: Params, row: Row)
    ensures EvalClauses(db, a + b, params, row) == EvalClauses(db, a, params, row) + EvalClauses(db, b, params, row)
  {
  }

  lemma BaseEvaluates(db: Database, r: Request, columns: seq<Column>, params: Params, row: Row)
    requires TextOf(params, WORKSPACE_PARAM) == Some(r.workspace)
    requires r.authorized.Some? && r.authorized.value != [] ==>
      AUTHORIZED_PARAM in params && params[AUTHORIZED_PARAM] == ListParam(r.authorized.value)
    requires Strip(r.query) != "" ==> TextOf(params, QUERY_PARAM) == Some(['%'] + Strip(r.query) + ['%'])
    ensures EvalClauses(db, WorkspaceClauses() + AuthorizedClauses(r.authorized) + SearchClauses(r.query, columns), params, row)
      == DirectBase(db, r, columns, row)
  {
    hide Strip, TextOf, EvalClauses, WorkspaceClauses, AuthorizedClauses, SearchClauses, Authorized, Searched;
    WorkspaceEvaluates(db, params, row, r.workspace);
    AuthorizedEvaluates(db, r, params, row);
    SearchClausesEvaluate(db, r, columns, params, row);
    EvalSum(db, WorkspaceClauses(), AuthorizedClauses(r.authorized), params, row);
    EvalSum(db, WorkspaceClauses() + AuthorizedClauses(r.authorized), SearchClauses(r.query, columns), params, row);
  }

  /** The page that is asked for. */
  predicate Paged(params: Params, r: Request) {
    && "offset" in params && params["offset"] == NumberParam(r.offset as real)
    && "limit" in params && params["limit"] == NumberParam(r.limit as real)
  }

  lemma PageStays(p: Params, q: Params, n: nat, r: Request)
    requires Paged(p, r) && Agree(p, q, n)
    ensures Paged(q, r)
  {
    assert "offset"[0] != FILTER[0] && "limit"[0] != FILTER[0];
    assert Below("offset", n) && Below("limit", n);
  }

  /** The fixed part of the WHERE condition. */
  method BuildBase(r: Request, columns: seq<Column>) returns (clauses: seq<Clause>, params: Params)
    ensures Means(clauses, params, r, columns, []) && ClausesBelow(clauses, 0)
    ensures Paged(params, r)
  {
    hide Strip;
    clauses := WorkspaceClauses();
    params := map[WORKSPACE_PARAM := TextParam(r.workspace), OFFSET_PARAM := NumberParam(r.offset as real),
                  LIMIT_PARAM := NumberParam(r.limit as real)];
    if r.authorized.Some? {
      if r.authorized.value != [] { params := params[AUTHORIZED_PARAM := ListParam(r.authorized.value)]; }
    }
    clauses := clauses + AuthorizedClauses(r.authorized);
    var normalized := Strip(r.query);
    if normalized != "" { params := params[QUERY_PARAM := TextParam(['%'] + normalized + ['%'])]; }
    clauses := clauses + SearchClauses(r.query, columns);
    BaseMeans(r, columns, params);
  }

  lemma BaseMeans(r: Request, columns: seq<Column>, params: Params)
    requires TextOf(params, WORKSPACE_PARAM) == Some(r.workspace)
    requires r.authorized.Some? && r.authorized.value != [] ==>
      AUTHORIZED_PARAM in params && params[AUTHORIZED_PARAM] == ListParam(r.authorized.value)
    requires Strip(r.query) != "" ==> TextOf(params, QUERY_PARAM) == Some(['%'] + Strip(r.query) + ['%'])
    ensures Means(WorkspaceClauses() + AuthorizedClauses(r.authorized) + SearchClauses(r.query, columns), params, r, columns, [])
  {
    hide Strip, DirectBase, EvalClauses;
    var clauses := WorkspaceClauses() + AuthorizedClauses(r.authorized) + SearchClauses(r.query, columns);
    forall db: Database, row: Row
      ensures EvalClauses(db, clauses, params, row) == DirectBase(db, r, columns, row) + DirectModels(db, [], row)
    {
      BaseEvaluates(db, r, columns, params, row);
      assert DirectBase(db, r, columns, row) + DirectModels(db, [], row) == DirectBase(db, r, columns, row);
    }
  }

  /** The condition of _build_product_price_queries, with the parameters as they are at the end, accepts
      exactly the rows the request asks for: on every row of every database both have the same truth value. */
  ghost predicate Equivalent(clauses: seq<Clause>, params: Params, r: Request, columns: seq<Column>) {
    forall db: Database, row: Row :: EvalWhere(db, clauses, params, row) == DirectWhere(db, r, columns, row)
  }

  method BuildProductPriceConditions(r: Request, columns: seq<Column>) returns (clauses: seq<Clause>, params: Params)
    ensures Equivalent(clauses, params, r, columns) && Paged(params, r)
  {
    hide Paged;
    hide Means, ClausesBelow, Agree, AllBelow, ClauseMeans, EvalWhere, DirectWhere;
    clauses, params := BuildBase(r, columns);
    var index: nat := 0;
    for i := 0 to |r.filters|
      invariant Means(clauses, params, r, columns, r.filters[..i]) && ClausesBelow(clauses, index) && Paged(params, r)
    {
      var c, params', next := ModelSql(r.filters[i], params, index);
      PageStays(params, params', index, r);
      ModelAdded(clauses, params, r, columns, r.filters[..i], index, c, params', r.filters[i], next);
      assert r.filters[..i + 1] == r.filters[..i] + [r.filters[i]];
      clauses, params, index := clauses + [c], params', next;
    }
    assert r.filters[..|r.filters|] == r.filters;
    MeansEquivalent(clauses, params, r, columns);
  }

  lemma MeansEquivalent(clauses: seq<Clause>, params: Params, r: Request, columns: seq<Column>)
    requires Means(clauses, params, r, columns, r.filters)
    ensures Equivalent(clauses, params, r, columns)
  {
    hide EvalClauses, DirectBase, DirectModels;
    forall db: Database, row: Row ensures EvalWhere(db, clauses, params, row) == DirectWhere(db, r, columns, row) {
      assert EvalClauses(db, clauses, params, row) == DirectBase(db, r, columns, row) + DirectModels(db, r.filters, row);
    }
  }
}

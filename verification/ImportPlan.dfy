/** build_product_write_plan of app/services/business_imports.py: from an accepted candidate to the
    records and facts to write, each with its source. */
module ImportPlan {
  import opened ImportPaths
  import opened ImportValidation
  import opened Sequences
  import opened Wrappers

  datatype PlanError =
    | NoSource(path: string)
    | EmptyObject(path: string)
    | IndexError             // operation_paths[0] of an operation without values

  datatype EntityWritePlan = EntityWritePlan(primarySource: Reference, values: Values)

  /** source_by_field and facts_by_entity. */
  datatype Table = Table(sources: map<string, Reference>, facts: map<string, seq<string>>)

  datatype ProductWritePlan = ProductWritePlan(
    product: EntityWritePlan,
    operation: Option<EntityWritePlan>,
    prices: seq<EntityWritePlan>,
    documents: seq<EntityWritePlan>,
    table: Table)

  const PRODUCT_NAME: string := "productName"

  /** _present_field_paths. */
  function PresentPaths(values: Values, prefix: string): seq<string> {
    if values == [] then []
    else
      (if values[0].value == Null then [] else [FieldPath(prefix, values[0].name)])
      + PresentPaths(values[1..], prefix)
  }

  function Present(part: Part): seq<string> {
    PresentPaths(part.values, part.Path())
  }

  /** Exactly the non-null entries have present paths. */
  lemma {:induction false} PresentIff(values: Values, prefix: string, path: string)
    ensures path in PresentPaths(values, prefix) <==>
      exists i :: 0 <= i < |values| && values[i].value != Null && FieldPath(prefix, values[i].name) == path
  {
    if values != [] {
      PresentIff(values[1..], prefix, path);
      var rest := values[1..];
      forall i | 0 <= i < |rest| ensures rest[i] == values[i + 1] {}
      if i :| 0 < i < |values| && values[i].value != Null && FieldPath(prefix, values[i].name) == path {
        assert rest[i - 1] == values[i];
      }
    }
  }

  // ---- Sources ----

  predicate Covered(references: seq<Reference>, path: string) {
    exists k :: 0 <= k < |references| && Covers(references[k].fieldPath, path)
  }

  /** The first reference that covers the path. */
  predicate IsSource(references: seq<Reference>, path: string, k: int) {
    && 0 <= k < |references| && Covers(references[k].fieldPath, path)
    && forall j :: 0 <= j < k ==> !Covers(references[j].fieldPath, path)
  }

  lemma {:induction false} SourceExists(references: seq<Reference>, path: string)
    requires Covered(references, path)
    ensures exists k :: IsSource(references, path, k)
  {
    var n := |references| - 1;
    if Covered(references[..n], path) {
      SourceExists(references[..n], path);
      var k :| IsSource(references[..n], path, k);
      assert references[..n][k] == references[k];
      forall j | 0 <= j < k ensures !Covers(references[j].fieldPath, path) {
        assert references[..n][j] == references[j];
      }
      assert IsSource(references, path, k);
    } else {
      var k :| 0 <= k < |references| && Covers(references[k].fieldPath, path);
      forall j | 0 <= j < n ensures !Covers(references[j].fieldPath, path) {
        assert references[..n][j] == references[j];
      }
      assert IsSource(references, path, n);
    }
  }

  ghost function SourceOf(references: seq<Reference>, path: string): (r: Reference)
    requires Covered(references, path)
    ensures exists k :: IsSource(references, path, k) && r == references[k]
  {
    SourceExists(references, path);
    var k :| IsSource(references, path, k);
    references[k]
  }

  /** _source_for_path. */
  method SourceForPath(path: string, references: seq<Reference>) returns (r: Result<Reference, PlanError>)
    ensures r.Ok? <==> Covered(references, path)
    ensures r.Ok? ==> r.value == SourceOf(references, path)
    ensures r.Err? ==> r.error == NoSource(path)
  {
    for k := 0 to |references|
      invariant forall j :: 0 <= j < k ==> !Covers(references[j].fieldPath, path)
    {
      if Covers(references[k].fieldPath, path) {
        return Ok(references[k]);
      }
    }
    return Err(NoSource(path));
  }

  predicate AllCovered(references: seq<Reference>, paths: seq<string>) {
    forall i :: 0 <= i < |paths| ==> Covered(references, paths[i])
  }

  // ---- The tables ----

  ghost function SourceMap(references: seq<Reference>, paths: seq<string>): map<string, Reference> {
    map p | p in paths && Covered(references, p) :: SourceOf(references, p)
  }

  ghost function Registered(t: Table, part: Part, references: seq<Reference>): Table {
    Table(t.sources + SourceMap(references, Present(part)), t.facts[part.Path() := Present(part)])
  }

  /** Registering parts one after the other. */
  ghost function Fold(t: Table, parts: seq<Part>, references: seq<Reference>): Table
    decreases parts
  {
    if parts == [] then t
    else
      var n := |parts| - 1;
      Registered(Fold(t, parts[..n], references), parts[n], references)
  }

  lemma {:induction false} FoldSum(t: Table, a: seq<Part>, b: seq<Part>, references: seq<Reference>)
    ensures Fold(t, a + b, references) == Fold(Fold(t, a, references), b, references)
    decreases |b|
  {
    if b == [] {
      assert a + b == a;
    } else {
      var init, last := b[..|b| - 1], b[|b| - 1];
      FoldSum(t, a, init, references);
      SplitLast(b);
      Assoc(a, init, [last]);
    }
  }

  lemma SourceMapNext(references: seq<Reference>, paths: seq<string>, path: string)
    requires Covered(references, path)
    ensures SourceMap(references, paths + [path]) == SourceMap(references, paths)[path := SourceOf(references, path)]
  {
  }

  lemma MergeUpdate(a: map<string, Reference>, b: map<string, Reference>, k: string, v: Reference)
    ensures (a + b)[k := v] == a + b[k := v]
  {
  }

  ghost predicate RegisterInv(t: Table, before: Table, paths: seq<string>, references: seq<Reference>, key: string) {
    && AllCovered(references, paths)
    && t.sources == before.sources + SourceMap(references, paths)
    && t.facts == before.facts[key := paths]
  }

  lemma RegisterNext(t: Table, before: Table, paths: seq<string>, path: string, references: seq<Reference>,
                     key: string)
    requires RegisterInv(t, before, paths, references, key) && Covered(references, path)
    ensures RegisterInv(Table(t.sources[path := SourceOf(references, path)], t.facts[key := paths + [path]]),
                        before, paths + [path], references, key)
  {
    SourceMapNext(references, paths, path);
    MergeUpdate(before.sources, SourceMap(references, paths), path, SourceOf(references, path));
    assert before.facts[key := paths][key := paths + [path]] == before.facts[key := paths + [path]];
  }

  /** _register_fact_sources. */
  method RegisterFactSources(part: Part, references: seq<Reference>, before: Table)
    returns (r: Result<Table, PlanError>)
    ensures r.Ok? <==> AllCovered(references, Present(part))
    ensures r.Ok? ==> r.value == Registered(before, part, references)
    ensures r.Err? ==> r.error.NoSource? && r.error.path in Present(part) && !Covered(references, r.error.path)
  {
    hide Covered, SourceOf, Present;
    var paths, key := Present(part), part.Path();
    var t := before.(facts := before.facts[key := []]);
    for i := 0 to |paths|
      invariant RegisterInv(t, before, paths[..i], references, key)
    {
      var source := SourceForPath(paths[i], references);
      if source.Err? {
        assert !Covered(references, paths[i]);
        return Err(source.error);
      }
      RegisterNext(t, before, paths[..i], paths[i], references, key);
      Take(paths, i);
      t := Table(t.sources[paths[i] := source.value], t.facts[key := t.facts[key] + [paths[i]]]);
    }
    assert paths[..|paths|] == paths;
    return Ok(t);
  }

  // ---- Plans ----

  /** An object can be written if it has a present field and all its present fields have a source. */
  predicate Writable(part: Part, references: seq<Reference>) {
    AllCovered(references, Present(part)) && Present(part) != []
  }

  predicate AllWritable(parts: seq<Part>, references: seq<Reference>) {
    forall i :: 0 <= i < |parts| ==> Writable(parts[i], references)
  }

  /** A record is sourced by its first present field. */
  ghost predicate IsPlan(plan: EntityWritePlan, part: Part, references: seq<Reference>) {
    && Writable(part, references)
    && plan == EntityWritePlan(SourceOf(references, Present(part)[0]), part.values)
  }

  ghost predicate ArePlans(plans: seq<EntityWritePlan>, parts: seq<Part>, references: seq<Reference>) {
    |plans| == |parts| && forall i :: 0 <= i < |plans| ==> IsPlan(plans[i], parts[i], references)
  }

  /** An object after the product: registered, then planned, or refused. */
  method PlanPart(part: Part, references: seq<Reference>, before: Table, whenEmpty: PlanError)
    returns (r: Result<(EntityWritePlan, Table), PlanError>)
    ensures r.Ok? <==> Writable(part, references)
    ensures r.Ok? ==> IsPlan(r.value.0, part, references) && r.value.1 == Registered(before, part, references)
    ensures r.Err? ==> if AllCovered(references, Present(part)) then r.error == whenEmpty
                       else r.error.NoSource? && r.error.path in Present(part) && !Covered(references, r.error.path)
  {
    var table := RegisterFactSources(part, references, before);
    if table.Err? { return Err(table.error); }
    var paths := Present(part);
    if paths == [] { return Err(whenEmpty); }
    var source := SourceForPath(paths[0], references);
    return Ok((EntityWritePlan(source.value, part.values), table.value));
  }

  ghost predicate ChildrenDone(plans: seq<EntityWritePlan>, table: Table, parts: seq<Part>,
                               references: seq<Reference>, before: Table) {
    AllWritable(parts, references) && ArePlans(plans, parts, references) && table == Fold(before, parts, references)
  }

  lemma NextChild(plans: seq<EntityWritePlan>, table: Table, parts: seq<Part>, references: seq<Reference>,
                  before: Table, plan: EntityWritePlan, part: Part)
    requires ChildrenDone(plans, table, parts, references, before) && IsPlan(plan, part, references)
    ensures ChildrenDone(plans + [plan], Registered(table, part, references), parts + [part], references, before)
  {
    var all := parts + [part];
    forall i | 0 <= i < |all| ensures Writable(all[i], references) && IsPlan((plans + [plan])[i], all[i], references) {
      if i < |parts| { assert all[i] == parts[i]; }
    }
  }

  /** The error names a price or document without a value, or one of its fields without a source. */
  predicate ChildErrorFits(error: PlanError, parts: seq<Part>, references: seq<Reference>) {
    exists i :: 0 <= i < |parts| &&
      match error
      case EmptyObject(path) => path == parts[i].Path() && Present(parts[i]) == []
      case NoSource(path) => path in Present(parts[i]) && !Covered(references, path)
      case IndexError => false
  }

  /** _build_child_write_plans. */
  method BuildChildWritePlans(kind: Kind, objects: seq<Values>, references: seq<Reference>, before: Table)
    returns (r: Result<(seq<EntityWritePlan>, Table), PlanError>)
    ensures r.Ok? <==> AllWritable(Items(kind, objects), references)
    ensures r.Ok? ==> ArePlans(r.value.0, Items(kind, objects), references)
    ensures r.Ok? ==> r.value.1 == Fold(before, Items(kind, objects), references)
    ensures r.Err? ==> ChildErrorFits(r.error, Items(kind, objects), references)
  {
    var plans, table: Table := [], before;
    ghost var parts := Items(kind, objects);
    for i := 0 to |objects|
      invariant ChildrenDone(plans, table, parts[..i], references, before)
    {
      var next := PlanPart(Part(kind, i, objects[i]), references, table, EmptyObject(Prefix(kind, i)));
      if next.Err? {
        assert !Writable(parts[i], references) && parts[i] == Part(kind, i, objects[i]);
        return Err(next.error);
      }
      NextChild(plans, table, parts[..i], references, before, next.value.0, parts[i]);
      Take(parts, i);
      plans, table := plans + [next.value.0], next.value.1;
    }
    assert parts[..|objects|] == parts;
    return Ok((plans, table));
  }

  function PartsOf(p: Proposal): seq<Part> {
    Parts(p.product, p.operation, p.prices, p.documents)
  }

  /** Exactly the proposals that can be planned. */
  predicate Plannable(p: Proposal) {
    && AllCovered(p.references, Present(Part(Product, 0, p.product)))
    && Covered(p.references, FieldPath(Prefix(Product, 0), PRODUCT_NAME))
    && AllWritable(Single(Operation, p.operation), p.references)
    && AllWritable(Items(Price, p.prices), p.references)
    && AllWritable(Items(Document, p.documents), p.references)
  }

  ghost predicate IsProductPlan(plan: ProductWritePlan, p: Proposal)
    requires Plannable(p)
  {
    && plan.product ==
         EntityWritePlan(SourceOf(p.references, FieldPath(Prefix(Product, 0), PRODUCT_NAME)), p.product)
    && (plan.operation.None? <==> p.operation.None?)
    && (plan.operation.Some? ==> IsPlan(plan.operation.value, Part(Operation, 0, p.operation.value), p.references))
    && ArePlans(plan.prices, Items(Price, p.prices), p.references)
    && ArePlans(plan.documents, Items(Document, p.documents), p.references)
    && plan.table == Fold(Table(map[], map[]), PartsOf(p), p.references)
  }

  lemma FoldOfParts(t: Table, p: Proposal)
    ensures Fold(t, PartsOf(p), p.references) ==
      Fold(Fold(Fold(Fold(t, Single(Product, Some(p.product)), p.references), Single(Operation, p.operation), p.references),
                Items(Price, p.prices), p.references), Items(Document, p.documents), p.references)
  {
    var a, b := Single(Product, Some(p.product)), Single(Operation, p.operation);
    var c, d := Items(Price, p.prices), Items(Document, p.documents);
    FoldSum(t, a, b, p.references);
    FoldSum(t, a + b, c, p.references);
    FoldSum(t, a + b + c, d, p.references);
  }

  /** The optional operation record. */
  method PlanOperation(operation: Option<Values>, references: seq<Reference>, before: Table)
    returns (r: Result<(Option<EntityWritePlan>, Table), PlanError>)
    ensures r.Ok? <==> AllWritable(Single(Operation, operation), references)
    ensures r.Ok? ==> (r.value.0.None? <==> operation.None?)
    ensures r.Ok? && operation.Some? ==> IsPlan(r.value.0.value, Part(Operation, 0, operation.value), references)
    ensures r.Ok? ==> r.value.1 == Fold(before, Single(Operation, operation), references)
    ensures r == Err(IndexError) <==> operation.Some? && Present(Part(Operation, 0, operation.value)) == []
  {
    if operation.None? { return Ok((None, before)); }
    var part := Part(Operation, 0, operation.value);
    assert Single(Operation, operation)[0] == part;
    var planned := PlanPart(part, references, before, IndexError);
    if planned.Err? { return Err(planned.error); }
    return Ok((Some(planned.value.0), planned.value.1));
  }

  /** An operation without any value, on a product that can be planned. */
  predicate EmptyOperation(p: Proposal) {
    && AllCovered(p.references, Present(Part(Product, 0, p.product)))
    && Covered(p.references, FieldPath(Prefix(Product, 0), PRODUCT_NAME))
    && p.operation.Some? && Present(Part(Operation, 0, p.operation.value)) == []
  }

  /** build_product_write_plan: succeeds exactly on plannable proposals, and fails with an IndexError exactly on an
      empty operation. */
  method BuildProductWritePlan(p: Proposal) returns (r: Result<ProductWritePlan, PlanError>)
    ensures r.Ok? <==> Plannable(p)
    ensures r.Ok? ==> IsProductPlan(r.value, p)
    ensures r == Err(IndexError) <==> EmptyOperation(p)
  {
    var empty := Table(map[], map[]);
    var part := Part(Product, 0, p.product);
    FoldOfParts(empty, p);
    var registered := RegisterFactSources(part, p.references, empty);
    if registered.Err? { return Err(registered.error); }
    var source := SourceForPath(FieldPath(Prefix(Product, 0), PRODUCT_NAME), p.references);
    if source.Err? { return Err(source.error); }
    var operation := PlanOperation(p.operation, p.references, registered.value);
    if operation.Err? { return Err(operation.error); }
    var prices := BuildChildWritePlans(Price, p.prices, p.references, operation.value.1);
    if prices.Err? { return Err(prices.error); }
    var documents := BuildChildWritePlans(Document, p.documents, p.references, prices.value.1);
    if documents.Err? { return Err(documents.error); }
    return Ok(ProductWritePlan(EntityWritePlan(source.value, p.product), operation.value.0,
                               prices.value.0, documents.value.0, documents.value.1));
  }

  // ---- The tables of a plan ----

  lemma Slices(p: Proposal)
    ensures var b, d, e := Single(Operation, p.operation), Items(Price, p.prices), Items(Document, p.documents);
            var all := PartsOf(p);
            && |all| == 1 + |b| + |d| + |e|
            && all[0] == Part(Product, 0, p.product)
            && b == all[1..1 + |b|]
            && d == all[1 + |b|..1 + |b| + |d|]
            && e == all[1 + |b| + |d|..1 + |b| + |d| + |e|]
  {
  }

  /** No two objects share a path, so none overwrites another's facts. */
  lemma PathsDiffer(p: Proposal, i: nat, j: nat)
    requires i < |PartsOf(p)| && j < |PartsOf(p)| && PartsOf(p)[i].Path() == PartsOf(p)[j].Path()
    ensures i == j
  {
    var a, b := PartsOf(p)[i], PartsOf(p)[j];
    PrefixInjective(a.kind, a.index, b.kind, b.index);
  }

  predicate DifferentPaths(parts: seq<Part>) {
    forall i, j :: 0 <= i < j < |parts| ==> parts[i].Path() != parts[j].Path()
  }

  lemma PartsHaveDifferentPaths(p: Proposal)
    ensures DifferentPaths(PartsOf(p))
  {
    forall i, j | 0 <= i < j < |PartsOf(p)| ensures PartsOf(p)[i].Path() != PartsOf(p)[j].Path() {
      if PartsOf(p)[i].Path() == PartsOf(p)[j].Path() { PathsDiffer(p, i, j); }
    }
  }

  lemma {:induction false} FactsOfPart(t: Table, parts: seq<Part>, references: seq<Reference>, i: nat)
    requires DifferentPaths(parts) && i < |parts|
    ensures parts[i].Path() in Fold(t, parts, references).facts
    ensures Fold(t, parts, references).facts[parts[i].Path()] == Present(parts[i])
    decreases |parts|
  {
    var n := |parts| - 1;
    if i < n {
      FactsOfPart(t, parts[..n], references, i);
    }
  }

  lemma {:induction false} SourceInTable(t: Table, parts: seq<Part>, references: seq<Reference>, i: nat, path: string)
    requires i < |parts| && path in Present(parts[i]) && Covered(references, path)
    ensures path in Fold(t, parts, references).sources
    ensures Fold(t, parts, references).sources[path] == SourceOf(references, path)
    decreases |parts|
  {
    hide SourceOf, Covered, Present, Registered;
    var n := |parts| - 1;
    if i < n {
      assert parts[..n][i] == parts[i];
      SourceInTable(t, parts[..n], references, i, path);
    }
    RegisteredSource(Fold(t, parts[..n], references), parts[n], references, path);
  }

  lemma RegisteredSource(t: Table, part: Part, references: seq<Reference>, path: string)
    requires Covered(references, path)
    requires path in Present(part) || (path in t.sources && t.sources[path] == SourceOf(references, path))
    ensures path in Registered(t, part, references).sources
    ensures Registered(t, part, references).sources[path] == SourceOf(references, path)
  {
  }

  lemma {:induction false} OnlyPresentPaths(parts: seq<Part>, references: seq<Reference>, path: string)
    requires path in Fold(Table(map[], map[]), parts, references).sources
    ensures exists i :: 0 <= i < |parts| && path in Present(parts[i])
    decreases |parts|
  {
    if parts != [] {
      var n := |parts| - 1;
      if path !in Present(parts[n]) {
        OnlyPresentPaths(parts[..n], references, path);
        var i :| 0 <= i < n && path in Present(parts[..n][i]);
        assert parts[..n][i] == parts[i];
      }
    }
  }

  lemma PlannableIsCovered(p: Proposal, i: nat)
    requires Plannable(p) && i < |PartsOf(p)|
    ensures AllCovered(p.references, Present(PartsOf(p)[i]))
  {
    Slices(p);
    var b, d, e := Single(Operation, p.operation), Items(Price, p.prices), Items(Document, p.documents);
    var all := PartsOf(p);
    if i == 0 {
    } else if i < 1 + |b| {
      assert Writable(b[i - 1], p.references) && all[i] == b[i - 1];
    } else if i < 1 + |b| + |d| {
      assert Writable(d[i - 1 - |b|], p.references) && all[i] == d[i - 1 - |b|];
    } else {
      assert Writable(e[i - 1 - |b| - |d|], p.references) && all[i] == e[i - 1 - |b| - |d|];
    }
  }

  /** A plan files each object's present paths under its path, and each present path under its source. */
  lemma PlanTables(p: Proposal, plan: ProductWritePlan, i: nat)
    requires Plannable(p) && IsProductPlan(plan, p) && i < |PartsOf(p)|
    ensures PartsOf(p)[i].Path() in plan.table.facts
    ensures plan.table.facts[PartsOf(p)[i].Path()] == Present(PartsOf(p)[i])
    ensures AllCovered(p.references, Present(PartsOf(p)[i]))
    ensures forall path <- Present(PartsOf(p)[i]) ::
      path in plan.table.sources && plan.table.sources[path] == SourceOf(p.references, path)
  {
    var parts := PartsOf(p);
    PartsHaveDifferentPaths(p);
    FactsOfPart(Table(map[], map[]), parts, p.references, i);
    PlannableIsCovered(p, i);
    forall path | path in Present(parts[i]) ensures Covered(p.references, path)
      && path in plan.table.sources && plan.table.sources[path] == SourceOf(p.references, path)
    {
      var j :| 0 <= j < |Present(parts[i])| && Present(parts[i])[j] == path;
      SourceInTable(Table(map[], map[]), parts, p.references, i, path);
    }
  }
}

/** apply_approved_import_job of app/services/business_import_application.py as it runs: one transaction
    that updates the rows in place and is rolled back by any error. */
module ImportApplication {
  import opened ImportPaths
  import opened ImportValidation
  import opened ImportRecords
  import opened Sequences
  import opened Wrappers
  import Plan = ImportPlan

  /** The transaction's inserts so far. */
  datatype Writes = Writes(records: seq<Record>, facts: seq<Fact>)

  // ---- Inserting one record and its facts ----

  /** The facts of a part can be looked up in the plan's tables. */
  ghost predicate Filed(table: Plan.Table, part: Part, references: seq<Reference>) {
    && part.Path() in table.facts && table.facts[part.Path()] == Plan.Present(part)
    && Plan.AllCovered(references, Plan.Present(part))
    && forall i :: 0 <= i < |Plan.Present(part)| ==>
         Plan.Present(part)[i] in table.sources
         && table.sources[Plan.Present(part)[i]] == Plan.SourceOf(references, Plan.Present(part)[i])
  }

  ghost function PartFacts(id: ProposalId, part: Part, references: seq<Reference>): seq<Fact> {
    if Plan.AllCovered(references, Plan.Present(part)) then FactsOfPaths(id, part, Plan.Present(part), references) else []
  }

  lemma FactAt(id: ProposalId, part: Part, table: Plan.Table, references: seq<Reference>, i: nat)
    requires Filed(table, part, references) && i < |Plan.Present(part)|
    ensures |PartFacts(id, part, references)| == |Plan.Present(part)|
    ensures var path := Plan.Present(part)[i];
            && path in table.sources
            && PartFacts(id, part, references)[i]
                 == Fact(id, part.kind, part.index, path, Get(part.values, FieldName(path)), table.sources[path])
  {
  }

  lemma FactCount(id: ProposalId, part: Part, references: seq<Reference>)
    requires Plan.AllCovered(references, Plan.Present(part))
    ensures |PartFacts(id, part, references)| == |Plan.Present(part)|
  {
  }

  /** _insert_facts: one fact per listed path, valued by the field the path ends with. */
  method InsertFacts(id: ProposalId, part: Part, table: Plan.Table, ghost references: seq<Reference>, before: seq<Fact>)
    returns (r: Result<seq<Fact>, ApplyError>)
    requires Filed(table, part, references)
    ensures r.Ok? <==> FieldsResolve(part)
    ensures r.Ok? ==> r.value == before + PartFacts(id, part, references)
    ensures r.Err? ==> r.error == Crash
  {
    hide Plan.SourceOf, PartFacts, FieldName, Plan.AllCovered;
    ghost var all := PartFacts(id, part, references);
    FactCount(id, part, references);
    var paths, facts := table.facts[part.Path()], before;
    for i := 0 to |paths|
      invariant facts == before + all[..i]
      invariant forall k :: 0 <= k < i ==> HasKey(part.values, FieldName(paths[k]))
    {
      FactAt(id, part, table, references, i);
      var name := FieldName(paths[i]);
      if !HasKey(part.values, name) { return Err(Crash); }
      facts := facts + [Fact(id, part.kind, part.index, paths[i], Get(part.values, name), table.sources[paths[i]])];
    }
    return Ok(facts);
  }

  // ---- Inserting one proposal ----

  /** The inserts with the first n parts of a proposal added. */
  ghost function After(env: Environment, id: ProposalId, workspace: WorkspaceId, parts: seq<Part>,
                       references: seq<Reference>, w: Writes, n: nat): Writes
    requires n <= |parts|
  {
    if n == 0 then w else Added(env, id, workspace, parts[n - 1], references,
                                After(env, id, workspace, parts, references, w, n - 1))
  }

  ghost function Added(env: Environment, id: ProposalId, workspace: WorkspaceId, part: Part,
                       references: seq<Reference>, w: Writes): Writes {
    Writes(w.records + [RecordOf(env, id, workspace, part, references)], w.facts + PartFacts(id, part, references))
  }

  ghost predicate ResolvedUpTo(parts: seq<Part>, n: nat)
    requires n <= |parts|
  {
    n == 0 || (ResolvedUpTo(parts, n - 1) && FieldsResolve(parts[n - 1]))
  }

  /** The n-th part can be written from the tables, with this source. */
  ghost predicate ReadyAt(parts: seq<Part>, references: seq<Reference>, n: nat, part: Part, source: Reference,
                          table: Plan.Table) {
    && n < |parts| && part == parts[n]
    && Filed(table, part, references) && PrimarySource(part, references) == Some(source)
  }

  /** One record and its facts. */
  method InsertNext(env: Environment, id: ProposalId, workspace: WorkspaceId, ghost parts: seq<Part>,
                    ghost references: seq<Reference>, ghost n: nat, part: Part, source: Reference, table: Plan.Table,
                    ghost w0: Writes, w: Writes)
    returns (r: Result<Writes, ApplyError>)
    requires ReadyAt(parts, references, n, part, source, table)
    requires w == After(env, id, workspace, parts, references, w0, n) && ResolvedUpTo(parts, n)
    ensures r.Ok? ==> r.value == After(env, id, workspace, parts, references, w0, n + 1) && ResolvedUpTo(parts, n + 1)
    ensures r.Err? ==> r.error == Crash && !AllFieldsResolve(parts)
  {
    var name := if part.kind.Product? then ProductName(env, part.values) else "";
    var record := Record(Some(id), part.kind, part.index, workspace, name, part.values, Some(source));
    var inserted := InsertFacts(id, part, table, references, w.facts);
    if inserted.Err? { return Err(inserted.error); }
    return Ok(Writes(w.records + [record], inserted.value));
  }

  lemma {:induction false} ResolvedAll(parts: seq<Part>, n: nat, i: nat)
    requires i < n <= |parts| && ResolvedUpTo(parts, n)
    ensures FieldsResolve(parts[i])
  {
    if i < n - 1 { ResolvedAll(parts, n - 1, i); }
  }

  /** The inserts extended by whole parts. */
  ghost function Sum(env: Environment, id: ProposalId, workspace: WorkspaceId, parts: seq<Part>,
                     references: seq<Reference>, w: Writes): Writes
    requires forall i :: 0 <= i < |parts| ==> Plan.AllCovered(references, Plan.Present(parts[i]))
  {
    Writes(w.records + RecordsOf(env, id, workspace, parts, references), w.facts + FactsOf(id, parts, references))
  }

  lemma {:induction false} AfterIsSum(env: Environment, id: ProposalId, workspace: WorkspaceId, parts: seq<Part>,
                                      references: seq<Reference>, w: Writes, n: nat)
    requires n <= |parts| && forall i :: 0 <= i < n ==> Plan.AllCovered(references, Plan.Present(parts[i]))
    ensures forall i :: 0 <= i < n ==> Plan.AllCovered(references, Plan.Present(parts[..n][i]))
    ensures After(env, id, workspace, parts, references, w, n) == Sum(env, id, workspace, parts[..n], references, w)
  {
    hide Added, Sum, Plan.AllCovered, Plan.Present;
    if n == 0 {
      assert parts[..0] == [];
      NothingAdded(env, id, workspace, references, w);
    } else {
      AfterIsSum(env, id, workspace, parts, references, w, n - 1);
      Take(parts, n - 1);
      OneMore(env, id, workspace, parts[..n - 1], parts[n - 1], references, w);
    }
  }

  lemma NothingAdded(env: Environment, id: ProposalId, workspace: WorkspaceId, references: seq<Reference>, w: Writes)
    ensures Sum(env, id, workspace, [], references, w) == w
  {
  }

  lemma OneMore(env: Environment, id: ProposalId, workspace: WorkspaceId, parts: seq<Part>, part: Part,
                references: seq<Reference>, w: Writes)
    requires forall i :: 0 <= i < |parts| ==> Plan.AllCovered(references, Plan.Present(parts[i]))
    requires Plan.AllCovered(references, Plan.Present(part))
    ensures forall i :: 0 <= i < |parts + [part]| ==> Plan.AllCovered(references, Plan.Present((parts + [part])[i]))
    ensures Sum(env, id, workspace, parts + [part], references, w)
      == Added(env, id, workspace, part, references, Sum(env, id, workspace, parts, references, w))
  {
    hide RecordOf, PartFacts, Plan.AllCovered, Plan.Present;
    FactsOfSnoc(id, parts, part, references);
    Assoc(w.records, RecordsOf(env, id, workspace, parts, references), [RecordOf(env, id, workspace, part, references)]);
    Assoc(w.facts, FactsOf(id, parts, references), PartFacts(id, part, references));
  }

  lemma FactsOfSnoc(id: ProposalId, parts: seq<Part>, part: Part, references: seq<Reference>)
    requires forall i :: 0 <= i < |parts| ==> Plan.AllCovered(references, Plan.Present(parts[i]))
    requires Plan.AllCovered(references, Plan.Present(part))
    ensures forall i :: 0 <= i < |parts + [part]| ==> Plan.AllCovered(references, Plan.Present((parts + [part])[i]))
    ensures FactsOf(id, parts + [part], references) == FactsOf(id, parts, references) + PartFacts(id, part, references)
  {
    assert (parts + [part])[..|parts|] == parts;
  }

  // ---- What the plan provides for each part ----

  lemma FiledAt(p: Proposal, plan: Plan.ProductWritePlan, n: nat)
    requires Plan.Plannable(p) && Plan.IsProductPlan(plan, p) && n < |Plan.PartsOf(p)|
    ensures Filed(plan.table, Plan.PartsOf(p)[n], p.references)
  {
    Plan.PlanTables(p, plan, n);
  }

  lemma ProductReady(p: Proposal, plan: Plan.ProductWritePlan)
    requires Plan.Plannable(p) && Plan.IsProductPlan(plan, p)
    ensures ReadyAt(Plan.PartsOf(p), p.references, 0, Part(Product, 0, plan.product.values), plan.product.primarySource, plan.table)
  {
    Plan.Slices(p);
    FiledAt(p, plan, 0);
  }

  lemma PlannedReady(p: Proposal, plan: Plan.ProductWritePlan, n: nat, entity: Plan.EntityWritePlan)
    requires Plan.Plannable(p) && Plan.IsProductPlan(plan, p) && n < |Plan.PartsOf(p)|
    requires !Plan.PartsOf(p)[n].kind.Product? && Plan.IsPlan(entity, Plan.PartsOf(p)[n], p.references)
    ensures ReadyAt(Plan.PartsOf(p), p.references, n, Plan.PartsOf(p)[n], entity.primarySource, plan.table)
  {
    FiledAt(p, plan, n);
    var part := Plan.PartsOf(p)[n];
    assert Plan.Covered(p.references, Plan.Present(part)[0]);
  }

  lemma OperationReady(p: Proposal, plan: Plan.ProductWritePlan)
    requires Plan.Plannable(p) && Plan.IsProductPlan(plan, p) && plan.operation.Some?
    ensures var operation := plan.operation.value;
            ReadyAt(Plan.PartsOf(p), p.references, 1, Part(Operation, 0, operation.values), operation.primarySource, plan.table)
  {
    Plan.Slices(p);
    assert Plan.PartsOf(p)[1] == Single(Operation, p.operation)[0];
    PlannedReady(p, plan, 1, plan.operation.value);
  }

  /** Where the prices and the documents start among all parts. */
  function FirstPrice(p: Proposal): nat { 1 + |Single(Operation, p.operation)| }

  function FirstDocument(p: Proposal): nat { FirstPrice(p) + |p.prices| }

  lemma PriceAt(p: Proposal, i: nat)
    requires i < |p.prices|
    ensures FirstPrice(p) + i < |Plan.PartsOf(p)| && Plan.PartsOf(p)[FirstPrice(p) + i] == Items(Price, p.prices)[i]
  {
    Plan.Slices(p);
  }

  lemma PriceReady(p: Proposal, plan: Plan.ProductWritePlan, i: nat)
    requires Plan.Plannable(p) && Plan.IsProductPlan(plan, p) && i < |plan.prices|
    ensures ReadyAt(Plan.PartsOf(p), p.references, FirstPrice(p) + i, Part(Price, i, plan.prices[i].values),
                    plan.prices[i].primarySource, plan.table)
  {
    hide Plan.SourceOf, Plan.AllCovered, Filed, Plan.Present, PrimarySource, Plan.PartsOf;
    PriceAt(p, i);
    assert Plan.IsPlan(plan.prices[i], Items(Price, p.prices)[i], p.references);
    PlannedReady(p, plan, FirstPrice(p) + i, plan.prices[i]);
  }

  lemma DocumentAt(p: Proposal, i: nat)
    requires i < |p.documents|
    ensures FirstDocument(p) + i < |Plan.PartsOf(p)|
    ensures Plan.PartsOf(p)[FirstDocument(p) + i] == Items(Document, p.documents)[i]
  {
    Plan.Slices(p);
  }

  lemma DocumentReady(p: Proposal, plan: Plan.ProductWritePlan, i: nat)
    requires Plan.Plannable(p) && Plan.IsProductPlan(plan, p) && i < |plan.documents|
    ensures ReadyAt(Plan.PartsOf(p), p.references, FirstDocument(p) + i, Part(Document, i, plan.documents[i].values),
                    plan.documents[i].primarySource, plan.table)
  {
    hide Plan.SourceOf, Plan.AllCovered, Filed, Plan.Present, PrimarySource, Plan.PartsOf;
    DocumentAt(p, i);
    assert Plan.IsPlan(plan.documents[i], Items(Document, p.documents)[i], p.references);
    PlannedReady(p, plan, FirstDocument(p) + i, plan.documents[i]);
  }

  /** All parts of the plan, at their places. */
  ghost predicate Ready(parts: seq<Part>, references: seq<Reference>, plan: Plan.ProductWritePlan) {
    var first := if plan.operation.Some? then 2 else 1;
    && ReadyAt(parts, references, 0, Part(Product, 0, plan.product.values), plan.product.primarySource, plan.table)
    && (plan.operation.Some? ==>
          ReadyAt(parts, references, 1, Part(Operation, 0, plan.operation.value.values),
                  plan.operation.value.primarySource, plan.table))
    && ItemsReady(parts, references, Price, plan.prices, first, plan.table)
    && ItemsReady(parts, references, Document, plan.documents, first + |plan.prices|, plan.table)
    && |parts| == first + |plan.prices| + |plan.documents|
  }

  ghost predicate ItemsReady(parts: seq<Part>, references: seq<Reference>, kind: Kind,
                             plans: seq<Plan.EntityWritePlan>, first: nat, table: Plan.Table) {
    forall i :: 0 <= i < |plans| ==> ItemReady(parts, references, kind, plans, first, table, i)
  }

  ghost predicate ItemReady(parts: seq<Part>, references: seq<Reference>, kind: Kind,
                            plans: seq<Plan.EntityWritePlan>, first: nat, table: Plan.Table, i: nat)
    requires i < |plans|
  {
    ReadyAt(parts, references, first + i, Part(kind, i, plans[i].values), plans[i].primarySource, table)
  }

  lemma PlanIsReady(p: Proposal, plan: Plan.ProductWritePlan)
    requires Plan.Plannable(p) && Plan.IsProductPlan(plan, p)
    ensures Ready(Plan.PartsOf(p), p.references, plan)
  {
    ProductReady(p, plan);
    if plan.operation.Some? { OperationReady(p, plan); }
    PricesReady(p, plan);
    DocumentsReady(p, plan);
  }

  lemma PricesReady(p: Proposal, plan: Plan.ProductWritePlan)
    requires Plan.Plannable(p) && Plan.IsProductPlan(plan, p)
    ensures ItemsReady(Plan.PartsOf(p), p.references, Price, plan.prices, FirstPrice(p), plan.table)
  {
    forall i | 0 <= i < |plan.prices|
      ensures ItemReady(Plan.PartsOf(p), p.references, Price, plan.prices, FirstPrice(p), plan.table, i)
    {
      PriceReady(p, plan, i);
    }
  }

  lemma DocumentsReady(p: Proposal, plan: Plan.ProductWritePlan)
    requires Plan.Plannable(p) && Plan.IsProductPlan(plan, p)
    ensures ItemsReady(Plan.PartsOf(p), p.references, Document, plan.documents, FirstDocument(p), plan.table)
  {
    forall i | 0 <= i < |plan.documents|
      ensures ItemReady(Plan.PartsOf(p), p.references, Document, plan.documents, FirstDocument(p), plan.table, i)
    {
      DocumentReady(p, plan, i);
    }
  }

  /** The loops over prices and documents; `first` is the place of the first of them among all parts. */
  method InsertItems(env: Environment, id: ProposalId, workspace: WorkspaceId, kind: Kind,
                     plans: seq<Plan.EntityWritePlan>, table: Plan.Table, ghost parts: seq<Part>,
                     ghost references: seq<Reference>, ghost first: nat, ghost w0: Writes, before: Writes)
    returns (r: Result<Writes, ApplyError>)
    requires first + |plans| <= |parts| && ItemsReady(parts, references, kind, plans, first, table)
    requires before == After(env, id, workspace, parts, references, w0, first) && ResolvedUpTo(parts, first)
    ensures r.Ok? ==>
      && r.value == After(env, id, workspace, parts, references, w0, first + |plans|)
      && ResolvedUpTo(parts, first + |plans|)
    ensures r.Err? ==> r.error == Crash && !AllFieldsResolve(parts)
  {
    hide After, ResolvedUpTo, FieldsResolve, Plan.SourceOf, Plan.Present, PrimarySource, Plan.AllCovered;
    var w := before;
    for i := 0 to |plans|
      invariant w == After(env, id, workspace, parts, references, w0, first + i) && ResolvedUpTo(parts, first + i)
    {
      var part := Part(kind, i, plans[i].values);
      var source := plans[i].primarySource;
      assert ItemReady(parts, references, kind, plans, first, table, i);
      r := InsertNext(env, id, workspace, parts, references, first + i, part, source, table, w0, w);
      if r.Err? { return; }
      w := r.value;
    }
    return Ok(w);
  }

  /** The product and, if there is one, its operation. */
  method InsertHead(env: Environment, id: ProposalId, workspace: WorkspaceId, plan: Plan.ProductWritePlan,
                    ghost parts: seq<Part>, ghost references: seq<Reference>, w: Writes)
    returns (r: Result<Writes, ApplyError>)
    requires Ready(parts, references, plan)
    ensures var first := if plan.operation.Some? then 2 else 1;
            r.Ok? ==> r.value == After(env, id, workspace, parts, references, w, first) && ResolvedUpTo(parts, first)
    ensures r.Err? ==> r.error == Crash && !AllFieldsResolve(parts)
  {
    var product := Part(Product, 0, plan.product.values);
    r := InsertNext(env, id, workspace, parts, references, 0, product, plan.product.primarySource, plan.table, w, w);
    if r.Err? { return; }
    if plan.operation.Some? {
      var operation := Part(Operation, 0, plan.operation.value.values);
      r := InsertNext(env, id, workspace, parts, references, 1, operation, plan.operation.value.primarySource, plan.table,
                      w, r.value);
    }
  }

  /** All records and facts of a planned proposal. */
  method InsertPlan(env: Environment, id: ProposalId, workspace: WorkspaceId, plan: Plan.ProductWritePlan,
                    ghost parts: seq<Part>, ghost references: seq<Reference>, w: Writes)
    returns (r: Result<Writes, ApplyError>)
    requires Ready(parts, references, plan)
    ensures r.Ok? ==> r.value == After(env, id, workspace, parts, references, w, |parts|) && ResolvedUpTo(parts, |parts|)
    ensures r.Err? ==> r.error == Crash && !AllFieldsResolve(parts)
  {
    hide After, ResolvedUpTo, ReadyAt, AllFieldsResolve;
    ghost var first := if plan.operation.Some? then 2 else 1;
    r := InsertHead(env, id, workspace, plan, parts, references, w);
    if r.Err? { return; }
    r := InsertItems(env, id, workspace, Price, plan.prices, plan.table, parts, references, first, w, r.value);
    if r.Err? { return; }
    r := InsertItems(env, id, workspace, Document, plan.documents, plan.table, parts, references, first + |plan.prices|,
                     w, r.value);
  }

  lemma AllInserted(env: Environment, id: ProposalId, workspace: WorkspaceId, p: Proposal, w: Writes)
    requires Plan.Plannable(p)
    ensures After(env, id, workspace, Plan.PartsOf(p), p.references, w, |Plan.PartsOf(p)|) ==
      Writes(w.records + AddedRecords(env, id, workspace, p), w.facts + AddedFacts(id, p))
  {
    hide Added;
    AfterIsSum(env, id, workspace, Plan.PartsOf(p), p.references, w, |Plan.PartsOf(p)|);
    assert Plan.PartsOf(p)[..|Plan.PartsOf(p)|] == Plan.PartsOf(p);
  }

  lemma AllResolved(parts: seq<Part>)
    requires ResolvedUpTo(parts, |parts|)
    ensures AllFieldsResolve(parts)
  {
    forall i | 0 <= i < |parts| ensures FieldsResolve(parts[i]) {
      ResolvedAll(parts, |parts|, i);
    }
  }

  /** _apply_product_proposal, for a proposal in scope: planned, checked for a duplicate and inserted. */
  method ApplyProductProposal(env: Environment, id: ProposalId, job: Job, p: Proposal, w: Writes)
    returns (r: Result<Writes, ApplyError>)
    requires InScope(p, job.origin)
    ensures r.Ok? <==> CanApply(env, job, w.records, p)
    ensures r.Ok? ==> r.value == Writes(w.records + AddedRecords(env, id, job.workspace, p), w.facts + AddedFacts(id, p))
    ensures r.Err? ==> r.error == InvalidProposal || r.error == Crash || r.error == Conflict
    ensures r == Err(Conflict) <==>
      && Plan.Plannable(p) && HasKey(p.product, Plan.PRODUCT_NAME)
      && NameTaken(env, w.records, job.workspace, ProductName(env, p.product))
    ensures r == Err(InvalidProposal) <==> !Plan.Plannable(p) && !Plan.EmptyOperation(p)
  {
    var plan := Plan.BuildProductWritePlan(p);
    if plan.Err? { return Err(if plan.error.IndexError? then Crash else InvalidProposal); }
    if !HasKey(p.product, Plan.PRODUCT_NAME) { return Err(Crash); }
    if NameTaken(env, w.records, job.workspace, ProductName(env, p.product)) { return Err(Conflict); }
    if !env.insertable(p) { return Err(Crash); }
    PlanIsReady(p, plan.value);
    r := InsertPlan(env, id, job.workspace, plan.value, Plan.PartsOf(p), p.references, w);
    if r.Ok? {
      AllInserted(env, id, job.workspace, p, w);
      AllResolved(Plan.PartsOf(p));
    }
  }
}

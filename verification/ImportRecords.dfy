/** The rows an import reads and writes, and what one approved proposal adds to them
    (app/services/business_import_application.py). */
module ImportRecords {
  import opened ImportPaths
  import opened ImportValidation
  import opened Wrappers
  import Plan = ImportPlan

  type JobId = nat
  type ProposalId = nat
  type WorkspaceId = nat

  datatype JobStatus = Analyzing | AwaitingReview | Applying | Completed | Failed | SchemaReview

  datatype ProposalStatus = Pending | Approved | Rejected | Applied | NeedsSchemaReview {
    /** Still to be decided or applied: what PENDING_PROPOSAL_COUNT_QUERY counts. */
    predicate Open() { Pending? || Approved? }
  }

  datatype Job = Job(workspace: WorkspaceId, origin: Origin, status: JobStatus)

  datatype ProposalRow = ProposalRow(job: JobId, status: ProposalStatus, content: Proposal)

  /** A product, operation, price or document row. Its generated id is the pair of its proposal and its
      place in it; rows not written by an import have no proposal. `name` is the productName column. */
  datatype Record = Record(
    proposal: Option<ProposalId>, kind: Kind, index: nat, workspace: WorkspaceId, name: string, values: Values,
    source: Option<Reference>)

  datatype Fact = Fact(
    proposal: ProposalId, kind: Kind, index: nat, path: string, value: Json, source: Reference)

  /** Proposals are numbered in the order in which APPROVED_PROPOSALS_QUERY returns them. */
  datatype Db = Db(
    jobs: map<JobId, Job>, proposals: seq<ProposalRow>, records: seq<Record>, facts: seq<Fact>)

  /** SQL's lower(), Python's str() of a value that is no string, and whether the INSERTs of a proposal
      find all keys and satisfy the database. */
  datatype Environment = Environment(
    lower: string -> string, render: Json -> string, insertable: Proposal -> bool)

  // ---- Names and values ----

  predicate HasKey(values: Values, name: string) {
    exists i :: 0 <= i < |values| && values[i].name == name
  }

  /** str(values["productName"]). */
  function ProductName(env: Environment, values: Values): string {
    var value := Get(values, Plan.PRODUCT_NAME);
    if value.Text? then value.text else env.render(value)
  }

  /** path.rsplit(".", 1)[1]. */
  function FieldName(path: string): string {
    if path == "" then ""
    else if path[|path| - 1] == '.' then ""
    else FieldName(path[..|path| - 1]) + [path[|path| - 1]]
  }

  lemma {:induction false} FieldNameOf(prefix: string, name: string)
    requires Plain(name)
    ensures FieldName(FieldPath(prefix, name)) == name
  {
    var path := FieldPath(prefix, name);
    if name == "" {
      assert path[|path| - 1] == '.';
    } else {
      var n := |name| - 1;
      assert path[..|path| - 1] == FieldPath(prefix, name[..n]);
      assert path[|path| - 1] == name[n];
      FieldNameOf(prefix, name[..n]);
      assert name == name[..n] + [name[n]];
    }
  }

  // ---- What one proposal adds ----

  /** The reference a record is written with: for the product the one of its name. */
  ghost function PrimarySource(part: Part, references: seq<Reference>): Option<Reference> {
    var path := if part.kind.Product? then FieldPath(Prefix(Product, 0), Plan.PRODUCT_NAME)
                else if Plan.Present(part) == [] then "" else Plan.Present(part)[0];
    if Plan.Covered(references, path) then Some(Plan.SourceOf(references, path)) else None
  }

  ghost function RecordOf(env: Environment, id: ProposalId, workspace: WorkspaceId, part: Part,
                          references: seq<Reference>): Record {
    Record(Some(id), part.kind, part.index, workspace,
           if part.kind.Product? then ProductName(env, part.values) else "",
           part.values, PrimarySource(part, references))
  }

  /** One record per object. */
  ghost function RecordsOf(env: Environment, id: ProposalId, workspace: WorkspaceId, parts: seq<Part>,
                           references: seq<Reference>): (records: seq<Record>)
    ensures |records| == |parts|
    ensures forall i :: 0 <= i < |parts| ==> records[i] == RecordOf(env, id, workspace, parts[i], references)
  {
    seq(|parts|, i requires 0 <= i < |parts| => RecordOf(env, id, workspace, parts[i], references))
  }

  ghost function FactOf(id: ProposalId, part: Part, path: string, references: seq<Reference>): Fact
    requires Plan.Covered(references, path)
  {
    Fact(id, part.kind, part.index, path, Get(part.values, FieldName(path)), Plan.SourceOf(references, path))
  }

  ghost function FactsOfPaths(id: ProposalId, part: Part, paths: seq<string>, references: seq<Reference>): seq<Fact>
    requires Plan.AllCovered(references, paths)
  {
    seq(|paths|, i requires 0 <= i < |paths| => FactOf(id, part, paths[i], references))
  }

  /** One fact per present path. */
  ghost function FactsOf(id: ProposalId, parts: seq<Part>, references: seq<Reference>): seq<Fact>
    requires forall i :: 0 <= i < |parts| ==> Plan.AllCovered(references, Plan.Present(parts[i]))
  {
    if parts == [] then []
    else
      var n := |parts| - 1;
      FactsOf(id, parts[..n], references) + FactsOfPaths(id, parts[n], Plan.Present(parts[n]), references)
  }

  /** The non-null entries of an object. */
  function NonNull(values: Values): Values {
    if values == [] then []
    else (if values[0].value == Null then [] else [values[0]]) + NonNull(values[1..])
  }

  predicate PlainKeys(values: Values) {
    forall i :: 0 <= i < |values| ==> Plain(values[i].name)
  }

  /** One fact per non-null field, in order, with that field's path and value. */
  ghost predicate FactsMatch(facts: seq<Fact>, id: ProposalId, part: Part) {
    && |facts| == |NonNull(part.values)|
    && forall i :: 0 <= i < |facts| ==>
         && facts[i].proposal == id && facts[i].kind == part.kind && facts[i].index == part.index
         && facts[i].path == FieldPath(part.Path(), NonNull(part.values)[i].name)
         && facts[i].value == NonNull(part.values)[i].value
  }

  lemma {:induction false} PresentMatchesNonNull(values: Values, prefix: string)
    ensures |Plan.PresentPaths(values, prefix)| == |NonNull(values)|
    ensures forall i :: 0 <= i < |NonNull(values)| ==>
      Plan.PresentPaths(values, prefix)[i] == FieldPath(prefix, NonNull(values)[i].name)
  {
    if values != [] { PresentMatchesNonNull(values[1..], prefix); }
  }

  lemma {:induction false} NonNullEntry(values: Values, i: nat) returns (j: nat)
    requires i < |NonNull(values)|
    ensures j < |values| && values[j] == NonNull(values)[i]
  {
    if values[0].value == Null {
      var k := NonNullEntry(values[1..], i);
      j := k + 1;
    } else if i == 0 {
      j := 0;
    } else {
      var k := NonNullEntry(values[1..], i - 1);
      j := k + 1;
    }
  }

  lemma OneFactPerField(id: ProposalId, part: Part, references: seq<Reference>)
    requires Plan.AllCovered(references, Plan.Present(part)) && IsDict(part.values) && PlainKeys(part.values)
    ensures FactsMatch(FactsOfPaths(id, part, Plan.Present(part), references), id, part)
  {
    PresentMatchesNonNull(part.values, part.Path());
    var facts, entries := FactsOfPaths(id, part, Plan.Present(part), references), NonNull(part.values);
    forall i | 0 <= i < |facts|
      ensures facts[i].path == FieldPath(part.Path(), entries[i].name) && facts[i].value == entries[i].value
    {
      var j := NonNullEntry(part.values, i);
      FieldNameOf(part.Path(), entries[i].name);
      GetAt(part.values, j);
    }
  }

  /** The number of non-null fields of some objects. */
  function FieldCount(parts: seq<Part>): nat {
    if parts == [] then 0 else FieldCount(parts[..|parts| - 1]) + |NonNull(parts[|parts| - 1].values)|
  }

  /** A proposal adds as many facts as it has non-null fields, and the facts of its n-th object are, in
      order, those of the object's fields. */
  lemma {:induction false} FactsOfEachPart(id: ProposalId, parts: seq<Part>, references: seq<Reference>, n: nat)
    requires forall i :: 0 <= i < |parts| ==> Plan.AllCovered(references, Plan.Present(parts[i]))
    requires n < |parts| && IsDict(parts[n].values) && PlainKeys(parts[n].values)
    ensures |FactsOf(id, parts, references)| == FieldCount(parts)
    ensures FieldCount(parts[..n]) + |NonNull(parts[n].values)| <= FieldCount(parts)
    ensures FactsMatch(FactsOf(id, parts, references)[FieldCount(parts[..n])..FieldCount(parts[..n]) + |NonNull(parts[n].values)|],
                       id, parts[n])
    decreases |parts|
  {
    hide Plan.AllCovered, Plan.Present, FactsOfPaths, FactsOf, NonNull;
    var last := |parts| - 1;
    FactCounts(id, parts, references);
    FactsGrow(id, parts, references);
    var from, size := FieldCount(parts[..n]), |NonNull(parts[n].values)|;
    var init := parts[..last];
    forall i | 0 <= i < last ensures init[i] == parts[i] {}
    FactCounts(id, init, references);
    if n < last {
      assert init[..n] == parts[..n];
      FactsOfEachPart(id, init, references, n);
      assert FactsOf(id, parts, references)[from..from + size] == FactsOf(id, init, references)[from..from + size];
    } else {
      OneFactPerField(id, parts[n], references);
      PresentMatchesNonNull(parts[n].values, parts[n].Path());
      FactsAtEnd(id, parts, references);
      assert FactsOf(id, parts, references)[from..from + size] == FactsOf(id, parts, references)[from..];
    }
  }

  lemma FactsGrow(id: ProposalId, parts: seq<Part>, references: seq<Reference>)
    requires parts != [] && forall i :: 0 <= i < |parts| ==> Plan.AllCovered(references, Plan.Present(parts[i]))
    ensures forall i :: 0 <= i < |parts| - 1 ==> parts[..|parts| - 1][i] == parts[i]
    ensures FactsOf(id, parts[..|parts| - 1], references) <= FactsOf(id, parts, references)
  {
  }

  lemma FactsAtEnd(id: ProposalId, parts: seq<Part>, references: seq<Reference>)
    requires parts != [] && forall i :: 0 <= i < |parts| ==> Plan.AllCovered(references, Plan.Present(parts[i]))
    ensures var last := |parts| - 1;
            && FieldCount(parts[..last]) <= |FactsOf(id, parts, references)| == FieldCount(parts)
            && FactsOf(id, parts, references)[FieldCount(parts[..last])..]
                 == FactsOfPaths(id, parts[last], Plan.Present(parts[last]), references)
  {
    hide Plan.AllCovered, Plan.Present;
    var last := |parts| - 1;
    forall i | 0 <= i < last ensures parts[..last][i] == parts[i] {}
    FactCounts(id, parts, references);
    FactCounts(id, parts[..last], references);
  }

  lemma {:induction false} FactCounts(id: ProposalId, parts: seq<Part>, references: seq<Reference>)
    requires forall i :: 0 <= i < |parts| ==> Plan.AllCovered(references, Plan.Present(parts[i]))
    ensures |FactsOf(id, parts, references)| == FieldCount(parts)
  {
    if parts != [] {
      var init, last := parts[..|parts| - 1], parts[|parts| - 1];
      forall i | 0 <= i < |init| ensures init[i] == parts[i] {}
      FactCounts(id, init, references);
      PresentMatchesNonNull(last.values, last.Path());
    }
  }

  // ---- Applying one proposal ----

  datatype ApplyError = NotFound | NotReady | NothingApproved | OutOfScope | InvalidProposal | Crash | Conflict

  predicate InScope(content: Proposal, origin: Origin) {
    forall i :: 0 <= i < |content.references| ==>
      && content.references[i].origin.sourceFileId == origin.sourceFileId
      && content.references[i].origin.parsedDocumentId == origin.parsedDocumentId
  }

  /** FIND_EXISTING_RESEARCH_QUERY. */
  predicate NameTaken(env: Environment, records: seq<Record>, workspace: WorkspaceId, name: string) {
    exists i :: 0 <= i < |records| && records[i].kind.Product? && records[i].workspace == workspace
      && env.lower(records[i].name) == env.lower(name)
  }

  /** Every fact finds the value of its field. */
  predicate FieldsResolve(part: Part) {
    forall i :: 0 <= i < |Plan.Present(part)| ==> HasKey(part.values, FieldName(Plan.Present(part)[i]))
  }

  predicate AllFieldsResolve(parts: seq<Part>) {
    forall i :: 0 <= i < |parts| ==> FieldsResolve(parts[i])
  }

  /** The checks of an apply, in their order: with all of them met, the proposal is inserted. */
  predicate CanApply(env: Environment, job: Job, records: seq<Record>, content: Proposal) {
    && InScope(content, job.origin)
    && Plan.Plannable(content)
    && HasKey(content.product, Plan.PRODUCT_NAME)
    && !NameTaken(env, records, job.workspace, ProductName(env, content.product))
    && env.insertable(content)
    && AllFieldsResolve(Plan.PartsOf(content))
  }

  lemma FieldsFound(part: Part)
    requires PlainKeys(part.values)
    ensures FieldsResolve(part)
  {
    PresentMatchesNonNull(part.values, part.Path());
    forall i | 0 <= i < |Plan.Present(part)| ensures HasKey(part.values, FieldName(Plan.Present(part)[i])) {
      var j := NonNullEntry(part.values, i);
      FieldNameOf(part.Path(), part.values[j].name);
    }
  }

  /** A proposal whose field names hold no dots is applied exactly if it is read from the job's own document, can
      be planned, has a product name that no product of the workspace has up to case, and the database takes it. */
  lemma AppliesIff(env: Environment, job: Job, records: seq<Record>, content: Proposal)
    requires forall i :: 0 <= i < |Plan.PartsOf(content)| ==> PlainKeys(Plan.PartsOf(content)[i].values)
    ensures CanApply(env, job, records, content) <==>
      && (forall i :: 0 <= i < |content.references| ==>
            && content.references[i].origin.sourceFileId == job.origin.sourceFileId
            && content.references[i].origin.parsedDocumentId == job.origin.parsedDocumentId)
      && Plan.Plannable(content)
      && (exists i :: 0 <= i < |content.product| && content.product[i].name == "productName")
      && (forall i :: 0 <= i < |records| && records[i].kind == Product && records[i].workspace == job.workspace ==>
            env.lower(records[i].name) != env.lower(ProductName(env, content.product)))
      && env.insertable(content)
  {
    hide Plan.Plannable, Plan.PartsOf, FieldsResolve;
    forall i | 0 <= i < |Plan.PartsOf(content)| ensures FieldsResolve(Plan.PartsOf(content)[i]) {
      FieldsFound(Plan.PartsOf(content)[i]);
    }
  }

  /** The name of a product is the text of its product name. */
  lemma NameIsItsText(env: Environment, values: Values, i: nat)
    requires IsDict(values) && i < |values| && values[i].name == "productName"
    ensures ProductName(env, values) == match values[i].value case Text(text) => text case value => env.render(value)
  {
    GetAt(values, i);
  }

  ghost function AddedRecords(env: Environment, id: ProposalId, workspace: WorkspaceId,
                              content: Proposal): seq<Record> {
    RecordsOf(env, id, workspace, Plan.PartsOf(content), content.references)
  }

  ghost function AddedFacts(id: ProposalId, content: Proposal): seq<Fact> {
    if Plan.Plannable(content) then
      FactsOf(id, Plan.PartsOf(content), content.references)
    else []
  }

  /** A proposal adds one record per object, and exactly one of them is a product: the first. */
  lemma OneProductPerProposal(env: Environment, id: ProposalId, workspace: WorkspaceId, content: Proposal)
    ensures var added := AddedRecords(env, id, workspace, content);
            && |added| == |Plan.PartsOf(content)| >= 1
            && added[0].kind.Product? && added[0].name == ProductName(env, content.product)
            && added[0].values == content.product
            && forall i :: 0 <= i < |added| ==>
                 && added[i].proposal == Some(id) && added[i].workspace == workspace
                 && (i > 0 ==> !added[i].kind.Product?)
                 && added[i].values == Plan.PartsOf(content)[i].values
  {
  }
}

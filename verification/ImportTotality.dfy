/** From validation to the write plan: when planning an accepted candidate succeeds, and that every fact
    is sourced by evidence for that very field or for its own object. */
module ImportTotality {
  import opened ImportPaths
  import opened ImportValidation
  import opened ImportCandidate
  import opened Whitespace
  import opened Wrappers
  import Plan = ImportPlan

  // ---- Assumptions about the published profile and the input ----

  predicate FullEvidence(profile: Profile) {
    forall kind: Kind, i: int :: 0 <= i < |profile.Of(kind)| ==> profile.Of(kind)[i].evidenceRequired
  }

  predicate RequiresName(profile: Profile) {
    exists i :: 0 <= i < |profile.product| && profile.product[i].name == Plan.PRODUCT_NAME && profile.product[i].required
  }

  /** Field names contain no dot. */
  predicate PlainNames(profile: Profile) {
    forall kind: Kind, i: int :: 0 <= i < |profile.Of(kind)| ==> Plain(profile.Of(kind)[i].name)
  }

  predicate Dicts(parts: seq<Part>) {
    forall i :: 0 <= i < |parts| ==> IsDict(parts[i].values)
  }

  /** p is what ValidateCandidate makes of c. */
  predicate IsProposal(p: Proposal, c: Candidate, source: Source) {
    && p.(references := []) == Proposal(c.product, c.operation, c.prices, c.documents, [])
    && AreReferences(p.references, c.evidence, source)
  }

  // ---- Totality ----

  lemma PresentEntry(part: Part, profile: Profile, path: string) returns (k: nat)
    requires part.Ok(profile) && IsDict(part.values) && path in Plan.Present(part)
    ensures k < |profile.Of(part.kind)|
    ensures path == FieldPath(part.Path(), profile.Of(part.kind)[k].name)
    ensures Get(part.values, profile.Of(part.kind)[k].name) != Null
  {
    Plan.PresentIff(part.values, part.Path(), path);
    var i :| 0 <= i < |part.values| && part.values[i].value != Null && FieldPath(part.Path(), part.values[i].name) == path;
    GetAt(part.values, i);
    var entity := profile.Of(part.kind);
    assert Declares(entity, part.values[i].name);
    var j :| 0 <= j < |entity| && entity[j].name == part.values[i].name;
    k := j;
  }

  lemma PresentIsAsked(part: Part, profile: Profile, path: string)
    requires part.Ok(profile) && IsDict(part.values) && FullEvidence(profile)
    requires path in Plan.Present(part)
    ensures path in part.Asked(profile)
  {
    var k := PresentEntry(part, profile, path);
    assert Asks(part.values, profile.Of(part.kind)[k]);
  }

  lemma AskedIsCovered(c: Candidate, profile: Profile, p: Proposal, source: Source, i: nat, path: string)
    requires IsProposal(p, c, source) && AllHaveEvidence(c.evidence, Expected(PartsOf(c), profile))
    requires i < |PartsOf(c)| && path in PartsOf(c)[i].Asked(profile)
    ensures Plan.Covered(p.references, path)
  {
    assert path in Expected(PartsOf(c), profile);
    assert HasEvidence(c.evidence, path);
    var k :| 0 <= k < |c.evidence| && Covers(c.evidence[k].fieldPath, path);
    assert IsReference(p.references[k], c.evidence[k], source);
  }

  lemma PartIsCovered(c: Candidate, profile: Profile, p: Proposal, source: Source, i: nat)
    requires IsProposal(p, c, source) && AllHaveEvidence(c.evidence, Expected(PartsOf(c), profile))
    requires AllOk(PartsOf(c), profile) && Dicts(PartsOf(c)) && FullEvidence(profile) && i < |PartsOf(c)|
    ensures Plan.AllCovered(p.references, Plan.Present(PartsOf(c)[i]))
  {
    var part := PartsOf(c)[i];
    assert part.Ok(profile);
    var paths := Plan.Present(part);
    forall j | 0 <= j < |paths| ensures Plan.Covered(p.references, paths[j]) {
      PresentIsAsked(part, profile, paths[j]);
      AskedIsCovered(c, profile, p, source, i, paths[j]);
    }
  }

  lemma NameIsCovered(c: Candidate, profile: Profile, p: Proposal, source: Source)
    requires IsProposal(p, c, source) && AllHaveEvidence(c.evidence, Expected(PartsOf(c), profile))
    requires AllOk(PartsOf(c), profile) && FullEvidence(profile) && RequiresName(profile)
    ensures Plan.Covered(p.references, FieldPath(Prefix(Product, 0), Plan.PRODUCT_NAME))
  {
    var part := PartsOf(c)[0];
    assert part == Part(Product, 0, c.product) && part.Ok(profile);
    var i :| 0 <= i < |profile.product| && profile.product[i].name == Plan.PRODUCT_NAME && profile.product[i].required;
    assert FieldOk(Get(part.values, profile.product[i].name), profile.product[i]);
    assert profile.Of(Product)[i].evidenceRequired;
    assert Asks(part.values, profile.product[i]);
    AskedIsCovered(c, profile, p, source, 0, FieldPath(Prefix(Product, 0), Plan.PRODUCT_NAME));
  }

  predicate HasValues(parts: seq<Part>) {
    forall i :: 0 <= i < |parts| ==> Plan.Present(parts[i]) != []
  }

  /** Every object beside the product has a non-null field. */
  predicate NoEmptyObject(c: Candidate) {
    HasValues(Single(Operation, c.operation)) && HasValues(Items(Price, c.prices)) && HasValues(Items(Document, c.documents))
  }

  predicate AllPartsCovered(parts: seq<Part>, references: seq<Reference>) {
    forall i :: 0 <= i < |parts| ==> Plan.AllCovered(references, Plan.Present(parts[i]))
  }

  lemma GroupsWritable(c: Candidate, references: seq<Reference>)
    requires AllPartsCovered(PartsOf(c), references)
    ensures Plan.AllWritable(Single(Operation, c.operation), references) <==> HasValues(Single(Operation, c.operation))
    ensures Plan.AllWritable(Items(Price, c.prices), references) <==> HasValues(Items(Price, c.prices))
    ensures Plan.AllWritable(Items(Document, c.documents), references) <==> HasValues(Items(Document, c.documents))
    ensures Plan.AllCovered(references, Plan.Present(Part(Product, 0, c.product)))
  {
    Plan.Slices(Proposal(c.product, c.operation, c.prices, c.documents, []));
  }

  lemma PartsAreCovered(c: Candidate, profile: Profile, p: Proposal, source: Source)
    requires IsProposal(p, c, source) && AllHaveEvidence(c.evidence, Expected(PartsOf(c), profile))
    requires AllOk(PartsOf(c), profile) && Dicts(PartsOf(c)) && FullEvidence(profile)
    ensures AllPartsCovered(PartsOf(c), p.references)
  {
    forall i | 0 <= i < |PartsOf(c)| ensures Plan.AllCovered(p.references, Plan.Present(PartsOf(c)[i])) {
      PartIsCovered(c, profile, p, source, i);
    }
  }

  /** For a profile that requires evidence for every field and a product name, an accepted candidate is
      planned without error exactly if its operation, prices and documents are not empty objects. */
  lemma ValidationMakesPlanningTotal(
      c: Candidate, explanation: Explanation, profile: Profile, source: Source, p: Proposal)
    requires FullEvidence(profile) && RequiresName(profile) && Dicts(PartsOf(c))
    requires Acceptable(c, explanation, profile, source) && IsProposal(p, c, source)
    ensures Plan.Plannable(p) <==> NoEmptyObject(c)
  {
    PartsAreCovered(c, profile, p, source);
    NameIsCovered(c, profile, p, source);
    GroupsWritable(c, p.references);
  }

  predicate HasRequired(entity: Entity) {
    exists i :: 0 <= i < |entity| && entity[i].required
  }

  /** An accepted object of an entity with a required field is not empty. */
  lemma RequiredIsPresent(part: Part, profile: Profile)
    requires part.Ok(profile) && IsDict(part.values) && HasRequired(profile.Of(part.kind))
    ensures Plan.Present(part) != []
  {
    var entity := profile.Of(part.kind);
    var i :| 0 <= i < |entity| && entity[i].required;
    assert FieldOk(Get(part.values, entity[i].name), entity[i]);
    var k := GetFound(part.values, entity[i].name);
    Plan.PresentIff(part.values, part.Path(), FieldPath(part.Path(), entity[i].name));
  }

  /** With a profile whose prices and documents have a required field, as the shipped one, only an empty
      operation keeps an accepted candidate from being planned. */
  lemma OnlyAnEmptyOperationFails(
      c: Candidate, explanation: Explanation, profile: Profile, source: Source, p: Proposal)
    requires FullEvidence(profile) && RequiresName(profile) && Dicts(PartsOf(c))
    requires HasRequired(profile.price) && HasRequired(profile.document)
    requires Acceptable(c, explanation, profile, source) && IsProposal(p, c, source)
    ensures Plan.Plannable(p) <==> HasValues(Single(Operation, c.operation))
  {
    hide Acceptable, IsProposal, Plan.Plannable, Plan.Present;
    ValidationMakesPlanningTotal(c, explanation, profile, source, p);
    AcceptedPartsOk(c, explanation, profile, source);
    ItemsHaveValues(c, profile, Price, c.prices);
    ItemsHaveValues(c, profile, Document, c.documents);
  }

  lemma AcceptedPartsOk(c: Candidate, explanation: Explanation, profile: Profile, source: Source)
    requires Acceptable(c, explanation, profile, source)
    ensures AllOk(PartsOf(c), profile)
  {
  }

  lemma ItemsHaveValues(c: Candidate, profile: Profile, kind: Kind, objects: seq<Values>)
    requires AllOk(PartsOf(c), profile) && Dicts(PartsOf(c)) && HasRequired(profile.Of(kind))
    requires (kind.Price? && objects == c.prices) || (kind.Document? && objects == c.documents)
    ensures HasValues(Items(kind, objects))
  {
    hide Plan.Present;
    Plan.Slices(Proposal(c.product, c.operation, c.prices, c.documents, []));
    forall i | 0 <= i < |Items(kind, objects)| ensures Plan.Present(Items(kind, objects)[i]) != [] {
      assert exists j :: 0 <= j < |PartsOf(c)| && PartsOf(c)[j] == Items(kind, objects)[i];
      RequiredIsPresent(Items(kind, objects)[i], profile);
    }
  }

  // ---- An accepted candidate that cannot be planned ----

  /** Of a product only its name is required, and it is a text; of an operation nothing is. */
  predicate RequiresOnlyName(profile: Profile) {
    && RequiresName(profile)
    && (forall i :: 0 <= i < |profile.product| && profile.product[i].required ==>
          profile.product[i].name == Plan.PRODUCT_NAME)
    && (forall i :: 0 <= i < |profile.product| && profile.product[i].name == Plan.PRODUCT_NAME ==>
          profile.product[i].fieldType.StringType?)
    && (forall i :: 0 <= i < |profile.operation| ==> !profile.operation[i].required)
  }

  /** A candidate with a product name and an operation object without values. */
  function EmptyOperation(title: string, block: string): Candidate {
    Candidate([Entry(Plan.PRODUCT_NAME, Text(title))], Some([]), [], [],
              [Evidence(block, "$.text", "e1", FieldPath(Prefix(Product, 0), Plan.PRODUCT_NAME), title)])
  }

  lemma EmptyOperationExpects(title: string, block: string, profile: Profile)
    requires FullEvidence(profile) && RequiresName(profile)
    ensures Expected(PartsOf(EmptyOperation(title, block)), profile) == {FieldPath(Prefix(Product, 0), Plan.PRODUCT_NAME)}
  {
    var parts := PartsOf(EmptyOperation(title, block));
    var i :| 0 <= i < |profile.product| && profile.product[i].name == Plan.PRODUCT_NAME && profile.product[i].required;
    assert profile.Of(Product)[i].evidenceRequired;
    assert Asks(parts[0].values, profile.Of(Product)[i]);
    assert FieldPath(Prefix(Product, 0), Plan.PRODUCT_NAME) in parts[0].Asked(profile);
    forall path | path in parts[0].Asked(profile) ensures path == FieldPath(Prefix(Product, 0), Plan.PRODUCT_NAME) {
      var j :| 0 <= j < |profile.product| && Asks(parts[0].values, profile.product[j])
        && path == FieldPath(parts[0].Path(), profile.product[j].name);
      assert parts[0].values[1..] == [];
      assert Get(parts[0].values[1..], profile.product[j].name) == Null;
    }
    assert parts[1].Asked(profile) == {};
  }

  lemma EmptyOperationConforms(title: string, block: string, profile: Profile)
    requires RequiresOnlyName(profile) && Strip(title) != ""
    ensures AllOk(PartsOf(EmptyOperation(title, block)), profile)
  {
    var c := EmptyOperation(title, block);
    assert PartsOf(c)[0].Ok(profile) by {
      assert Declares(profile.product, c.product[0].name);
    }
    assert PartsOf(c)[1].Ok(profile);
  }

  /** Validation alone does not make planning total: for every profile like the shipped one, `"operation": {}`
      is accepted, whatever the name, and then fails. */
  lemma EmptyOperationIsAcceptedButFails(title: string, block: string, profile: Profile, source: Source, p: Proposal)
    requires FullEvidence(profile) && RequiresOnlyName(profile) && Strip(title) != ""
    requires block in source.blocks && source.quoted(EmptyOperation(title, block).evidence[0], source.blocks[block])
    requires IsProposal(p, EmptyOperation(title, block), source)
    ensures Acceptable(EmptyOperation(title, block), Explanation([], []), profile, source)
    ensures !Plan.Plannable(p)
  {
    hide AllOk, Expected;
    var c := EmptyOperation(title, block);
    EmptyOperationExpects(title, block, profile);
    EmptyOperationConforms(title, block, profile);
    assert Covers(c.evidence[0].fieldPath, FieldPath(Prefix(Product, 0), Plan.PRODUCT_NAME));
    assert !Plan.Writable(Single(Operation, p.operation)[0], p.references);
  }

  // ---- No cross-talk ----

  lemma CoverIsOwn(c: Candidate, profile: Profile, source: Source, i: nat, path: string, e: Evidence)
    requires PlainNames(profile) && AllOk(PartsOf(c), profile) && Dicts(PartsOf(c))
    requires EvidenceOk(e, Expected(PartsOf(c), profile) + ObjectPaths(c), source)
    requires i < |PartsOf(c)| && path in Plan.Present(PartsOf(c)[i]) && Covers(e.fieldPath, path)
    ensures e.fieldPath == path || (PartsOf(c)[i].kind.Listed() && e.fieldPath == PartsOf(c)[i].Path())
  {
    var part := PartsOf(c)[i];
    assert part.Ok(profile);
    var k := PresentEntry(part, profile, path);
    var name := profile.Of(part.kind)[k].name;
    PrefixIsPlain(part.kind, part.index);
    if e.fieldPath in Expected(PartsOf(c), profile) {
      var j: int :| 0 <= j < |PartsOf(c)| && e.fieldPath in PartsOf(c)[j].Asked(profile);
      AskedCoversItself(PartsOf(c)[j], profile, e.fieldPath, part.Path(), name);
    } else {
      ObjectCoversOwn(c, e.fieldPath, part, name);
    }
  }

  lemma AskedCoversItself(part: Part, profile: Profile, evidence: string, prefix: string, name: string)
    requires PlainNames(profile) && evidence in part.Asked(profile) && Plain(prefix) && Plain(name)
    requires Covers(evidence, FieldPath(prefix, name))
    ensures evidence == FieldPath(prefix, name)
  {
    var entity := profile.Of(part.kind);
    var m :| 0 <= m < |entity| && Asks(part.values, entity[m]) && evidence == FieldPath(part.Path(), entity[m].name);
    PrefixIsPlain(part.kind, part.index);
    FieldCoversItself(part.Path(), entity[m].name, prefix, name);
  }

  lemma ObjectCoversOwn(c: Candidate, evidence: string, part: Part, name: string)
    requires evidence in ObjectPaths(c) && Plain(name) && Covers(evidence, FieldPath(part.Path(), name))
    ensures part.kind.Listed() && evidence == part.Path()
  {
    if evidence in ItemPaths(Price, |c.prices|) {
      var j: nat :| j < |c.prices| && evidence == Prefix(Price, j);
      ObjectCoversItsFields(Price, j, part.kind, part.index, name);
    } else {
      var j: nat :| j < |c.documents| && evidence == Prefix(Document, j);
      ObjectCoversItsFields(Document, j, part.kind, part.index, name);
    }
  }

  /** The source of a fact: a reference of this candidate, the first that covers the path, citing either
      the field itself or the whole price or document it belongs to. */
  ghost predicate OwnSource(c: Candidate, p: Proposal, part: Part, path: string, r: Reference) {
    exists k :: 0 <= k < |c.evidence| && Plan.IsSource(p.references, path, k) && r == p.references[k]
      && r.evidenceId == c.evidence[k].evidenceId
      && (r.fieldPath == path || (part.kind.Listed() && r.fieldPath == part.Path()))
  }

  lemma SourceIsOwn(
      c: Candidate, explanation: Explanation, profile: Profile, source: Source, p: Proposal, i: nat, path: string)
    requires PlainNames(profile) && Dicts(PartsOf(c))
    requires Acceptable(c, explanation, profile, source) && IsProposal(p, c, source)
    requires i < |PartsOf(c)| && path in Plan.Present(PartsOf(c)[i]) && Plan.Covered(p.references, path)
    ensures OwnSource(c, p, PartsOf(c)[i], path, Plan.SourceOf(p.references, path))
  {
    var r := Plan.SourceOf(p.references, path);
    var k :| Plan.IsSource(p.references, path, k) && r == p.references[k];
    assert IsReference(p.references[k], c.evidence[k], source);
    assert EvidenceOk(c.evidence[k], Expected(PartsOf(c), profile) + ObjectPaths(c), source);
    CoverIsOwn(c, profile, source, i, path, c.evidence[k]);
  }

  /** Each object's facts are its own present paths, and each fact is sourced by its own evidence: no
      cross-talk such as prices[1] for prices[10].x. */
  lemma FactsAreSourcedByOwnEvidence(
      c: Candidate, explanation: Explanation, profile: Profile, source: Source, p: Proposal,
      plan: Plan.ProductWritePlan, i: nat, path: string)
    requires PlainNames(profile) && Dicts(PartsOf(c))
    requires Acceptable(c, explanation, profile, source) && IsProposal(p, c, source)
    requires Plan.Plannable(p) && Plan.IsProductPlan(plan, p) && i < |PartsOf(c)|
    ensures PartsOf(c)[i].Path() in plan.table.facts
    ensures plan.table.facts[PartsOf(c)[i].Path()] == Plan.Present(PartsOf(c)[i])
    ensures path in Plan.Present(PartsOf(c)[i]) ==>
      path in plan.table.sources && OwnSource(c, p, PartsOf(c)[i], path, plan.table.sources[path])
  {
    assert Plan.PartsOf(p) == PartsOf(c);
    Plan.PlanTables(p, plan, i);
    if path in Plan.Present(PartsOf(c)[i]) {
      assert Plan.SourceOf(p.references, path) == plan.table.sources[path];
      SourceIsOwn(c, explanation, profile, source, p, i, path);
    }
  }
}

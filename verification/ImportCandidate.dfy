/** _validate_candidate of app/services/business_imports.py: the objects, the evidence and the review
    explanation of one candidate, and the proposal made from an accepted one. */
module ImportCandidate {
  import opened Decimal
  import opened ImportPaths
  import opened ImportValidation
  import opened Wrappers

  /** The parsed document a candidate cites. `quoted` says whether a quote is found in a block and at the
      cited data path (_validate_evidence_against_block). */
  datatype Source = Source(blocks: map<string, Block>, origin: Origin, quoted: (Evidence, Block) -> bool)

  function PartsOf(c: Candidate): seq<Part> {
    Parts(c.product, c.operation, c.prices, c.documents)
  }

  function ObjectPaths(c: Candidate): set<string> {
    ItemPaths(Price, |c.prices|) + ItemPaths(Document, |c.documents|)
  }

  /** Evidence may also be given for a whole price or document. */
  lemma ObjectPathsAre(c: Candidate, path: string)
    ensures path in ObjectPaths(c) <==>
      || (exists i :: 0 <= i < |c.prices| && path == "prices[" + Dec(i) + "]")
      || (exists i :: 0 <= i < |c.documents| && path == "documents[" + Dec(i) + "]")
  {
    hide Dec, ItemPaths;
    ListPaths(|c.prices|, path);
    ListPaths(|c.documents|, path);
  }

  lemma ListPaths(n: nat, path: string)
    ensures path in ItemPaths(Price, n) <==> exists i :: 0 <= i < n && path == "prices[" + Dec(i) + "]"
    ensures path in ItemPaths(Document, n) <==> exists i :: 0 <= i < n && path == "documents[" + Dec(i) + "]"
  {
    hide Dec, Prefix;
    forall i: nat | i < n ensures path == "prices[" + Dec(i) + "]" ==> path in ItemPaths(Price, n) {
      ListPrefix(i);
    }
    forall i: nat | i < n ensures path == "documents[" + Dec(i) + "]" ==> path in ItemPaths(Document, n) {
      ListPrefix(i);
    }
    if path in ItemPaths(Price, n) {
      var i: nat :| i < n && path == Prefix(Price, i);
      ListPrefix(i);
    }
    if path in ItemPaths(Document, n) {
      var i: nat :| i < n && path == Prefix(Document, i);
      ListPrefix(i);
    }
  }

  lemma ListPrefix(i: nat)
    ensures Prefix(Price, i) == "prices[" + Dec(i) + "]" && Prefix(Document, i) == "documents[" + Dec(i) + "]"
  {
  }

  // ---- Evidence ----

  predicate EvidenceOk(e: Evidence, paths: set<string>, source: Source) {
    e.fieldPath in paths && e.blockId in source.blocks && source.quoted(e, source.blocks[e.blockId])
  }

  predicate AllEvidenceOk(evidence: seq<Evidence>, paths: set<string>, source: Source) {
    forall i :: 0 <= i < |evidence| ==> EvidenceOk(evidence[i], paths, source)
  }

  predicate DistinctIds(evidence: seq<Evidence>) {
    forall i, j :: 0 <= i < j < |evidence| ==> evidence[i].evidenceId != evidence[j].evidenceId
  }

  function EvidenceIds(evidence: seq<Evidence>): set<string> {
    set i | 0 <= i < |evidence| :: evidence[i].evidenceId
  }

  predicate IsReference(r: Reference, e: Evidence, source: Source) {
    && e.blockId in source.blocks
    && r == Reference(e.blockId, e.dataPath, e.evidenceId, e.fieldPath, e.quote,
                      source.blocks[e.blockId].locator, source.origin)
  }

  /** One reference per piece of evidence, in the same order. */
  predicate AreReferences(references: seq<Reference>, evidence: seq<Evidence>, source: Source) {
    && |references| == |evidence|
    && forall i :: 0 <= i < |references| ==> IsReference(references[i], evidence[i], source)
  }

  ghost predicate EvidenceDone(evidence: seq<Evidence>, n: nat, paths: set<string>, source: Source, ids: set<string>,
                               references: seq<Reference>)
    requires n <= |evidence|
  {
    && DistinctIds(evidence[..n]) && AllEvidenceOk(evidence[..n], paths, source)
    && ids == EvidenceIds(evidence[..n]) && AreReferences(references, evidence[..n], source)
  }

  /** Why a piece of evidence is refused. */
  predicate EvidenceErrorFits(error: Error, evidence: seq<Evidence>, paths: set<string>, source: Source) {
    exists i :: 0 <= i < |evidence| &&
      match error
      case DuplicateEvidence => evidence[i].evidenceId in EvidenceIds(evidence[..i])
      case NotACandidateField(path) => path == evidence[i].fieldPath && path !in paths
      case UnknownBlock => evidence[i].blockId !in source.blocks
      case QuoteNotFound =>
        evidence[i].blockId in source.blocks && !source.quoted(evidence[i], source.blocks[evidence[i].blockId])
      case _ => false
  }

  /** The evidence loop. */
  method ValidateEvidence(evidence: seq<Evidence>, expected: set<string>, objectPaths: set<string>, source: Source)
    returns (r: Result<(set<string>, seq<Reference>), Error>)
    ensures r.Ok? <==> DistinctIds(evidence) && AllEvidenceOk(evidence, expected + objectPaths, source)
    ensures r.Ok? ==> r.value.0 == EvidenceIds(evidence) && AreReferences(r.value.1, evidence, source)
    ensures r.Err? ==> EvidenceErrorFits(r.error, evidence, expected + objectPaths, source)
  {
    var ids: set<string>, references: seq<Reference> := {}, [];
    ghost var paths := expected + objectPaths;
    for i := 0 to |evidence|
      invariant EvidenceDone(evidence, i, paths, source, ids, references)
    {
      var e := evidence[i];
      if e.evidenceId in ids {
        return Err(DuplicateEvidence);
      }
      if e.fieldPath !in expected && e.fieldPath !in objectPaths {
        assert !EvidenceOk(evidence[i], paths, source);
        return Err(NotACandidateField(e.fieldPath));
      }
      if e.blockId !in source.blocks {
        assert !EvidenceOk(evidence[i], paths, source);
        return Err(UnknownBlock);
      }
      var block := source.blocks[e.blockId];
      if !source.quoted(e, block) {
        assert !EvidenceOk(evidence[i], paths, source);
        return Err(QuoteNotFound);
      }
      var reference := Reference(e.blockId, e.dataPath, e.evidenceId, e.fieldPath, e.quote, block.locator, source.origin);
      ids, references := ids + {e.evidenceId}, references + [reference];
    }
    assert evidence[..|evidence|] == evidence;
    return Ok((ids, references));
  }

  // ---- Coverage ----

  predicate HasEvidence(evidence: seq<Evidence>, path: string) {
    exists i :: 0 <= i < |evidence| && Covers(evidence[i].fieldPath, path)
  }

  predicate AllHaveEvidence(evidence: seq<Evidence>, paths: set<string>) {
    forall p <- paths :: HasEvidence(evidence, p)
  }

  /** The loop over the expected paths; a set is visited in any order. */
  method CheckCoverage(expected: set<string>, evidence: seq<Evidence>) returns (r: Result<(), Error>)
    ensures r.Ok? <==> AllHaveEvidence(evidence, expected)
    ensures r.Err? ==> r.error.NoEvidence? && r.error.path in expected && !HasEvidence(evidence, r.error.path)
  {
    var rest := expected;
    while rest != {}
      invariant rest <= expected
      invariant forall p <- expected - rest :: HasEvidence(evidence, p)
      decreases |rest|
    {
      var path :| path in rest;
      if !HasEvidence(evidence, path) { return Err(NoEvidence(path)); }
      rest := rest - {path};
    }
    return Ok(());
  }

  // ---- The review explanation ----

  predicate CitationOk(c: Citation, expected: set<string>, ids: set<string>) {
    c.fieldPath in expected && forall i :: 0 <= i < |c.evidenceRefs| ==> c.evidenceRefs[i] in ids
  }

  predicate CitationsOk(citations: seq<Citation>, expected: set<string>, ids: set<string>) {
    forall i :: 0 <= i < |citations| ==> CitationOk(citations[i], expected, ids)
  }

  predicate ExplanationOk(e: Explanation, expected: set<string>, ids: set<string>) {
    CitationsOk(e.basis, expected, ids) && CitationsOk(e.uncertainties, expected, ids)
  }

  method ValidateCitations(citations: seq<Citation>, expected: set<string>, ids: set<string>) returns (ok: bool)
    ensures ok <==> CitationsOk(citations, expected, ids)
    ensures ok <==> forall c <- citations :: c.fieldPath in expected && forall ref <- c.evidenceRefs :: ref in ids
  {
    for i := 0 to |citations|
      invariant forall k :: 0 <= k < i ==> CitationOk(citations[k], expected, ids)
    {
      if !CitationOk(citations[i], expected, ids) { return false; }
    }
    return true;
  }

  // ---- A candidate ----

  ghost predicate Acceptable(c: Candidate, explanation: Explanation, profile: Profile, source: Source) {
    var expected := Expected(PartsOf(c), profile);
    && AllOk(PartsOf(c), profile)
    && DistinctIds(c.evidence)
    && AllEvidenceOk(c.evidence, expected + ObjectPaths(c), source)
    && AllHaveEvidence(c.evidence, expected)
    && ExplanationOk(explanation, expected, EvidenceIds(c.evidence))
  }

  /** The paths of all parts, collected group by group as the source does. */
  lemma ExpectedOfParts(c: Candidate, profile: Profile)
    ensures {} + Expected(Single(Product, Some(c.product)), profile) + Expected(Single(Operation, c.operation), profile)
        + Expected(Items(Price, c.prices), profile) + Expected(Items(Document, c.documents), profile)
      == Expected(PartsOf(c), profile)
    ensures AllOk(PartsOf(c), profile) <==>
      && AllOk(Single(Product, Some(c.product)), profile) && AllOk(Single(Operation, c.operation), profile)
      && AllOk(Items(Price, c.prices), profile) && AllOk(Items(Document, c.documents), profile)
  {
    var a, b := Single(Product, Some(c.product)), Single(Operation, c.operation);
    var p, d := Items(Price, c.prices), Items(Document, c.documents);
    ExpectedOfSum(a, b, profile);
    ExpectedOfSum(a + b, p, profile);
    ExpectedOfSum(a + b + p, d, profile);
    EmptyUnion(Expected(a, profile));
  }

  lemma EmptyUnion(s: set<string>)
    ensures {} + s == s == s + {}
  {
  }

  /** The product, or the operation if there is one. */
  method ValidateSingle(kind: Kind, values: Option<Values>, profile: Profile, before: set<string>)
    returns (r: Result<set<string>, Error>)
    requires !kind.Listed()
    ensures r.Ok? <==> AllOk(Single(kind, values), profile)
    ensures r.Ok? ==> r.value == before + Expected(Single(kind, values), profile)
    ensures r.Err? ==> PartErrorFits(r.error, Single(kind, values), profile)
  {
    if values.None? {
      EmptyUnion(before);
      return Ok(before);
    }
    ExpectedOfOne(Part(kind, 0, values.value), profile);
    r := ValidateEntityValues(values.value, profile.Of(kind), Prefix(kind, 0), before);
    if r.Err? { ErrorOfPart(r.error, Single(kind, values), 0, profile); }
  }

  /** The object part of the validation: all objects, in the source's order. */
  method ValidateObjects(c: Candidate, profile: Profile) returns (r: Result<(set<string>, set<string>), Error>)
    ensures r.Ok? <==> AllOk(PartsOf(c), profile)
    ensures r.Ok? ==> r.value == (Expected(PartsOf(c), profile), ObjectPaths(c))
    ensures r.Err? ==> PartErrorFits(r.error, PartsOf(c), profile)
  {
    hide PartErrorFits, ObjectErrorFits;
    ExpectedOfParts(c, profile);
    EmptyUnion(ItemPaths(Price, |c.prices|));
    var product := ValidateSingle(Product, Some(c.product), profile, {});
    if product.Err? { ErrorInCandidate(c, profile, product.error); return Err(product.error); }
    var operation := ValidateSingle(Operation, c.operation, profile, product.value);
    if operation.Err? { ErrorInCandidate(c, profile, operation.error); return Err(operation.error); }
    var prices := ValidateItems(Price, c.prices, profile, operation.value, {});
    if prices.Err? { ErrorInCandidate(c, profile, prices.error); return Err(prices.error); }
    r := ValidateItems(Document, c.documents, profile, prices.value.0, prices.value.1);
    if r.Err? { ErrorInCandidate(c, profile, r.error); }
  }

  lemma ErrorInCandidate(c: Candidate, profile: Profile, error: Error)
    requires
      || PartErrorFits(error, Single(Product, Some(c.product)), profile)
      || PartErrorFits(error, Single(Operation, c.operation), profile)
      || PartErrorFits(error, Items(Price, c.prices), profile) || PartErrorFits(error, Items(Document, c.documents), profile)
    ensures PartErrorFits(error, PartsOf(c), profile)
  {
    hide PartErrorFits;
    var a, b := Single(Product, Some(c.product)), Single(Operation, c.operation);
    var p, d := Items(Price, c.prices), Items(Document, c.documents);
    if PartErrorFits(error, a, profile) {
      ErrorOfSome(error, [], a, b + p + d, profile);
      assert [] + a + (b + p + d) == PartsOf(c);
    } else if PartErrorFits(error, b, profile) {
      ErrorOfSome(error, a, b, p + d, profile);
      assert a + b + (p + d) == PartsOf(c);
    } else if PartErrorFits(error, p, profile) {
      ErrorOfSome(error, a + b, p, d, profile);
    } else {
      ErrorOfSome(error, a + b + p, d, [], profile);
      assert a + b + p + d + [] == PartsOf(c);
    }
  }

  /** _validate_candidate: a candidate becomes a proposal exactly if it is acceptable; the proposal holds
      its objects unchanged and one reference per piece of evidence. */
  method ValidateCandidate(c: Candidate, explanation: Explanation, profile: Profile, source: Source)
    returns (r: Result<Proposal, Error>)
    ensures r.Ok? <==> Acceptable(c, explanation, profile, source)
    ensures r.Ok? ==>
      && r.value.(references := []) == Proposal(c.product, c.operation, c.prices, c.documents, [])
      && AreReferences(r.value.references, c.evidence, source)
    ensures r == Err(BadExplanation) <==>
      && !Acceptable(c, explanation, profile, source)
      && Acceptable(c, Explanation([], []), profile, source)
  {
    var objects := ValidateObjects(c, profile);
    if objects.Err? { return Err(objects.error); }
    var (expected, objectPaths) := objects.value;
    var evidence := ValidateEvidence(c.evidence, expected, objectPaths, source);
    if evidence.Err? { return Err(evidence.error); }
    var covered := CheckCoverage(expected, c.evidence);
    if covered.Err? { return Err(covered.error); }
    var ids := evidence.value.0;
    var basis := ValidateCitations(explanation.basis, expected, ids);
    if !basis { return Err(BadExplanation); }
    var uncertainties := ValidateCitations(explanation.uncertainties, expected, ids);
    if !uncertainties { return Err(BadExplanation); }
    return Ok(Proposal(c.product, c.operation, c.prices, c.documents, evidence.value.1));
  }
}

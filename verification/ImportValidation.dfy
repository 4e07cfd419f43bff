/** Validation of one import candidate, app/services/business_imports.py: an accepted candidate has only
    declared, well-typed fields, all required ones, and evidence for every field that needs it. */
module ImportValidation {
  import opened ImportPaths
  import opened Sequences
  import opened Whitespace
  import opened Wrappers

  /** A decoded JSON value. An integer too large for float() is not convertible. */
  datatype Json = Null | Text(text: string) | Integer(convertible: bool) | Float(finite: bool) | Other

  datatype Entry = Entry(name: string, value: Json)

  /** A dictionary, in insertion order. */
  type Values = seq<Entry>

  datatype FieldType = StringType | CurrencyType | DecimalType

  datatype Field = Field(name: string, fieldType: FieldType, required: bool, evidenceRequired: bool)

  type Entity = seq<Field>

  datatype Profile = Profile(product: Entity, operation: Entity, price: Entity, document: Entity) {
    function Of(kind: Kind): Entity {
      match kind
      case Product => product
      case Operation => operation
      case Price => price
      case Document => document
    }
  }

  predicate IsDict(values: Values) {
    forall i, j :: 0 <= i < j < |values| ==> values[i].name != values[j].name
  }

  /** values.get(name), where an absent name reads as null. */
  function Get(values: Values, name: string): Json {
    if values == [] then Null
    else if values[0].name == name then values[0].value
    else Get(values[1..], name)
  }

  lemma {:induction false} GetAt(values: Values, i: nat)
    requires IsDict(values) && i < |values|
    ensures Get(values, values[i].name) == values[i].value
  {
    if i > 0 {
      assert values[0].name != values[i].name;
      GetAt(values[1..], i - 1);
    }
  }

  lemma {:induction false} GetFound(values: Values, name: string) returns (i: nat)
    requires Get(values, name) != Null
    ensures i < |values| && values[i].name == name && values[i].value == Get(values, name)
  {
    if values[0].name == name {
      i := 0;
    } else {
      var k := GetFound(values[1..], name);
      i := k + 1;
    }
  }

  // ---- One object ----

  datatype Error =
    | UnknownFields
    | MissingRequired(path: string)
    | BadValue(path: string)
    | FloatOverflow
    | DuplicateEvidence
    | NotACandidateField(path: string)
    | UnknownBlock
    | QuoteNotFound
    | NoEvidence(path: string)
    | BadExplanation

  predicate IsUpper(c: char) { 'A' <= c <= 'Z' }

  predicate ValueOk(value: Json, fieldType: FieldType) {
    match fieldType
    case StringType => value.Text? && Strip(value.text) != ""
    case CurrencyType =>
      value.Text? && |value.text| == 3 && forall i :: 0 <= i < 3 ==> IsUpper(value.text[i])
    case DecimalType => value == Integer(true) || value == Float(true)
  }

  predicate FieldOk(value: Json, field: Field) {
    if value == Null then !field.required else ValueOk(value, field.fieldType)
  }

  predicate Declares(entity: Entity, name: string) {
    exists i :: 0 <= i < |entity| && entity[i].name == name
  }

  predicate OnlyDeclared(values: Values, entity: Entity) {
    forall i :: 0 <= i < |values| ==> Declares(entity, values[i].name)
  }

  predicate AllFieldsOk(values: Values, entity: Entity) {
    forall i :: 0 <= i < |entity| ==> FieldOk(Get(values, entity[i].name), entity[i])
  }

  predicate Conforms(values: Values, entity: Entity) {
    OnlyDeclared(values, entity) && AllFieldsOk(values, entity)
  }

  predicate Asks(values: Values, field: Field) {
    field.evidenceRequired && Get(values, field.name) != Null
  }

  /** The paths that need evidence. */
  function AskedPaths(values: Values, entity: Entity, prefix: string): set<string> {
    set i | 0 <= i < |entity| && Asks(values, entity[i]) :: FieldPath(prefix, entity[i].name)
  }

  /** A string holds a character that is no white space, a currency code is three capital letters, and a number is
      finite. */
  lemma TypedIff(value: Json, fieldType: FieldType)
    ensures ValueOk(value, fieldType) <==>
      match fieldType
      case StringType => value.Text? && exists c <- value.text :: !IsSpace(c)
      case CurrencyType => value.Text? && |value.text| == 3 && forall c <- value.text :: 'A' <= c <= 'Z'
      case DecimalType => (value.Integer? && value.convertible) || (value.Float? && value.finite)
  {
    if value.Text? {
      StripsToNothing(value.text);
      if |value.text| == 3 && forall c <- value.text :: 'A' <= c <= 'Z' {
        forall i | 0 <= i < 3 ensures IsUpper(value.text[i]) { assert value.text[i] in value.text; }
      }
    }
  }

  /** An object conforms exactly if each of its entries is declared, and is null or of the declared type, and
      nothing required is missing or null. */
  lemma ConformsIff(values: Values, entity: Entity)
    requires IsDict(values)
    ensures Conforms(values, entity) <==>
      && (forall entry <- values :: exists field :: field in entity && field.name == entry.name)
      && (forall i, j :: 0 <= i < |values| && 0 <= j < |entity| && Fills(values[i], entity[j]) ==>
            ValueOk(values[i].value, entity[j].fieldType))
      && (forall j :: 0 <= j < |entity| && entity[j].required ==> HasValue(values, entity[j].name))
  {
    hide ValueOk, AllFieldsOk, HasValue;
    FieldsOkIff(values, entity);
    forall i | 0 <= i < |values|
      ensures Declares(entity, values[i].name) <==> exists field :: field in entity && field.name == values[i].name
    {
      if Declares(entity, values[i].name) {
        var j :| 0 <= j < |entity| && entity[j].name == values[i].name;
        assert entity[j] in entity;
      }
    }
  }

  lemma FieldsOkIff(values: Values, entity: Entity)
    requires IsDict(values)
    ensures AllFieldsOk(values, entity) <==>
      && (forall i, j :: 0 <= i < |values| && 0 <= j < |entity| && Fills(values[i], entity[j]) ==>
            ValueOk(values[i].value, entity[j].fieldType))
      && (forall j :: 0 <= j < |entity| && entity[j].required ==> HasValue(values, entity[j].name))
  {
    hide ValueOk, HasValue;
    if AllFieldsOk(values, entity) {
      forall i, j | 0 <= i < |values| && 0 <= j < |entity| && Fills(values[i], entity[j])
        ensures ValueOk(values[i].value, entity[j].fieldType)
      {
        GetAt(values, i);
        assert FieldOk(Get(values, entity[j].name), entity[j]);
      }
      forall j | 0 <= j < |entity| && entity[j].required ensures HasValue(values, entity[j].name) {
        ValueIff(values, entity[j].name);
        assert FieldOk(Get(values, entity[j].name), entity[j]);
      }
    } else {
      var j :| 0 <= j < |entity| && !FieldOk(Get(values, entity[j].name), entity[j]);
      ValueIff(values, entity[j].name);
      if Get(values, entity[j].name) != Null {
        var i := GetFound(values, entity[j].name);
        assert Fills(values[i], entity[j]);
      }
    }
  }

  /** The entry gives the field a value. */
  predicate Fills(entry: Entry, field: Field) { entry.name == field.name && entry.value != Null }

  predicate HasValue(values: Values, name: string) {
    exists i :: 0 <= i < |values| && values[i].name == name && values[i].value != Null
  }

  lemma ValueIff(values: Values, name: string)
    requires IsDict(values)
    ensures Get(values, name) != Null <==> HasValue(values, name)
  {
    if Get(values, name) != Null {
      var i := GetFound(values, name);
    } else if HasValue(values, name) {
      var i :| 0 <= i < |values| && values[i].name == name && values[i].value != Null;
      GetAt(values, i);
    }
  }

  /** Evidence is asked exactly for the fields that have a value and a declaration that wants it. */
  lemma AskedIff(values: Values, entity: Entity, prefix: string, path: string)
    requires IsDict(values)
    ensures path in AskedPaths(values, entity, prefix) <==>
      exists j :: 0 <= j < |entity| && entity[j].evidenceRequired && HasValue(values, entity[j].name)
        && path == FieldPath(prefix, entity[j].name)
  {
    forall j | 0 <= j < |entity| ensures Asks(values, entity[j]) <==> entity[j].evidenceRequired && HasValue(values, entity[j].name) {
      ValueIff(values, entity[j].name);
    }
  }

  /** Each error of an object is raised for its own reason. */
  predicate ObjectErrorFits(error: Error, values: Values, entity: Entity, prefix: string) {
    match error
    case UnknownFields => !OnlyDeclared(values, entity)
    case MissingRequired(path) =>
      exists i :: 0 <= i < |entity| && FieldPath(prefix, entity[i].name) == path
        && entity[i].required && Get(values, entity[i].name) == Null
    case BadValue(path) =>
      exists i :: 0 <= i < |entity| && FieldPath(prefix, entity[i].name) == path
        && Get(values, entity[i].name) != Null && !ValueOk(Get(values, entity[i].name), entity[i].fieldType)
    case FloatOverflow =>
      exists i :: 0 <= i < |entity| && entity[i].fieldType.DecimalType?
        && Get(values, entity[i].name) == Integer(false)
    case _ => false
  }

  method ValidateBusinessValue(value: Json, field: Field, path: string) returns (r: Result<(), Error>)
    ensures r.Ok? <==> ValueOk(value, field.fieldType)
    ensures r.Err? ==>
              r.error == if field.fieldType.DecimalType? && value == Integer(false) then FloatOverflow else BadValue(path)
  {
    match field.fieldType {
      case StringType =>
        if !value.Text? || Strip(value.text) == "" { return Err(BadValue(path)); }
      case CurrencyType =>
        if !value.Text? { return Err(BadValue(path)); }
        var t := value.text;
        if |t| != 3 || !IsUpper(t[0]) || !IsUpper(t[1]) || !IsUpper(t[2]) { return Err(BadValue(path)); }
      case DecimalType =>
        if value == Integer(false) { return Err(FloatOverflow); }
        if !value.Integer? && value != Float(true) { return Err(BadValue(path)); }
    }
    return Ok(());
  }

  method HasUnknownFields(values: Values, entity: Entity) returns (unknown: bool)
    ensures unknown <==> !OnlyDeclared(values, entity)
  {
    for i := 0 to |values|
      invariant forall k :: 0 <= k < i ==> Declares(entity, values[k].name)
    {
      if !Declares(entity, values[i].name) { return true; }
    }
    return false;
  }

  /** What the loop has checked and collected. */
  ghost predicate FieldsDone(values: Values, entity: Entity, prefix: string, n: nat, before: set<string>,
                             expected: set<string>)
    requires n <= |entity|
  {
    AllFieldsOk(values, entity[..n]) && expected == before + AskedPaths(values, entity[..n], prefix)
  }

  lemma NextField(values: Values, entity: Entity, prefix: string, n: nat, before: set<string>, expected: set<string>)
    requires n < |entity| && FieldsDone(values, entity, prefix, n, before, expected)
    requires FieldOk(Get(values, entity[n].name), entity[n])
    ensures FieldsDone(values, entity, prefix, n + 1, before,
      if Asks(values, entity[n]) then expected + {FieldPath(prefix, entity[n].name)} else expected)
  {
    var next := entity[..n + 1];
    forall i | 0 <= i < |next| ensures FieldOk(Get(values, next[i].name), next[i]) {
      if i < n { assert next[i] == entity[..n][i]; }
    }
  }

  /** _validate_entity_values: accepts exactly the conforming objects, and then adds the paths that need
      evidence to those expected so far. */
  method ValidateEntityValues(values: Values, entity: Entity, prefix: string, before: set<string>)
    returns (r: Result<set<string>, Error>)
    ensures r.Ok? <==> Conforms(values, entity)
    ensures r.Ok? ==> r.value == before + AskedPaths(values, entity, prefix)
    ensures r.Err? ==> ObjectErrorFits(r.error, values, entity, prefix)
  {
    var unknown := HasUnknownFields(values, entity);
    if unknown { return Err(UnknownFields); }
    var expected := before;
    for n := 0 to |entity|
      invariant FieldsDone(values, entity, prefix, n, before, expected)
    {
      var value := Get(values, entity[n].name);
      var path := FieldPath(prefix, entity[n].name);
      if value == Null {
        if entity[n].required { return Err(MissingRequired(path)); }
        NextField(values, entity, prefix, n, before, expected);
      } else {
        var valid := ValidateBusinessValue(value, entity[n], path);
        if valid.Err? { return Err(valid.error); }
        NextField(values, entity, prefix, n, before, expected);
        if entity[n].evidenceRequired { expected := expected + {path}; }
      }
    }
    assert entity[..|entity|] == entity;
    return Ok(expected);
  }

  // ---- A whole candidate ----

  datatype Evidence = Evidence(
    blockId: string, dataPath: string, evidenceId: string, fieldPath: string, quote: string)

  datatype Candidate = Candidate(
    product: Values,
    operation: Option<Values>,
    prices: seq<Values>,
    documents: seq<Values>,
    evidence: seq<Evidence>)

  /** A basis or an uncertainty of the review explanation. */
  datatype Citation = Citation(fieldPath: string, evidenceRefs: seq<string>)

  datatype Explanation = Explanation(basis: seq<Citation>, uncertainties: seq<Citation>)

  type Locator = string

  datatype Block = Block(locator: Locator, text: string)

  /** The file and the parsed document a candidate was read from. */
  datatype Origin = Origin(sourceFileId: nat, parsedDocumentId: nat, fileHash: string)

  datatype Reference = Reference(
    blockId: string, dataPath: string, evidenceId: string, fieldPath: string, quote: string,
    locator: Locator, origin: Origin)

  /** The patch of an accepted candidate and its sources. */
  datatype Proposal = Proposal(
    product: Values,
    operation: Option<Values>,
    prices: seq<Values>,
    documents: seq<Values>,
    references: seq<Reference>)

  /** One object of a candidate. */
  datatype Part = Part(kind: Kind, index: nat, values: Values) {
    function Path(): string { Prefix(kind, index) }

    function Asked(profile: Profile): set<string> {
      AskedPaths(values, profile.Of(kind), Path())
    }

    predicate Ok(profile: Profile) { Conforms(values, profile.Of(kind)) }
  }

  function Items(kind: Kind, objects: seq<Values>): (parts: seq<Part>)
    ensures |parts| == |objects|
    ensures forall i :: 0 <= i < |parts| ==> parts[i] == Part(kind, i, objects[i])
  {
    seq(|objects|, i requires 0 <= i < |objects| => Part(kind, i, objects[i]))
  }

  function Single(kind: Kind, values: Option<Values>): seq<Part> {
    if values.None? then [] else [Part(kind, 0, values.value)]
  }

  /** All objects of a candidate or of its proposal, in the order they are visited. */
  function Parts(product: Values, operation: Option<Values>, prices: seq<Values>, documents: seq<Values>): seq<Part> {
    Single(Product, Some(product)) + Single(Operation, operation) + Items(Price, prices) + Items(Document, documents)
  }

  predicate AllOk(parts: seq<Part>, profile: Profile) {
    forall i :: 0 <= i < |parts| ==> parts[i].Ok(profile)
  }

  function Expected(parts: seq<Part>, profile: Profile): set<string> {
    set i, p | 0 <= i < |parts| && p in parts[i].Asked(profile) :: p
  }

  lemma ExpectedOfSum(a: seq<Part>, b: seq<Part>, profile: Profile)
    ensures Expected(a + b, profile) == Expected(a, profile) + Expected(b, profile)
    ensures AllOk(a + b, profile) <==> AllOk(a, profile) && AllOk(b, profile)
  {
    var c := a + b;
    forall i | 0 <= i < |a| ensures c[i] == a[i] {}
    forall i | 0 <= i < |b| ensures c[|a| + i] == b[i] {}
    forall p | p in Expected(a, profile) ensures p in Expected(c, profile) {
      var i :| 0 <= i < |a| && p in a[i].Asked(profile);
      assert p in c[i].Asked(profile);
    }
    forall p | p in Expected(b, profile) ensures p in Expected(c, profile) {
      var i :| 0 <= i < |b| && p in b[i].Asked(profile);
      assert p in c[|a| + i].Asked(profile);
    }
    if AllOk(c, profile) {
      forall i | 0 <= i < |a| ensures a[i].Ok(profile) { assert c[i].Ok(profile); }
      forall i | 0 <= i < |b| ensures b[i].Ok(profile) { assert c[|a| + i].Ok(profile); }
    }
  }

  /** All objects conform exactly if each does to the fields of its own kind. */
  lemma AllOkIff(product: Values, operation: Option<Values>, prices: seq<Values>, documents: seq<Values>,
                 profile: Profile)
    ensures AllOk(Parts(product, operation, prices, documents), profile) <==>
      && Conforms(product, profile.product)
      && (operation.Some? ==> Conforms(operation.value, profile.operation))
      && (forall i :: 0 <= i < |prices| ==> Conforms(prices[i], profile.price))
      && (forall i :: 0 <= i < |documents| ==> Conforms(documents[i], profile.document))
  {
    hide Conforms, AllOk, Expected, Items, Single;
    var p, o, s, d := Single(Product, Some(product)), Single(Operation, operation), Items(Price, prices), Items(Document, documents);
    ExpectedOfSum(p + o + s, d, profile);
    ExpectedOfSum(p + o, s, profile);
    ExpectedOfSum(p, o, profile);
    SingleOk(Product, Some(product), profile);
    SingleOk(Operation, operation, profile);
    ItemsOk(Price, prices, profile);
    ItemsOk(Document, documents, profile);
  }

  lemma SingleOk(kind: Kind, values: Option<Values>, profile: Profile)
    ensures AllOk(Single(kind, values), profile) <==> (values.Some? ==> Conforms(values.value, profile.Of(kind)))
  {
    if values.Some? { assert Single(kind, values)[0].Ok(profile) <==> Conforms(values.value, profile.Of(kind)); }
  }

  lemma ItemsOk(kind: Kind, objects: seq<Values>, profile: Profile)
    ensures AllOk(Items(kind, objects), profile) <==>
      forall i :: 0 <= i < |objects| ==> Conforms(objects[i], profile.Of(kind))
  {
    hide Conforms;
    forall i | 0 <= i < |objects|
      ensures Items(kind, objects)[i].Ok(profile) <==> Conforms(objects[i], profile.Of(kind))
    {
    }
  }

  lemma ExpectedOfOne(part: Part, profile: Profile)
    ensures Expected([part], profile) == part.Asked(profile)
    ensures AllOk([part], profile) <==> part.Ok(profile)
  {
    assert [part][0] == part;
    forall p | p in part.Asked(profile) ensures p in Expected([part], profile) {
      assert p in [part][0].Asked(profile);
    }
  }

  /** What has been collected after visiting some parts. */
  ghost predicate PartsDone(parts: seq<Part>, profile: Profile, before: set<string>, expected: set<string>) {
    AllOk(parts, profile) && expected == before + Expected(parts, profile)
  }

  lemma NextPart(parts: seq<Part>, part: Part, profile: Profile, before: set<string>, expected: set<string>)
    requires PartsDone(parts, profile, before, expected) && part.Ok(profile)
    ensures PartsDone(parts + [part], profile, before, expected + part.Asked(profile))
  {
    ExpectedOfSum(parts, [part], profile);
    ExpectedOfOne(part, profile);
  }

  lemma NextOfParts(parts: seq<Part>, i: nat, profile: Profile, before: set<string>, expected: set<string>)
    requires i < |parts| && parts[i].Ok(profile) && PartsDone(parts[..i], profile, before, expected)
    ensures PartsDone(parts[..i + 1], profile, before, expected + parts[i].Asked(profile))
  {
    Take(parts, i);
    NextPart(parts[..i], parts[i], profile, before, expected);
  }

  /** The error of one of the objects. */
  predicate PartErrorFits(error: Error, parts: seq<Part>, profile: Profile) {
    exists i :: 0 <= i < |parts| && ObjectErrorFits(error, parts[i].values, profile.Of(parts[i].kind), parts[i].Path())
  }

  lemma ErrorOfPart(error: Error, parts: seq<Part>, i: nat, profile: Profile)
    requires i < |parts| && ObjectErrorFits(error, parts[i].values, profile.Of(parts[i].kind), parts[i].Path())
    ensures PartErrorFits(error, parts, profile)
  {
  }

  lemma ErrorOfSome(error: Error, before: seq<Part>, parts: seq<Part>, after: seq<Part>, profile: Profile)
    requires PartErrorFits(error, parts, profile)
    ensures PartErrorFits(error, before + parts + after, profile)
  {
    hide ObjectErrorFits;
    var i :| 0 <= i < |parts| && ObjectErrorFits(error, parts[i].values, profile.Of(parts[i].kind), parts[i].Path());
    assert (before + parts + after)[|before| + i] == parts[i];
  }

  lemma NotAllOk(parts: seq<Part>, i: nat, profile: Profile)
    requires i < |parts| && !parts[i].Ok(profile)
    ensures !AllOk(parts, profile)
  {
  }

  lemma NoPartsDone(parts: seq<Part>, profile: Profile, before: set<string>)
    ensures PartsDone(parts[..0], profile, before, before)
  {
  }

  lemma AllPartsDone(parts: seq<Part>, profile: Profile, before: set<string>, expected: set<string>)
    requires PartsDone(parts[..|parts|], profile, before, expected)
    ensures AllOk(parts, profile) && expected == before + Expected(parts, profile)
  {
    assert parts[..|parts|] == parts;
  }

  function ItemPaths(kind: Kind, n: nat): set<string> {
    set i | 0 <= i < n :: Prefix(kind, i)
  }

  lemma ItemPathsNext(kind: Kind, n: nat)
    ensures ItemPaths(kind, n + 1) == ItemPaths(kind, n) + {Prefix(kind, n)}
  {
  }

  /** The price and document loops. */
  method ValidateItems(kind: Kind, objects: seq<Values>, profile: Profile, before: set<string>, paths: set<string>)
    returns (r: Result<(set<string>, set<string>), Error>)
    requires kind.Listed()
    ensures r.Ok? <==> AllOk(Items(kind, objects), profile)
    ensures r.Ok? ==> r.value.0 == before + Expected(Items(kind, objects), profile)
    ensures r.Ok? ==> r.value.1 == paths + ItemPaths(kind, |objects|)
    ensures r.Err? ==> PartErrorFits(r.error, Items(kind, objects), profile)
  {
    hide PartErrorFits, ObjectErrorFits, PartsDone, Expected, AllOk, Prefix;
    var expected, objectPaths := before, paths;
    ghost var parts := Items(kind, objects);
    NoPartsDone(parts, profile, before);
    for i := 0 to |objects|
      invariant PartsDone(parts[..i], profile, before, expected)
      invariant objectPaths == paths + ItemPaths(kind, i)
    {
      var objectPath := Prefix(kind, i);
      objectPaths := objectPaths + {objectPath};
      ItemPathsNext(kind, i);
      var valid := ValidateEntityValues(objects[i], profile.Of(kind), objectPath, expected);
      if valid.Err? {
        NotAllOk(parts, i, profile);
        ErrorOfPart(valid.error, parts, i, profile);
        return Err(valid.error);
      }
      NextOfParts(parts, i, profile, before, expected);
      expected := valid.value;
    }
    AllPartsDone(parts, profile, before, expected);
    return Ok((expected, objectPaths));
  }
}

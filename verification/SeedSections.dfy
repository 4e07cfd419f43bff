/** seed_sections of app/db/knowledge_seed.py: the file record and the sections of one payload, in one
    transaction. */
module SeedSections {
  import opened KnowledgeSeed
  import opened Sequences
  import opened Wrappers

  datatype Section = Research | Content | Documents | Operations | Prices

  /** A KnowledgeFile row: its id never changes; updatedAt is left out. */
  datatype FileRow = FileRow(id: nat, columns: Row)

  type FileKey = (nat, string)   // knowledge base and file hash

  datatype Db = Db(files: map<FileKey, FileRow>, tables: map<Section, Table>)

  /** The source of an import. `base` is the one ready knowledge base it resolves to, `uploader` the user
      found for it; `updates` are the columns of the DO UPDATE clause, `inserts` the others. */
  datatype FileImport = FileImport(hash: string, base: Option<nat>, uploader: Option<nat>, updates: Row, inserts: Row)

  datatype Payload = Payload(source: FileImport, sections: map<Section, seq<Row>>) {
    function Records(section: Section): seq<Row> {
      if section in sections then sections[section] else []
    }
  }

  datatype Setup = Setup(specs: Section -> Spec, environments: Section -> Environment)

  // ---- The checked-in table specifications ----

  const DOCUMENT_TYPE: string := "documentType"
  const FILE_REFERENCE: string := "fileReference"
  const VARIANT: string := "variant"
  const PRICE_MIN: string := "priceMin"
  const CURRENCY: string := "currency"
  const PRICE_TYPE: string := "priceType"

  /** TABLE_SPECS; the allowed columns are a parameter. */
  function TableSpec(section: Section, allowed: set<string>): Spec {
    match section
    case Research =>
      Spec(allowed, {ID, "productName", "rawData", SOURCE_ROW, SOURCE_SHEET}, [SOURCE_FILE_ID, SOURCE_SHEET, SOURCE_ROW])
    case Content =>
      Spec(allowed, {"rawData", "recordType", "searchText", SOURCE_ROW, SOURCE_SHEET},
           [SOURCE_FILE_ID, SOURCE_SHEET, SOURCE_ROW])
    case Documents =>
      Spec(allowed, {DOCUMENT_TYPE, FILE_REFERENCE, "rawText", RESEARCH_ID, SOURCE_ROW, SOURCE_SHEET},
           [RESEARCH_ID, DOCUMENT_TYPE, FILE_REFERENCE])
    case Operations =>
      Spec(allowed, {RESEARCH_ID, "rawData", SOURCE_ROW, SOURCE_SHEET}, [RESEARCH_ID])
    case Prices =>
      Spec(allowed, {CURRENCY, PRICE_MIN, PRICE_TYPE, "rawText", RESEARCH_ID, SOURCE_ROW, SOURCE_SHEET, VARIANT},
           [RESEARCH_ID, VARIANT, PRICE_MIN, CURRENCY, PRICE_TYPE])
  }

  /** Rows of these tables always have all their conflict columns, so ON CONFLICT compares complete keys. */
  lemma ConflictKeysAreComplete(env: Environment, section: Section, allowed: set<string>, record: Row, fileId: nat,
                                i: nat)
    requires Normalized(env, TableSpec(section, allowed), record, fileId).Some?
    requires i < |TableSpec(section, allowed).conflict|
    ensures KeyOf(TableSpec(section, allowed).conflict, Normalized(env, TableSpec(section, allowed), record, fileId).value)[i] != Null
  {
    var spec := TableSpec(section, allowed);
    var c := spec.conflict[i];
    var row := Attached(record, fileId);
    assert c in row && row[c] != Null;
  }

  /** The conflict columns of the tables, and what every row of them needs. */
  lemma SectionColumns(section: Section, allowed: set<string>)
    ensures var spec, place := TableSpec(section, allowed), ["sourceFileId", "sourceSheet", "sourceRow"];
            && spec.allowed == allowed
            && spec.conflict == (match section
                                 case Research => place
                                 case Content => place
                                 case Documents => ["researchId", "documentType", "fileReference"]
                                 case Operations => ["researchId"]
                                 case Prices => ["researchId", "variant", "priceMin", "currency", "priceType"])
            && (forall c :: c in spec.required <==>
                  || c == "sourceSheet" || c == "sourceRow"
                  || (c == "id" && section == Research) || (c == "productName" && section == Research)
                  || (c == "recordType" && section == Content) || (c == "searchText" && section == Content)
                  || (c == "rawData" && (section == Research || section == Content || section == Operations))
                  || (c == "rawText" && (section == Documents || section == Prices))
                  || (c != "sourceFileId" && c in spec.conflict))
  {
  }

  /** The ids the database and the server generate during one seeding. */
  datatype Generated = Generated(fileId: nat, rowIds: Section -> NewIds)

  const LATER_SECTIONS: seq<Section> := [Content, Documents, Operations, Prices]

  predicate Dependent(section: Section) {
    section.Documents? || section.Operations? || section.Prices?
  }

  // ---- The file ----

  /** ensure_knowledge_file: the row of the file, created or updated. */
  function Ensured(files: map<FileKey, FileRow>, source: FileImport, newId: nat): Option<(map<FileKey, FileRow>, nat)> {
    if source.hash == "" || |source.hash| > 64 || source.base.None? || source.uploader.None? then None
    else
      var key := (source.base.value, source.hash);
      if key in files then
        Some((files[key := FileRow(files[key].id, files[key].columns + source.updates)], files[key].id))
      else Some((files[key := FileRow(newId, source.inserts + source.updates)], newId))
  }

  /** The same import finds the row it left, with the same id and the same columns. */
  lemma FileEnsuredTwice(files: map<FileKey, FileRow>, source: FileImport, newId: nat, newId': nat)
    requires Ensured(files, source, newId).Some?
    ensures Ensured(Ensured(files, source, newId).value.0, source, newId') == Ensured(files, source, newId)
  {
    var after := Ensured(files, source, newId).value.0;
    var key := (source.base.value, source.hash);
    assert after[key].columns + source.updates == after[key].columns;
    assert after[key := after[key]] == after;
  }

  /** A file is taken exactly with a hash of one to 64 characters, a knowledge base and an uploader. The file's row
      keeps its id, or gets the generated one; each of its columns has the updated value, else the one it had, or
      in a new row the inserted one. All other rows stay. */
  lemma EnsuredIs(files: map<FileKey, FileRow>, source: FileImport, newId: nat, c: string)
    ensures Ensured(files, source, newId).Some? <==>
      1 <= |source.hash| <= 64 && source.base != None && source.uploader != None
    ensures Ensured(files, source, newId).Some? ==>
      var (after, id), key := Ensured(files, source, newId).value, (source.base.value, source.hash);
      && after.Keys == files.Keys + {key} && (forall other <- files :: other != key ==> after[other] == files[other])
      && id == after[key].id == (if key in files then files[key].id else newId)
      && var before := if key in files then files[key].columns else source.inserts;
         && (c in after[key].columns <==> c in source.updates || c in before)
         && (c in after[key].columns ==>
               after[key].columns[c] == if c in source.updates then source.updates[c] else before[c])
  {
  }

  // ---- One section ----

  function NormalizedAll(env: Environment, spec: Spec, records: seq<Row>, fileId: nat): Option<seq<Row>> {
    if records == [] then Some([])
    else
      var n := |records| - 1;
      match (NormalizedAll(env, spec, records[..n], fileId), Normalized(env, spec, records[n], fileId))
      case (Some(rows), Some(row)) => Some(rows + [row])
      case _ => None
  }

  lemma {:induction false} NormalizedCount(env: Environment, spec: Spec, records: seq<Row>, fileId: nat)
    requires NormalizedAll(env, spec, records, fileId).Some?
    ensures |NormalizedAll(env, spec, records, fileId).value| == |records|
  {
    if records != [] { NormalizedCount(env, spec, records[..|records| - 1], fileId); }
  }

  /** The table after a section's rows; none if a row is refused. */
  function Seeded(env: Environment, spec: Spec, records: seq<Row>, fileId: nat, ids: NewIds,
                  table: Table): Option<Table> {
    match NormalizedAll(env, spec, records, fileId)
    case None => None
    case Some(rows) => Folded(env, spec, rows, ids, table)
  }

  lemma SeededLast(env: Environment, spec: Spec, records: seq<Row>, record: Row, fileId: nat, ids: NewIds,
                   table: Table)
    ensures Seeded(env, spec, records + [record], fileId, ids, table) ==
      match (Seeded(env, spec, records, fileId, ids, table), Normalized(env, spec, record, fileId))
      case (Some(before), Some(row)) => Upserted(env, spec, row, ids(|records|), before)
      case _ => None
  {
    hide Upserted, Normalized;
    assert (records + [record])[..|records|] == records;
    if NormalizedAll(env, spec, records, fileId).Some? { NormalizedCount(env, spec, records, fileId); }
  }

  lemma {:induction false} SeededFails(env: Environment, spec: Spec, records: seq<Row>, i: nat, fileId: nat,
                                       ids: NewIds, table: Table)
    requires i <= |records| && Seeded(env, spec, records[..i], fileId, ids, table).None?
    ensures Seeded(env, spec, records, fileId, ids, table).None?
    decreases |records| - i
  {
    hide Seeded, Normalized, Upserted;
    if i == |records| {
      assert records[..i] == records;
    } else {
      assert records[..i + 1] == records[..i] + [records[i]];
      SeededLast(env, spec, records[..i], records[i], fileId, ids, table);
      SeededFails(env, spec, records, i + 1, fileId, ids, table);
    }
  }

  /** _upsert_rows. */
  method UpsertRows(env: Environment, spec: Spec, records: seq<Row>, fileId: nat, ids: NewIds, table0: Table)
    returns (r: Option<(Table, nat)>)
    ensures r == match Seeded(env, spec, records, fileId, ids, table0)
                 case None => None
                 case Some(table) => Some((table, |records|))
  {
    hide Seeded, Normalized, IsValid, Execute;
    var table, count := table0, 0;
    NothingSeeded(env, spec, fileId, ids, table0);
    assert records[..0] == [];
    for i := 0 to |records|
      invariant count == i && Seeded(env, spec, records[..i], fileId, ids, table0) == Some(table)
    {
      SeededLast(env, spec, records[..i], records[i], fileId, ids, table0);
      assert records[..i + 1] == records[..i] + [records[i]];
      var row := Normalized(env, spec, records[i], fileId);
      if row.None? {
        SeededFails(env, spec, records, i + 1, fileId, ids, table0);
        return None;
      }
      var query := BuildUpsertQuery(spec, row.value.Keys);
      var after := Execute(env, query.value, row.value, ids(i), table);
      if after.None? {
        SeededFails(env, spec, records, i + 1, fileId, ids, table0);
        return None;
      }
      table, count := after.value, count + 1;
    }
    assert records[..|records|] == records;
    return Some((table, count));
  }

  lemma NothingSeeded(env: Environment, spec: Spec, fileId: nat, ids: NewIds, table: Table)
    ensures Seeded(env, spec, [], fileId, ids, table) == Some(table)
  {
  }

  lemma SectionSeededTwice(env: Environment, spec: Spec, records: seq<Row>, fileId: nat, ids: NewIds, ids': NewIds,
                           table: Table)
    requires Seeded(env, spec, records, fileId, ids, table).Some?
    ensures Seeded(env, spec, records, fileId, ids', Seeded(env, spec, records, fileId, ids, table).value)
      == Seeded(env, spec, records, fileId, ids, table)
  {
    TableSeededTwice(env, spec, NormalizedAll(env, spec, records, fileId).value, ids, ids', table);
  }

  // ---- Several sections ----

  function TableOf(tables: map<Section, Table>, section: Section): Table {
    if section in tables then tables[section] else map[]
  }

  function WithSection(setup: Setup, payload: Payload, fileId: nat, ids: Section -> NewIds, section: Section,
                       tables: map<Section, Table>): Option<map<Section, Table>> {
    var records := payload.Records(section);
    if records == [] then Some(tables)
    else
      match Seeded(setup.environments(section), setup.specs(section), records, fileId, ids(section), TableOf(tables, section))
      case None => None
      case Some(table) => Some(tables[section := table])
  }

  function WithSections(setup: Setup, payload: Payload, fileId: nat, ids: Section -> NewIds, sections: seq<Section>,
                        tables: map<Section, Table>): Option<map<Section, Table>> {
    if sections == [] then Some(tables)
    else
      match WithSections(setup, payload, fileId, ids, sections[..|sections| - 1], tables)
      case None => None
      case Some(before) => WithSection(setup, payload, fileId, ids, sections[|sections| - 1], before)
  }

  predicate Distinct(sections: seq<Section>) {
    forall i, j :: 0 <= i < j < |sections| ==> sections[i] != sections[j]
  }

  /** Seeding the section changes nothing. */
  predicate Settled(setup: Setup, payload: Payload, fileId: nat, ids: Section -> NewIds, section: Section,
                    tables: map<Section, Table>) {
    WithSection(setup, payload, fileId, ids, section, tables) == Some(tables)
  }

  lemma SectionSettles(setup: Setup, payload: Payload, fileId: nat, ids: Section -> NewIds, ids': Section -> NewIds,
                       section: Section, tables: map<Section, Table>)
    requires WithSection(setup, payload, fileId, ids, section, tables).Some?
    ensures Settled(setup, payload, fileId, ids', section, WithSection(setup, payload, fileId, ids, section, tables).value)
  {
    hide Seeded;
    if payload.Records(section) != [] {
      SectionSeededTwice(setup.environments(section), setup.specs(section), payload.Records(section), fileId,
                         ids(section), ids'(section), TableOf(tables, section));
      var after := WithSection(setup, payload, fileId, ids, section, tables).value;
      assert after[section := after[section]] == after;
    }
  }

  lemma OthersStaySettled(setup: Setup, payload: Payload, fileId: nat, ids: Section -> NewIds,
                          ids': Section -> NewIds, section: Section, other: Section, tables: map<Section, Table>)
    requires other != section && WithSection(setup, payload, fileId, ids, section, tables).Some?
    requires Settled(setup, payload, fileId, ids', other, tables)
    ensures Settled(setup, payload, fileId, ids', other, WithSection(setup, payload, fileId, ids, section, tables).value)
  {
    hide Seeded;
    var after := WithSection(setup, payload, fileId, ids, section, tables).value;
    if payload.Records(other) != [] {
      var t := Seeded(setup.environments(other), setup.specs(other), payload.Records(other), fileId, ids'(other),
                      TableOf(tables, other)).value;
      assert tables[other := t][other] == t;
      assert after[other := after[other]] == after;
    }
  }

  lemma {:induction false} SectionsSettle(setup: Setup, payload: Payload, fileId: nat, ids: Section -> NewIds,
                                          ids': Section -> NewIds, sections: seq<Section>,
                                          tables: map<Section, Table>, s: Section)
    requires Distinct(sections) && WithSections(setup, payload, fileId, ids, sections, tables).Some?
    requires s in sections || Settled(setup, payload, fileId, ids', s, tables)
    ensures Settled(setup, payload, fileId, ids', s, WithSections(setup, payload, fileId, ids, sections, tables).value)
  {
    if sections != [] {
      hide WithSection, Settled;
      var init, last := sections[..|sections| - 1], sections[|sections| - 1];
      var before := WithSections(setup, payload, fileId, ids, init, tables).value;
      if s == last {
        SectionSettles(setup, payload, fileId, ids, ids', last, before);
      } else {
        if s in sections { assert s in init; }
        SectionsSettle(setup, payload, fileId, ids, ids', init, tables, s);
        OthersStaySettled(setup, payload, fileId, ids, ids', last, s, before);
      }
    }
  }

  lemma {:induction false} SettledSectionsStay(setup: Setup, payload: Payload, fileId: nat, ids: Section -> NewIds,
                                               sections: seq<Section>, tables: map<Section, Table>)
    requires forall i :: 0 <= i < |sections| ==> Settled(setup, payload, fileId, ids, sections[i], tables)
    ensures WithSections(setup, payload, fileId, ids, sections, tables) == Some(tables)
  {
    if sections != [] {
      hide WithSection;
      var init := sections[..|sections| - 1];
      forall i | 0 <= i < |init| ensures Settled(setup, payload, fileId, ids, init[i], tables) {
        assert Settled(setup, payload, fileId, ids, sections[i], tables) && init[i] == sections[i];
      }
      SettledSectionsStay(setup, payload, fileId, ids, init, tables);
      assert Settled(setup, payload, fileId, ids, sections[|init|], tables);
    }
  }

  // ---- A payload ----

  /** _assert_research_links: every researchId of a dependent record is the id of a research row of this file. */
  predicate LinksOk(payload: Payload, fileId: nat, research: Table) {
    forall section: Section, i: int :: Dependent(section) && 0 <= i < |payload.Records(section)| ==>
      LinkOk(payload.Records(section)[i], fileId, research)
  }

  predicate LinkOk(record: Row, fileId: nat, research: Table) {
    At(record, RESEARCH_ID) == Null ||
    exists k :: k in research && At(research[k], ID) == At(record, RESEARCH_ID)
      && At(research[k], SOURCE_FILE_ID) == FileId(fileId)
  }

  type Counts = map<Section, nat>

  function CountsOf(payload: Payload): Counts {
    map s: Section | true :: |payload.Records(s)|
  }

  /** seed_sections: research first, then the link check, then the other sections. */
  ghost function SeededDb(setup: Setup, payload: Payload, generated: Generated, db: Db): Option<(Db, nat)> {
    match Ensured(db.files, payload.source, generated.fileId)
    case None => None
    case Some((files, fileId)) =>
      match WithSection(setup, payload, fileId, generated.rowIds, Research, db.tables)
      case None => None
      case Some(tables) =>
        if !LinksOk(payload, fileId, TableOf(tables, Research)) then None
        else
          match WithSections(setup, payload, fileId, generated.rowIds, LATER_SECTIONS, tables)
          case None => None
          case Some(after) => Some((Db(files, after), fileId))
  }

  lemma {:induction false} OthersUntouched(setup: Setup, payload: Payload, fileId: nat, ids: Section -> NewIds,
                                           sections: seq<Section>, tables: map<Section, Table>, section: Section)
    requires section !in sections && WithSections(setup, payload, fileId, ids, sections, tables).Some?
    ensures TableOf(WithSections(setup, payload, fileId, ids, sections, tables).value, section) == TableOf(tables, section)
  {
    if sections != [] {
      hide Seeded;
      OthersUntouched(setup, payload, fileId, ids, sections[..|sections| - 1], tables, section);
    }
  }

  /** A payload is seeded exactly if its file is taken, its research rows are, then every document, operation and
      price without a research id or with the id of a research row of this file, and then the other sections. */
  lemma SeedsIff(setup: Setup, payload: Payload, generated: Generated, db: Db)
    ensures SeededDb(setup, payload, generated, db).Some? <==>
      && Ensured(db.files, payload.source, generated.fileId).Some?
      && var fileId := Ensured(db.files, payload.source, generated.fileId).value.1;
         && WithSection(setup, payload, fileId, generated.rowIds, Research, db.tables).Some?
         && var tables := WithSection(setup, payload, fileId, generated.rowIds, Research, db.tables).value;
            && (forall section, i :: (section == Documents || section == Operations || section == Prices)
                                     && 0 <= i < |payload.Records(section)| ==>
                  Linked(payload.Records(section)[i], fileId, TableOf(tables, Research)))
            && WithSections(setup, payload, fileId, generated.rowIds, LATER_SECTIONS, tables).Some?
  {
    hide WithSection, WithSections, Ensured;
    if Ensured(db.files, payload.source, generated.fileId).Some? {
      var fileId := Ensured(db.files, payload.source, generated.fileId).value.1;
      var seeded := WithSection(setup, payload, fileId, generated.rowIds, Research, db.tables);
      if seeded.Some? { LinksIff(payload, fileId, TableOf(seeded.value, Research)); }
    }
  }

  /** No research id, or that of a research row of the file. */
  predicate Linked(record: Row, fileId: nat, research: Table) {
    "researchId" in record && record["researchId"] != Null ==>
      exists k :: k in research && "id" in research[k] && research[k]["id"] == record["researchId"]
        && "sourceFileId" in research[k] && research[k]["sourceFileId"] == FileId(fileId)
  }

  lemma LinksIff(payload: Payload, fileId: nat, research: Table)
    ensures LinksOk(payload, fileId, research) <==>
      forall section, i :: (section == Documents || section == Operations || section == Prices)
                           && 0 <= i < |payload.Records(section)| ==>
        Linked(payload.Records(section)[i], fileId, research)
  {
    forall record: Row ensures LinkOk(record, fileId, research) <==> Linked(record, fileId, research) {
      LinkIff(record, fileId, research);
    }
  }

  lemma LinkIff(record: Row, fileId: nat, research: Table)
    ensures LinkOk(record, fileId, research) <==> Linked(record, fileId, research)
  {
    forall k | k in research
      ensures At(research[k], ID) == At(record, RESEARCH_ID) != Null ==> "id" in research[k] && "researchId" in record
    {
    }
  }

  // ---- Every record is stored ----

  /** The i-th row given for the section is in its table. */
  predicate Stored(setup: Setup, payload: Payload, fileId: nat, section: Section, tables: map<Section, Table>, i: nat)
    requires section in payload.sections && i < |payload.sections[section]|
  {
    var spec := setup.specs(section);
    var row := Normalized(setup.environments(section), spec, payload.sections[section][i], fileId);
    row.Some? && KeyOf(spec.conflict, row.value) in TableOf(tables, section)
  }

  lemma {:induction false} NormalizedAt(env: Environment, spec: Spec, records: seq<Row>, fileId: nat, i: nat)
    requires NormalizedAll(env, spec, records, fileId).Some? && i < |records|
    ensures i < |NormalizedAll(env, spec, records, fileId).value|
    ensures Normalized(env, spec, records[i], fileId) == Some(NormalizedAll(env, spec, records, fileId).value[i])
  {
    hide Normalized;
    var n := |records| - 1;
    NormalizedCount(env, spec, records, fileId);
    NormalizedCount(env, spec, records[..n], fileId);
    if i < n { NormalizedAt(env, spec, records[..n], fileId, i); }
  }

  lemma SectionStores(setup: Setup, payload: Payload, fileId: nat, ids: Section -> NewIds, section: Section,
                      tables: map<Section, Table>, i: nat)
    requires WithSection(setup, payload, fileId, ids, section, tables).Some?
    requires section in payload.sections && i < |payload.sections[section]|
    ensures Stored(setup, payload, fileId, section, WithSection(setup, payload, fileId, ids, section, tables).value, i)
  {
    hide Normalized, Folded;
    var env, spec, records := setup.environments(section), setup.specs(section), payload.sections[section];
    NormalizedAt(env, spec, records, fileId, i);
    FoldedKeys(env, spec, NormalizedAll(env, spec, records, fileId).value, ids(section), TableOf(tables, section));
  }

  lemma {:induction false} SectionsStore(setup: Setup, payload: Payload, fileId: nat, ids: Section -> NewIds,
                                         sections: seq<Section>, tables: map<Section, Table>, section: Section, i: nat)
    requires Distinct(sections) && section in sections
    requires WithSections(setup, payload, fileId, ids, sections, tables).Some?
    requires section in payload.sections && i < |payload.sections[section]|
    ensures Stored(setup, payload, fileId, section, WithSections(setup, payload, fileId, ids, sections, tables).value, i)
  {
    hide WithSection, Normalized;
    var init, last := sections[..|sections| - 1], sections[|sections| - 1];
    var before := WithSections(setup, payload, fileId, ids, init, tables).value;
    if section == last {
      SectionStores(setup, payload, fileId, ids, section, before, i);
    } else {
      assert section in init;
      SectionsStore(setup, payload, fileId, ids, init, tables, section, i);
      LastUntouched(setup, payload, fileId, ids, last, before, section);
    }
  }

  lemma LastUntouched(setup: Setup, payload: Payload, fileId: nat, ids: Section -> NewIds, last: Section,
                      tables: map<Section, Table>, section: Section)
    requires last != section && WithSection(setup, payload, fileId, ids, last, tables).Some?
    ensures TableOf(WithSection(setup, payload, fileId, ids, last, tables).value, section) == TableOf(tables, section)
  {
  }

  /** After a successful seeding every row of every section of the payload is in its table. */
  lemma EveryRowIsStored(setup: Setup, payload: Payload, generated: Generated, db: Db, section: Section, i: nat)
    requires SeededDb(setup, payload, generated, db).Some?
    requires section in payload.sections && i < |payload.sections[section]|
    ensures var (after, fileId) := SeededDb(setup, payload, generated, db).value;
            Stored(setup, payload, fileId, section, after.tables, i)
  {
    hide WithSection, WithSections, Ensured, Normalized;
    var (files, fileId) := Ensured(db.files, payload.source, generated.fileId).value;
    var tables := WithSection(setup, payload, fileId, generated.rowIds, Research, db.tables).value;
    if section == Research {
      SectionStores(setup, payload, fileId, generated.rowIds, Research, db.tables, i);
      OthersUntouched(setup, payload, fileId, generated.rowIds, LATER_SECTIONS, tables, Research);
    } else {
      assert section == LATER_SECTIONS[0] || section == LATER_SECTIONS[1] || section == LATER_SECTIONS[2]
        || section == LATER_SECTIONS[3];
      SectionsStore(setup, payload, fileId, generated.rowIds, LATER_SECTIONS, tables, section, i);
    }
  }

  /** After a successful seeding, every document, operation and price of the payload that names a research row
      names one of the payload's own file. */
  lemma LinksPointToThisFile(setup: Setup, payload: Payload, generated: Generated, db: Db, section: Section, i: nat)
    requires SeededDb(setup, payload, generated, db).Some?
    requires section == Documents || section == Operations || section == Prices
    requires i < |payload.Records(section)|
    requires "researchId" in payload.Records(section)[i] && payload.Records(section)[i]["researchId"] != Null
    ensures var (after, fileId) := SeededDb(setup, payload, generated, db).value;
            var research := TableOf(after.tables, Research);
            exists k :: k in research && At(research[k], "id") == payload.Records(section)[i]["researchId"]
              && At(research[k], "sourceFileId") == FileId(fileId)
  {
    hide WithSection, WithSections, Ensured;
    var (files, fileId) := Ensured(db.files, payload.source, generated.fileId).value;
    var tables := WithSection(setup, payload, fileId, generated.rowIds, Research, db.tables).value;
    OthersUntouched(setup, payload, fileId, generated.rowIds, LATER_SECTIONS, tables, Research);
    assert LinkOk(payload.Records(section)[i], fileId, TableOf(tables, Research));
  }

  /** Seeding the same payload again succeeds, returns the same file and leaves every table and file row as
      it is, whatever ids are generated the second time. */
  lemma SeedingTwiceIsSeedingOnce(setup: Setup, payload: Payload, generated: Generated, again: Generated, db: Db)
    requires SeededDb(setup, payload, generated, db).Some?
    ensures SeededDb(setup, payload, again, SeededDb(setup, payload, generated, db).value.0)
      == SeededDb(setup, payload, generated, db)
  {
    hide WithSection, WithSections, LinksOk, Ensured;
    FileEnsuredTwice(db.files, payload.source, generated.fileId, again.fileId);
    var (files, fileId) := Ensured(db.files, payload.source, generated.fileId).value;
    var tables := WithSection(setup, payload, fileId, generated.rowIds, Research, db.tables).value;
    var after := WithSections(setup, payload, fileId, generated.rowIds, LATER_SECTIONS, tables).value;
    SectionSettles(setup, payload, fileId, generated.rowIds, again.rowIds, Research, db.tables);
    SectionsSettle(setup, payload, fileId, generated.rowIds, again.rowIds, LATER_SECTIONS, tables, Research);
    OthersUntouched(setup, payload, fileId, generated.rowIds, LATER_SECTIONS, tables, Research);
    forall i | 0 <= i < |LATER_SECTIONS| ensures Settled(setup, payload, fileId, again.rowIds, LATER_SECTIONS[i], after) {
      SectionsSettle(setup, payload, fileId, generated.rowIds, again.rowIds, LATER_SECTIONS, tables, LATER_SECTIONS[i]);
    }
    SettledSectionsStay(setup, payload, fileId, again.rowIds, LATER_SECTIONS, after);
  }

  // ---- The database ----

  class SeedDatabase {
    var files: map<FileKey, FileRow>
    var tables: map<Section, Table>

    function Contents(): Db
      reads this
    {
      Db(files, tables)
    }

    constructor (db: Db)
      ensures Contents() == db
    {
      files, tables := db.files, db.tables;
    }

    /** One section, if it has records. */
    method SeedSection(setup: Setup, payload: Payload, fileId: nat, ids: Section -> NewIds, section: Section)
      returns (ok: bool, count: nat)
      modifies this`tables
      ensures ok <==> WithSection(setup, payload, fileId, ids, section, old(tables)).Some?
      ensures ok ==> WithSection(setup, payload, fileId, ids, section, old(tables)) == Some(tables)
      ensures ok ==> count == |payload.Records(section)|
    {
      hide Seeded;
      var records := payload.Records(section);
      if records == [] { return true, 0; }
      var r := UpsertRows(setup.environments(section), setup.specs(section), records, fileId, ids(section),
                          TableOf(tables, section));
      if r.None? { return false, 0; }
      tables := tables[section := r.value.0];
      return true, r.value.1;
    }

    /** The sections after the research rows. */
    method SeedLater(setup: Setup, payload: Payload, fileId: nat, ids: Section -> NewIds, counts0: Counts)
      returns (ok: bool, counts: Counts)
      requires counts0.Keys == {Research} && counts0[Research] == |payload.Records(Research)|
      modifies this`tables
      ensures ok <==> WithSections(setup, payload, fileId, ids, LATER_SECTIONS, old(tables)).Some?
      ensures ok ==> WithSections(setup, payload, fileId, ids, LATER_SECTIONS, old(tables)) == Some(tables)
      ensures ok ==> counts == CountsOf(payload)
    {
      hide WithSection;
      counts := counts0;
      ghost var researched := tables;
      var i := 0;
      while i < |LATER_SECTIONS|
        invariant i <= |LATER_SECTIONS|
        invariant WithSections(setup, payload, fileId, ids, LATER_SECTIONS[..i], researched) == Some(tables)
        invariant counts.Keys == {Research} + set s | s in LATER_SECTIONS[..i]
        invariant forall s <- counts :: counts[s] == |payload.Records(s)|
      {
        Take(LATER_SECTIONS, i);
        var count;
        ok, count := SeedSection(setup, payload, fileId, ids, LATER_SECTIONS[i]);
        if !ok {
          SectionsFail(setup, payload, fileId, ids, LATER_SECTIONS, i + 1, researched);
          return;
        }
        counts := counts[LATER_SECTIONS[i] := count];
        i := i + 1;
      }
      assert LATER_SECTIONS[..|LATER_SECTIONS|] == LATER_SECTIONS;
      AllCounted(payload, counts);
      ok := true;
    }

    /** seed_sections in the caller's transaction, which is rolled back if it raises. */
    method SeedPayload(setup: Setup, payload: Payload, generated: Generated) returns (r: Option<(nat, Counts)>)
      modifies this
      ensures r.Some? <==> SeededDb(setup, payload, generated, old(Contents())).Some?
      ensures r.Some? ==> SeededDb(setup, payload, generated, old(Contents())) == Some((Contents(), r.value.0))
      ensures r.Some? ==> r.value.1 == CountsOf(payload)
      ensures r.None? ==> Contents() == old(Contents())
    {
      hide WithSection, LinksOk, Ensured, WithSections;
      var before := Contents();
      var ensured := Ensured(files, payload.source, generated.fileId);
      if ensured.None? { return None; }
      var (newFiles, fileId) := ensured.value;
      files := newFiles;
      var counts: Counts := map[];
      var ok, count := SeedSection(setup, payload, fileId, generated.rowIds, Research);
      if ok { ok := LinksOk(payload, fileId, TableOf(tables, Research)); }
      if ok { ok, counts := SeedLater(setup, payload, fileId, generated.rowIds, map[Research := count]); }
      if !ok {
        files, tables := before.files, before.tables;
        return None;
      }
      return Some((fileId, counts));
    }
  }

  lemma {:induction false} SectionsFail(setup: Setup, payload: Payload, fileId: nat, ids: Section -> NewIds,
                                        sections: seq<Section>, i: nat, tables: map<Section, Table>)
    requires i <= |sections| && WithSections(setup, payload, fileId, ids, sections[..i], tables).None?
    ensures WithSections(setup, payload, fileId, ids, sections, tables).None?
    decreases |sections| - i
  {
    hide WithSection;
    if i == |sections| {
      assert sections[..i] == sections;
    } else {
      Take(sections, i);
      SectionsFail(setup, payload, fileId, ids, sections, i + 1, tables);
    }
  }

  lemma AllCounted(payload: Payload, counts: Counts)
    requires counts.Keys == {Research} + set s | s in LATER_SECTIONS
    requires forall s <- counts :: counts[s] == |payload.Records(s)|
    ensures counts == CountsOf(payload)
  {
    forall s: Section ensures s in counts {
      match s
      case Research =>
      case Content => assert LATER_SECTIONS[0] == s;
      case Documents => assert LATER_SECTIONS[1] == s;
      case Operations => assert LATER_SECTIONS[2] == s;
      case Prices => assert LATER_SECTIONS[3] == s;
    }
  }
}

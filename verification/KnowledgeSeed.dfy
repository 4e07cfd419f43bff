/** Idempotent seeding, app/db/knowledge_seed.py and app/db/knowledge_provenance.py: what the generated
    upserts do to a table, and that seeding twice is seeding once. */
module KnowledgeSeed {
  import opened Whitespace
  import opened Wrappers

  datatype Value = Null | Text(text: string) | Number(n: int) | Json(tree: nat) | FileId(id: nat) | Other(tag: nat)

  /** The columns of a row that are set; the others have their defaults. */
  type Row = map<string, Value>

  type Key = seq<Value>

  /** The rows of a table by the values of its conflict columns. */
  type Table = map<Key, Row>

  const ID: string := "id"
  const SOURCE_ID: string := "sourceId"
  const SOURCE_FILE_ID: string := "sourceFileId"
  const SOURCE_SHEET: string := "sourceSheet"
  const SOURCE_ROW: string := "sourceRow"
  const RESEARCH_ID: string := "researchId"

  datatype Spec = Spec(allowed: set<string>, required: set<string>, conflict: seq<string>)

  // ---- One row ----

  /** What the database may still refuse, and the JSON text of a value. */
  datatype Environment = Environment(accepts: Row -> bool, dump: nat -> string)

  function JsonValue(env: Environment, v: Value): Value {
    if v.Json? then Text(env.dump(v.tree)) else v
  }

  /** The record with its provenance: sheet and row checked, source ids replaced by the file's id. */
  function Attached(record: Row, fileId: nat): Row
    requires SOURCE_SHEET in record && record[SOURCE_SHEET].Text?
  {
    var sheet := Text(Strip(record[SOURCE_SHEET].text));
    (record - {SOURCE_ID, SOURCE_FILE_ID})[SOURCE_SHEET := sheet][SOURCE_FILE_ID := FileId(fileId)]
  }

  predicate HasPosition(record: Row) {
    && SOURCE_SHEET in record && record[SOURCE_SHEET].Text? && Strip(record[SOURCE_SHEET].text) != ""
    && SOURCE_ROW in record && record[SOURCE_ROW].Number? && record[SOURCE_ROW].n >= 1
  }

  predicate IsValid(spec: Spec, record: Row, fileId: nat) {
    && HasPosition(record)
    && Attached(record, fileId).Keys <= spec.allowed
    && forall c <- spec.required :: c in Attached(record, fileId) && Attached(record, fileId)[c] != Null
  }

  /** normalize_seed_row. */
  function Normalized(env: Environment, spec: Spec, record: Row, fileId: nat): (r: Option<Row>)
    ensures r.Some? <==> IsValid(spec, record, fileId)
    ensures r.Some? ==> r.value.Keys <= spec.allowed && spec.required <= r.value.Keys
    ensures r.Some? ==> SOURCE_FILE_ID in r.value && r.value[SOURCE_FILE_ID] == FileId(fileId)
  {
    if !IsValid(spec, record, fileId) then None
    else
      var row := Attached(record, fileId);
      Some(map c | c in row :: JsonValue(env, row[c]))
  }

  /** A row is accepted exactly if it has a sheet that is not blank and a positive row number, only known columns
      beside a source id, and every required column; sourceFileId counts as given. */
  lemma NormalizedIff(env: Environment, spec: Spec, record: Row, fileId: nat)
    ensures Normalized(env, spec, record, fileId).Some? <==>
      && "sourceSheet" in record && record["sourceSheet"].Text? && Strip(record["sourceSheet"].text) != ""
      && "sourceRow" in record && record["sourceRow"].Number? && record["sourceRow"].n > 0
      && "sourceFileId" in spec.allowed && (forall c <- record :: c == "sourceId" || c in spec.allowed)
      && (forall c <- spec.required ::
            c == "sourceFileId" || (c != "sourceId" && c in record && record[c] != Null))
  {
    hide Strip;
    if HasPosition(record) {
      var row := Attached(record, fileId);
      assert "sourceFileId" in row;
      forall c ensures c in row <==> c == "sourceFileId" || (c in record && c != "sourceId") {}
      forall c | c in row && c != "sourceFileId" && c != "sourceSheet" ensures row[c] == record[c] {}
    }
  }

  /** It keeps its values, with a stripped sheet, JSON as text, and the file's own id for any it names. */
  lemma NormalizedIs(env: Environment, spec: Spec, record: Row, fileId: nat, c: string)
    requires Normalized(env, spec, record, fileId).Some?
    ensures var row := Normalized(env, spec, record, fileId).value;
            && (c in row <==> c == "sourceFileId" || (c in record && c != "sourceId"))
            && (c in row ==>
                  row[c] == if c == "sourceFileId" then FileId(fileId)
                            else if c == "sourceSheet" then Text(Strip(record[c].text))
                            else match record[c] case Json(tree) => Text(env.dump(tree)) case value => value)
  {
    hide Strip;
  }

  // ---- The upsert ----

  /** A query built by build_upsert_query. */
  datatype Query = Query(columns: set<string>, conflict: seq<string>, updates: set<string>)

  /** Conflict columns and the id are never overwritten. */
  predicate Updatable(spec: Spec, column: string) {
    column !in spec.conflict && column != ID
  }

  function BuildUpsertQuery(spec: Spec, columns: set<string>): (q: Option<Query>)
    ensures q.Some? <==> columns != {} && columns <= spec.allowed
    ensures q.Some? ==> q.value.columns == columns && q.value.conflict == spec.conflict
    ensures q.Some? ==> forall c :: c in q.value.updates <==> c in columns && Updatable(spec, c)
  {
    if columns == {} || !(columns <= spec.allowed) then None
    else Some(Query(columns, spec.conflict, set c | c in columns && c !in spec.conflict && c != ID))
  }

  function At(row: Row, column: string): Value {
    if column in row then row[column] else Null
  }

  function KeyOf(conflict: seq<string>, row: Row): (k: Key)
    ensures |k| == |conflict|
  {
    seq(|conflict|, i requires 0 <= i < |conflict| => At(row, conflict[i]))
  }

  predicate IdTaken(table: Table, id: Value) {
    exists k :: k in table && At(table[k], ID) == id
  }

  /** INSERT ... ON CONFLICT (conflict) DO UPDATE SET ..., or DO NOTHING without updates. Only the conflict
      columns arbitrate: an id that another row has is an error. A row without id gets `newId`. */
  function Execute(env: Environment, q: Query, row: Row, newId: Value, table: Table): Option<Table> {
    var k := KeyOf(q.conflict, row);
    if (ID in row && row[ID] == Null) || !env.accepts(row) then None
    else if k in table then Some(table[k := table[k] + map c | c in row && c in q.updates :: row[c]])
    else
      var id := if ID in row then row[ID] else newId;
      if IdTaken(table, id) then None else Some(table[k := row[ID := id]])
  }

  function Upserted(env: Environment, spec: Spec, row: Row, newId: Value, table: Table): Option<Table> {
    match BuildUpsertQuery(spec, row.Keys)
    case None => None
    case Some(q) => Execute(env, q, row, newId, table)
  }

  /** Generated ids, one per position in a section. */
  type NewIds = nat -> Value

  /** The upserts of a section, one after the other. */
  function Folded(env: Environment, spec: Spec, rows: seq<Row>, ids: NewIds, table: Table): Option<Table> {
    if rows == [] then Some(table)
    else
      var n := |rows| - 1;
      match Folded(env, spec, rows[..n], ids, table)
      case None => None
      case Some(before) => Upserted(env, spec, rows[n], ids(n), before)
  }

  // ---- The last writer ----

  /** The value the last row with key k that sets column c gives it. */
  function LastSet(spec: Spec, rows: seq<Row>, k: Key, c: string): Option<Value> {
    if rows == [] then None
    else
      var row := rows[|rows| - 1];
      if KeyOf(spec.conflict, row) == k && c in row then Some(row[c]) else LastSet(spec, rows[..|rows| - 1], k, c)
  }

  predicate SameColumn(a: Row, b: Row, c: string) {
    (c in a <==> c in b) && (c in a ==> a[c] == b[c])
  }

  /** Column c of row k after some upserts. */
  predicate ColumnIs(spec: Spec, table: Table, rows: seq<Row>, after: Table, k: Key, c: string) {
    k in after &&
    if Updatable(spec, c) && LastSet(spec, rows, k, c).Some? then c in after[k] && after[k][c] == LastSet(spec, rows, k, c).value
    else if k in table then SameColumn(table[k], after[k], c)
    else Updatable(spec, c) ==> c !in after[k]
  }

  lemma UpsertedColumn(env: Environment, spec: Spec, row: Row, newId: Value, table: Table, k: Key, c: string)
    requires Upserted(env, spec, row, newId, table).Some? && k in Upserted(env, spec, row, newId, table).value
    ensures var after := Upserted(env, spec, row, newId, table).value;
            if Updatable(spec, c) && KeyOf(spec.conflict, row) == k && c in row then c in after[k] && after[k][c] == row[c]
            else if k in table then SameColumn(table[k], after[k], c)
            else Updatable(spec, c) ==> c !in after[k]
    ensures k in table || k == KeyOf(spec.conflict, row)
  {
  }

  /** Every key of the rows ends up in the table, and none disappears. */
  lemma {:induction false} FoldedKeys(env: Environment, spec: Spec, rows: seq<Row>, ids: NewIds, table: Table)
    requires Folded(env, spec, rows, ids, table).Some?
    ensures table.Keys <= Folded(env, spec, rows, ids, table).value.Keys
    ensures forall i :: 0 <= i < |rows| ==> KeyOf(spec.conflict, rows[i]) in Folded(env, spec, rows, ids, table).value
  {
    if rows != [] {
      hide Upserted;
      var n := |rows| - 1;
      FoldedKeys(env, spec, rows[..n], ids, table);
      forall i | 0 <= i < n ensures rows[..n][i] == rows[i] {}
    }
  }

  /** Each column has the value of the last row that sets it; ids and conflict columns keep theirs, and a column
      of a new key that no row sets stays unset. */
  lemma {:induction false} LastWriterWins(env: Environment, spec: Spec, rows: seq<Row>, ids: NewIds, table: Table,
                                          k: Key, c: string)
    requires Folded(env, spec, rows, ids, table).Some? && k in Folded(env, spec, rows, ids, table).value
    requires k in table || Updatable(spec, c)
    ensures ColumnIs(spec, table, rows, Folded(env, spec, rows, ids, table).value, k, c)
  {
    if rows != [] {
      hide Upserted;
      var n := |rows| - 1;
      var before := Folded(env, spec, rows[..n], ids, table).value;
      UpsertedColumn(env, spec, rows[n], ids(n), before, k, c);
      if k in before { LastWriterWins(env, spec, rows[..n], ids, table, k, c); } else {
        NoRowsFor(env, spec, rows[..n], ids, table, k, c);
        FoldedKeys(env, spec, rows[..n], ids, table);
      }
    }
  }

  lemma NoRowsFor(env: Environment, spec: Spec, rows: seq<Row>, ids: NewIds, table: Table, k: Key, c: string)
    requires Folded(env, spec, rows, ids, table).Some? && k !in Folded(env, spec, rows, ids, table).value
    ensures LastSet(spec, rows, k, c).None?
  {
    FoldedKeys(env, spec, rows, ids, table);
    NeverSet(spec, rows, k, c);
  }

  lemma {:induction false} NeverSet(spec: Spec, rows: seq<Row>, k: Key, c: string)
    requires forall i :: 0 <= i < |rows| ==> KeyOf(spec.conflict, rows[i]) != k
    ensures LastSet(spec, rows, k, c).None?
  {
    if rows != [] {
      forall i | 0 <= i < |rows| - 1 ensures rows[..|rows| - 1][i] == rows[i] {}
      NeverSet(spec, rows[..|rows| - 1], k, c);
    }
  }

  /** An upsert fails exactly if the row has no or an unknown column or the id null, the database refuses it, or it
      would insert an id that another row has. */
  lemma UpsertsIff(env: Environment, spec: Spec, row: Row, newId: Value, table: Table)
    ensures Upserted(env, spec, row, newId, table).Some? <==>
      && row != map[] && (forall c <- row :: c in spec.allowed)
      && ("id" in row ==> row["id"] != Null) && env.accepts(row)
      && (KeyOf(spec.conflict, row) in table
          || forall k <- table :: At(table[k], "id") != if "id" in row then row["id"] else newId)
  {
    assert row != map[] <==> row.Keys != {} by {
      if row.Keys == {} { assert row == map[]; }
    }
  }

  /** No two rows have the same id. */
  predicate DistinctIds(table: Table) {
    forall j, k :: j in table && k in table && j != k ==> At(table[j], "id") != At(table[k], "id")
  }

  lemma UpsertKeepsIds(env: Environment, spec: Spec, row: Row, newId: Value, table: Table)
    requires Upserted(env, spec, row, newId, table).Some? && DistinctIds(table)
    ensures DistinctIds(Upserted(env, spec, row, newId, table).value)
  {
    var after := Upserted(env, spec, row, newId, table).value;
    forall k | k in table ensures k in after && At(after[k], "id") == At(table[k], "id") {
      UpsertedColumn(env, spec, row, newId, table, k, "id");
    }
  }

  /** However ids are given or generated, a seeding never leaves two rows of a table with one id. */
  lemma {:induction false} IdsStayDistinct(env: Environment, spec: Spec, rows: seq<Row>, ids: NewIds, table: Table)
    requires Folded(env, spec, rows, ids, table).Some? && DistinctIds(table)
    ensures DistinctIds(Folded(env, spec, rows, ids, table).value)
  {
    if rows != [] {
      hide Upserted, DistinctIds;
      var n := |rows| - 1;
      IdsStayDistinct(env, spec, rows[..n], ids, table);
      UpsertKeepsIds(env, spec, rows[n], ids(n), Folded(env, spec, rows[..n], ids, table).value);
    }
  }

  // ---- The first writer ----

  /** The first row with key k. */
  predicate IsFirst(spec: Spec, rows: seq<Row>, k: Key, f: nat) {
    && f < |rows| && KeyOf(spec.conflict, rows[f]) == k
    && forall j :: 0 <= j < f ==> KeyOf(spec.conflict, rows[j]) != k
  }

  /** The row an insert writes. */
  function WithId(row: Row, newId: Value): Row {
    row[ID := if ID in row then row[ID] else newId]
  }

  /** Only the keys of the rows are added. */
  lemma {:induction false} NoOtherKeys(env: Environment, spec: Spec, rows: seq<Row>, ids: NewIds, table: Table, k: Key)
    requires Folded(env, spec, rows, ids, table).Some? && k !in table
    requires forall i :: 0 <= i < |rows| ==> KeyOf(spec.conflict, rows[i]) != k
    ensures k !in Folded(env, spec, rows, ids, table).value
  {
    if rows != [] {
      var n := |rows| - 1;
      forall i | 0 <= i < n ensures KeyOf(spec.conflict, rows[..n][i]) != k { assert rows[..n][i] == rows[i]; }
      NoOtherKeys(env, spec, rows[..n], ids, table, k);
    }
  }

  lemma UpsertedNew(env: Environment, spec: Spec, row: Row, newId: Value, table: Table, k: Key)
    requires Upserted(env, spec, row, newId, table).Some? && KeyOf(spec.conflict, row) == k && k !in table
    ensures k in Upserted(env, spec, row, newId, table).value
    ensures Upserted(env, spec, row, newId, table).value[k] == WithId(row, newId)
  {
  }

  /** A new key has the id and the conflict columns of the first row with it, and the generated id of that
      row if the row has none: later rows never change them. */
  lemma {:induction false} FirstWriterStays(env: Environment, spec: Spec, rows: seq<Row>, ids: NewIds, table: Table,
                                            k: Key, c: string, f: nat)
    requires Folded(env, spec, rows, ids, table).Some? && k !in table && IsFirst(spec, rows, k, f)
    requires !Updatable(spec, c)
    ensures k in Folded(env, spec, rows, ids, table).value
    ensures SameColumn(Folded(env, spec, rows, ids, table).value[k], WithId(rows[f], ids(f)), c)
  {
    hide Upserted;
    var n := |rows| - 1;
    var before := Folded(env, spec, rows[..n], ids, table).value;
    if f < n {
      FirstWriterStays(env, spec, rows[..n], ids, table, k, c, f);
      FoldedKeys(env, spec, rows, ids, table);
      UpsertedColumn(env, spec, rows[n], ids(n), before, k, c);
    } else {
      forall i | 0 <= i < n ensures KeyOf(spec.conflict, rows[..n][i]) != k { assert rows[..n][i] == rows[i]; }
      NoOtherKeys(env, spec, rows[..n], ids, table, k);
      UpsertedNew(env, spec, rows[n], ids(n), before, k);
    }
  }

  // ---- Seeding a table twice ----

  /** What a row itself must satisfy to be written. */
  predicate Writable(env: Environment, spec: Spec, row: Row) {
    BuildUpsertQuery(spec, row.Keys).Some? && !(ID in row && row[ID] == Null) && env.accepts(row)
  }

  lemma {:induction false} FoldedRowsWritable(env: Environment, spec: Spec, rows: seq<Row>, ids: NewIds, table: Table,
                                              i: nat)
    requires Folded(env, spec, rows, ids, table).Some? && i < |rows|
    ensures Writable(env, spec, rows[i])
  {
    var n := |rows| - 1;
    if i < n {
      assert rows[..n][i] == rows[i];
      FoldedRowsWritable(env, spec, rows[..n], ids, table, i);
    }
  }

  /** On the seeded table every row finds its key: nothing is inserted and nothing fails. */
  lemma {:induction false} RefoldOnlyUpdates(env: Environment, spec: Spec, rows: seq<Row>, ids: NewIds, table: Table,
                                             n: nat)
    requires n <= |rows|
    requires forall i :: 0 <= i < |rows| ==> Writable(env, spec, rows[i]) && KeyOf(spec.conflict, rows[i]) in table
    ensures Folded(env, spec, rows[..n], ids, table).Some?
    ensures Folded(env, spec, rows[..n], ids, table).value.Keys == table.Keys
  {
    if n > 0 {
      hide Upserted, Writable;
      RefoldOnlyUpdates(env, spec, rows, ids, table, n - 1);
      assert rows[..n][..n - 1] == rows[..n - 1] && rows[..n][n - 1] == rows[n - 1];
    }
  }

  lemma SameTable(a: Table, b: Table)
    requires a.Keys == b.Keys && forall k, c: string :: k in a ==> SameColumn(a[k], b[k], c)
    ensures a == b
  {
    forall k | k in a ensures a[k] == b[k] {
      forall c: string ensures c in a[k] <==> c in b[k] {
        assert SameColumn(a[k], b[k], c);
      }
      forall c | c in a[k] ensures a[k][c] == b[k][c] {
        assert SameColumn(a[k], b[k], c);
      }
    }
  }

  /** Repeating the upserts of a section changes nothing, even with repeated conflict keys and different
      column sets, and whatever ids would be generated. */
  lemma TableSeededTwice(env: Environment, spec: Spec, rows: seq<Row>, ids: NewIds, ids': NewIds, table: Table)
    requires Folded(env, spec, rows, ids, table).Some?
    ensures Folded(env, spec, rows, ids', Folded(env, spec, rows, ids, table).value) == Folded(env, spec, rows, ids, table)
  {
    hide Upserted, Writable, Folded;
    var once := Folded(env, spec, rows, ids, table).value;
    forall i | 0 <= i < |rows| ensures Writable(env, spec, rows[i]) && KeyOf(spec.conflict, rows[i]) in once {
      FoldedRowsWritable(env, spec, rows, ids, table, i);
      FoldedKeys(env, spec, rows, ids, table);
    }
    RefoldOnlyUpdates(env, spec, rows, ids', once, |rows|);
    assert rows[..|rows|] == rows;
    var twice := Folded(env, spec, rows, ids', once).value;
    forall k, c: string | k in twice ensures SameColumn(twice[k], once[k], c) {
      ColumnSeededTwice(env, spec, rows, ids, ids', table, k, c);
    }
    SameTable(twice, once);
  }

  lemma ColumnSeededTwice(env: Environment, spec: Spec, rows: seq<Row>, ids: NewIds, ids': NewIds, table: Table,
                          k: Key, c: string)
    requires Folded(env, spec, rows, ids, table).Some?
    requires var once := Folded(env, spec, rows, ids, table).value;
             k in once && Folded(env, spec, rows, ids', once).Some? && k in Folded(env, spec, rows, ids', once).value
    ensures var once := Folded(env, spec, rows, ids, table).value;
            SameColumn(Folded(env, spec, rows, ids', once).value[k], once[k], c)
  {
    hide Folded;
    var once := Folded(env, spec, rows, ids, table).value;
    LastWriterWins(env, spec, rows, ids', once, k, c);
    if Updatable(spec, c) { LastWriterWins(env, spec, rows, ids, table, k, c); }
  }
}

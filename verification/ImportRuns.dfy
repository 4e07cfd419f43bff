/** Persisting, deciding and applying proposals as interleaved steps
    (app/api/routes/business_imports.py and app/services/business_import_application.py).

    Every statement of an apply transaction is one step; other requests run between them. A statement
    sees the committed rows and its own transaction's writes; rows locked by an apply are not written by
    others until it ends. */
module ImportRuns {
  import opened ImportValidation
  import opened ImportRecords
  import opened Wrappers

  datatype Phase =
    | Locked                        // the job row is locked, its status was checked
    | Inserting                     // the approved proposals are locked
    | Counted                       // remaining proposals were counted

  /** The uncommitted writes of one apply; `status` is the one it has written to its job row, if any. */
  datatype Tx = Tx(
    phase: Phase, status: Option<JobStatus>, proposals: seq<ProposalId>, next: nat, records: seq<Record>,
    facts: seq<Fact>)
  {
    function Applied(): seq<ProposalId> {
      if next <= |proposals| then proposals[..next] else proposals
    }
  }

  const Begun: Tx := Tx(Locked, None, [], 0, [], [])

  /** The approved proposals are locked and the job is marked as applying. */
  function Started(ids: seq<ProposalId>): Tx { Tx(Inserting, Some(Applying), ids, 0, [], []) }

  datatype State = State(db: Db, open: map<JobId, Tx>)

  datatype Step =
    | CreateJob(job: JobId, workspace: WorkspaceId, origin: Origin)
    | Persist(job: JobId, candidates: seq<(Proposal, bool)>)   // the flag says out_of_scope
    | MarkFailed(job: JobId, schemaReview: bool)
    | Decide(job: JobId, workspace: WorkspaceId, proposal: ProposalId, approve: bool)
    | Begin(job: JobId, workspace: WorkspaceId)
    | Collect(job: JobId)
    | ApplyNext(job: JobId)
    | Count(job: JobId)
    | Commit(job: JobId)
    | Abort(job: JobId)              // any failing statement, or a cancelled request

  // ---- Committed writes ----

  function SetStatus(db: Db, job: JobId, status: JobStatus): Db
    requires job in db.jobs
  {
    db.(jobs := db.jobs[job := db.jobs[job].(status := status)])
  }

  function NewRows(job: JobId, candidates: seq<(Proposal, bool)>): (rows: seq<ProposalRow>)
    ensures |rows| == |candidates|
    ensures forall i :: 0 <= i < |rows| ==> rows[i] == NewRow(job, candidates[i])
  {
    seq(|candidates|, i requires 0 <= i < |candidates| => NewRow(job, candidates[i]))
  }

  function NewRow(job: JobId, candidate: (Proposal, bool)): ProposalRow {
    ProposalRow(job, if candidate.1 then NeedsSchemaReview else Pending, candidate.0)
  }

  function Decided(rows: seq<ProposalRow>, id: ProposalId, approve: bool): seq<ProposalRow>
    requires id < |rows|
  {
    rows[id := rows[id].(status := if approve then Approved else Rejected)]
  }

  function MarkApplied(rows: seq<ProposalRow>, ids: seq<ProposalId>): (marked: seq<ProposalRow>)
    ensures |marked| == |rows|
    ensures forall i :: 0 <= i < |rows| ==> marked[i] == if i in ids then rows[i].(status := Applied) else rows[i]
  {
    seq(|rows|, i requires 0 <= i < |rows| => if i in ids then rows[i].(status := Applied) else rows[i])
  }

  function Committed(db: Db, job: JobId, tx: Tx): Db
    requires job in db.jobs
  {
    Db(if tx.status.Some? then db.jobs[job := db.jobs[job].(status := tx.status.value)] else db.jobs,
       MarkApplied(db.proposals, tx.Applied()), db.records + tx.records, db.facts + tx.facts)
  }

  // ---- The apply transaction ----

  /** The ids of the job's approved proposals, in order. */
  function ApprovedOf(rows: seq<ProposalRow>, job: JobId): seq<ProposalId> {
    if rows == [] then []
    else
      var n := |rows| - 1;
      ApprovedOf(rows[..n], job) + if rows[n].job == job && rows[n].status.Approved? then [n] else []
  }

  /** PENDING_PROPOSAL_COUNT_QUERY finds a row: the transaction's own applied rows no longer count. */
  predicate Remaining(rows: seq<ProposalRow>, job: JobId, applied: seq<ProposalId>) {
    exists i :: 0 <= i < |rows| && rows[i].job == job && rows[i].status.Open() && i !in applied
  }

  predicate Known(db: Db, ids: seq<ProposalId>) {
    forall k :: 0 <= k < |ids| ==> ids[k] < |db.proposals|
  }

  /** The records of some proposals of a job, one proposal after the other. */
  ghost function AppliedRecords(env: Environment, db: Db, job: JobId, ids: seq<ProposalId>): seq<Record>
    requires job in db.jobs && Known(db, ids)
  {
    if ids == [] then []
    else
      var id := ids[|ids| - 1];
      AppliedRecords(env, db, job, ids[..|ids| - 1])
      + AddedRecords(env, id, db.jobs[job].workspace, db.proposals[id].content)
  }

  ghost function AppliedFacts(db: Db, ids: seq<ProposalId>): seq<Fact>
    requires Known(db, ids)
  {
    if ids == [] then []
    else
      var id := ids[|ids| - 1];
      AppliedFacts(db, ids[..|ids| - 1]) + AddedFacts(id, db.proposals[id].content)
  }

  ghost function Inserted(env: Environment, db: Db, job: JobId, tx: Tx): Tx
    requires tx.next < |tx.proposals| && tx.proposals[tx.next] < |db.proposals| && job in db.jobs
  {
    var id := tx.proposals[tx.next];
    var content := db.proposals[id].content;
    tx.(next := tx.next + 1,
        records := tx.records + AddedRecords(env, id, db.jobs[job].workspace, content),
        facts := tx.facts + AddedFacts(id, content))
  }

  ghost function ApplyStep(env: Environment, st: State, job: JobId, tx: Tx): State {
    var db := st.db;
    if !tx.phase.Inserting? || tx.next >= |tx.proposals| || job !in db.jobs || tx.proposals[tx.next] >= |db.proposals| then st
    else if !CanApply(env, db.jobs[job], db.records + tx.records, db.proposals[tx.proposals[tx.next]].content) then
      st.(open := st.open - {job})
    else st.(open := st.open[job := Inserted(env, db, job, tx)])
  }

  ghost function TxStep(env: Environment, st: State, job: JobId, tx: Tx, step: Step): State
    requires step.Collect? || step.ApplyNext? || step.Count? || step.Commit? || step.Abort?
  {
    match step
    case Collect(_) =>
      if !tx.phase.Locked? then st
      else if ApprovedOf(st.db.proposals, job) == [] then st.(open := st.open - {job})
      else st.(open := st.open[job := Started(ApprovedOf(st.db.proposals, job))])
    case ApplyNext(_) => ApplyStep(env, st, job, tx)
    case Count(_) =>
      if !tx.phase.Inserting? || tx.next < |tx.proposals| then st
      else st.(open := st.open[job := tx.(phase := Counted, status := Some(
        if Remaining(st.db.proposals, job, tx.Applied()) then AwaitingReview else Completed))])
    case Commit(_) =>
      if !tx.phase.Counted? || job !in st.db.jobs then st
      else State(Committed(st.db, job, tx), st.open - {job})
    case Abort(_) => st.(open := st.open - {job})
  }

  ghost function Next(env: Environment, st: State, step: Step): State {
    var db := st.db;
    match step
    case CreateJob(job, workspace, origin) =>
      if job in db.jobs then st
      else st.(db := db.(jobs := db.jobs[job := Job(workspace, origin, Analyzing)]))
    case Persist(job, candidates) =>
      if job !in db.jobs || job in st.open then st
      else st.(db := SetStatus(db, job, AwaitingReview).(proposals := db.proposals + NewRows(job, candidates)))
    case MarkFailed(job, schemaReview) =>
      if job !in db.jobs || job in st.open then st
      else st.(db := SetStatus(db, job, if schemaReview then SchemaReview else Failed))
    case Decide(job, workspace, id, approve) =>
      if id >= |db.proposals| || db.proposals[id].job != job || job !in db.jobs || db.jobs[job].workspace != workspace
         || !db.proposals[id].status.Pending? then st
      else st.(db := db.(proposals := Decided(db.proposals, id, approve)))
    case Begin(job, workspace) =>
      if job !in db.jobs || job in st.open || db.jobs[job].workspace != workspace
         || !(db.jobs[job].status.AwaitingReview? || db.jobs[job].status.Completed?) then st
      else st.(open := st.open[job := Begun])
    case _ =>
      if step.job !in st.open then st else TxStep(env, st, step.job, st.open[step.job], step)
  }

  ghost function Run(env: Environment, st: State, steps: seq<Step>): State
    decreases steps
  {
    if steps == [] then st else Run(env, Next(env, st, steps[0]), steps[1..])
  }
}

/** apply_approved_import_job of app/services/business_import_application.py on mutable tables: the rows
    are updated in place, and any error rolls every one of them back. */
module ImportDatabase {
  import opened ImportValidation
  import opened ImportRecords
  import opened ImportRuns
  import opened Sequences
  import opened Wrappers
  import Plan = ImportPlan
  import Application = ImportApplication
  import Atomicity = ImportAtomicity

  // ---- What an undisturbed apply does ----

  predicate Valid(db: Db, job: JobId, ids: seq<ProposalId>) {
    job in db.jobs && forall k :: 0 <= k < |ids| ==> ids[k] < |db.proposals|
  }

  /** The transaction after its first n inserts. */
  ghost function InsertedUpTo(env: Environment, db: Db, job: JobId, ids: seq<ProposalId>, n: nat): (tx: Tx)
    requires Valid(db, job, ids) && n <= |ids|
    ensures tx.phase.Inserting? && tx.proposals == ids && tx.next == n
  {
    if n == 0 then Started(ids) else Inserted(env, db, job, InsertedUpTo(env, db, job, ids, n - 1))
  }

  /** The first n proposals can be applied, each after the ones before it. */
  ghost predicate CanApplyUpTo(env: Environment, db: Db, job: JobId, ids: seq<ProposalId>, n: nat)
    requires Valid(db, job, ids) && n <= |ids|
  {
    n == 0 ||
    (CanApplyUpTo(env, db, job, ids, n - 1)
     && CanApply(env, db.jobs[job], db.records + InsertedUpTo(env, db, job, ids, n - 1).records,
                 db.proposals[ids[n - 1]].content))
  }

  ghost predicate Begins(db: Db, job: JobId, workspace: WorkspaceId) {
    && job in db.jobs && db.jobs[job].workspace == workspace
    && (db.jobs[job].status.AwaitingReview? || db.jobs[job].status.Completed?)
  }

  lemma ApprovedAreValid(db: Db, job: JobId)
    requires job in db.jobs
    ensures Valid(db, job, ApprovedOf(db.proposals, job))
  {
    ApprovedBound(db.proposals, job);
  }

  lemma {:induction false} ApprovedBound(rows: seq<ProposalRow>, job: JobId)
    ensures forall k :: 0 <= k < |ApprovedOf(rows, job)| ==> ApprovedOf(rows, job)[k] < |rows|
  {
    if rows != [] { ApprovedBound(rows[..|rows| - 1], job); }
  }

  /** The apply succeeds. */
  ghost predicate Applicable(env: Environment, db: Db, job: JobId, workspace: WorkspaceId) {
    && Begins(db, job, workspace)
    && var ids := ApprovedOf(db.proposals, job);
       ids != [] && (ApprovedAreValid(db, job); CanApplyUpTo(env, db, job, ids, |ids|))
  }

  ghost function Finished(env: Environment, db: Db, job: JobId): Tx
    requires job in db.jobs
  {
    var ids := ApprovedOf(db.proposals, job);
    ApprovedAreValid(db, job);
    InsertedUpTo(env, db, job, ids, |ids|).(phase := Counted, status := Some(
      if Remaining(db.proposals, job, ids) then AwaitingReview else Completed))
  }

  // ---- The tables ----

  class ImportDatabase {
    var jobs: map<JobId, Job>
    var proposals: seq<ProposalRow>
    var records: seq<Record>
    var facts: seq<Fact>
    const env: Environment

    constructor (env: Environment, db: Db)
      ensures this.env == env && Contents() == db
    {
      this.env := env;
      jobs, proposals, records, facts := db.jobs, db.proposals, db.records, db.facts;
    }

    function Contents(): Db
      reads this
    {
      Db(jobs, proposals, records, facts)
    }

    /** ROLLBACK. */
    method Restore(db: Db)
      modifies this
      ensures Contents() == db
    {
      jobs, proposals, records, facts := db.jobs, db.proposals, db.records, db.facts;
    }

    /** Applies every approved proposal of the job or none; nothing else changes. */
    method ApplyApprovedImportJob(id: JobId, workspace: WorkspaceId) returns (r: Result<seq<ProposalId>, ApplyError>)
      modifies this
      ensures r.Ok? <==> Applicable(env, old(Contents()), id, workspace)
      ensures r.Err? ==> Contents() == old(Contents())
      ensures r.Ok? ==> r.value == ApprovedOf(old(proposals), id)
      ensures r.Ok? ==> Contents() == Committed(old(Contents()), id, Finished(env, old(Contents()), id))
      ensures r.Ok? ==> id in jobs
      ensures r.Ok? ==> jobs[id].status == if Atomicity.Unsettled(proposals, id, []) then AwaitingReview else Completed
      ensures r == Err(NotFound) <==> id !in old(jobs) || old(jobs)[id].workspace != workspace
      ensures r == Err(NotReady) <==>
        id in old(jobs) && old(jobs)[id].workspace == workspace && old(jobs)[id].status !in {AwaitingReview, Completed}
      ensures r == Err(NothingApproved) <==>
        && id in old(jobs) && old(jobs)[id].workspace == workspace && old(jobs)[id].status in {AwaitingReview, Completed}
        && ApprovedOf(old(proposals), id) == []
      ensures r.Err? && r.error !in {NotFound, NotReady, NothingApproved} ==>
        RefusedWith(env, old(Contents()), id, ApprovedOf(old(proposals), id), r.error)
    {
      hide CanApplyUpTo, InsertedUpTo, ApprovedOf, Remaining, MarkApplied;
      var before := Contents();
      if id !in jobs || jobs[id].workspace != workspace { return Err(NotFound); }
      var job := jobs[id];
      if !job.status.AwaitingReview? && !job.status.Completed? { return Err(NotReady); }
      var ids := ApprovedOf(proposals, id);
      if ids == [] { return Err(NothingApproved); }
      ApprovedAreValid(before, id);
      jobs := jobs[id := job.(status := Applying)];
      var error := InsertApproved(before, id, ids);
      if error.Some? {
        Restore(before);
        return Err(error.value);
      }
      RemainingAfter(before.proposals, proposals, id, ids);
      Atomicity.RemainingIff(proposals, id, []);
      var remaining := Remaining(proposals, id, []);
      jobs := jobs[id := jobs[id].(status := if remaining then AwaitingReview else Completed)];
      return Ok(ids);
    }

    /** The loop over the approved proposals. */
    method InsertApproved(before: Db, id: JobId, ids: seq<ProposalId>) returns (error: Option<ApplyError>)
      requires Valid(before, id, ids)
      requires proposals == before.proposals && records == before.records && facts == before.facts
      modifies this`proposals, this`records, this`facts
      ensures error.None? <==> CanApplyUpTo(env, before, id, ids, |ids|)
      ensures error.None? ==> Applied(before, id, ids, |ids|)
      ensures error.Some? ==> RefusedWith(env, before, id, ids, error.value)
      ensures error.Some? ==> error.value !in {NotFound, NotReady, NothingApproved}
    {
      hide RefusedAt, CanApply, AddedRecords, AddedFacts, InScope, MarkApplied;
      hide Plan.Plannable, HasKey, NameTaken, InsertedUpTo, Plan.Covered, ProductName;
      var job := before.jobs[id];
      NothingApplied(before, id, ids);
      for n := 0 to |ids|
        invariant Applied(before, id, ids, n) && CanApplyUpTo(env, before, id, ids, n)
      {
        var content := before.proposals[ids[n]].content;
        var failed := ScopeFails(content, job.origin);
        if failed {
          OutOfScopeFails(env, job, records, content);
          FailsAt(env, before, id, ids, n);
          RefusedScope(env, before, id, ids, n);
          return Some(OutOfScope);
        }
        var result := Application.ApplyProductProposal(env, ids[n], job, content, Application.Writes(records, facts));
        if result.Err? {
          FailsAt(env, before, id, ids, n);
          Refused(env, before, id, ids, n, records, result.error);
          return Some(result.error);
        }
        AppliesNext(env, before, id, ids, n, proposals, records, facts);
        records, facts := result.value.records, result.value.facts;
        proposals := proposals[ids[n] := proposals[ids[n]].(status := ProposalStatus.Applied)];
      }
      return None;
    }

    /** The first n of the approved proposals are in the tables. */
    ghost predicate Applied(before: Db, id: JobId, ids: seq<ProposalId>, n: nat)
      requires Valid(before, id, ids) && n <= |ids|
      reads this
    {
      IsApplied(env, before, id, ids, n, proposals, records, facts)
    }

    lemma NothingApplied(before: Db, id: JobId, ids: seq<ProposalId>)
      requires Valid(before, id, ids)
      requires proposals == before.proposals && records == before.records && facts == before.facts
      ensures Applied(before, id, ids, 0)
    {
      assert MarkApplied(before.proposals, ids[..0]) == before.proposals;
    }
  }

  ghost predicate IsApplied(env: Environment, before: Db, id: JobId, ids: seq<ProposalId>, n: nat,
                            proposals: seq<ProposalRow>, records: seq<Record>, facts: seq<Fact>)
    requires Valid(before, id, ids) && n <= |ids|
  {
    && proposals == MarkApplied(before.proposals, ids[..n])
    && records == before.records + InsertedUpTo(env, before, id, ids, n).records
    && facts == before.facts + InsertedUpTo(env, before, id, ids, n).facts
  }

  /** The n-th proposal is the first that cannot be applied, for this reason. */
  ghost predicate RefusedAt(env: Environment, db: Db, job: JobId, ids: seq<ProposalId>, n: nat, error: ApplyError)
    requires Valid(db, job, ids) && n < |ids|
  {
    var p, records := db.proposals[ids[n]].content, db.records + InsertedUpTo(env, db, job, ids, n).records;
    && CanApplyUpTo(env, db, job, ids, n) && !CanApply(env, db.jobs[job], records, p)
    && (error == OutOfScope <==> !InScope(p, db.jobs[job].origin))
    && (error != OutOfScope ==> ErrorFits(env, db.jobs[job], records, p, error))
  }

  predicate ErrorFits(env: Environment, job: Job, records: seq<Record>, p: Proposal, error: ApplyError) {
    && (error == InvalidProposal || error == Crash || error == Conflict)
    && (error == InvalidProposal <==> !Plan.Plannable(p) && !Plan.EmptyOperation(p))
    && (error == Conflict <==>
          && Plan.Plannable(p) && HasKey(p.product, Plan.PRODUCT_NAME)
          && NameTaken(env, records, job.workspace, ProductName(env, p.product)))
  }

  ghost predicate RefusedWith(env: Environment, db: Db, job: JobId, ids: seq<ProposalId>, error: ApplyError) {
    Valid(db, job, ids) && exists n: nat :: n < |ids| && RefusedAt(env, db, job, ids, n, error)
  }

  lemma RefusedScope(env: Environment, db: Db, job: JobId, ids: seq<ProposalId>, n: nat)
    requires Valid(db, job, ids) && n < |ids| && CanApplyUpTo(env, db, job, ids, n)
    requires !InScope(db.proposals[ids[n]].content, db.jobs[job].origin)
    ensures RefusedAt(env, db, job, ids, n, OutOfScope)
  {
    hide CanApplyUpTo, InsertedUpTo, InScope, NameTaken, HasKey, Plan.Plannable, ProductName;
  }

  lemma Refused(env: Environment, db: Db, job: JobId, ids: seq<ProposalId>, n: nat, records: seq<Record>,
                error: ApplyError)
    requires Valid(db, job, ids) && n < |ids| && CanApplyUpTo(env, db, job, ids, n)
    requires records == db.records + InsertedUpTo(env, db, job, ids, n).records
    requires !CanApply(env, db.jobs[job], records, db.proposals[ids[n]].content)
    requires InScope(db.proposals[ids[n]].content, db.jobs[job].origin)
    requires ErrorFits(env, db.jobs[job], records, db.proposals[ids[n]].content, error)
    ensures RefusedAt(env, db, job, ids, n, error)
  {
    hide CanApply, CanApplyUpTo, InsertedUpTo, InScope, NameTaken, HasKey, Plan.Plannable, Plan.EmptyOperation, ProductName;
  }

  predicate ReferenceInScope(r: Reference, origin: Origin) {
    r.origin.sourceFileId == origin.sourceFileId && r.origin.parsedDocumentId == origin.parsedDocumentId
  }

  lemma OutOfScopeFails(env: Environment, job: Job, records: seq<Record>, content: Proposal)
    requires !InScope(content, job.origin)
    ensures !CanApply(env, job, records, content)
  {
  }

  /** _assert_proposal_scope. */
  method ScopeFails(content: Proposal, origin: Origin) returns (failed: bool)
    ensures failed <==> !InScope(content, origin)
  {
    failed := exists i :: 0 <= i < |content.references| && !ReferenceInScope(content.references[i], origin);
  }

  lemma FailsAt(env: Environment, db: Db, job: JobId, ids: seq<ProposalId>, n: nat)
    requires Valid(db, job, ids) && n < |ids|
    requires !CanApply(env, db.jobs[job], db.records + InsertedUpTo(env, db, job, ids, n).records, db.proposals[ids[n]].content)
    ensures !CanApplyUpTo(env, db, job, ids, |ids|)
  {
    hide CanApply, InsertedUpTo;
    FailsFrom(env, db, job, ids, n + 1, |ids|);
  }

  lemma {:induction false} FailsFrom(env: Environment, db: Db, job: JobId, ids: seq<ProposalId>, n: nat, m: nat)
    requires Valid(db, job, ids) && n <= m <= |ids| && !CanApplyUpTo(env, db, job, ids, n)
    ensures !CanApplyUpTo(env, db, job, ids, m)
    decreases m
  {
    hide CanApply, InsertedUpTo;
    if n < m { FailsFrom(env, db, job, ids, n, m - 1); }
  }

  lemma AppliesNext(env: Environment, db: Db, job: JobId, ids: seq<ProposalId>, n: nat, proposals: seq<ProposalRow>,
                    records: seq<Record>, facts: seq<Fact>)
    requires Valid(db, job, ids) && n < |ids|
    requires IsApplied(env, db, job, ids, n, proposals, records, facts) && CanApplyUpTo(env, db, job, ids, n)
    requires CanApply(env, db.jobs[job], records, db.proposals[ids[n]].content)
    ensures ids[n] < |proposals| && CanApplyUpTo(env, db, job, ids, n + 1)
    ensures var id, workspace, content := ids[n], db.jobs[job].workspace, db.proposals[ids[n]].content;
            IsApplied(env, db, job, ids, n + 1, proposals[id := proposals[id].(status := ProposalStatus.Applied)],
                      records + AddedRecords(env, id, workspace, content), facts + AddedFacts(id, content))
  {
    hide AddedRecords, AddedFacts, CanApply;
    var id, workspace, content := ids[n], db.jobs[job].workspace, db.proposals[ids[n]].content;
    var tx := InsertedUpTo(env, db, job, ids, n);
    MarkNext(db.proposals, ids, n);
    Assoc(db.records, tx.records, AddedRecords(env, id, workspace, content));
    Assoc(db.facts, tx.facts, AddedFacts(id, content));
  }

  lemma MarkNext(rows: seq<ProposalRow>, ids: seq<ProposalId>, n: nat)
    requires n < |ids| && ids[n] < |rows|
    ensures MarkApplied(rows, ids[..n + 1])
      == MarkApplied(rows, ids[..n])[ids[n] := MarkApplied(rows, ids[..n])[ids[n]].(status := ProposalStatus.Applied)]
  {
    Take(ids, n);
  }

  lemma RemainingAfter(rows: seq<ProposalRow>, marked: seq<ProposalRow>, job: JobId, ids: seq<ProposalId>)
    requires marked == MarkApplied(rows, ids)
    ensures Remaining(marked, job, []) <==> Remaining(rows, job, ids)
  {
    if Remaining(marked, job, []) {
      var i :| 0 <= i < |marked| && marked[i].job == job && marked[i].status.Open();
      assert rows[i].job == job && i !in ids;
    }
    if Remaining(rows, job, ids) {
      var i :| 0 <= i < |rows| && rows[i].job == job && rows[i].status.Open() && i !in ids;
      assert marked[i] == rows[i];
    }
  }

  // ---- An apply as a run ----

  function Repeat(step: Step, n: nat): seq<Step> {
    if n == 0 then [] else [step] + Repeat(step, n - 1)
  }

  /** All statements of one apply of n proposals, with nothing in between. */
  function ApplySteps(job: JobId, workspace: WorkspaceId, n: nat): seq<Step> {
    [Begin(job, workspace), Collect(job)] + Repeat(ApplyNext(job), n) + [Count(job), Commit(job)]
  }

  predicate InTx(step: Step, job: JobId) {
    step.job == job && (step.Collect? || step.ApplyNext? || step.Count? || step.Commit? || step.Abort?)
  }

  lemma {:induction false} NothingRuns(env: Environment, st: State, job: JobId, steps: seq<Step>)
    requires job !in st.open && forall i :: 0 <= i < |steps| ==> InTx(steps[i], job)
    ensures Run(env, st, steps) == st
    decreases steps
  {
    if steps != [] {
      assert InTx(steps[0], job) && Next(env, st, steps[0]) == st;
      forall i | 0 <= i < |steps| - 1 ensures InTx(steps[1..][i], job) { assert steps[1..][i] == steps[i + 1]; }
      NothingRuns(env, st, job, steps[1..]);
    }
  }

  lemma {:induction false} RepeatIs(step: Step, n: nat)
    ensures forall i :: 0 <= i < |Repeat(step, n)| ==> Repeat(step, n)[i] == step
  {
    if n > 0 { RepeatIs(step, n - 1); }
  }

  lemma RunCons(env: Environment, st: State, step: Step, steps: seq<Step>)
    ensures Run(env, st, [step] + steps) == Run(env, Next(env, st, step), steps)
  {
    assert ([step] + steps)[1..] == steps;
  }

  /** The inserts from position k on: all of them, or a rollback. */
  lemma {:induction false} RunInserts(env: Environment, db: Db, job: JobId, ids: seq<ProposalId>, k: nat)
    requires Valid(db, job, ids) && k <= |ids| && CanApplyUpTo(env, db, job, ids, k)
    ensures Run(env, State(db, map[job := InsertedUpTo(env, db, job, ids, k)]), Repeat(ApplyNext(job), |ids| - k)) ==
      if CanApplyUpTo(env, db, job, ids, |ids|) then State(db, map[job := InsertedUpTo(env, db, job, ids, |ids|)])
      else State(db, map[])
    decreases |ids| - k
  {
    hide CanApply, Inserted, Next, CanApplyUpTo, Run, InsertedUpTo;
    if k < |ids| {
      var st := State(db, map[job := InsertedUpTo(env, db, job, ids, k)]);
      var rest := Repeat(ApplyNext(job), |ids| - k - 1);
      RunCons(env, st, ApplyNext(job), rest);
      InsertStep(env, db, job, ids, k);
      if CanApplyUpTo(env, db, job, ids, k + 1) {
        RunInserts(env, db, job, ids, k + 1);
      } else {
        FailsFrom(env, db, job, ids, k + 1, |ids|);
        RepeatIs(ApplyNext(job), |ids| - k - 1);
        NothingRuns(env, State(db, map[]), job, rest);
      }
    } else {
      RunNone(env, State(db, map[job := InsertedUpTo(env, db, job, ids, k)]));
    }
  }

  lemma RunNone(env: Environment, st: State)
    ensures Run(env, st, []) == st
  {
  }

  lemma InsertStep(env: Environment, db: Db, job: JobId, ids: seq<ProposalId>, k: nat)
    requires Valid(db, job, ids) && k < |ids| && CanApplyUpTo(env, db, job, ids, k)
    ensures Next(env, State(db, map[job := InsertedUpTo(env, db, job, ids, k)]), ApplyNext(job)) ==
      State(db, if CanApplyUpTo(env, db, job, ids, k + 1) then map[job := InsertedUpTo(env, db, job, ids, k + 1)] else map[])
  {
    hide CanApply, Inserted;
    var tx := InsertedUpTo(env, db, job, ids, k);
    assert map[job := tx] - {job} == map[];
    assert map[job := tx][job := Inserted(env, db, job, tx)] == map[job := Inserted(env, db, job, tx)];
  }

  lemma FinishSteps(env: Environment, db: Db, job: JobId, ids: seq<ProposalId>)
    requires Valid(db, job, ids) && ids == ApprovedOf(db.proposals, job)
    ensures Run(env, State(db, map[job := InsertedUpTo(env, db, job, ids, |ids|)]), [Count(job), Commit(job)]) ==
      State(Committed(db, job, Finished(env, db, job)), map[])
  {
    hide Inserted, InsertedUpTo, Committed, Finished, Remaining, CanApply, ApprovedOf, Next;
    var st := State(db, map[job := InsertedUpTo(env, db, job, ids, |ids|)]);
    Atomicity.RunTwo(env, st, Count(job), Commit(job));
    CountStep(env, db, job, ids);
    CommitStep(env, db, job, Finished(env, db, job));
  }

  lemma CountStep(env: Environment, db: Db, job: JobId, ids: seq<ProposalId>)
    requires Valid(db, job, ids) && ids == ApprovedOf(db.proposals, job)
    ensures Next(env, State(db, map[job := InsertedUpTo(env, db, job, ids, |ids|)]), Count(job)) ==
      State(db, map[job := Finished(env, db, job)])
    ensures Finished(env, db, job).phase.Counted?
  {
    hide Inserted, InsertedUpTo, Remaining, CanApply, ApprovedOf;
    var tx := InsertedUpTo(env, db, job, ids, |ids|);
    assert tx.Applied() == ids;
    var tx' := Finished(env, db, job);
    assert map[job := tx][job := tx'] == map[job := tx'];
  }

  lemma CommitStep(env: Environment, db: Db, job: JobId, tx: Tx)
    requires job in db.jobs && tx.phase.Counted?
    ensures Next(env, State(db, map[job := tx]), Commit(job)) == State(Committed(db, job, tx), map[])
  {
    hide Committed;
    assert map[job := tx] - {job} == map[];
  }

  lemma StartSteps(env: Environment, db: Db, job: JobId, workspace: WorkspaceId)
    requires Begins(db, job, workspace)
    ensures var ids := ApprovedOf(db.proposals, job);
            Run(env, State(db, map[]), [Begin(job, workspace), Collect(job)]) ==
              State(db, if ids == [] then map[]
                        else map[job := (ApprovedAreValid(db, job); InsertedUpTo(env, db, job, ids, 0))])
  {
    ApprovedAreValid(db, job);
    var st := State(db, map[]);
    Atomicity.RunTwo(env, st, Begin(job, workspace), Collect(job));
    var tx := InsertedUpTo(env, db, job, ApprovedOf(db.proposals, job), 0);
    assert map[][job := Begun] == map[job := Begun];
    assert map[job := Begun][job := tx] == map[job := tx];
    assert map[job := Begun] - {job} == map[];
  }

  lemma AllInTx(job: JobId, n: nat)
    ensures forall i :: 0 <= i < |Repeat(ApplyNext(job), n) + [Count(job), Commit(job)]| ==>
      InTx((Repeat(ApplyNext(job), n) + [Count(job), Commit(job)])[i], job)
  {
    RepeatIs(ApplyNext(job), n);
  }

  lemma NeverBegins(env: Environment, db: Db, job: JobId, workspace: WorkspaceId, steps: seq<Step>)
    requires !Begins(db, job, workspace) && forall i :: 0 <= i < |steps| ==> InTx(steps[i], job)
    ensures Run(env, State(db, map[]), [Begin(job, workspace), Collect(job)] + steps) == State(db, map[])
  {
    var st := State(db, map[]);
    Atomicity.RunSum(env, st, [Begin(job, workspace), Collect(job)], steps);
    Atomicity.RunTwo(env, st, Begin(job, workspace), Collect(job));
    NothingRuns(env, st, job, steps);
  }

  lemma RunsToTheEnd(env: Environment, db: Db, job: JobId, workspace: WorkspaceId)
    requires Begins(db, job, workspace) && ApprovedOf(db.proposals, job) != []
    ensures var ids := ApprovedOf(db.proposals, job);
            Run(env, State(db, map[job := (ApprovedAreValid(db, job); InsertedUpTo(env, db, job, ids, 0))]),
                Repeat(ApplyNext(job), |ids|) + [Count(job), Commit(job)]) ==
              if CanApplyUpTo(env, db, job, ids, |ids|) then State(Committed(db, job, Finished(env, db, job)), map[])
              else State(db, map[])
  {
    hide CanApply, Inserted, Next, Run, ApprovedOf, Repeat, InsertedUpTo, Committed, Finished;
    var ids := ApprovedOf(db.proposals, job);
    ApprovedAreValid(db, job);
    var st := State(db, map[job := InsertedUpTo(env, db, job, ids, 0)]);
    Atomicity.RunSum(env, st, Repeat(ApplyNext(job), |ids|), [Count(job), Commit(job)]);
    RunInserts(env, db, job, ids, 0);
    FinishSteps(env, db, job, ids);
    NothingRuns(env, State(db, map[]), job, [Count(job), Commit(job)]);
  }

  /** Run with nothing in between, the statements of an apply do what the method above is proved to do:
      everything at once if it is applicable, and otherwise nothing. */
  lemma ApplyAloneIsOneTransaction(env: Environment, db: Db, job: JobId, workspace: WorkspaceId)
    ensures Run(env, State(db, map[]), ApplySteps(job, workspace, |ApprovedOf(db.proposals, job)|)) ==
      if Applicable(env, db, job, workspace) then State(Committed(db, job, Finished(env, db, job)), map[])
      else State(db, map[])
  {
    hide CanApplyUpTo, Run, InsertedUpTo, ApprovedOf, Next;
    var ids, st := ApprovedOf(db.proposals, job), State(db, map[]);
    var steps := Repeat(ApplyNext(job), |ids|) + [Count(job), Commit(job)];
    AllInTx(job, |ids|);
    StepsSum(job, workspace, |ids|);
    if Begins(db, job, workspace) {
      Atomicity.RunSum(env, st, [Begin(job, workspace), Collect(job)], steps);
      StartSteps(env, db, job, workspace);
      if ids == [] {
        NothingRuns(env, st, job, steps);
      } else {
        RunsToTheEnd(env, db, job, workspace);
      }
    } else {
      NeverBegins(env, db, job, workspace, steps);
    }
  }

  lemma StepsSum(job: JobId, workspace: WorkspaceId, n: nat)
    ensures ApplySteps(job, workspace, n) ==
      [Begin(job, workspace), Collect(job)] + (Repeat(ApplyNext(job), n) + [Count(job), Commit(job)])
  {
  }
}

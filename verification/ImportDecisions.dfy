/** Every import run against the decisions made in it: what becomes of a proposal, and that nothing is written
    without an approval (app/api/routes/business_imports.py, app/services/business_import_application.py). */
module ImportDecisions {
  import opened ImportValidation
  import opened ImportRecords
  import opened ImportRuns
  import opened ImportSafety
  import opened ImportAtomicity
  import opened Wrappers

  // ---- What one step does to one proposal ----

  /** The request finds the pending proposal, under its job and workspace. */
  predicate Decides(st: State, step: Step, i: ProposalId) {
    && step.Decide? && step.proposal == i && i < |st.db.proposals|
    && st.db.proposals[i].job == step.job && st.db.proposals[i].status == Pending
    && step.job in st.db.jobs && st.db.jobs[step.job].workspace == step.workspace
  }

  /** The step commits an apply that has collected the proposal. */
  predicate CommitsApply(st: State, step: Step, i: ProposalId) {
    && step.Commit? && step.job in st.db.jobs && step.job in st.open && st.open[step.job].phase == Counted
    && i in st.open[step.job].Applied()
  }

  /** A proposal is decided as requested, applied by a commit that collected it, and otherwise stays as it is. */
  lemma StatusAfterStep(env: Environment, st: State, step: Step, i: ProposalId)
    requires i < |st.db.proposals|
    ensures var row, rows := st.db.proposals[i], Next(env, st, step).db.proposals;
            && i < |rows| && rows[i].job == row.job && rows[i].content == row.content
            && rows[i].status ==
                 if Decides(st, step, i) then (if step.approve then Approved else Rejected)
                 else if CommitsApply(st, step, i) then Applied
                 else row.status
  {
    hide CanApply, ApprovedOf, Remaining, AddedRecords, AddedFacts, Committed;
    if Commits(st, step) {
      CommitIs(env, st, step.job);
      AppliedAt(st.db, step.job, st.open[step.job], i);
    }
  }

  lemma AppliedAt(db: Db, job: JobId, tx: Tx, i: ProposalId)
    requires job in db.jobs && i < |db.proposals|
    ensures var row, rows := db.proposals[i], Committed(db, job, tx).proposals;
            i < |rows| && rows[i] == if i in tx.Applied() then row.(status := Applied) else row
  {
  }

  /** New proposals are stored for review with their candidate's content, under the job whose analysis made them,
      and it awaits review; one that is out of scope is kept from the decisions. */
  lemma PersistedForReview(env: Environment, st: State, step: Step, i: ProposalId)
    requires |st.db.proposals| <= i < |Next(env, st, step).db.proposals|
    ensures step.Persist? && step.job in st.db.jobs && step.job !in st.open
    ensures var rows, k := Next(env, st, step).db.proposals, i - |st.db.proposals|;
            && k < |step.candidates| && |rows| == |st.db.proposals| + |step.candidates|
            && rows[i] == ProposalRow(step.job, if step.candidates[k].1 then NeedsSchemaReview else Pending,
                                      step.candidates[k].0)
            && step.job in Next(env, st, step).db.jobs && Next(env, st, step).db.jobs[step.job].status == AwaitingReview
  {
    hide CanApply, ApprovedOf, Remaining, AddedRecords, AddedFacts;
  }

  /** A job keeps its workspace and its origin. */
  lemma JobStays(env: Environment, st: State, step: Step, job: JobId)
    requires job in st.db.jobs
    ensures var jobs := Next(env, st, step).db.jobs;
            job in jobs && jobs[job].workspace == st.db.jobs[job].workspace && jobs[job].origin == st.db.jobs[job].origin
  {
    hide CanApply, ApprovedOf, Remaining, AddedRecords, AddedFacts, NewRows, Decided, MarkApplied;
  }

  /** Jobs are only made by an upload, for its workspace and file, and wait for their analysis. */
  lemma JobsAfterStep(env: Environment, st: State, step: Step, job: JobId)
    requires job !in st.db.jobs
    ensures var jobs := Next(env, st, step).db.jobs;
            if step.CreateJob? && step.job == job
            then job in jobs && jobs[job] == Job(step.workspace, step.origin, Analyzing)
            else job !in jobs
  {
    hide CanApply, ApprovedOf, Remaining, AddedRecords, AddedFacts, NewRows, Decided, MarkApplied;
  }

  /** A job that no apply holds gets its status from its analysis; one that an apply holds only from the commit. */
  lemma JobStatusAfterStep(env: Environment, st: State, step: Step, job: JobId)
    requires job in st.db.jobs
    ensures var jobs := Next(env, st, step).db.jobs;
            && job in jobs
            && jobs[job].status ==
                 if step.Persist? && step.job == job && job !in st.open then AwaitingReview
                 else if step.MarkFailed? && step.job == job && job !in st.open
                   then (if step.schemaReview then SchemaReview else JobStatus.Failed)
                 else if Commits(st, step) && step.job == job && st.open[job].status.Some?
                   then st.open[job].status.value
                 else st.db.jobs[job].status
  {
    hide CanApply, ApprovedOf, Remaining, AddedRecords, AddedFacts, NewRows, Decided, MarkApplied;
  }

  /** Every candidate of a persisted analysis becomes a proposal, and nothing else does. */
  lemma ProposalsAfterStep(env: Environment, st: State, step: Step)
    ensures |Next(env, st, step).db.proposals| == |st.db.proposals| +
      if step.Persist? && step.job in st.db.jobs && step.job !in st.open then |step.candidates| else 0
  {
    hide CanApply, ApprovedOf, Remaining, AddedRecords, AddedFacts;
  }

  /** An apply begins exactly on a job of the workspace that awaits review or is completed and that no other apply
      holds. */
  lemma BeginsIff(env: Environment, st: State, job: JobId, workspace: WorkspaceId)
    requires job !in st.open
    ensures job in Next(env, st, Begin(job, workspace)).open <==>
      && job in st.db.jobs && st.db.jobs[job].workspace == workspace
      && st.db.jobs[job].status in {AwaitingReview, Completed}
  {
  }

  /** A rolled back apply leaves the rows and all other transactions as they are and releases its job, which can be
      applied again at once if it awaited review. */
  lemma AbortReleases(env: Environment, st: State, job: JobId)
    requires job in st.db.jobs && st.db.jobs[job].status == AwaitingReview
    ensures var aborted := Next(env, st, ImportRuns.Abort(job));
            && aborted.db == st.db && job !in aborted.open
            && (forall other <- st.open :: other != job ==> other in aborted.open && aborted.open[other] == st.open[other])
            && var again := Next(env, aborted, Begin(job, st.db.jobs[job].workspace));
               again.db == st.db && job in again.open && again.open[job] == Begun
  {
  }

  // ---- Runs ----

  /** Someone of the job's workspace has decided the proposal this way. */
  predicate Asked(steps: seq<Step>, db: Db, i: ProposalId, approve: bool) {
    && i < |db.proposals| && db.proposals[i].job in db.jobs
    && exists k :: 0 <= k < |steps| && steps[k].Decide? && steps[k].proposal == i && steps[k].approve == approve
         && steps[k].job == db.proposals[i].job && steps[k].workspace == db.jobs[db.proposals[i].job].workspace
  }

  predicate Has(db: Db, i: ProposalId, status: ProposalStatus) {
    i < |db.proposals| && db.proposals[i].status == status
  }

  /** In every run: a proposal that ends approved or applied was approved before the run or in it, one that ends
      rejected was rejected before it or in it, and one that is out of scope never leaves that status. */
  lemma {:induction false} EveryVerdictWasAsked(env: Environment, st: State, steps: seq<Step>, i: ProposalId)
    requires Inv(env, st)
    ensures var db' := Run(env, st, steps).db;
            && (Has(db', i, Approved) || Has(db', i, Applied) ==>
                  Has(st.db, i, Approved) || Has(st.db, i, Applied) || Asked(steps, db', i, true))
            && (Has(db', i, Rejected) ==> Has(st.db, i, Rejected) || Asked(steps, db', i, false))
            && (Has(st.db, i, NeedsSchemaReview) ==> Has(db', i, NeedsSchemaReview))
            && (i < |st.db.proposals| ==> i < |db'.proposals| && db'.proposals[i].job == st.db.proposals[i].job)
            && (forall job <- st.db.jobs :: job in db'.jobs && db'.jobs[job].workspace == st.db.jobs[job].workspace)
    decreases steps
  {
    if steps != [] {
      hide Inv, Next, Decides, CommitsApply;
      var next := Next(env, st, steps[0]);
      StepKeepsInv(env, st, steps[0]);
      EveryVerdictWasAsked(env, next, steps[1..], i);
      forall job | job in st.db.jobs
        ensures job in next.db.jobs && next.db.jobs[job].workspace == st.db.jobs[job].workspace
      {
        JobStays(env, st, steps[0], job);
      }
      AskedLater(steps, Run(env, st, steps).db, i);
      VerdictOfStep(env, st, steps, i);
    }
  }

  lemma AskedLater(steps: seq<Step>, db: Db, i: ProposalId)
    requires steps != []
    ensures forall approve: bool :: Asked(steps[1..], db, i, approve) ==> Asked(steps, db, i, approve)
  {
    forall k | 0 <= k < |steps| - 1 ensures steps[1..][k] == steps[k + 1] {}
  }

  /** What the first step of a run does to the verdict. */
  lemma VerdictOfStep(env: Environment, st: State, steps: seq<Step>, i: ProposalId)
    requires steps != [] && Inv(env, st)
    requires var db' := Run(env, st, steps).db;
             && (forall job <- st.db.jobs :: job in db'.jobs && db'.jobs[job].workspace == st.db.jobs[job].workspace)
             && (i < |Next(env, st, steps[0]).db.proposals| ==>
                   i < |db'.proposals| && db'.proposals[i].job == Next(env, st, steps[0]).db.proposals[i].job)
    ensures var db, db' := Next(env, st, steps[0]).db, Run(env, st, steps).db;
            && (Has(db, i, Approved) || Has(db, i, Applied) ==>
                  Has(st.db, i, Approved) || Has(st.db, i, Applied) || Asked(steps, db', i, true))
            && (Has(db, i, Rejected) ==> Has(st.db, i, Rejected) || Asked(steps, db', i, false))
            && (Has(st.db, i, NeedsSchemaReview) ==> Has(db, i, NeedsSchemaReview))
            && (i < |st.db.proposals| ==> i < |db.proposals| && db.proposals[i].job == st.db.proposals[i].job)
  {
    hide Next, Run, ApprovedOf, Remaining;
    if i < |st.db.proposals| {
      StatusAfterStep(env, st, steps[0], i);
      if CommitsApply(st, steps[0], i) { CollectedWasApproved(env, st, steps[0].job, i); }
    } else if i < |Next(env, st, steps[0]).db.proposals| {
      PersistedForReview(env, st, steps[0], i);
    }
  }

  lemma CollectedWasApproved(env: Environment, st: State, job: JobId, i: ProposalId)
    requires Inv(env, st) && job in st.open && i in st.open[job].Applied()
    ensures i < |st.db.proposals| && st.db.proposals[i].status == Approved
  {
    var tx := st.open[job];
    assert TxInv(env, st.db, job, tx);
    var k :| 0 <= k < |tx.Applied()| && tx.Applied()[k] == i;
    assert tx.proposals[k] == i;
    assert LockedRow(st.db, job, tx.proposals[k]);
  }

  /** Nothing is written without an approval: every record and every fact added in a run belongs to an applied
      proposal that was approved before the run or, by someone of its job's workspace, in it. */
  lemma NothingWithoutApproval(env: Environment, db: Db, steps: seq<Step>, k: nat)
    requires DbInv(env, db)
    ensures var db' := Run(env, State(db, map[]), steps).db;
            && (|db.records| <= k < |db'.records| ==>
                  var owner := db'.records[k].proposal;
                  && owner.Some? && Has(db', owner.value, Applied)
                  && (Has(db, owner.value, Approved) || Has(db, owner.value, Applied) || Asked(steps, db', owner.value, true)))
            && (|db.facts| <= k < |db'.facts| ==>
                  var owner := db'.facts[k].proposal;
                  && Has(db', owner, Applied)
                  && (Has(db, owner, Approved) || Has(db, owner, Applied) || Asked(steps, db', owner, true)))
  {
    hide Run, Inv, DbInv, Asked;
    var st := State(db, map[]);
    var db' := Run(env, st, steps).db;
    InvAtStart(env, db);
    RunExtends(env, st, steps);
    if |db.records| <= k < |db'.records| {
      assert FromApplied(db', db'.records[k].proposal);
      EveryVerdictWasAsked(env, st, steps, db'.records[k].proposal.value);
    }
    if |db.facts| <= k < |db'.facts| {
      assert FromApplied(db', Some(db'.facts[k].proposal));
      EveryVerdictWasAsked(env, st, steps, db'.facts[k].proposal);
    }
  }

  lemma InvAtStart(env: Environment, db: Db)
    requires DbInv(env, db)
    ensures Inv(env, State(db, map[]))
  {
  }
}

/** Safety of whole import runs: what is committed, when it changes, and how proposals move. */
module ImportAtomicity {
  import opened ImportValidation
  import opened ImportRecords
  import opened ImportRuns
  import opened ImportSafety
  import opened Sequences
  import opened Wrappers

  // ---- How proposals move ----

  predicate Moves(before: ProposalStatus, after: ProposalStatus) {
    || after == before
    || (before.Pending? && (after.Approved? || after.Rejected?))
    || (before.Approved? && after.Applied?)
  }

  /** pending to approved or rejected, approved to applied, and nothing else; nothing is deleted or edited. */
  predicate RowsMove(before: seq<ProposalRow>, after: seq<ProposalRow>) {
    && |before| <= |after|
    && forall i :: 0 <= i < |before| ==>
         after[i] == before[i].(status := after[i].status) && Moves(before[i].status, after[i].status)
  }

  /** In every step, whatever it interleaves with. */
  lemma ProposalsMoveForward(env: Environment, st: State, step: Step)
    requires Inv(env, st)
    ensures RowsMove(st.db.proposals, Next(env, st, step).db.proposals)
  {
    hide Written;
    if Commits(st, step) {
      assert TxInv(env, st.db, step.job, st.open[step.job]);
    }
  }

  // ---- Atomicity ----

  /** Nothing an apply writes is visible before it commits, and a rolled back apply leaves no trace. */
  lemma OnlyCommitAddsRows(env: Environment, st: State, step: Step)
    requires !step.Commit?
    ensures Next(env, st, step).db.records == st.db.records && Next(env, st, step).db.facts == st.db.facts
    ensures step.Begin? || step.Collect? || step.ApplyNext? || step.Count? || step.Abort? ==>
      Next(env, st, step).db == st.db
  {
  }

  /** A commit applies every proposal that was approved when the transaction collected them, and adds
      their records and facts, proposal by proposal, and nothing else. */
  lemma CommitAppliesAll(env: Environment, st: State, job: JobId, i: nat)
    requires Inv(env, st) && job in st.open && job in st.db.jobs && st.open[job].phase.Counted?
    requires i < |st.db.proposals|
    ensures var tx, db' := st.open[job], Next(env, st, Commit(job)).db;
            && Known(st.db, tx.proposals) && |db'.proposals| == |st.db.proposals|
            && db'.records == st.db.records + AppliedRecords(env, st.db, job, tx.proposals)
            && db'.facts == st.db.facts + AppliedFacts(st.db, tx.proposals)
            && Contributed(env, st.db, tx.records, tx.facts, i, i in tx.proposals)
            && db'.proposals[i] ==
                 if i in tx.proposals then st.db.proposals[i].(status := Applied) else st.db.proposals[i]
  {
    hide TxInv, DbInv, Contributed, AppliedRecords, AppliedFacts, Next;
    CommitIs(env, st, job);
    var tx := st.open[job];
    assert TxInv(env, st.db, job, tx);
    AllApplied(env, st.db, job, tx);
    TxContributes(env, st.db, job, tx, i);
    assert forall k :: 0 <= k < |tx.proposals| ==> LockedRow(st.db, job, tx.proposals[k]);
  }

  predicate Commits(st: State, step: Step) {
    step.Commit? && step.job in st.open && step.job in st.db.jobs && st.open[step.job].phase.Counted?
  }

  /** The same rows, and the same proposals applied. */
  ghost predicate SameApplied(db: Db, db': Db) {
    && db'.records == db.records && db'.facts == db.facts && |db.proposals| <= |db'.proposals|
    && (forall i :: 0 <= i < |db.proposals| ==>
          && db'.proposals[i].content == db.proposals[i].content
          && (db'.proposals[i].status.Applied? <==> db.proposals[i].status.Applied?))
    && (forall i :: |db.proposals| <= i < |db'.proposals| ==> !db'.proposals[i].status.Applied?)
  }

  lemma OthersKeepApplied(env: Environment, st: State, step: Step)
    requires !Commits(st, step)
    ensures SameApplied(st.db, Next(env, st, step).db)
  {
    hide CanApply, AddedRecords, AddedFacts, Remaining, ApprovedOf, Committed;
    if step.Commit? || step.Begin? || step.Collect? || step.ApplyNext? || step.Count? || step.Abort? {
      assert Next(env, st, step).db == st.db;
    }
  }

  lemma CommitIs(env: Environment, st: State, job: JobId)
    requires job in st.open && job in st.db.jobs && st.open[job].phase.Counted?
    ensures Next(env, st, Commit(job)) == State(Committed(st.db, job, st.open[job]), st.open - {job})
  {
  }

  /** What is collected is what is approved at that moment. */
  lemma CollectsTheApproved(env: Environment, st: State, job: JobId, i: nat)
    requires job in st.open && st.open[job].phase.Locked? && i < |st.db.proposals|
    ensures var st' := Next(env, st, Collect(job));
            if job in st'.open
            then i in st'.open[job].proposals <==> st.db.proposals[i].job == job && st.db.proposals[i].status.Approved?
            else !(st.db.proposals[i].job == job && st.db.proposals[i].status.Approved?)
  {
    ApprovedOfLocks(st.db.proposals, job);
    if st.db.proposals[i].job == job && st.db.proposals[i].status.Approved? {
      ApprovedOfComplete(st.db.proposals, job, i);
    }
  }

  // ---- The final status of a job ----

  /** Some proposal of the job beside the given ones is still to be decided or applied. */
  predicate Unsettled(rows: seq<ProposalRow>, job: JobId, but: seq<ProposalId>) {
    exists i :: 0 <= i < |rows| && rows[i].job == job && i !in but && (rows[i].status.Pending? || rows[i].status.Approved?)
  }

  lemma RemainingIff(rows: seq<ProposalRow>, job: JobId, but: seq<ProposalId>)
    ensures Remaining(rows, job, but) <==> Unsettled(rows, job, but)
  {
  }

  /** The count finds what is unsettled at that moment beside the proposals just applied. */
  lemma CountDecides(env: Environment, st: State, job: JobId)
    requires job in st.open && st.open[job].phase.Inserting? && st.open[job].next == |st.open[job].proposals|
    ensures var st', ids := Next(env, st, Count(job)), st.open[job].proposals;
            && st'.db == st.db && job in st'.open && st'.open[job].phase.Counted? && st'.open[job].proposals == ids
            && st'.open[job].status == Some(if Unsettled(st.db.proposals, job, ids) then AwaitingReview else Completed)
  {
    var tx := st.open[job];
    assert tx.proposals[..tx.next] == tx.proposals;
    RemainingIff(st.db.proposals, job, tx.proposals);
  }

  /** Whatever else happens, the transaction keeps the status it has counted until it ends. */
  lemma {:induction false} CountStands(env: Environment, st: State, job: JobId, steps: seq<Step>)
    requires job in st.open && st.open[job].phase.Counted? && job in st.db.jobs
    requires forall i :: 0 <= i < |steps| ==> steps[i] != Commit(job) && steps[i] != Abort(job)
    ensures var st' := Run(env, st, steps);
            job in st'.open && st'.open[job] == st.open[job] && job in st'.db.jobs
    decreases steps
  {
    if steps != [] {
      OthersKeepTx(env, st, job, steps[0]);
      forall i | 0 <= i < |steps[1..]| ensures steps[1..][i] == steps[i + 1] {}
      CountStands(env, Next(env, st, steps[0]), job, steps[1..]);
    }
  }

  lemma OthersKeepTx(env: Environment, st: State, job: JobId, step: Step)
    requires job in st.open && st.open[job].phase.Counted? && job in st.db.jobs && step != Commit(job) && step != Abort(job)
    ensures var st' := Next(env, st, step); job in st'.open && st'.open[job] == st.open[job] && job in st'.db.jobs
  {
    hide CanApply, Remaining, ApprovedOf;
  }

  /** In any interleaving, a committed job is completed if none of its proposals was pending or approved when
      they were counted, and otherwise it awaits review again. */
  lemma CommittedStatus(env: Environment, st: State, job: JobId, steps: seq<Step>)
    requires job in st.open && st.open[job].phase.Inserting? && st.open[job].next == |st.open[job].proposals|
    requires job in st.db.jobs
    requires forall i :: 0 <= i < |steps| ==> steps[i] != Commit(job) && steps[i] != Abort(job)
    ensures var jobs := Next(env, Run(env, Next(env, st, Count(job)), steps), Commit(job)).db.jobs;
            && job in jobs
            && jobs[job].status ==
                 if Unsettled(st.db.proposals, job, st.open[job].proposals) then AwaitingReview else Completed
  {
    hide Next, Run, Unsettled;
    CountDecides(env, st, job);
    var counted := Next(env, st, Count(job));
    CountStands(env, counted, job, steps);
    CommitIs(env, Run(env, counted, steps), job);
  }

  // ---- Reachable states ----

  /** No row is removed, no proposal stops being applied, and every added row belongs to an applied one. */
  ghost predicate Extends(before: Db, after: Db) {
    && before.records <= after.records && before.facts <= after.facts
    && (forall i: ProposalId :: IsApplied(before, i) ==> IsApplied(after, i))
    && (forall k :: |before.records| <= k < |after.records| ==> FromApplied(after, after.records[k].proposal))
    && (forall k :: |before.facts| <= k < |after.facts| ==> FromApplied(after, Some(after.facts[k].proposal)))
  }

  predicate FromApplied(db: Db, owner: Option<ProposalId>) {
    owner.Some? && IsApplied(db, owner.value)
  }

  lemma {:induction false} AppliedRecordsOwner(env: Environment, db: Db, job: JobId, ids: seq<ProposalId>, k: nat)
    requires job in db.jobs && Known(db, ids) && k < |AppliedRecords(env, db, job, ids)|
    ensures var owner := AppliedRecords(env, db, job, ids)[k].proposal; owner.Some? && owner.value in ids
  {
    hide AddedRecords;
    var n := |ids| - 1;
    if k < |AppliedRecords(env, db, job, ids[..n])| {
      AppliedRecordsOwner(env, db, job, ids[..n], k);
    } else {
      OneProductPerProposal(env, ids[n], db.jobs[job].workspace, db.proposals[ids[n]].content);
    }
  }

  lemma {:induction false} AppliedFactsOwner(db: Db, ids: seq<ProposalId>, k: nat)
    requires Known(db, ids) && k < |AppliedFacts(db, ids)|
    ensures AppliedFacts(db, ids)[k].proposal in ids
  {
    hide AddedFacts;
    var n := |ids| - 1;
    if k < |AppliedFacts(db, ids[..n])| {
      AppliedFactsOwner(db, ids[..n], k);
    } else {
      AddedFactsOwner(ids[n], db.proposals[ids[n]].content);
    }
  }

  lemma CommitExtends(env: Environment, db: Db, job: JobId, tx: Tx)
    requires TxInv(env, db, job, tx) && tx.phase.Counted?
    ensures Extends(db, Committed(db, job, tx))
  {
    hide TxInv, AppliedRecords, AppliedFacts;
    AllApplied(env, db, job, tx);
    var db', ids := Committed(db, job, tx), tx.proposals;
    assert forall k :: 0 <= k < |ids| ==> LockedRow(db, job, ids[k]);
    forall k | |db.records| <= k < |db'.records| ensures FromApplied(db', db'.records[k].proposal) {
      AppliedRecordsOwner(env, db, job, ids, k - |db.records|);
    }
    forall k | |db.facts| <= k < |db'.facts| ensures FromApplied(db', Some(db'.facts[k].proposal)) {
      AppliedFactsOwner(db, ids, k - |db.facts|);
    }
  }

  lemma StepExtends(env: Environment, st: State, step: Step)
    requires Inv(env, st)
    ensures Extends(st.db, Next(env, st, step).db)
  {
    if Commits(st, step) {
      CommitIs(env, st, step.job);
      CommitExtends(env, st.db, step.job, st.open[step.job]);
    } else {
      hide Next, Inv;
      OthersKeepApplied(env, st, step);
    }
  }

  lemma {:induction false} RunExtends(env: Environment, st: State, steps: seq<Step>)
    requires Inv(env, st)
    ensures Extends(st.db, Run(env, st, steps).db)
    decreases steps
  {
    if steps != [] {
      hide Inv, Next, Extends;
      StepExtends(env, st, steps[0]);
      StepKeepsInv(env, st, steps[0]);
      RunExtends(env, Next(env, st, steps[0]), steps[1..]);
      ExtendsTwice(st.db, Next(env, st, steps[0]).db, Run(env, st, steps).db);
    }
  }

  lemma ExtendsTwice(a: Db, b: Db, c: Db)
    requires Extends(a, b) && Extends(b, c)
    ensures Extends(a, c)
  {
    forall k | |a.records| <= k < |c.records| ensures FromApplied(c, c.records[k].proposal) {
      if k < |b.records| { assert c.records[k] == b.records[k]; }
    }
    forall k | |a.facts| <= k < |c.facts| ensures FromApplied(c, Some(c.facts[k].proposal)) {
      if k < |b.facts| { assert c.facts[k] == b.facts[k]; }
    }
  }

  /** In every reachable state: a completed job has no pending or approved proposal, no job is left
      `applying`, exactly the applied proposals have contributed records and facts, each once, and no
      other row was added. */
  lemma ReachableStates(env: Environment, db: Db, steps: seq<Step>, i: nat)
    requires DbInv(env, db)
    ensures var db' := Run(env, State(db, map[]), steps).db;
            && (forall job <- db'.jobs :: !db'.jobs[job].status.Applying?)
            && Extends(db, db')
            && (i < |db'.proposals| ==>
                  && db'.proposals[i].job in db'.jobs
                  && (db'.jobs[db'.proposals[i].job].status.Completed? ==> !db'.proposals[i].status.Open())
                  && Contributed(env, db', db'.records, db'.facts, i, db'.proposals[i].status.Applied?))
  {
    hide Contributed, Extends, Run;
    RunKeepsInv(env, State(db, map[]), steps);
    RunExtends(env, State(db, map[]), steps);
    var db' := Run(env, State(db, map[]), steps).db;
    assert Contributed(env, db', db'.records, db'.facts, i, IsApplied(db', i));
  }

  // ---- Product names ----

  predicate SamePlace(a: Record, b: Record) {
    a.kind.Product? && b.kind.Product? && a.workspace == b.workspace
  }

  /** Products of one workspace that were added from position n0 on clash with no earlier product. */
  ghost predicate NamesOk(env: Environment, records: seq<Record>, n0: nat) {
    forall i, j :: 0 <= i < j < |records| && n0 <= j && SamePlace(records[i], records[j]) ==>
      env.lower(records[i].name) != env.lower(records[j].name)
  }

  predicate AllIn(records: seq<Record>, workspace: WorkspaceId) {
    forall i :: 0 <= i < |records| ==> records[i].workspace == workspace
  }

  lemma NamesGrow(env: Environment, records: seq<Record>, id: ProposalId, workspace: WorkspaceId, content: Proposal,
                  n0: nat)
    requires NamesOk(env, records, n0)
    requires !NameTaken(env, records, workspace, ProductName(env, content.product))
    ensures NamesOk(env, records + AddedRecords(env, id, workspace, content), n0)
  {
    var added := AddedRecords(env, id, workspace, content);
    OneProductPerProposal(env, id, workspace, content);
    var all := records + added;
    forall i, j | 0 <= i < j < |all| && n0 <= j && SamePlace(all[i], all[j])
      ensures env.lower(all[i].name) != env.lower(all[j].name)
    {
      if j < |records| {
        assert all[i] == records[i] && all[j] == records[j];
      } else {
        assert all[j] == added[j - |records|];
        assert j == |records| && all[i] == records[i];
      }
    }
  }

  /** Applies of one workspace do not overlap. */
  predicate Serial(st: State, step: Step) {
    step.Begin? && step.job in st.db.jobs && step.job !in st.open ==>
      forall other <- st.open :: other in st.db.jobs ==> st.db.jobs[other].workspace != st.db.jobs[step.job].workspace
  }

  ghost predicate SerialRun(env: Environment, st: State, steps: seq<Step>)
    decreases steps
  {
    steps == [] || (Serial(st, steps[0]) && SerialRun(env, Next(env, st, steps[0]), steps[1..]))
  }

  ghost predicate TxNames(env: Environment, db: Db, job: JobId, tx: Tx, n0: nat) {
    job in db.jobs && AllIn(tx.records, db.jobs[job].workspace) && NamesOk(env, db.records + tx.records, n0)
  }

  ghost predicate NamesInv(env: Environment, st: State, n0: nat) {
    && n0 <= |st.db.records| && NamesOk(env, st.db.records, n0)
    && (forall job <- st.open :: TxNames(env, st.db, job, st.open[job], n0))
    && (forall a, b :: a in st.open && b in st.open && a != b ==>
          a in st.db.jobs && b in st.db.jobs && st.db.jobs[a].workspace != st.db.jobs[b].workspace)
  }

  lemma NamesMerge(env: Environment, base: seq<Record>, a: seq<Record>, b: seq<Record>, wa: WorkspaceId,
                   wb: WorkspaceId, n0: nat)
    requires n0 <= |base| && NamesOk(env, base + a, n0) && NamesOk(env, base + b, n0)
    requires AllIn(a, wa) && AllIn(b, wb) && wa != wb
    ensures NamesOk(env, base + a + b, n0)
  {
    var all := base + a + b;
    forall i, j | 0 <= i < j < |all| && n0 <= j && SamePlace(all[i], all[j])
      ensures env.lower(all[i].name) != env.lower(all[j].name)
    {
      MergedAt(base, a, b, i);
      MergedAt(base, a, b, j);
    }
  }

  lemma MergedAt(base: seq<Record>, a: seq<Record>, b: seq<Record>, i: nat)
    requires i < |base + a + b|
    ensures i < |base| + |a| ==> (base + a + b)[i] == (base + a)[i]
    ensures |base| <= i < |base| + |a| ==> (base + a)[i] == a[i - |base|]
    ensures i < |base| ==> (base + a)[i] == (base + b)[i]
    ensures |base| + |a| <= i ==> (base + a + b)[i] == (base + b)[i - |a|] == b[i - |base| - |a|]
  {
  }

  lemma NamesInsert(env: Environment, st: State, job: JobId, n0: nat)
    requires NamesInv(env, st, n0) && job in st.open
    ensures NamesInv(env, ApplyStep(env, st, job, st.open[job]), n0)
  {
    var db, tx := st.db, st.open[job];
    assert TxNames(env, db, job, tx, n0);
    if tx.phase.Inserting? && tx.next < |tx.proposals| && tx.proposals[tx.next] < |db.proposals| {
      var id := tx.proposals[tx.next];
      var content := db.proposals[id].content;
      if CanApply(env, db.jobs[job], db.records + tx.records, content) {
        InsertedNames(env, db, job, tx, n0);
      } else {
      }
    }
  }

  lemma InsertedNames(env: Environment, db: Db, job: JobId, tx: Tx, n0: nat)
    requires TxNames(env, db, job, tx, n0) && tx.next < |tx.proposals| && tx.proposals[tx.next] < |db.proposals|
    requires CanApply(env, db.jobs[job], db.records + tx.records, db.proposals[tx.proposals[tx.next]].content)
    ensures TxNames(env, db, job, Inserted(env, db, job, tx), n0)
  {
    var id := tx.proposals[tx.next];
    var content, workspace := db.proposals[id].content, db.jobs[job].workspace;
    NamesGrow(env, db.records + tx.records, id, workspace, content, n0);
    OneProductPerProposal(env, id, workspace, content);
    var added := AddedRecords(env, id, workspace, content);
    Assoc(db.records, tx.records, added);
  }

  lemma NamesCommit(env: Environment, st: State, job: JobId, n0: nat)
    requires NamesInv(env, st, n0) && job in st.open && job in st.db.jobs && st.open[job].phase.Counted?
    ensures NamesInv(env, State(Committed(st.db, job, st.open[job]), st.open - {job}), n0)
  {
    var db, tx := st.db, st.open[job];
    var db' := Committed(db, job, tx);
    assert TxNames(env, db, job, tx, n0);
    forall other | other in st.open - {job} ensures TxNames(env, db', other, st.open[other], n0) {
      assert TxNames(env, db, other, st.open[other], n0);
      NamesMerge(env, db.records, tx.records, st.open[other].records, db.jobs[job].workspace, db.jobs[other].workspace, n0);
    }
  }

  lemma TxStepKeepsNames(env: Environment, st: State, step: Step, n0: nat)
    requires NamesInv(env, st, n0) && step.job in st.open
    requires step.Collect? || step.ApplyNext? || step.Count? || step.Commit? || step.Abort?
    ensures NamesInv(env, TxStep(env, st, step.job, st.open[step.job], step), n0)
  {
    match step
    case Collect(job) => 
    case ApplyNext(job) => NamesInsert(env, st, job, n0);
    case Count(job) => 
    case Commit(job) => if job in st.db.jobs && st.open[job].phase.Counted? { NamesCommit(env, st, job, n0); }
    case Abort(job) => 
  }

  lemma StepKeepsNames(env: Environment, st: State, step: Step, n0: nat)
    requires NamesInv(env, st, n0) && Serial(st, step)
    ensures NamesInv(env, Next(env, st, step), n0)
  {
    if step.CreateJob? || step.Persist? || step.MarkFailed? || step.Decide? {
    } else if step.Begin? {
    } else if step.job in st.open {
      TxStepKeepsNames(env, st, step, n0);
    }
  }

  lemma {:induction false} RunKeepsNames(env: Environment, st: State, steps: seq<Step>, n0: nat)
    requires NamesInv(env, st, n0) && SerialRun(env, st, steps)
    ensures NamesOk(env, Run(env, st, steps).db.records, n0)
    decreases steps
  {
    if steps != [] {
      StepKeepsNames(env, st, steps[0], n0);
      RunKeepsNames(env, Next(env, st, steps[0]), steps[1..], n0);
    }
  }

  /** With serial applies, a product added by any run has a name, up to case, that no other product of its
      workspace has: neither one that was there before nor another added one. */
  lemma SerialRunsKeepNamesDistinct(env: Environment, db: Db, steps: seq<Step>)
    requires SerialRun(env, State(db, map[]), steps)
    ensures NamesOk(env, Run(env, State(db, map[]), steps).db.records, |db.records|)
  {
    RunKeepsNames(env, State(db, map[]), steps, |db.records|);
  }

  // ---- Duplicates inside one job ----

  ghost predicate OwnNames(env: Environment, st: State) {
    forall job <- st.open :: NamesOk(env, st.open[job].records, 0)
  }

  lemma TakenBefore(env: Environment, a: seq<Record>, b: seq<Record>, workspace: WorkspaceId, name: string)
    requires NameTaken(env, b, workspace, name)
    ensures NameTaken(env, a + b, workspace, name)
  {
    var i :| 0 <= i < |b| && b[i].kind.Product? && b[i].workspace == workspace && env.lower(b[i].name) == env.lower(name);
    assert (a + b)[|a| + i] == b[i];
  }

  lemma InsertKeepsOwnNames(env: Environment, st: State, job: JobId)
    requires OwnNames(env, st) && job in st.open
    ensures OwnNames(env, ApplyStep(env, st, job, st.open[job]))
  {
    var db, tx := st.db, st.open[job];
    if tx.phase.Inserting? && tx.next < |tx.proposals| && job in db.jobs && tx.proposals[tx.next] < |db.proposals| {
      var id := tx.proposals[tx.next];
      var content, workspace := db.proposals[id].content, db.jobs[job].workspace;
      if CanApply(env, db.jobs[job], db.records + tx.records, content) {
        if NameTaken(env, tx.records, workspace, ProductName(env, content.product)) {
          TakenBefore(env, db.records, tx.records, workspace, ProductName(env, content.product));
        }
        NamesGrow(env, tx.records, id, workspace, content, 0);
      }
    }
  }

  lemma StepKeepsOwnNames(env: Environment, st: State, step: Step)
    requires OwnNames(env, st)
    ensures OwnNames(env, Next(env, st, step))
  {
    if step.ApplyNext? && step.job in st.open { InsertKeepsOwnNames(env, st, step.job); }
  }

  lemma {:induction false} RunKeepsOwnNames(env: Environment, st: State, steps: seq<Step>)
    requires OwnNames(env, st)
    ensures OwnNames(env, Run(env, st, steps))
    decreases steps
  {
    if steps != [] {
      StepKeepsOwnNames(env, st, steps[0]);
      RunKeepsOwnNames(env, Next(env, st, steps[0]), steps[1..]);
    }
  }

  lemma {:induction false} FoundIn(records: seq<Record>, id: ProposalId, k: nat) returns (j: nat)
    requires k < |RecordsFrom(records, id)|
    ensures j < |records| && records[j] == RecordsFrom(records, id)[k] && records[j].proposal == Some(id)
  {
    var n := |records| - 1;
    if k < |RecordsFrom(records[..n], id)| {
      j := FoundIn(records[..n], id, k);
      assert records[..n][j] == records[j];
    } else {
      j := n;
    }
  }

  lemma ProductOf(env: Environment, db: Db, job: JobId, tx: Tx, id: ProposalId) returns (j: nat)
    requires TxInv(env, db, job, tx) && id in tx.Applied()
    ensures id < |db.proposals| && j < |tx.records| && tx.records[j].proposal == Some(id)
    ensures tx.records[j].kind.Product? && tx.records[j].workspace == db.jobs[job].workspace
    ensures tx.records[j].name == ProductName(env, db.proposals[id].content.product)
  {
    hide Written;
    TxContributes(env, db, job, tx, id);
    OneProductPerProposal(env, id, db.jobs[job].workspace, db.proposals[id].content);
    j := FoundIn(tx.records, id, 0);
  }

  /** A job with two approved proposals of the same name never commits both: whatever runs between its
      statements, an apply that has reached its end inserted only different names. */
  lemma DuplicatesInAJobNeverCommit(env: Environment, db: Db, steps: seq<Step>, job: JobId, a: ProposalId,
                                    b: ProposalId)
    requires DbInv(env, db)
    requires var st := Run(env, State(db, map[]), steps);
             job in st.open && st.open[job].phase.Counted? && a in st.open[job].proposals && b in st.open[job].proposals
    requires a != b
    ensures var rows := Run(env, State(db, map[]), steps).db.proposals;
            && a < |rows| && b < |rows|
            && env.lower(ProductName(env, rows[a].content.product)) != env.lower(ProductName(env, rows[b].content.product))
  {
    hide Written, TxInv, DbInv, Run;
    var st := Run(env, State(db, map[]), steps);
    RunKeepsInv(env, State(db, map[]), steps);
    RunKeepsOwnNames(env, State(db, map[]), steps);
    var tx := st.open[job];
    assert TxInv(env, st.db, job, tx);
    AllApplied(env, st.db, job, tx);
    var i := ProductOf(env, st.db, job, tx, a);
    var j := ProductOf(env, st.db, job, tx, b);
    assert NamesOk(env, tx.records, 0);
    assert SamePlace(tx.records[i], tx.records[j]) && SamePlace(tx.records[j], tx.records[i]);
  }

  // ---- Overlapping applies ----

  function TwoJobs(workspace: WorkspaceId, origin: Origin, c: Proposal): Db {
    Db(map[1 := Job(workspace, origin, AwaitingReview), 2 := Job(workspace, origin, AwaitingReview)],
       [ProposalRow(1, Approved, c), ProposalRow(2, Approved, c)], [], [])
  }

  function Apply(job: JobId, workspace: WorkspaceId): seq<Step> {
    [Begin(job, workspace), Collect(job), ApplyNext(job)]
  }

  lemma ApprovedOfTwo(workspace: WorkspaceId, origin: Origin, c: Proposal)
    ensures ApprovedOf(TwoJobs(workspace, origin, c).proposals, 1) == [0]
    ensures ApprovedOf(TwoJobs(workspace, origin, c).proposals, 2) == [1]
  {
    hide ApprovedOf;
    var rows := TwoJobs(workspace, origin, c).proposals;
    ApprovedOfNone(1);
    ApprovedOfNone(2);
    ApprovedOfSnoc([], rows[0], 1);
    ApprovedOfSnoc([], rows[0], 2);
    assert [] + [rows[0]] == [rows[0]];
    ApprovedOfSnoc([rows[0]], rows[1], 1);
    ApprovedOfSnoc([rows[0]], rows[1], 2);
    assert [rows[0]] + [rows[1]] == rows;
  }

  lemma ApprovedOfNone(job: JobId)
    ensures ApprovedOf([], job) == []
  {
  }

  lemma ApprovedOfSnoc(rows: seq<ProposalRow>, row: ProposalRow, job: JobId)
    ensures ApprovedOf(rows + [row], job) ==
      ApprovedOf(rows, job) + if row.job == job && row.status.Approved? then [|rows|] else []
  {
    assert (rows + [row])[..|rows|] == rows;
  }

  lemma {:induction false} RunSum(env: Environment, st: State, a: seq<Step>, b: seq<Step>)
    ensures Run(env, st, a + b) == Run(env, Run(env, st, a), b)
    decreases a
  {
    if a == [] {
      assert a + b == b;
    } else {
      assert (a + b)[1..] == a[1..] + b;
      RunSum(env, Next(env, st, a[0]), a[1..], b);
    }
  }

  lemma RunTwo(env: Environment, st: State, a: Step, b: Step)
    ensures Run(env, st, [a, b]) == Next(env, Next(env, st, a), b)
  {
    assert [a, b][1..] == [b] && [b][1..] == [];
    assert Run(env, Next(env, st, a), [b]) == Run(env, Next(env, Next(env, st, a), b), []);
  }

  lemma RunThree(env: Environment, st: State, a: Step, b: Step, c: Step)
    ensures Run(env, st, [a, b, c]) == Next(env, Next(env, Next(env, st, a), b), c)
  {
    assert [a, b, c][1..] == [b, c];
    RunTwo(env, Next(env, st, a), b, c);
  }

  function OneLocked(id: ProposalId): Tx { Started([id]) }

  ghost function OneInserted(env: Environment, id: ProposalId, workspace: WorkspaceId, c: Proposal): Tx {
    Tx(Inserting, Some(Applying), [id], 1, AddedRecords(env, id, workspace, c), AddedFacts(id, c))
  }

  lemma UpdateTwice(m: map<JobId, Tx>, job: JobId, a: Tx, b: Tx)
    ensures m[job := a][job := b] == m[job := b]
  {
  }

  lemma InsertsOne(env: Environment, db: Db, job: JobId, id: ProposalId)
    requires job in db.jobs && id < |db.proposals|
    ensures Inserted(env, db, job, OneLocked(id)) == OneInserted(env, id, db.jobs[job].workspace, db.proposals[id].content)
  {
    EmptySum(AddedRecords(env, id, db.jobs[job].workspace, db.proposals[id].content));
    EmptySum(AddedFacts(id, db.proposals[id].content));
  }

  lemma EmptySum<T>(s: seq<T>)
    ensures [] + s == s == s + []
  {
  }

  /** One apply of a single-proposal job up to its count, while nothing is committed. */
  lemma ApplyUpToCount(env: Environment, st: State, job: JobId, id: ProposalId)
    requires job in st.db.jobs && job !in st.open && st.db.jobs[job].status.AwaitingReview?
    requires ApprovedOf(st.db.proposals, job) == [id] && id < |st.db.proposals| && st.db.records == []
    requires CanApply(env, st.db.jobs[job], [], st.db.proposals[id].content)
    ensures var workspace, content := st.db.jobs[job].workspace, st.db.proposals[id].content;
            Run(env, st, Apply(job, workspace)) == st.(open := st.open[job := OneInserted(env, id, workspace, content)])
  {
    var workspace, content := st.db.jobs[job].workspace, st.db.proposals[id].content;
    RunThree(env, st, Begin(job, workspace), Collect(job), ApplyNext(job));
    UpdateTwice(st.open, job, Begun, OneLocked(id));
    var s1, s2 := st.(open := st.open[job := Begun]), st.(open := st.open[job := OneLocked(id)]);
    assert Next(env, s1, Collect(job)) == s2;
    EmptySum(st.db.records);
    ApplyNextOnly(env, s2, job, id);
    UpdateTwice(st.open, job, OneLocked(id), OneInserted(env, id, workspace, content));
  }

  lemma ApplyNextOnly(env: Environment, st: State, job: JobId, id: ProposalId)
    requires job in st.db.jobs && job in st.open && st.open[job] == OneLocked(id)
    requires id < |st.db.proposals|
    requires CanApply(env, st.db.jobs[job], st.db.records + st.open[job].records, st.db.proposals[id].content)
    ensures Next(env, st, ApplyNext(job)) == st.(open := st.open[
      job := OneInserted(env, id, st.db.jobs[job].workspace, st.db.proposals[id].content)])
  {
    var tx := st.open[job];
    assert tx.proposals[tx.next] == id;
    InsertsOne(env, st.db, job, id);
    ApplyInserts(env, st, job, tx);
  }

  lemma ApplyInserts(env: Environment, st: State, job: JobId, tx: Tx)
    requires job in st.db.jobs && job in st.open && st.open[job] == tx && tx.phase.Inserting?
    requires tx.next < |tx.proposals| && tx.proposals[tx.next] < |st.db.proposals|
    requires CanApply(env, st.db.jobs[job], st.db.records + tx.records, st.db.proposals[tx.proposals[tx.next]].content)
    ensures Next(env, st, ApplyNext(job)) == st.(open := st.open[job := Inserted(env, st.db, job, tx)])
  {
  }

  /** Counting and committing that apply. */
  lemma FinishOne(env: Environment, st: State, job: JobId, id: ProposalId, workspace: WorkspaceId, c: Proposal)
    requires job in st.db.jobs && job in st.open && st.open[job] == OneInserted(env, id, workspace, c)
    ensures var st' := Run(env, st, [Count(job), Commit(job)]);
            && st'.db.records == st.db.records + AddedRecords(env, id, workspace, c)
            && st'.open == st.open - {job}
            && forall other <- st.db.jobs :: other in st'.db.jobs
  {
    RunTwo(env, st, Count(job), Commit(job));
  }

  /** Two applies of different jobs that overlap can both commit the same product name: the duplicate
      check of each ran before the other committed. */
  lemma OverlappingAppliesCanDuplicate(env: Environment, workspace: WorkspaceId, origin: Origin, c: Proposal)
    requires CanApply(env, Job(workspace, origin, AwaitingReview), [], c)
    ensures var steps := Apply(1, workspace) + Apply(2, workspace) + [Count(1), Commit(1)] + [Count(2), Commit(2)];
            var st := Run(env, State(TwoJobs(workspace, origin, c), map[]), steps);
            st.open == map[] && !NamesOk(env, st.db.records, 0)
  {
    var db := TwoJobs(workspace, origin, c);
    var s0 := State(db, map[]);
    var a, b := Apply(1, workspace), Apply(2, workspace);
    var d, e := [Count(1), Commit(1)], [Count(2), Commit(2)];
    RunSum(env, s0, a + b + d, e);
    RunSum(env, s0, a + b, d);
    RunSum(env, s0, a, b);
    ApprovedOfTwo(workspace, origin, c);
    ApplyUpToCount(env, s0, 1, 0);
    var s1 := Run(env, s0, a);
    ApplyUpToCount(env, s1, 2, 1);
    var s2 := Run(env, s1, b);
    FinishOne(env, s2, 1, 0, workspace, c);
    var s3 := Run(env, s2, d);
    FinishOne(env, s3, 2, 1, workspace, c);
    assert s3.open - {2} == map[];
    SameNameTwice(env, workspace, c);
  }

  lemma SameNameTwice(env: Environment, workspace: WorkspaceId, c: Proposal)
    ensures !NamesOk(env, [] + AddedRecords(env, 0, workspace, c) + AddedRecords(env, 1, workspace, c), 0)
  {
    var a, b := AddedRecords(env, 0, workspace, c), AddedRecords(env, 1, workspace, c);
    OneProductPerProposal(env, 0, workspace, c);
    OneProductPerProposal(env, 1, workspace, c);
    var all := [] + a + b;
    assert all[0] == a[0] && all[|a|] == b[0];
    assert SamePlace(all[0], all[|a|]);
  }
}

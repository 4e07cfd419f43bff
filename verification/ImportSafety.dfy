/** What every run of persist, decide and apply steps keeps. */
module ImportSafety {
  import opened ImportValidation
  import opened ImportRecords
  import opened ImportRuns
  import opened Wrappers
  import Plan = ImportPlan

  // ---- Rows written by one proposal ----

  function RecordsFrom(records: seq<Record>, id: ProposalId): seq<Record> {
    if records == [] then []
    else
      var n := |records| - 1;
      RecordsFrom(records[..n], id) + if records[n].proposal == Some(id) then [records[n]] else []
  }

  function FactsFrom(facts: seq<Fact>, id: ProposalId): seq<Fact> {
    if facts == [] then []
    else
      var n := |facts| - 1;
      FactsFrom(facts[..n], id) + if facts[n].proposal == id then [facts[n]] else []
  }

  lemma {:induction false} RecordsFromSum(a: seq<Record>, b: seq<Record>, id: ProposalId)
    ensures RecordsFrom(a + b, id) == RecordsFrom(a, id) + RecordsFrom(b, id)
    decreases |b|
  {
    if b == [] {
      assert a + b == a;
    } else {
      var n := |b| - 1;
      RecordsFromSum(a, b[..n], id);
      assert (a + b)[..|a + b| - 1] == a + b[..n];
    }
  }

  lemma {:induction false} FactsFromSum(a: seq<Fact>, b: seq<Fact>, id: ProposalId)
    ensures FactsFrom(a + b, id) == FactsFrom(a, id) + FactsFrom(b, id)
    decreases |b|
  {
    if b == [] {
      assert a + b == a;
    } else {
      var n := |b| - 1;
      FactsFromSum(a, b[..n], id);
      assert (a + b)[..|a + b| - 1] == a + b[..n];
    }
  }

  lemma {:induction false} RecordsFromOwn(records: seq<Record>, owner: ProposalId, id: ProposalId)
    requires forall i :: 0 <= i < |records| ==> records[i].proposal == Some(owner)
    ensures RecordsFrom(records, id) == if id == owner then records else []
  {
    if records != [] {
      var n := |records| - 1;
      forall i | 0 <= i < n ensures records[..n][i].proposal == Some(owner) {
        assert records[..n][i] == records[i];
      }
      RecordsFromOwn(records[..n], owner, id);
    }
  }

  lemma {:induction false} FactsFromOwn(facts: seq<Fact>, owner: ProposalId, id: ProposalId)
    requires forall i :: 0 <= i < |facts| ==> facts[i].proposal == owner
    ensures FactsFrom(facts, id) == if id == owner then facts else []
  {
    if facts != [] {
      var n := |facts| - 1;
      forall i | 0 <= i < n ensures facts[..n][i].proposal == owner {
        assert facts[..n][i] == facts[i];
      }
      FactsFromOwn(facts[..n], owner, id);
    }
  }

  lemma AddedFactsOwner(id: ProposalId, content: Proposal)
    ensures forall i :: 0 <= i < |AddedFacts(id, content)| ==> AddedFacts(id, content)[i].proposal == id
  {
    if Plan.Plannable(content) {
      FactsOwner(id, Plan.PartsOf(content), content.references);
    }
  }

  lemma {:induction false} FactsOwner(id: ProposalId, parts: seq<Part>, references: seq<Reference>)
    requires forall i :: 0 <= i < |parts| ==> Plan.AllCovered(references, Plan.Present(parts[i]))
    ensures forall i :: 0 <= i < |FactsOf(id, parts, references)| ==> FactsOf(id, parts, references)[i].proposal == id
  {
    if parts != [] {
      var n := |parts| - 1;
      assert forall i :: 0 <= i < n ==> parts[..n][i] == parts[i];
      FactsOwner(id, parts[..n], references);
    }
  }

  // ---- The invariant ----

  /** What proposal i has contributed to some rows, if `done`. */
  ghost predicate Contributed(env: Environment, db: Db, records: seq<Record>, facts: seq<Fact>, i: ProposalId,
                              done: bool) {
    if done then
      && i < |db.proposals| && db.proposals[i].job in db.jobs
      && RecordsFrom(records, i) == AddedRecords(env, i, db.jobs[db.proposals[i].job].workspace, db.proposals[i].content)
      && FactsFrom(facts, i) == AddedFacts(i, db.proposals[i].content)
    else RecordsFrom(records, i) == [] && FactsFrom(facts, i) == []
  }

  predicate IsApplied(db: Db, i: ProposalId) {
    i < |db.proposals| && db.proposals[i].status.Applied?
  }

  ghost predicate DbInv(env: Environment, db: Db) {
    && (forall i :: 0 <= i < |db.proposals| ==> db.proposals[i].job in db.jobs)
    && (forall job <- db.jobs :: !db.jobs[job].status.Applying?)
    && (forall i :: 0 <= i < |db.proposals| && db.jobs[db.proposals[i].job].status.Completed? ==>
          !db.proposals[i].status.Open())
    && (forall i: ProposalId :: Contributed(env, db, db.records, db.facts, i, IsApplied(db, i)))
  }

  predicate Distinct(ids: seq<ProposalId>) {
    forall i, j :: 0 <= i < j < |ids| ==> ids[i] != ids[j]
  }

  predicate LockedRow(db: Db, job: JobId, id: ProposalId) {
    id < |db.proposals| && db.proposals[id].job == job && db.proposals[id].status.Approved?
  }

  predicate AllLocked(db: Db, job: JobId, ids: seq<ProposalId>) {
    forall k :: 0 <= k < |ids| ==> LockedRow(db, job, ids[k])
  }

  /** The rows are exactly those of the given proposals, all of which can be planned. */
  ghost predicate Written(env: Environment, db: Db, job: JobId, ids: seq<ProposalId>, records: seq<Record>,
                          facts: seq<Fact>)
    requires job in db.jobs && AllLocked(db, job, ids)
  {
    && (forall k :: 0 <= k < |ids| ==> Plan.Plannable(db.proposals[ids[k]].content))
    && records == AppliedRecords(env, db, job, ids)
    && facts == AppliedFacts(db, ids)
  }

  ghost predicate TxInv(env: Environment, db: Db, job: JobId, tx: Tx) {
    && job in db.jobs
    && tx.next <= |tx.proposals| && Distinct(tx.proposals)
    && AllLocked(db, job, tx.proposals)
    && Written(env, db, job, tx.Applied(), tx.records, tx.facts)
    && (tx.phase.Counted? ==>
          && tx.next == |tx.proposals|
          && (tx.status == Some(AwaitingReview)
              || (tx.status == Some(Completed) && !Remaining(db.proposals, job, tx.Applied()))))
  }

  ghost predicate Inv(env: Environment, st: State) {
    DbInv(env, st.db) && forall job <- st.open :: TxInv(env, st.db, job, st.open[job])
  }

  // ---- Changes that do not disturb an open transaction ----

  ghost predicate Undisturbed(db: Db, db': Db, job: JobId) {
    && job in db.jobs && job in db'.jobs && db'.jobs[job].workspace == db.jobs[job].workspace
    && (forall i :: 0 <= i < |db.proposals| && LockedRow(db, job, i) ==>
          LockedRow(db', job, i) && db'.proposals[i].content == db.proposals[i].content)
    && (forall i :: 0 <= i < |db'.proposals| && db'.proposals[i].job == job && db'.proposals[i].status.Open() ==>
          i < |db.proposals| && db.proposals[i].job == job && db.proposals[i].status.Open())
  }

  /** A change that adds no records and no facts and neither applies nor alters a proposal. */
  ghost predicate SameContents(db: Db, db': Db) {
    && db'.records == db.records && db'.facts == db.facts
    && |db.proposals| <= |db'.proposals|
    && (forall job <- db.jobs :: job in db'.jobs && db'.jobs[job].workspace == db.jobs[job].workspace)
    && (forall i :: 0 <= i < |db.proposals| ==>
          && db'.proposals[i].job == db.proposals[i].job && db'.proposals[i].content == db.proposals[i].content
          && (db'.proposals[i].status.Applied? <==> db.proposals[i].status.Applied?))
    && (forall i :: |db.proposals| <= i < |db'.proposals| ==> !db'.proposals[i].status.Applied?)
  }

  lemma {:induction false} AppliedRowsKept(env: Environment, db: Db, db': Db, job: JobId, ids: seq<ProposalId>)
    requires AllLocked(db, job, ids) && Undisturbed(db, db', job)
    ensures AllLocked(db', job, ids)
    ensures AppliedRecords(env, db', job, ids) == AppliedRecords(env, db, job, ids)
    ensures AppliedFacts(db', ids) == AppliedFacts(db, ids)
  {
    hide AddedRecords, AddedFacts;
    if ids != [] {
      var n := |ids| - 1;
      assert LockedRow(db, job, ids[n]);
      AppliedRowsKept(env, db, db', job, ids[..n]);
    }
  }

  /** What others do does not disturb an open transaction. */
  lemma TxKept(env: Environment, db: Db, db': Db, job: JobId, tx: Tx)
    requires TxInv(env, db, job, tx) && Undisturbed(db, db', job)
    ensures TxInv(env, db', job, tx)
  {
    hide Written, Remaining;
    WrittenKept(env, db, db', job, tx.Applied(), tx.records, tx.facts);
    assert AllLocked(db', job, tx.proposals);
    if tx.status == Some(Completed) && tx.phase.Counted? { NoneRemainsKept(db, db', job, tx.Applied()); }
  }

  lemma WrittenKept(env: Environment, db: Db, db': Db, job: JobId, ids: seq<ProposalId>, records: seq<Record>,
                    facts: seq<Fact>)
    requires Undisturbed(db, db', job) && AllLocked(db, job, ids) && Written(env, db, job, ids, records, facts)
    ensures AllLocked(db', job, ids) && Written(env, db', job, ids, records, facts)
  {
    hide AppliedRecords, AppliedFacts, Plan.Plannable;
    AppliedRowsKept(env, db, db', job, ids);
    forall k | 0 <= k < |ids| ensures Plan.Plannable(db'.proposals[ids[k]].content) {
      assert LockedRow(db, job, ids[k]);
    }
  }

  lemma NoneRemainsKept(db: Db, db': Db, job: JobId, ids: seq<ProposalId>)
    requires Undisturbed(db, db', job) && !Remaining(db.proposals, job, ids)
    ensures !Remaining(db'.proposals, job, ids)
  {
  }

  lemma ContributionsKept(env: Environment, db: Db, db': Db, i: ProposalId)
    requires DbInv(env, db) && SameContents(db, db')
    ensures Contributed(env, db', db'.records, db'.facts, i, IsApplied(db', i))
  {
    assert Contributed(env, db, db.records, db.facts, i, IsApplied(db, i));
  }

  lemma KeepsWith(env: Environment, st: State, db': Db)
    requires Inv(env, st) && SameContents(st.db, db')
    requires forall i :: 0 <= i < |db'.proposals| ==> db'.proposals[i].job in db'.jobs
    requires forall job <- db'.jobs :: !db'.jobs[job].status.Applying?
    requires forall i :: 0 <= i < |db'.proposals| && db'.jobs[db'.proposals[i].job].status.Completed? ==>
               !db'.proposals[i].status.Open()
    requires forall job <- st.open :: Undisturbed(st.db, db', job)
    ensures Inv(env, st.(db := db'))
  {
    forall i: ProposalId ensures Contributed(env, db', db'.records, db'.facts, i, IsApplied(db', i)) {
      ContributionsKept(env, st.db, db', i);
    }
    forall job | job in st.open ensures TxInv(env, db', job, st.open[job]) {
      TxKept(env, st.db, db', job, st.open[job]);
    }
  }

  lemma CreateKeepsInv(env: Environment, st: State, job: JobId, workspace: WorkspaceId, origin: Origin)
    requires Inv(env, st) && job !in st.db.jobs
    ensures Inv(env, st.(db := st.db.(jobs := st.db.jobs[job := Job(workspace, origin, Analyzing)])))
  {
    hide Written;
    var db' := st.db.(jobs := st.db.jobs[job := Job(workspace, origin, Analyzing)]);
    forall other | other in st.open ensures Undisturbed(st.db, db', other) {
      assert TxInv(env, st.db, other, st.open[other]);
    }
    KeepsWith(env, st, db');
  }

  lemma MarkKeepsInv(env: Environment, st: State, job: JobId, status: JobStatus)
    requires Inv(env, st) && job in st.db.jobs && job !in st.open && !status.Applying? && !status.Completed?
    ensures Inv(env, st.(db := SetStatus(st.db, job, status)))
  {
    hide Written;
    var db' := SetStatus(st.db, job, status);
    forall other | other in st.open ensures Undisturbed(st.db, db', other) {
      assert TxInv(env, st.db, other, st.open[other]);
    }
    KeepsWith(env, st, db');
  }

  lemma PersistKeepsInv(env: Environment, st: State, job: JobId, candidates: seq<(Proposal, bool)>)
    requires Inv(env, st) && job in st.db.jobs && job !in st.open && st.db.jobs[job].status.AwaitingReview?
    ensures Inv(env, st.(db := st.db.(proposals := st.db.proposals + NewRows(job, candidates))))
  {
    hide Written;
    var db, rows := st.db, NewRows(job, candidates);
    var db' := db.(proposals := db.proposals + rows);
    forall other | other in st.open ensures Undisturbed(db, db', other) {
      assert TxInv(env, db, other, st.open[other]);
    }
    KeepsWith(env, st, db');
  }

  lemma DecideKeepsInv(env: Environment, st: State, id: ProposalId, approve: bool)
    requires Inv(env, st) && id < |st.db.proposals| && st.db.proposals[id].status.Pending?
    ensures Inv(env, st.(db := st.db.(proposals := Decided(st.db.proposals, id, approve))))
  {
    hide Written;
    var db := st.db;
    var db' := db.(proposals := Decided(db.proposals, id, approve));
    assert !db.jobs[db.proposals[id].job].status.Completed?;
    forall other | other in st.open ensures Undisturbed(db, db', other) {
      assert TxInv(env, db, other, st.open[other]);
    }
    KeepsWith(env, st, db');
  }

  // ---- The steps of an apply ----

  lemma {:induction false} ApprovedOfLocks(rows: seq<ProposalRow>, job: JobId)
    ensures Distinct(ApprovedOf(rows, job))
    ensures forall k :: 0 <= k < |ApprovedOf(rows, job)| ==>
      && ApprovedOf(rows, job)[k] < |rows|
      && rows[ApprovedOf(rows, job)[k]].job == job && rows[ApprovedOf(rows, job)[k]].status.Approved?
  {
    if rows != [] {
      var n := |rows| - 1;
      ApprovedOfLocks(rows[..n], job);
      var ids := ApprovedOf(rows[..n], job);
      forall k | 0 <= k < |ids| ensures ids[k] < n && rows[ids[k]] == rows[..n][ids[k]] {}
    }
  }

  /** Every approved proposal of the job is collected. */
  lemma {:induction false} ApprovedOfComplete(rows: seq<ProposalRow>, job: JobId, i: nat)
    requires i < |rows| && rows[i].job == job && rows[i].status.Approved?
    ensures i in ApprovedOf(rows, job)
  {
    var n := |rows| - 1;
    if i < n {
      assert rows[..n][i] == rows[i];
      ApprovedOfComplete(rows[..n], job, i);
    }
  }

  lemma BeginKeepsInv(env: Environment, st: State, job: JobId)
    requires Inv(env, st) && job in st.db.jobs && job !in st.open
    ensures Inv(env, st.(open := st.open[job := Begun]))
  {
    assert TxInv(env, st.db, job, Begun);
  }

  lemma CollectKeepsInv(env: Environment, st: State, job: JobId)
    requires Inv(env, st) && job in st.db.jobs
    ensures Inv(env, st.(open := st.open[job := Started(ApprovedOf(st.db.proposals, job))]))
  {
    ApprovedOfLocks(st.db.proposals, job);
    assert TxInv(env, st.db, job, Started(ApprovedOf(st.db.proposals, job)));
  }

  lemma RecordsGrown(env: Environment, records: seq<Record>, id: ProposalId, workspace: WorkspaceId,
                     content: Proposal, i: ProposalId)
    ensures var added := AddedRecords(env, id, workspace, content);
            RecordsFrom(records + added, i) == if i == id then RecordsFrom(records, i) + added else RecordsFrom(records, i)
  {
    var added := AddedRecords(env, id, workspace, content);
    OneProductPerProposal(env, id, workspace, content);
    RecordsFromOwn(added, id, i);
    RecordsFromSum(records, added, i);
  }

  lemma FactsGrown(facts: seq<Fact>, id: ProposalId, content: Proposal, i: ProposalId)
    ensures var added := AddedFacts(id, content);
            FactsFrom(facts + added, i) == if i == id then FactsFrom(facts, i) + added else FactsFrom(facts, i)
  {
    var added := AddedFacts(id, content);
    AddedFactsOwner(id, content);
    FactsFromOwn(added, id, i);
    FactsFromSum(facts, added, i);
  }

  lemma ContributionGrown(env: Environment, db: Db, records: seq<Record>, facts: seq<Fact>, id: ProposalId,
                          i: ProposalId, done: bool)
    requires id < |db.proposals| && db.proposals[id].job in db.jobs
    requires Contributed(env, db, records, facts, i, done) && !(done && i == id)
    ensures var workspace, content := db.jobs[db.proposals[id].job].workspace, db.proposals[id].content;
            Contributed(env, db, records + AddedRecords(env, id, workspace, content), facts + AddedFacts(id, content),
                        i, done || i == id)
  {
    RecordsGrown(env, records, id, db.jobs[db.proposals[id].job].workspace, db.proposals[id].content, i);
    FactsGrown(facts, id, db.proposals[id].content, i);
  }

  /** Each of the applied proposals has contributed, each once, and no other. */
  lemma {:induction false} AppliedContributes(env: Environment, db: Db, job: JobId, ids: seq<ProposalId>, i: ProposalId)
    requires job in db.jobs && AllLocked(db, job, ids) && Distinct(ids)
    ensures Contributed(env, db, AppliedRecords(env, db, job, ids), AppliedFacts(db, ids), i, i in ids)
  {
    hide AddedRecords, AddedFacts, Contributed;
    if ids == [] {
      NothingContributed(env, db, i);
    } else {
      var init, id := ids[..|ids| - 1], ids[|ids| - 1];
      assert LockedRow(db, job, id);
      assert id !in init;
      assert ids == init + [id];
      AppliedContributes(env, db, job, init, i);
      ContributionGrown(env, db, AppliedRecords(env, db, job, init), AppliedFacts(db, init), id, i, i in init);
    }
  }

  lemma NothingContributed(env: Environment, db: Db, i: ProposalId)
    ensures Contributed(env, db, [], [], i, false)
  {
  }

  lemma TxContributes(env: Environment, db: Db, job: JobId, tx: Tx, i: ProposalId)
    requires TxInv(env, db, job, tx)
    ensures Contributed(env, db, tx.records, tx.facts, i, i in tx.Applied())
  {
    AppliedContributes(env, db, job, tx.Applied(), i);
  }

  lemma InsertKeepsInv(env: Environment, st: State, job: JobId, tx: Tx)
    requires Inv(env, st) && TxInv(env, st.db, job, tx) && tx.phase.Inserting? && tx.next < |tx.proposals|
    requires tx.proposals[tx.next] < |st.db.proposals|
    requires Plan.Plannable(st.db.proposals[tx.proposals[tx.next]].content)
    ensures Inv(env, st.(open := st.open[job := Inserted(env, st.db, job, tx)]))
  {
    hide AddedRecords, AddedFacts;
    var tx' := Inserted(env, st.db, job, tx);
    assert tx'.Applied() == tx.Applied() + [tx.proposals[tx.next]];
    assert tx'.Applied()[..tx.next] == tx.Applied();
    assert TxInv(env, st.db, job, tx');
  }

  // ---- Committing ----

  lemma CommitContributes(env: Environment, db: Db, job: JobId, tx: Tx, i: ProposalId)
    requires DbInv(env, db) && TxInv(env, db, job, tx) && tx.phase.Counted?
    ensures var db' := Committed(db, job, tx);
            Contributed(env, db', db'.records, db'.facts, i, IsApplied(db', i))
  {
    hide Written, Contributed;
    var db' := Committed(db, job, tx);
    assert Contributed(env, db, db.records, db.facts, i, IsApplied(db, i));
    TxContributes(env, db, job, tx, i);
    assert i in tx.Applied() ==> LockedRow(db, job, i);
    ContributionsAdd(env, db, db', db.records, db.facts, tx.records, tx.facts, i, IsApplied(db, i), i in tx.Applied());
  }

  lemma ContributionsAdd(
      env: Environment, db: Db, db': Db, records: seq<Record>, facts: seq<Fact>, moreRecords: seq<Record>,
      moreFacts: seq<Fact>, i: ProposalId, done: bool, doneNow: bool)
    requires Contributed(env, db, records, facts, i, done) && Contributed(env, db, moreRecords, moreFacts, i, doneNow)
    requires !(done && doneNow) && |db'.proposals| == |db.proposals|
    requires i < |db.proposals| && db.proposals[i].job in db.jobs ==>
      && db'.proposals[i].job == db.proposals[i].job && db'.proposals[i].content == db.proposals[i].content
      && db.proposals[i].job in db'.jobs
      && db'.jobs[db.proposals[i].job].workspace == db.jobs[db.proposals[i].job].workspace
    ensures Contributed(env, db', records + moreRecords, facts + moreFacts, i, done || doneNow)
  {
    hide AddedRecords, AddedFacts;
    RecordsFromSum(records, moreRecords, i);
    FactsFromSum(facts, moreFacts, i);
  }

  /** A committed job is completed only if none of its proposals is still open. */
  lemma CommitCompletes(env: Environment, db: Db, job: JobId, tx: Tx, i: nat)
    requires DbInv(env, db) && TxInv(env, db, job, tx) && tx.phase.Counted? && i < |db.proposals|
    ensures var db' := Committed(db, job, tx);
            db'.jobs[db'.proposals[i].job].status.Completed? ==> !db'.proposals[i].status.Open()
  {
    hide Written;
  }

  lemma CommitLeavesOthers(env: Environment, db: Db, job: JobId, tx: Tx, other: JobId)
    requires TxInv(env, db, job, tx) && tx.phase.Counted? && other in db.jobs && other != job
    ensures Undisturbed(db, Committed(db, job, tx), other)
  {
    hide Written;
    var db' := Committed(db, job, tx);
    forall i | 0 <= i < |db.proposals| && db.proposals[i].job == other ensures db'.proposals[i] == db.proposals[i] {
    }
    forall i | 0 <= i < |db'.proposals| ensures db'.proposals[i].job == db.proposals[i].job {}
  }

  lemma CommitKeepsDb(env: Environment, db: Db, job: JobId, tx: Tx)
    requires DbInv(env, db) && TxInv(env, db, job, tx) && tx.phase.Counted?
    ensures DbInv(env, Committed(db, job, tx))
  {
    hide Written, Contributed;
    var db' := Committed(db, job, tx);
    forall i: ProposalId ensures Contributed(env, db', db'.records, db'.facts, i, IsApplied(db', i)) {
      CommitContributes(env, db, job, tx, i);
    }
    forall i | 0 <= i < |db'.proposals| ensures db'.proposals[i].job in db'.jobs
      && (db'.jobs[db'.proposals[i].job].status.Completed? ==> !db'.proposals[i].status.Open())
    {
      CommitCompletes(env, db, job, tx, i);
      assert db.proposals[i].job in db.jobs;
    }
  }

  lemma CommitKeepsInv(env: Environment, st: State, job: JobId)
    requires Inv(env, st) && job in st.open && job in st.db.jobs && st.open[job].phase.Counted?
    ensures Inv(env, State(Committed(st.db, job, st.open[job]), st.open - {job}))
  {
    hide DbInv, TxInv, Committed;
    var db, tx := st.db, st.open[job];
    assert TxInv(env, db, job, tx);
    CommitKeepsDb(env, db, job, tx);
    var db' := Committed(db, job, tx);
    forall other | other in st.open - {job} ensures TxInv(env, db', other, st.open[other]) {
      assert TxInv(env, db, other, st.open[other]);
      TxJob(env, db, other, st.open[other]);
      CommitLeavesOthers(env, db, job, tx, other);
      TxKept(env, db, db', other, st.open[other]);
    }
  }

  lemma TxJob(env: Environment, db: Db, job: JobId, tx: Tx)
    requires TxInv(env, db, job, tx)
    ensures job in db.jobs
  {
  }

  /** At its end an apply has applied all it collected. */
  lemma AllApplied(env: Environment, db: Db, job: JobId, tx: Tx)
    requires TxInv(env, db, job, tx) && tx.phase.Counted?
    ensures tx.Applied() == tx.proposals && Distinct(tx.proposals) && AllLocked(db, job, tx.proposals) && job in db.jobs
    ensures Written(env, db, job, tx.proposals, tx.records, tx.facts)
  {
    hide Written;
    assert tx.proposals[..tx.next] == tx.proposals;
  }

  // ---- Every step, every run ----

  lemma TxStepKeepsInv(env: Environment, st: State, job: JobId, step: Step)
    requires Inv(env, st) && job in st.open
    requires step.Collect? || step.ApplyNext? || step.Count? || step.Commit? || step.Abort?
    ensures Inv(env, TxStep(env, st, job, st.open[job], step))
  {
    hide Written;
    var tx := st.open[job];
    assert TxInv(env, st.db, job, tx);
    match step
    case Collect(_) => CollectKeepsInv(env, st, job);
    case ApplyNext(_) =>
      if tx.phase.Inserting? && tx.next < |tx.proposals| {
        assert LockedRow(st.db, job, tx.proposals[tx.next]);
        var content := st.db.proposals[tx.proposals[tx.next]].content;
        if CanApply(env, st.db.jobs[job], st.db.records + tx.records, content) { InsertKeepsInv(env, st, job, tx); }
      }
    case Count(_) =>
    case Commit(_) =>
      if tx.phase.Counted? { CommitKeepsInv(env, st, job); }
    case Abort(_) =>
  }

  lemma StepKeepsInv(env: Environment, st: State, step: Step)
    requires Inv(env, st)
    ensures Inv(env, Next(env, st, step))
  {
    hide Written;
    var db := st.db;
    match step
    case CreateJob(job, workspace, origin) =>
      if job !in db.jobs { CreateKeepsInv(env, st, job, workspace, origin); }
    case Persist(job, candidates) =>
      if job in db.jobs && job !in st.open { PersistStep(env, st, job, candidates); }
    case MarkFailed(job, schemaReview) =>
      if job in db.jobs && job !in st.open { MarkKeepsInv(env, st, job, if schemaReview then SchemaReview else Failed); }
    case Decide(job, workspace, id, approve) =>
      if id < |db.proposals| && db.proposals[id].status.Pending? { DecideKeepsInv(env, st, id, approve); }
    case Begin(job, workspace) =>
      if job in db.jobs && job !in st.open { BeginKeepsInv(env, st, job); }
    case _ =>
      if step.job in st.open { TxStepKeepsInv(env, st, step.job, step); }
  }

  lemma PersistStep(env: Environment, st: State, job: JobId, candidates: seq<(Proposal, bool)>)
    requires Inv(env, st) && job in st.db.jobs && job !in st.open
    ensures Inv(env, st.(db := SetStatus(st.db, job, AwaitingReview).(proposals := st.db.proposals + NewRows(job, candidates))))
  {
    var mid := st.(db := SetStatus(st.db, job, AwaitingReview));
    MarkKeepsInv(env, st, job, AwaitingReview);
    PersistKeepsInv(env, mid, job, candidates);
  }

  lemma {:induction false} RunKeepsInv(env: Environment, st: State, steps: seq<Step>)
    requires Inv(env, st)
    ensures Inv(env, Run(env, st, steps))
    decreases steps
  {
    if steps != [] {
      StepKeepsInv(env, st, steps[0]);
      RunKeepsInv(env, Next(env, st, steps[0]), steps[1..]);
    }
  }
}

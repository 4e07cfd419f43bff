/** What import runs add, counted: one product per applied proposal and one fact per non-null field of it,
    and no row that belongs to no applied proposal. */
module ImportConservation {
  import opened ImportValidation
  import opened ImportRecords
  import opened ImportRuns
  import opened ImportSafety
  import Plan = ImportPlan
  import Atomicity = ImportAtomicity

  // ---- Counting rows ----

  function Products(records: seq<Record>): nat {
    if records == [] then 0
    else Products(records[..|records| - 1]) + if records[|records| - 1].kind.Product? then 1 else 0
  }

  /** The number of non-null fields of some proposals. */
  function FieldTotal(rows: seq<ProposalRow>, ids: seq<ProposalId>): nat
    requires forall k :: 0 <= k < |ids| ==> ids[k] < |rows|
  {
    if ids == [] then 0
    else FieldTotal(rows, ids[..|ids| - 1]) + FieldCount(Plan.PartsOf(rows[ids[|ids| - 1]].content))
  }

  function AppliedCount(rows: seq<ProposalRow>): nat {
    if rows == [] then 0
    else AppliedCount(rows[..|rows| - 1]) + if rows[|rows| - 1].status.Applied? then 1 else 0
  }

  /** The number of non-null fields of the applied proposals. */
  function AppliedFields(rows: seq<ProposalRow>): nat {
    if rows == [] then 0
    else
      var last := rows[|rows| - 1];
      AppliedFields(rows[..|rows| - 1]) + if last.status.Applied? then FieldCount(Plan.PartsOf(last.content)) else 0
  }

  lemma {:induction false} ProductsSum(a: seq<Record>, b: seq<Record>)
    ensures Products(a + b) == Products(a) + Products(b)
    decreases |b|
  {
    if b == [] {
      assert a + b == a;
    } else {
      ProductsSum(a, b[..|b| - 1]);
      assert (a + b)[..|a + b| - 1] == a + b[..|b| - 1];
    }
  }

  lemma {:induction false} OnlyFirstCounts(records: seq<Record>)
    requires records != [] && records[0].kind.Product?
    requires forall i :: 0 < i < |records| ==> !records[i].kind.Product?
    ensures Products(records) == 1
  {
    var init := records[..|records| - 1];
    if init == [] {
      assert Products(init) == 0;
    } else {
      OnlyFirstCounts(init);
    }
  }

  // ---- What an apply writes ----

  lemma {:induction false} AppliedProducts(env: Environment, db: Db, job: JobId, ids: seq<ProposalId>)
    requires job in db.jobs && Known(db, ids)
    ensures Products(AppliedRecords(env, db, job, ids)) == |ids|
  {
    hide AddedRecords;
    if ids != [] {
      var init, id := ids[..|ids| - 1], ids[|ids| - 1];
      var workspace, content := db.jobs[job].workspace, db.proposals[id].content;
      AppliedProducts(env, db, job, init);
      OneProductPerProposal(env, id, workspace, content);
      OnlyFirstCounts(AddedRecords(env, id, workspace, content));
      ProductsSum(AppliedRecords(env, db, job, init), AddedRecords(env, id, workspace, content));
    }
  }

  lemma AddedFactCount(id: ProposalId, content: Proposal)
    requires Plan.Plannable(content)
    ensures |AddedFacts(id, content)| == FieldCount(Plan.PartsOf(content))
  {
    FactCounts(id, Plan.PartsOf(content), content.references);
  }

  lemma {:induction false} AppliedFactCount(db: Db, ids: seq<ProposalId>)
    requires Known(db, ids) && forall k :: 0 <= k < |ids| ==> Plan.Plannable(db.proposals[ids[k]].content)
    ensures |AppliedFacts(db, ids)| == FieldTotal(db.proposals, ids)
  {
    hide AddedFacts, Plan.Plannable;
    if ids != [] {
      AppliedFactCount(db, ids[..|ids| - 1]);
      AddedFactCount(ids[|ids| - 1], db.proposals[ids[|ids| - 1]].content);
    }
  }

  /** In any interleaving, a commit adds one product per collected proposal, and one fact per non-null field
      of these proposals. */
  lemma CommitCounts(env: Environment, st: State, job: JobId)
    requires Inv(env, st) && job in st.open && job in st.db.jobs && st.open[job].phase.Counted?
    ensures var ids, db' := st.open[job].proposals, Next(env, st, Commit(job)).db;
            && Known(st.db, ids)
            && Products(db'.records) == Products(st.db.records) + |ids|
            && |db'.facts| == |st.db.facts| + FieldTotal(st.db.proposals, ids)
  {
    hide Next, TxInv, DbInv, AppliedRecords, AppliedFacts, FieldTotal;
    var tx := st.open[job];
    assert TxInv(env, st.db, job, tx);
    AllApplied(env, st.db, job, tx);
    assert forall k :: 0 <= k < |tx.proposals| ==> LockedRow(st.db, job, tx.proposals[k]);
    Atomicity.CommitIs(env, st, job);
    ProductsSum(st.db.records, tx.records);
    AppliedProducts(env, st.db, job, tx.proposals);
    AppliedFactCount(st.db, tx.proposals);
  }

  // ---- Conservation over runs ----

  /** Other steps than a commit change no proposal to or from applied. */
  lemma {:induction false} SameCounts(before: seq<ProposalRow>, after: seq<ProposalRow>)
    requires |before| <= |after|
    requires forall i :: 0 <= i < |before| ==>
      after[i].content == before[i].content && (after[i].status.Applied? <==> before[i].status.Applied?)
    requires forall i :: |before| <= i < |after| ==> !after[i].status.Applied?
    ensures AppliedCount(after) == AppliedCount(before) && AppliedFields(after) == AppliedFields(before)
    decreases |after|
  {
    hide Plan.PartsOf, FieldCount;
    if after != [] {
      if |after| > |before| {
        SameCounts(before, after[..|after| - 1]);
      } else {
        SameCounts(before[..|before| - 1], after[..|after| - 1]);
      }
    }
  }

  /** Marking one proposal. */
  lemma {:induction false} OneMarked(rows: seq<ProposalRow>, id: ProposalId)
    requires id < |rows| && !rows[id].status.Applied?
    ensures var after := rows[id := rows[id].(status := ProposalStatus.Applied)];
            && AppliedCount(after) == AppliedCount(rows) + 1
            && AppliedFields(after) == AppliedFields(rows) + FieldCount(Plan.PartsOf(rows[id].content))
  {
    hide Plan.PartsOf, FieldCount;
    var n, after := |rows| - 1, rows[id := rows[id].(status := ProposalStatus.Applied)];
    if id < n {
      OneMarked(rows[..n], id);
      assert after[..n] == rows[..n][id := rows[..n][id].(status := ProposalStatus.Applied)];
    } else {
      assert after[..n] == rows[..n];
    }
  }

  lemma {:induction false} AllMarked(rows: seq<ProposalRow>, ids: seq<ProposalId>)
    requires Distinct(ids) && forall k :: 0 <= k < |ids| ==> ids[k] < |rows| && !rows[ids[k]].status.Applied?
    ensures AppliedCount(MarkApplied(rows, ids)) == AppliedCount(rows) + |ids|
    ensures AppliedFields(MarkApplied(rows, ids)) == AppliedFields(rows) + FieldTotal(rows, ids)
  {
    hide Plan.PartsOf, FieldCount, AppliedCount, AppliedFields;
    if ids == [] {
      assert MarkApplied(rows, ids) == rows;
    } else {
      var init, id := ids[..|ids| - 1], ids[|ids| - 1];
      AllMarked(rows, init);
      assert id !in init;
      assert ids == init + [id];
      LastMarked(rows, init, id);
      OneMarked(MarkApplied(rows, init), id);
    }
  }

  lemma LastMarked(rows: seq<ProposalRow>, init: seq<ProposalId>, id: ProposalId)
    requires id < |rows|
    ensures var marked := MarkApplied(rows, init);
            MarkApplied(rows, init + [id]) == marked[id := marked[id].(status := ProposalStatus.Applied)]
  {
  }

  /** The products and the facts of the second state are those of the first and those of the proposals
      that have become applied. */
  predicate Balanced(before: Db, after: Db) {
    && Products(after.records) + AppliedCount(before.proposals) == Products(before.records) + AppliedCount(after.proposals)
    && |after.facts| + AppliedFields(before.proposals) == |before.facts| + AppliedFields(after.proposals)
  }

  lemma CommitBalances(env: Environment, st: State, job: JobId)
    requires Inv(env, st) && job in st.open && job in st.db.jobs && st.open[job].phase.Counted?
    ensures Balanced(st.db, Next(env, st, Commit(job)).db)
  {
    hide Next, TxInv, DbInv, FieldTotal, Products, AppliedCount, AppliedFields, Written;
    var tx := st.open[job];
    assert TxInv(env, st.db, job, tx);
    AllApplied(env, st.db, job, tx);
    assert forall k :: 0 <= k < |tx.proposals| ==> LockedRow(st.db, job, tx.proposals[k]);
    Atomicity.CommitIs(env, st, job);
    CommitCounts(env, st, job);
    AllMarked(st.db.proposals, tx.proposals);
  }

  lemma StepBalances(env: Environment, st: State, step: Step)
    requires Inv(env, st)
    ensures Balanced(st.db, Next(env, st, step).db)
  {
    if Atomicity.Commits(st, step) {
      CommitBalances(env, st, step.job);
    } else {
      hide Inv, Next, Products, AppliedCount, AppliedFields;
      Atomicity.OthersKeepApplied(env, st, step);
      SameCounts(st.db.proposals, Next(env, st, step).db.proposals);
    }
  }

  lemma {:induction false} RunBalances(env: Environment, st: State, steps: seq<Step>)
    requires Inv(env, st)
    ensures Balanced(st.db, Run(env, st, steps).db)
    decreases steps
  {
    if steps != [] {
      hide Inv, Next, Products, AppliedCount, AppliedFields;
      StepBalances(env, st, steps[0]);
      StepKeepsInv(env, st, steps[0]);
      RunBalances(env, Next(env, st, steps[0]), steps[1..]);
    }
  }

  /** In every run, whatever it interleaves, the products added are as many as the proposals that became
      applied, and the facts added as many as their non-null fields. */
  lemma RunsAddOneProductPerProposal(env: Environment, db: Db, steps: seq<Step>)
    requires DbInv(env, db)
    ensures Balanced(db, Run(env, State(db, map[]), steps).db)
  {
    RunBalances(env, State(db, map[]), steps);
  }
}

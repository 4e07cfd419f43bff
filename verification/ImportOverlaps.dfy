/** When overlapping applies keep product names distinct: exactly if the duplicate check, made again at every
    commit, finds nothing. */
module ImportOverlaps {
  import opened ImportRecords
  import opened ImportRuns
  import opened ImportAtomicity

  /** FIND_EXISTING_RESEARCH_QUERY finds none of the added products. */
  ghost predicate NoneTaken(env: Environment, records: seq<Record>, added: seq<Record>) {
    forall k :: 0 <= k < |added| && added[k].kind.Product? ==>
      !NameTaken(env, records, added[k].workspace, added[k].name)
  }

  lemma AddedNamesIff(env: Environment, records: seq<Record>, added: seq<Record>, n0: nat)
    requires n0 <= |records| && NamesOk(env, records, n0) && NamesOk(env, added, 0)
    ensures NamesOk(env, records + added, n0) <==> NoneTaken(env, records, added)
  {
    var all := records + added;
    if NamesOk(env, all, n0) {
      forall k | 0 <= k < |added| && added[k].kind.Product?
        ensures !NameTaken(env, records, added[k].workspace, added[k].name)
      {
        forall i | 0 <= i < |records| && records[i].kind.Product? && records[i].workspace == added[k].workspace
          ensures env.lower(records[i].name) != env.lower(added[k].name)
        {
          assert all[i] == records[i] && all[|records| + k] == added[k];
          assert SamePlace(all[i], all[|records| + k]);
        }
      }
    }
    if NoneTaken(env, records, added) {
      forall i, j | 0 <= i < j < |all| && n0 <= j && SamePlace(all[i], all[j])
        ensures env.lower(all[i].name) != env.lower(all[j].name)
      {
        if j >= |records| {
          assert all[j] == added[j - |records|];
          if i >= |records| { assert all[i] == added[i - |records|]; }
        }
      }
    }
  }

  /** A commit, if the step is one, adds no product whose name is taken by then. */
  ghost predicate CleanStep(env: Environment, st: State, step: Step) {
    Commits(st, step) ==>
      NoneTaken(env, st.db.records, st.open[step.job].records)
  }

  ghost predicate CleanRun(env: Environment, st: State, steps: seq<Step>)
    decreases steps
  {
    steps == [] || (CleanStep(env, st, steps[0]) && CleanRun(env, Next(env, st, steps[0]), steps[1..]))
  }

  /** One commit keeps the names distinct exactly if it is clean. */
  lemma StepNamesIff(env: Environment, st: State, step: Step, n0: nat)
    requires OwnNames(env, st) && n0 <= |st.db.records| && NamesOk(env, st.db.records, n0)
    ensures NamesOk(env, Next(env, st, step).db.records, n0) <==> CleanStep(env, st, step)
  {
    hide NamesOk, NoneTaken;
    if Commits(st, step) {
      CommitIs(env, st, step.job);
      AddedNamesIff(env, st.db.records, st.open[step.job].records, n0);
    } else {
      OthersKeepApplied(env, st, step);
    }
  }

  lemma {:induction false} RecordsGrow(env: Environment, st: State, steps: seq<Step>)
    ensures st.db.records <= Run(env, st, steps).db.records
    decreases steps
  {
    if steps != [] {
      hide Next;
      var step := steps[0];
      if Commits(st, step) {
        CommitIs(env, st, step.job);
      } else {
        OthersKeepApplied(env, st, step);
      }
      RecordsGrow(env, Next(env, st, step), steps[1..]);
    }
  }

  lemma NamesOfPrefix(env: Environment, a: seq<Record>, b: seq<Record>, n0: nat)
    requires a <= b && NamesOk(env, b, n0)
    ensures NamesOk(env, a, n0)
  {
    forall i, j | 0 <= i < j < |a| && n0 <= j && SamePlace(a[i], a[j])
      ensures env.lower(a[i].name) != env.lower(a[j].name)
    {
      assert b[i] == a[i] && b[j] == a[j];
    }
  }

  lemma {:induction false} RunNamesIff(env: Environment, st: State, steps: seq<Step>, n0: nat)
    requires OwnNames(env, st) && n0 <= |st.db.records| && NamesOk(env, st.db.records, n0)
    ensures NamesOk(env, Run(env, st, steps).db.records, n0) <==> CleanRun(env, st, steps)
    decreases steps
  {
    if steps != [] {
      hide NamesOk, NoneTaken, OwnNames, Next, CleanStep;
      var next := Next(env, st, steps[0]);
      StepNamesIff(env, st, steps[0], n0);
      RecordsGrow(env, st, [steps[0]]);
      assert Run(env, st, [steps[0]]) == next by { assert [steps[0]][1..] == []; }
      if CleanStep(env, st, steps[0]) {
        StepKeepsOwnNames(env, st, steps[0]);
        RunNamesIff(env, next, steps[1..], n0);
      } else if NamesOk(env, Run(env, st, steps).db.records, n0) {
        RecordsGrow(env, next, steps[1..]);
        NamesOfPrefix(env, next.db.records, Run(env, next, steps[1..]).db.records, n0);
      }
    }
  }

  /** In every run, however its applies overlap, the added products keep distinct names if and only if no
      commit finds one of its names taken: the check made before the inserts would have to be made again. */
  lemma NamesDistinctIffCommitsClean(env: Environment, db: Db, steps: seq<Step>)
    ensures NamesOk(env, Run(env, State(db, map[]), steps).db.records, |db.records|) <==>
      CleanRun(env, State(db, map[]), steps)
  {
    RunNamesIff(env, State(db, map[]), steps, |db.records|);
  }

  /** Applies that do not overlap never find a name taken at their commit. */
  lemma SerialRunsAreClean(env: Environment, db: Db, steps: seq<Step>)
    requires SerialRun(env, State(db, map[]), steps)
    ensures CleanRun(env, State(db, map[]), steps)
  {
    SerialRunsKeepNamesDistinct(env, db, steps);
    NamesDistinctIffCommitsClean(env, db, steps);
  }
}

/** Planning and committing joined: what the allocator decides, the executor commits in full. */
module PlanAndCommit {
  import opened Types
  import opened Reservations
  import opened Journal
  import opened Conflict
  import opened Allocator
  import opened AllocatorSafety
  import opened AllocatorGoals
  import opened BatchCommit

  /** An executable decision's place among the emitted ones. */
  lemma {:induction false} EmittedPlace(ds: seq<Decision>, i: nat)
    requires i < |ds| && ds[i].action.IsExecutable()
    ensures var m := |Emitted(ds[..i])|;
            m < |Emitted(ds)| && Emitted(ds)[m] == ds[i] && Emitted(ds)[..m] == Emitted(ds[..i])
  {
    var n := |ds| - 1;
    if i < n {
      EmittedPlace(ds[..n], i);
      assert ds[..n][..i] == ds[..i];
    }
  }

  lemma {:induction false} EmittedGrows(ds: seq<Decision>, i: nat, j: nat)
    requires i < j <= |ds| && ds[i].action.IsExecutable()
    ensures |Emitted(ds[..i])| < |Emitted(ds[..j])|
  {
    assert ds[..j][..j - 1] == ds[..j - 1];
    if i < j - 1 {
      EmittedGrows(ds, i, j - 1);
    }
  }

  lemma SameKeySameGoal(s: Snapshot, d: Decision, e: Decision, occ: Occurrence)
    requires WellAimed(s, d, occ) && WellAimed(s, e, occ) && d.key == e.key
    ensures GoalOfDecision(d, Agent(occ)) == GoalOfDecision(e, Agent(occ))
  {
  }

  lemma PlannedKeysAreDistinct(s: Snapshot, occ: Occurrence, blocked: Holders)
    requires s.Valid()
    ensures DistinctKeys(Decided(s, occ, blocked).decisions)
  {
    var ds := Decided(s, occ, blocked).decisions;
    BatchGoals(s, occ, blocked);
    forall i, j | 0 <= i < j < |ds| && ds[i].action.IsExecutable() && ds[j].action.IsExecutable()
      ensures ds[i].key != ds[j].key
    {
      EmittedPlace(ds, i);
      EmittedPlace(ds, j);
      EmittedGrows(ds, i, j);
      var batch := Batch(s, occ, blocked);
      assert ds[i] in batch && ds[j] in batch;
      if ds[i].key == ds[j].key {
        SameKeySameGoal(s, ds[i], ds[j], occ);
      }
    }
  }

  ghost predicate NoFaults(oracles: seq<CommitOracle>) {
    forall o :: o in oracles ==> o.firstRead.NoFault? && o.secondRead.NoFault? && o.upsert.NoFault?
  }

  lemma PlanIsFresh(s: Snapshot, occ: Occurrence, blocked: Holders, before: Store, n: nat)
    requires before.Keys !! KeysOf(Batch(s, occ, blocked)) && n <= |Decided(s, occ, blocked).decisions|
    ensures var ds := Decided(s, occ, blocked).decisions[..n]; Fresh(ds, before) == Emitted(ds)
  {
    var ds := Decided(s, occ, blocked).decisions;
    forall d | d in ds[..n] && !d.action.RefuseInflow?
      ensures d.key !in before
    {
      EmittedHas(ds, d);
    }
    FreshIsEmitted(ds[..n], before);
  }

  /** Every planned list is clean for the executor, whatever the snapshot and the blockers. */
  lemma PlannedListIsClean(s: Snapshot, occ: Occurrence, blocked: Holders, oracles: seq<CommitOracle>, before: Store)
    requires s.Valid() && NoFaults(oracles) && |oracles| == |Decided(s, occ, blocked).decisions|
    requires before.Keys + Brought(oracles) !! KeysOf(Batch(s, occ, blocked))
    ensures IsClean(Decided(s, occ, blocked).decisions, Agent(occ), Some(Balances(s)), Some(s.perFedCap), s.reserved,
                    oracles, before)
  {
    var ds := Decided(s, occ, blocked).decisions;
    PlannedKeysAreDistinct(s, occ, blocked);
    BatchGoals(s, occ, blocked);
    PlanIsFresh(s, occ, blocked, before, |ds|);
    assert ds[..|ds|] == ds;
    forall i | 0 <= i < |ds| && ds[i].action.IsExecutable()
      ensures CleanAt(ds, i, Agent(occ), Some(Balances(s)), Some(s.perFedCap), s.reserved, before)
    {
      EmittedPlace(ds, i);
      var m := |Emitted(ds[..i])|;
      PlannedBatchIsAdmitted(s, occ, blocked, m);
      PlanIsFresh(s, occ, blocked, before, i);
      assert ds[i] in Batch(s, occ, blocked);
      assert WellAimed(s, ds[i], occ);
    }
  }

  /** One standalone tick: decide on a snapshot, then commit against its own balances, cap and
      reservations. Over a journal that reports no error, when neither it nor another writer holds
      any of the new keys, the journal gains exactly the planned batch beside what others bring; in
      any case what it gains fits the sample. */
  method Tick(s: Snapshot, occ: Occurrence, blocked: Holders, journal: MemJournal, guard: InFlightPerforms,
              oracle: nat -> CommitOracle)
    returns (summary: Summary, ghost durable: seq<Decision>, ghost fates: seq<Fate>)
    requires s.Valid()
    modifies journal, guard
    ensures var oracles := seq(|Decided(s, occ, blocked).decisions|, oracle);
            && Committed(old(journal.intents), journal.intents, durable, Brought(oracles), Some(Balances(s)),
                         Some(s.perFedCap), s.reserved)
            && (old(journal.intents).Keys + Brought(oracles) !! KeysOf(Batch(s, occ, blocked)) && NoFaults(oracles)
                ==> durable == Batch(s, occ, blocked))
    ensures |fates| == |Decided(s, occ, blocked).decisions| && summary.Counts(fates)
  {
    var outcome := Decide(s, occ, blocked);
    var oracles := seq(|outcome.decisions|, oracle);
    if old(journal.intents).Keys + Brought(oracles) !! KeysOf(Batch(s, occ, blocked)) && NoFaults(oracles) {
      PlannedListIsClean(s, occ, blocked, oracles, journal.intents);
    }
    if old(journal.intents).Keys !! KeysOf(Batch(s, occ, blocked)) {
      PlanIsFresh(s, occ, blocked, journal.intents, |outcome.decisions|);
      assert outcome.decisions[..|outcome.decisions|] == outcome.decisions;
    }
    summary, durable, fates := ApplyWithAllocatorAdmission(journal, guard, outcome.decisions, Agent(occ), Some(Balances(s)),
                                                           Some(s.perFedCap), s.reserved, oracles);
  }
}

/** Which goals an allocator batch pursues, and that no two of its decisions share one. */
module AllocatorGoals {
  import opened Amounts
  import opened Types
  import opened Reservations
  import opened Conflict
  import opened Sizing
  import opened Allocator
  import opened AllocatorSafety

  ghost predicate Evacuating(s: Snapshot, id: FederationId) {
    exists f :: f in s.federations && f.id == id && EvacuationReason(f).Some?
  }

  /** An emitted decision is an evacuation of an evacuating federation or a funding move between
      two that are not, under the key that names it. */
  ghost predicate WellAimed(s: Snapshot, d: Decision, occ: Occurrence) {
    match d.action
    case Evacuate(src, dst, _, _, _, _) => d.key == EvacKey(src, dst, occ) && Evacuating(s, src)
    case Move(src, dst, _, _, _) =>
      && d.key == MoveKey(src, dst, occ)
      && (d.reason.SpendingBelowTarget? || d.reason.StandbyBelowTarget?)
      && !Evacuating(s, src) && !Evacuating(s, dst)
    case _ => false
  }

  ghost predicate Aimed(s: Snapshot, ds: seq<Decision>, occ: Occurrence, blocked: Holders) {
    forall d :: d in ds ==> WellAimed(s, d, occ) && !Blocks(blocked, d, Agent(occ))
  }

  ghost predicate GoalsDistinct(ds: seq<Decision>, actor: Actor) {
    forall i, j :: 0 <= i < j < |ds| ==> GoalOfDecision(ds[i], actor) != GoalOfDecision(ds[j], actor)
  }

  lemma NotEvacuating(s: Snapshot, f: FedStatus)
    requires s.Valid() && f in s.federations && EvacuationReason(f).None?
    ensures !Evacuating(s, f.id)
  {
    forall g | g in s.federations && g.id == f.id
      ensures g == f
    {
    }
  }

  // ---------------------------------------------------------------- evacuations

  /** After `n` federations the batch holds evacuations of some of them, in their order. */
  ghost predicate EvacsOf(s: Snapshot, n: nat, ds: seq<Decision>)
    requires n <= |s.federations|
  {
    && (forall d :: d in ds ==> d.action.Evacuate? && exists k :: 0 <= k < n && s.federations[k].id == d.action.src)
    && InSnapshotOrder(s, ds)
  }

  /** The evacuations follow the snapshot's order of federations, each federation at most once. */
  ghost predicate InSnapshotOrder(s: Snapshot, ds: seq<Decision>)
    requires forall d :: d in ds ==> d.action.Evacuate?
  {
    forall i, j :: 0 <= i < j < |ds| ==> IsAhead(s, ds[i].action.src, ds[j].action.src)
  }

  ghost predicate IsAhead(s: Snapshot, a: FederationId, b: FederationId) {
    exists k, l :: 0 <= k < l < |s.federations| && s.federations[k].id == a && s.federations[l].id == b
  }

  lemma AheadIsDistinct(s: Snapshot, a: FederationId, b: FederationId)
    requires s.Valid() && IsAhead(s, a, b)
    ensures a != b && !IsAhead(s, b, a)
  {
  }

  lemma EvacsGrow(s: Snapshot, n: nat, ds: seq<Decision>, d: Decision)
    requires s.Valid() && n < |s.federations| && EvacsOf(s, n, ds)
    requires d.action.Evacuate? && d.action.src == s.federations[n].id
    ensures EvacsOf(s, n + 1, ds + [d])
  {
    var all := ds + [d];
    forall i, j | 0 <= i < j < |all|
      ensures all[i].action.Evacuate? && all[j].action.Evacuate? && IsAhead(s, all[i].action.src, all[j].action.src)
    {
      assert all[i] in ds;
      if j == |ds| {
        var k :| 0 <= k < n && s.federations[k].id == all[i].action.src;
      } else {
        assert all[j] in ds && IsAhead(s, ds[i].action.src, ds[j].action.src);
      }
    }
    forall x | x in all
      ensures x.action.Evacuate? && exists k :: 0 <= k < n + 1 && s.federations[k].id == x.action.src
    {
      if x in ds {
        var k :| 0 <= k < n && s.federations[k].id == x.action.src;
        assert 0 <= k < n + 1 && s.federations[k].id == x.action.src;
      } else {
        assert 0 <= n < n + 1 && s.federations[n].id == x.action.src;
      }
    }
  }

  lemma EvacsWiden(s: Snapshot, n: nat, ds: seq<Decision>)
    requires n < |s.federations| && EvacsOf(s, n, ds)
    ensures EvacsOf(s, n + 1, ds)
  {
    forall d | d in ds
      ensures exists k :: 0 <= k < n + 1 && s.federations[k].id == d.action.src
    {
      var k :| 0 <= k < n && s.federations[k].id == d.action.src;
      assert 0 <= k < n + 1 && s.federations[k].id == d.action.src;
    }
  }

  lemma EvacuationIsAimed(s: Snapshot, fed: FedStatus, occ: Occurrence, credited: Ledger, debited: Ledger)
    requires fed in s.federations && EvacuationReason(fed).Some?
    requires EvacuateDecision(fed, EvacuationReason(fed).value, s, occ, credited, debited).action.Evacuate?
    ensures WellAimed(s, EvacuateDecision(fed, EvacuationReason(fed).value, s, occ, credited, debited), occ)
  {
  }

  lemma FedStepGoals(s: Snapshot, n: nat, p: Pass, occ: Occurrence, blocked: Holders)
    requires s.Valid() && n < |s.federations|
    requires EvacsOf(s, n, Emitted(p.decisions)) && Aimed(s, Emitted(p.decisions), occ, blocked)
    ensures var ds := Emitted(FedStep(p, s.federations[n], s, occ, blocked).decisions);
            EvacsOf(s, n + 1, ds) && Aimed(s, ds, occ, blocked)
  {
    var fed, ds := s.federations[n], Emitted(p.decisions);
    FedStepMoney(p, fed, s, occ, blocked);
    if SameMoney(p, FedStep(p, fed, s, occ, blocked)) {
      EvacsWiden(s, n, ds);
    } else {
      EvacuationIsAimed(s, fed, occ, p.credited, p.debited);
      var d := EvacuateDecision(fed, EvacuationReason(fed).value, s, occ, p.credited, p.debited);
      EvacsGrow(s, n, ds, d);
      AimedGrows(s, ds, d, occ, blocked);
    }
  }

  ghost predicate AimedEvacs(s: Snapshot, n: nat, p: Pass, occ: Occurrence, blocked: Holders) {
    && n <= |s.federations|
    && EvacsOf(s, n, Emitted(p.decisions)) && Aimed(s, Emitted(p.decisions), occ, blocked)
  }

  lemma EvacPhaseGoals(s: Snapshot, n: nat, occ: Occurrence, blocked: Holders)
    requires s.Valid() && n <= |s.federations|
    ensures AimedEvacs(s, n, EvacPhase(s, n, occ, blocked), occ, blocked)
  {
    var inv := (i: nat, p: Pass) => AimedEvacs(s, i, p, occ, blocked);
    assert Emitted(FRESH_PASS.decisions) == [];
    forall i: nat, p | i < |s.federations| && inv(i, p)
      ensures inv(i + 1, FedStep(p, s.federations[i], s, occ, blocked))
    {
      FedStepGoals(s, i, p, occ, blocked);
    }
    EvacPhaseInduction(s, n, occ, blocked, inv);
  }

  // ---------------------------------------------------------------- funding

  /** A funding step leaves the batch alone or appends one well-aimed, unblocked move. */
  ghost predicate AddsMove(s: Snapshot, p: Pass, q: Pass, f: Funding, occ: Occurrence, blocked: Holders) {
    && f.source.Some? && f.source.value.id != f.dest.id && ReceiveBlocker(f.dest).None? && f.Amount(s, p.credited) > 0
    && var d := MoveOf(f, s, occ, p.credited);
    && Emitted(q.decisions) == Emitted(p.decisions) + [d]
    && WellAimed(s, d, occ) && !Blocks(blocked, d, Agent(occ))
  }

  lemma MoveIsAimed(s: Snapshot, f: Funding, occ: Occurrence, credited: Ledger)
    requires s.Valid() && f.source.Some?
    requires f.dest in s.federations && EvacuationReason(f.dest).None?
    requires f.source.value in s.federations && EvacuationReason(f.source.value).None?
    requires f.reason.SpendingBelowTarget? || f.reason.StandbyBelowTarget?
    ensures WellAimed(s, MoveOf(f, s, occ, credited), occ)
  {
    NotEvacuating(s, f.dest);
    NotEvacuating(s, f.source.value);
  }

  lemma FundedGoals(s: Snapshot, p: Pass, f: Funding, occ: Occurrence, blocked: Holders)
    requires s.Valid()
    requires f.dest in s.federations && EvacuationReason(f.dest).None?
    requires f.source.Some? ==> f.source.value in s.federations && EvacuationReason(f.source.value).None?
    requires f.reason.SpendingBelowTarget? || f.reason.StandbyBelowTarget?
    ensures var q := Funded(p, f, s, occ, blocked); SameMoney(p, q) || AddsMove(s, p, q, f, occ, blocked)
  {
    FundedMoney(p, f, s, occ, blocked);
    if f.source.Some? {
      MoveIsAimed(s, f, occ, p.credited);
    }
  }

  /** A top-up needs the spending federation below its target; standby funding needs it above. */
  lemma ToppedUpGoals(s: Snapshot, p: Pass, occ: Occurrence, blocked: Holders)
    requires s.Valid()
    ensures var q := ToppedUp(p, s, occ, blocked);
            || SameMoney(p, q)
            || (&& FindOpt(s, s.spendingFed).Some?
                && var spending := FindOpt(s, s.spendingFed).value;
                && spending.spendable < s.targetSpending
                && AddsMove(s, p, q, TopUp(s, spending, p), occ, blocked))
  {
    var spending := FindOpt(s, s.spendingFed);
    if spending.Some? {
      var f := TopUp(s, spending.value, p);
      if EvacuationReason(spending.value).None? && f.want > 0 {
        FundedGoals(s, p, f, occ, blocked);
      }
    }
  }

  lemma NothingFundable(bps: Bps)
    ensures MaxFundable(0, bps) == 0
  {
    MaxFundableIsExact(0, bps, 1);
  }

  lemma StandbyFilledGoals(s: Snapshot, p: Pass, occ: Occurrence, blocked: Holders)
    requires s.Valid()
    ensures var q := StandbyFilled(p, s, occ, blocked);
            || SameMoney(p, q)
            || (&& FindOpt(s, s.spendingFed).Some? && FindOpt(s, s.standbyFed).Some?
                && var spending, standby := FindOpt(s, s.spendingFed).value, FindOpt(s, s.standbyFed).value;
                && spending.spendable > s.targetSpending
                && AddsMove(s, p, q, StandbyFunding(s, standby, p), occ, blocked))
  {
    var standby := FindOpt(s, s.standbyFed);
    if standby.Some? {
      var f := StandbyFunding(s, standby.value, p);
      if EvacuationReason(standby.value).None? && f.want > 0 {
        FundedGoals(s, p, f, occ, blocked);
        NothingFundable(s.maxFeeBps);
      }
    }
  }

  // ---------------------------------------------------------------- main results

  lemma AimedGrows(s: Snapshot, ds: seq<Decision>, d: Decision, occ: Occurrence, blocked: Holders)
    requires Aimed(s, ds, occ, blocked) && WellAimed(s, d, occ) && !Blocks(blocked, d, Agent(occ))
    ensures Aimed(s, ds + [d], occ, blocked)
  {
  }

  lemma GoalsDistinctGrows(ds: seq<Decision>, d: Decision, actor: Actor)
    requires GoalsDistinct(ds, actor) && forall x :: x in ds ==> GoalOfDecision(x, actor) != GoalOfDecision(d, actor)
    ensures GoalsDistinct(ds + [d], actor)
  {
  }

  lemma EvacsPlusMove(s: Snapshot, n: nat, ds: seq<Decision>, d: Decision, occ: Occurrence)
    requires s.Valid() && n <= |s.federations| && EvacsOf(s, n, ds) && WellAimed(s, d, occ) && d.action.Move?
    ensures GoalsDistinct(ds + [d], Agent(occ))
  {
    EvacsAreDistinct(s, n, ds, Agent(occ));
    GoalsDistinctGrows(ds, d, Agent(occ));
  }

  /** The batch is the evacuations, followed by at most one funding move: a top-up or a standby
      filling, never both. */
  lemma BatchShape(s: Snapshot, occ: Occurrence, blocked: Holders)
    requires s.Valid()
    ensures var p := EvacPhase(s, |s.federations|, occ, blocked);
            var evacs, batch := Emitted(p.decisions), Batch(s, occ, blocked);
            && EvacsOf(s, |s.federations|, evacs)
            && (|| batch == evacs
                || (&& |batch| == |evacs| + 1 && batch[..|evacs|] == evacs && batch[|evacs|].action.Move?
                    && WellAimed(s, batch[|evacs|], occ) && !Blocks(blocked, batch[|evacs|], Agent(occ))))
  {
    var p := EvacPhase(s, |s.federations|, occ, blocked);
    var q := ToppedUp(p, s, occ, blocked);
    EvacPhaseGoals(s, |s.federations|, occ, blocked);
    ToppedUpGoals(s, p, occ, blocked);
    StandbyFilledGoals(s, q, occ, blocked);
  }

  lemma EvacsAreDistinct(s: Snapshot, n: nat, ds: seq<Decision>, actor: Actor)
    requires s.Valid() && n <= |s.federations| && EvacsOf(s, n, ds) && actor.Agent?
    ensures GoalsDistinct(ds, actor)
  {
    forall i, j | 0 <= i < j < |ds|
      ensures GoalOfDecision(ds[i], actor) != GoalOfDecision(ds[j], actor)
    {
      assert ds[i] in ds && ds[j] in ds;
      AheadIsDistinct(s, ds[i].action.src, ds[j].action.src);
    }
  }

  /** Every emitted decision is unblocked and well aimed, and no two pursue the same goal. */
  lemma BatchGoals(s: Snapshot, occ: Occurrence, blocked: Holders)
    requires s.Valid()
    ensures Aimed(s, Batch(s, occ, blocked), occ, blocked)
    ensures GoalsDistinct(Batch(s, occ, blocked), Agent(occ))
  {
    var n := |s.federations|;
    var evacs := Emitted(EvacPhase(s, n, occ, blocked).decisions);
    var batch := Batch(s, occ, blocked);
    BatchShape(s, occ, blocked);
    EvacPhaseGoals(s, n, occ, blocked);
    if batch == evacs {
      EvacsAreDistinct(s, n, evacs, Agent(occ));
    } else {
      var d := batch[|evacs|];
      assert batch == evacs + [d];
      AimedGrows(s, evacs, d, occ, blocked);
      EvacsPlusMove(s, n, evacs, d, occ);
    }
  }

  /** A standby filling is the last decision, sized against everything emitted before it. */
  lemma StandbyMoveIsLast(s: Snapshot, occ: Occurrence, blocked: Holders, d: Decision) returns (q: Pass, f: Funding)
    requires s.Valid() && d in Batch(s, occ, blocked) && d.action.Move? && d.reason.StandbyBelowTarget?
    ensures Holds(s, q) && DrawsOn(s, q, f, s.targetSpending) && f.source == FindOpt(s, s.spendingFed)
    ensures f.source.Some? && f.Amount(s, q.credited) > 0 && d == MoveOf(f, s, occ, q.credited)
    ensures Batch(s, occ, blocked) == Emitted(q.decisions) + [d]
  {
    var p := EvacPhase(s, |s.federations|, occ, blocked);
    q := ToppedUp(p, s, occ, blocked);
    EvacPhaseGoals(s, |s.federations|, occ, blocked);
    EvacPhaseHolds(s, |s.federations|, occ, blocked);
    ToppedUpGoals(s, p, occ, blocked);
    ToppedUpHolds(s, p, occ, blocked);
    StandbyFilledGoals(s, q, occ, blocked);
    f := StandbyFunding(s, FindOpt(s, s.standbyFed).value, q);
  }

  /** Standby funding leaves the spending federation its full target, after everything already
      outbound and the whole batch. */
  lemma StandbyFundingKeepsTarget(s: Snapshot, occ: Occurrence, blocked: Holders, d: Decision)
    requires s.Valid() && d in Batch(s, occ, blocked) && d.action.Move? && d.reason.StandbyBelowTarget?
    ensures s.targetSpending + s.reserved.Held(Outbound, d.action.src)
            + Total(Batch(s, occ, blocked), ShareOf(Outbound, d.action.src)) <= Lookup(Balances(s), d.action.src)
    ensures s.spendingFed == Some(d.action.src)
  {
    var q, f := StandbyMoveIsLast(s, occ, blocked, d);
    FundingFits(s, q, f, s.targetSpending, occ);
    TotalAppend(Emitted(q.decisions), d, ShareOf(Outbound, d.action.src));
  }
}

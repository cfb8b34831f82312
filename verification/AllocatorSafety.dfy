/** What every allocator batch keeps, for every snapshot and every set of blockers. */
module AllocatorSafety {
  import opened Amounts
  import opened Types
  import opened Reservations
  import opened Admission
  import opened Conflict
  import opened Sizing
  import opened Allocator

  function Balances(s: Snapshot): Ledger
    requires s.Valid()
  {
    map f | f in s.federations :: f.id := f.spendable
  }

  lemma BalanceOf(s: Snapshot, f: FedStatus)
    requires s.Valid() && f in s.federations
    ensures Lookup(Balances(s), f.id) == f.spendable
  {
  }

  lemma {:induction false} EmittedUpdate(ds: seq<Decision>, i: nat, d: Decision)
    requires i < |ds| && !ds[i].action.IsExecutable() && !d.action.IsExecutable()
    ensures Emitted(ds[i := d]) == Emitted(ds)
  {
    var n := |ds| - 1;
    if i < n {
      EmittedUpdate(ds[..n], i, d);
      assert ds[i := d][..n] == ds[..n][i := d];
    } else {
      assert ds[i := d][..n] == ds[..n];
    }
  }

  // ---------------------------------------------------------------- what one step changes

  /** The money-relevant part of two passes is the same. */
  ghost predicate SameMoney(p: Pass, q: Pass) {
    Emitted(p.decisions) == Emitted(q.decisions) && p.credited == q.credited && p.debited == q.debited
  }

  ghost predicate Appends(p: Pass, q: Pass, d: Decision) {
    && (d.action.Move? || d.action.Evacuate?)
    && Emitted(q.decisions) == Emitted(p.decisions) + [d]
    && q.credited == Bump(p.credited, d.action.dst, d.action.amount)
    && q.debited == Bump(p.debited, d.action.src, SatAdd(d.action.amount, d.action.feeCap))
  }

  lemma RefusalMovesNothing(p: Pass, d: Decision)
    requires d.action.RefuseInflow?
    ensures SameMoney(p, Refused(p, d))
  {
    var i := IndexOf(p.decisions, d.key);
    if i == |p.decisions| {
      EmittedAppend(p.decisions, d);
    } else if Enriches(d, p.decisions[i]) {
      EmittedUpdate(p.decisions, i, d);
    }
  }

  /** A decision is reserved exactly when it is emitted: suppressed and duplicate ones are not. */
  lemma PushMoney(p: Pass, d: Decision, blocked: Holders, occ: Occurrence)
    requires d.action.Move? || d.action.Evacuate?
    ensures var q := PushedIfEligible(p, d, blocked, occ);
            SameMoney(p, q) || (Appends(p, q, d) && !Blocks(blocked, d, Agent(occ)))
  {
    if !Blocks(blocked, d, Agent(occ)) && !HasKey(p.decisions, d.key) {
      EmittedAppend(p.decisions, d);
    }
  }

  lemma EvacuatedMoney(p: Pass, fed: FedStatus, reason: ReasonCode, s: Snapshot, occ: Occurrence, blocked: Holders)
    ensures var q := Evacuated(p, fed, reason, s, occ, blocked);
            var d := EvacuateDecision(fed, reason, s, occ, p.credited, p.debited);
            SameMoney(p, q) || (d.action.Evacuate? && !Blocks(blocked, d, Agent(occ)) && Appends(p, q, d))
  {
    var d := EvacuateDecision(fed, reason, s, occ, p.credited, p.debited);
    if d.action.Evacuate? {
      PushMoney(p, d, blocked, occ);
      RefusalMovesNothing(PushedIfEligible(p, d, blocked, occ), RefusalFor(Some(d), fed.id, reason, occ));
    } else {
      RefusalMovesNothing(p, d);
    }
  }

  lemma FedStepMoney(p: Pass, fed: FedStatus, s: Snapshot, occ: Occurrence, blocked: Holders)
    ensures var q := FedStep(p, fed, s, occ, blocked);
            || SameMoney(p, q)
            || (&& EvacuationReason(fed).Some?
                && var d := EvacuateDecision(fed, EvacuationReason(fed).value, s, occ, p.credited, p.debited);
                d.action.Evacuate? && !Blocks(blocked, d, Agent(occ)) && Appends(p, q, d))
  {
    var q := p;
    if EvacuationReason(fed).Some? {
      var reason := EvacuationReason(fed).value;
      q := Evacuated(p, fed, reason, s, occ, blocked);
      EvacuatedMoney(p, fed, reason, s, occ, blocked);
    }
    RefusalMovesNothing(q, RefuseDecision(fed.id, OverCap, occ, false));
  }

  lemma FundRefusalsMoveNothing(p: Pass, f: Funding, s: Snapshot, occ: Occurrence, room: u64, amount: u64,
                                candidate: Option<Decision>)
    ensures SameMoney(p, FundRefusals(p, f, s, occ, room, amount, candidate))
  {
    var q := if f.want > room then Refused(p, RefusalFor(candidate, f.dest.id, OverCap, occ)) else p;
    RefusalMovesNothing(p, RefusalFor(candidate, f.dest.id, OverCap, occ));
    RefusalMovesNothing(q, RefusalFor(candidate, f.dest.id, UneconomicRoute, occ));
    RefusalMovesNothing(q, RefusalFor(candidate, f.dest.id, f.reason, occ));
  }

  function MoveOf(f: Funding, s: Snapshot, occ: Occurrence, credited: Ledger): Decision
    requires f.source.Some?
  {
    MoveDecision(f.reason, f.source.value.id, f.dest.id, f.Amount(s, credited), s, occ)
  }

  lemma FundedMoney(p: Pass, f: Funding, s: Snapshot, occ: Occurrence, blocked: Holders)
    ensures var q := Funded(p, f, s, occ, blocked);
            || SameMoney(p, q)
            || (&& ReceiveBlocker(f.dest).None?
                && f.source.Some? && f.source.value.id != f.dest.id && f.Amount(s, p.credited) > 0
                && var d := MoveOf(f, s, occ, p.credited);
                !Blocks(blocked, d, Agent(occ)) && Appends(p, q, d))
  {
    if ReceiveBlocker(f.dest).Some? {
      RefusalMovesNothing(p, RefuseDecision(f.dest.id, ReceiveBlocker(f.dest).value, occ, true));
    } else if (f.source.Some? && f.source.value.id == f.dest.id) || f.IsDust(s) {
    } else {
      var room, amount := CapRoom(s, f.dest, p.credited), f.Amount(s, p.credited);
      if f.source.Some? && amount > 0 {
        var d := MoveOf(f, s, occ, p.credited);
        PushMoney(p, d, blocked, occ);
        FundRefusalsMoveNothing(PushedIfEligible(p, d, blocked, occ), f, s, occ, room, amount,
                                if Blocks(blocked, d, Agent(occ)) then Some(d) else None);
      } else {
        FundRefusalsMoveNothing(p, f, s, occ, room, amount, None);
      }
    }
  }

  // ---------------------------------------------------------------- the batch invariant

  /** The reservation maps are the fold of the emitted decisions and of nothing else. */
  ghost predicate Booked(p: Pass) {
    var r := FoldBatch(NOTHING, Emitted(p.decisions));
    p.credited == r.inbound && p.debited == r.outbound
  }

  /** `d` fits behind `before`: its destination stays within the cap, and a funding move's
      source covers amount plus fee cap, in unbounded arithmetic. */
  ghost predicate FitsBehind(s: Snapshot, before: seq<Decision>, d: Decision)
    requires s.Valid()
  {
    var a := d.action;
    && (a.Move? || a.Evacuate?)
    && 0 < a.amount
    && Lookup(Balances(s), a.dst) + s.reserved.Held(Inbound, a.dst) + Total(before, ShareOf(Inbound, a.dst)) + a.amount
       <= s.perFedCap
    && (a.Move? ==>
          s.reserved.Held(Outbound, a.src) + Total(before, ShareOf(Outbound, a.src)) + a.amount + a.feeCap
          <= Lookup(Balances(s), a.src))
  }

  ghost predicate Sound(s: Snapshot, ds: seq<Decision>)
    requires s.Valid()
  {
    forall i :: 0 <= i < |ds| ==> FitsBehind(s, ds[..i], ds[i])
  }

  lemma BookedTotals(p: Pass, fed: FederationId)
    requires Booked(p)
    ensures Lookup(p.credited, fed) == Clamp(Total(Emitted(p.decisions), ShareOf(Inbound, fed)))
    ensures Lookup(p.debited, fed) == Clamp(Total(Emitted(p.decisions), ShareOf(Outbound, fed)))
  {
    FoldBatchHolds(NOTHING, Emitted(p.decisions), Inbound, fed);
    FoldBatchHolds(NOTHING, Emitted(p.decisions), Outbound, fed);
  }

  lemma AppendKeepsBooked(p: Pass, q: Pass, d: Decision)
    requires Booked(p) && Appends(p, q, d)
    ensures Booked(q)
  {
    FoldBatchAppend(NOTHING, Emitted(p.decisions), d);
  }

  lemma AppendKeepsSound(s: Snapshot, ds: seq<Decision>, d: Decision)
    requires s.Valid() && Sound(s, ds) && FitsBehind(s, ds, d)
    ensures Sound(s, ds + [d])
  {
    var all := ds + [d];
    forall i | 0 <= i < |all|
      ensures FitsBehind(s, all[..i], all[i])
    {
      if i < |ds| {
        assert all[..i] == ds[..i];
        assert FitsBehind(s, ds[..i], ds[i]);
      } else {
        assert all[..i] == ds;
      }
    }
  }

  /** Positive cap room is exact: it is the cap less everything already counted. */
  lemma CapRoomIsExact(s: Snapshot, p: Pass, fed: FedStatus)
    requires s.Valid() && fed in s.federations && Booked(p) && CapRoom(s, fed, p.credited) > 0
    ensures Lookup(Balances(s), fed.id) + s.reserved.Held(Inbound, fed.id)
            + Total(Emitted(p.decisions), ShareOf(Inbound, fed.id)) + CapRoom(s, fed, p.credited) == s.perFedCap
  {
    BalanceOf(s, fed);
    BookedTotals(p, fed.id);
  }

  lemma SourceRoomIsExact(s: Snapshot, p: Pass, fed: FedStatus, floor: u64)
    requires s.Valid() && fed in s.federations && Booked(p) && SourceRoom(s, fed, p.debited, floor) > 0
    ensures floor + s.reserved.Held(Outbound, fed.id) + Total(Emitted(p.decisions), ShareOf(Outbound, fed.id))
            + SourceRoom(s, fed, p.debited, floor) == Lookup(Balances(s), fed.id)
  {
    BalanceOf(s, fed);
    BookedTotals(p, fed.id);
  }

  lemma EvacuationFits(s: Snapshot, p: Pass, fed: FedStatus, reason: ReasonCode, occ: Occurrence)
    requires s.Valid() && Booked(p)
    requires EvacuateDecision(fed, reason, s, occ, p.credited, p.debited).action.Evacuate?
    ensures FitsBehind(s, Emitted(p.decisions), EvacuateDecision(fed, reason, s, occ, p.credited, p.debited))
  {
    var dst := SafestOther(s, fed, p.credited).value;
    CapRoomIsExact(s, p, dst);
  }

  /** The funding draws on its source's room above `floor`, as both directions do. */
  ghost predicate DrawsOn(s: Snapshot, p: Pass, f: Funding, floor: u64) {
    && f.dest in s.federations
    && (f.source.Some? ==> f.source.value in s.federations)
    && f.available == Available(s, f.source, p.debited, floor)
  }

  lemma FundingFits(s: Snapshot, p: Pass, f: Funding, floor: u64, occ: Occurrence)
    requires s.Valid() && Booked(p) && DrawsOn(s, p, f, floor)
    requires f.source.Some? && f.Amount(s, p.credited) > 0
    ensures var d := MoveOf(f, s, occ, p.credited);
            && FitsBehind(s, Emitted(p.decisions), d)
            && floor + s.reserved.Held(Outbound, d.action.src)
               + Total(Emitted(p.decisions), ShareOf(Outbound, d.action.src)) + d.action.amount + d.action.feeCap
               <= Lookup(Balances(s), d.action.src)
  {
    var src, amount := f.source.value, f.Amount(s, p.credited);
    var room := SourceRoom(s, src, p.debited, floor);
    CapRoomIsExact(s, p, f.dest);
    FundableFits(room, s.maxFeeBps, amount);
    SourceRoomIsExact(s, p, src, floor);
  }

  ghost predicate Holds(s: Snapshot, p: Pass)
    requires s.Valid()
  {
    Booked(p) && Sound(s, Emitted(p.decisions))
  }

  lemma FedStepHolds(s: Snapshot, p: Pass, fed: FedStatus, occ: Occurrence, blocked: Holders)
    requires s.Valid() && Holds(s, p)
    ensures Holds(s, FedStep(p, fed, s, occ, blocked))
  {
    var q := FedStep(p, fed, s, occ, blocked);
    FedStepMoney(p, fed, s, occ, blocked);
    if !SameMoney(p, q) {
      var reason := EvacuationReason(fed).value;
      EvacuationFits(s, p, fed, reason, occ);
      var d := EvacuateDecision(fed, reason, s, occ, p.credited, p.debited);
      AppendKeepsBooked(p, q, d);
      AppendKeepsSound(s, Emitted(p.decisions), d);
    }
  }

  lemma FundedHolds(s: Snapshot, p: Pass, f: Funding, floor: u64, occ: Occurrence, blocked: Holders)
    requires s.Valid() && Holds(s, p) && DrawsOn(s, p, f, floor)
    ensures Holds(s, Funded(p, f, s, occ, blocked))
  {
    var q := Funded(p, f, s, occ, blocked);
    FundedMoney(p, f, s, occ, blocked);
    if !SameMoney(p, q) {
      FundingFits(s, p, f, floor, occ);
      var d := MoveOf(f, s, occ, p.credited);
      AppendKeepsBooked(p, q, d);
      AppendKeepsSound(s, Emitted(p.decisions), d);
    }
  }

  /** What holds of a fresh pass and is kept by every federation's step holds after any number. */
  lemma {:induction false} EvacPhaseInduction(s: Snapshot, n: nat, occ: Occurrence, blocked: Holders,
                                              inv: (nat, Pass) -> bool)
    requires n <= |s.federations| && inv(0, FRESH_PASS)
    requires forall i: nat, p :: i < |s.federations| && inv(i, p) ==>
               inv(i + 1, FedStep(p, s.federations[i], s, occ, blocked))
    ensures inv(n, EvacPhase(s, n, occ, blocked))
  {
    if n > 0 {
      EvacPhaseInduction(s, n - 1, occ, blocked, inv);
    }
  }

  lemma EvacPhaseHolds(s: Snapshot, n: nat, occ: Occurrence, blocked: Holders)
    requires s.Valid() && n <= |s.federations|
    ensures Holds(s, EvacPhase(s, n, occ, blocked))
  {
    var inv := (i: nat, p: Pass) => Holds(s, p);
    assert Emitted(FRESH_PASS.decisions) == [];
    forall i: nat, p | i < |s.federations| && inv(i, p)
      ensures inv(i + 1, FedStep(p, s.federations[i], s, occ, blocked))
    {
      FedStepHolds(s, p, s.federations[i], occ, blocked);
    }
    EvacPhaseInduction(s, n, occ, blocked, inv);
  }

  lemma ToppedUpHolds(s: Snapshot, p: Pass, occ: Occurrence, blocked: Holders)
    requires s.Valid() && Holds(s, p)
    ensures Holds(s, ToppedUp(p, s, occ, blocked))
  {
    var spending := FindOpt(s, s.spendingFed);
    if spending.Some? {
      FundedHolds(s, p, TopUp(s, spending.value, p), 0, occ, blocked);
    }
  }

  lemma StandbyFilledHolds(s: Snapshot, p: Pass, occ: Occurrence, blocked: Holders)
    requires s.Valid() && Holds(s, p)
    ensures Holds(s, StandbyFilled(p, s, occ, blocked))
  {
    var standby := FindOpt(s, s.standbyFed);
    if standby.Some? {
      FundedHolds(s, p, StandbyFunding(s, standby.value, p), s.targetSpending, occ, blocked);
    }
  }

  /** The whole pass books exactly what it emits, and everything it emits fits. */
  lemma DecidedHolds(s: Snapshot, occ: Occurrence, blocked: Holders)
    requires s.Valid()
    ensures Holds(s, Decided(s, occ, blocked))
  {
    var p := EvacPhase(s, |s.federations|, occ, blocked);
    EvacPhaseHolds(s, |s.federations|, occ, blocked);
    ToppedUpHolds(s, p, occ, blocked);
    StandbyFilledHolds(s, ToppedUp(p, s, occ, blocked), occ, blocked);
  }

  // ---------------------------------------------------------------- main results

  function Batch(s: Snapshot, occ: Occurrence, blocked: Holders): seq<Decision> {
    Emitted(Decided(s, occ, blocked).decisions)
  }

  lemma FittingIsAdmitted(s: Snapshot, before: seq<Decision>, d: Decision)
    requires s.Valid() && FitsBehind(s, before, d)
    ensures Admit(d.action, Some(Balances(s)), Some(s.perFedCap), FoldBatch(s.reserved, before)).Admitted?
  {
    FoldBatchHolds(s.reserved, before, Inbound, d.action.dst);
    FoldBatchHolds(s.reserved, before, Outbound, d.action.src);
  }

  /** Planner and admission agree: every emitted decision passes commit-time admission, in
      order, against the snapshot with the earlier ones strictly folded in. */
  lemma PlannedBatchIsAdmitted(s: Snapshot, occ: Occurrence, blocked: Holders, i: nat)
    requires s.Valid() && i < |Batch(s, occ, blocked)|
    ensures var batch := Batch(s, occ, blocked);
            Admit(batch[i].action, Some(Balances(s)), Some(s.perFedCap), FoldBatch(s.reserved, batch[..i])).Admitted?
  {
    DecidedHolds(s, occ, blocked);
    var batch := Batch(s, occ, blocked);
    assert FitsBehind(s, batch[..i], batch[i]);
    FittingIsAdmitted(s, batch[..i], batch[i]);
  }

  lemma SoundPrefix(s: Snapshot, ds: seq<Decision>, n: nat)
    requires s.Valid() && Sound(s, ds) && n <= |ds|
    ensures Sound(s, ds[..n])
  {
    forall i | 0 <= i < n
      ensures FitsBehind(s, ds[..n][..i], ds[..n][i])
    {
      assert ds[..n][..i] == ds[..i];
      assert FitsBehind(s, ds[..i], ds[i]);
    }
  }

  lemma {:induction false} SoundWithinCap(s: Snapshot, ds: seq<Decision>, fed: FederationId)
    requires s.Valid() && Sound(s, ds) && Total(ds, ShareOf(Inbound, fed)) > 0
    ensures Lookup(Balances(s), fed) + s.reserved.Held(Inbound, fed) + Total(ds, ShareOf(Inbound, fed)) <= s.perFedCap
  {
    var n := |ds| - 1;
    assert FitsBehind(s, ds[..n], ds[n]);
    if ds[n].action.dst != fed {
      SoundPrefix(s, ds, n);
      SoundWithinCap(s, ds[..n], fed);
    }
  }

  /** Every federation the batch credits stays within the cap, counting its balance, what is
      already inbound, and the whole batch. */
  lemma BatchStaysWithinCap(s: Snapshot, occ: Occurrence, blocked: Holders, fed: FederationId)
    requires s.Valid() && Total(Batch(s, occ, blocked), ShareOf(Inbound, fed)) > 0
    ensures Lookup(Balances(s), fed) + s.reserved.Held(Inbound, fed)
            + Total(Batch(s, occ, blocked), ShareOf(Inbound, fed)) <= s.perFedCap
  {
    DecidedHolds(s, occ, blocked);
    SoundWithinCap(s, Batch(s, occ, blocked), fed);
  }

  /** Every funding move's source covers amount plus fee cap behind everything reserved before
      the pass and everything emitted ahead of it. */
  lemma FundingSourceCovers(s: Snapshot, occ: Occurrence, blocked: Holders, i: nat)
    requires s.Valid() && i < |Batch(s, occ, blocked)| && Batch(s, occ, blocked)[i].action.Move?
    ensures var batch := Batch(s, occ, blocked);
            var a := batch[i].action;
            s.reserved.Held(Outbound, a.src) + Total(batch[..i], ShareOf(Outbound, a.src)) + a.amount + a.feeCap
            <= Lookup(Balances(s), a.src)
  {
    DecidedHolds(s, occ, blocked);
    var batch := Batch(s, occ, blocked);
    assert FitsBehind(s, batch[..i], batch[i]);
  }

  /** The pass's own maps are the emitted batch; suppressed work reserves nothing. */
  lemma MapsAreTheBatch(s: Snapshot, occ: Occurrence, blocked: Holders)
    requires s.Valid()
    ensures Decided(s, occ, blocked).credited == FoldBatch(NOTHING, Batch(s, occ, blocked)).inbound
    ensures Decided(s, occ, blocked).debited == FoldBatch(NOTHING, Batch(s, occ, blocked)).outbound
  {
    DecidedHolds(s, occ, blocked);
  }
}

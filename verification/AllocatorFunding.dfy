/** Where funding may go and where it must go, in the snapshot's own terms: federation statuses,
    routes, floors, targets, caps and balances. */
module AllocatorFunding {
  import opened Amounts
  import opened Types
  import opened Reservations
  import opened Conflict
  import opened Sizing
  import opened Allocator
  import opened AllocatorSafety
  import opened AllocatorGoals
  import opened AllocatorProgress

  // ---------------------------------------------------------------- the snapshot's terms

  /** The pair has no price yet, or one that can carry a move. */
  predicate RouteOpen(s: Snapshot, src: FederationId, dst: FederationId) {
    (src, dst) in s.routes ==> s.routes[(src, dst)].status == Routable
  }

  /** The amount reaches the protocol minimum and a routable pair's own. */
  predicate ReachesFloor(s: Snapshot, src: FederationId, dst: FederationId, amount: nat) {
    && s.minMove <= amount
    && ((src, dst) in s.routes && s.routes[(src, dst)].status == Routable ==> s.routes[(src, dst)].minViable <= amount)
  }

  function RouteGateway(s: Snapshot, src: FederationId, dst: FederationId): Option<GatewayUrl> {
    if (src, dst) in s.routes then s.routes[(src, dst)].gateway else None
  }

  lemma FindIsUnique(s: Snapshot, f: FedStatus)
    requires s.Valid() && f in s.federations
    ensures Find(s.federations, f.id) == Some(f)
  {
    var r := Find(s.federations, f.id);
    var i :| 0 <= i < |s.federations| && s.federations[i] == f;
    var j :| 0 <= j < |s.federations| && s.federations[j] == r.value;
  }

  // ---------------------------------------------------------------- where it may go

  /** A funding move of the batch, against the federations it names. */
  predicate WellFounded(s: Snapshot, d: Decision, occ: Occurrence, src: FedStatus, dst: FedStatus) {
    && d.action.Move? && d.action.src == src.id != dst.id == d.action.dst
    && !IsLeaving(src) && !IsLeaving(dst) && IsTrustworthy(dst)
    && RouteOpen(s, src.id, dst.id) && ReachesFloor(s, src.id, dst.id, d.action.amount) && 0 < d.action.amount
    && d.action.feeCap == d.action.amount * s.maxFeeBps / 10_000
    && d.action.gateway == RouteGateway(s, src.id, dst.id)
    && d.key == MoveKey(src.id, dst.id, occ) && d.occurrence == occ
    && (|| (d.reason == SpendingBelowTarget && s.spendingFed == Some(dst.id) && s.standbyFed == Some(src.id))
        || (d.reason == StandbyBelowTarget && s.standbyFed == Some(dst.id) && s.spendingFed == Some(src.id)))
  }

  lemma PositiveAmountIsFounded(s: Snapshot, p: Pass, f: Funding, floor: u64, occ: Occurrence)
    requires DrawsOn(s, p, f, floor) && f.source.Some? && f.source.value.id != f.dest.id
    requires ReceiveBlocker(f.dest).None? && f.Amount(s, p.credited) > 0
    requires EvacuationReason(f.dest).None? && EvacuationReason(f.source.value).None?
    requires || (f.reason == SpendingBelowTarget && s.spendingFed == Some(f.dest.id) && s.standbyFed == Some(f.source.value.id))
             || (f.reason == StandbyBelowTarget && s.standbyFed == Some(f.dest.id) && s.spendingFed == Some(f.source.value.id))
    ensures WellFounded(s, MoveOf(f, s, occ, p.credited), occ, f.source.value, f.dest)
  {
    FundableFits(SourceRoom(s, f.source.value, p.debited, floor), s.maxFeeBps, f.Amount(s, p.credited));
  }

  /** Every funding move the batch emits is well founded. */
  lemma FundingIsWellFounded(s: Snapshot, occ: Occurrence, blocked: Holders, d: Decision)
    returns (src: FedStatus, dst: FedStatus)
    requires s.Valid() && d in Batch(s, occ, blocked) && d.action.Move?
    ensures src in s.federations && dst in s.federations && WellFounded(s, d, occ, src, dst)
  {
    var p := EvacPhase(s, |s.federations|, occ, blocked);
    var q := ToppedUp(p, s, occ, blocked);
    EvacPhaseGoals(s, |s.federations|, occ, blocked);
    ToppedUpGoals(s, p, occ, blocked);
    StandbyFilledGoals(s, q, occ, blocked);
    if d in Emitted(q.decisions) {
      var f := TopUp(s, FindOpt(s, s.spendingFed).value, p);
      PositiveAmountIsFounded(s, p, f, 0, occ);
      src, dst := f.source.value, f.dest;
    } else {
      var f := StandbyFunding(s, FindOpt(s, s.standbyFed).value, q);
      PositiveAmountIsFounded(s, q, f, s.targetSpending, occ);
      src, dst := f.source.value, f.dest;
    }
  }

  // ---------------------------------------------------------------- where it must go

  /** What the batch's evacuations bring to, and debit from, a federation. */
  function EvacuatedInto(fed: FederationId): Decision -> nat {
    (d: Decision) => if d.action.Evacuate? && d.action.dst == fed then d.action.amount else 0
  }

  function EvacuatedFrom(fed: FederationId): Decision -> nat {
    (d: Decision) =>
      if d.action.Evacuate? && d.action.src == fed then Clamp(d.action.amount + d.action.feeCap) else 0
  }

  /** Some amount could be moved from `src` to `dst`: it reaches the floor, does not pass the target or
      the cap of `dst`, and `src` covers it with its fee above what it must keep, all behind what is
      already held and what the batch evacuates. */
  ghost predicate Performable(s: Snapshot, batch: seq<Decision>, src: FedStatus, dst: FedStatus, keep: u64, target: u64,
                              amount: nat)
  {
    && 0 < amount && ReachesFloor(s, src.id, dst.id, amount)
    && dst.spendable + s.reserved.Held(TargetCredit, dst.id) + Total(batch, EvacuatedInto(dst.id)) + amount <= target
    && dst.spendable + s.reserved.Held(Inbound, dst.id) + Total(batch, EvacuatedInto(dst.id)) + amount <= s.perFedCap
    && keep + s.reserved.Held(Outbound, src.id) + Total(batch, EvacuatedFrom(src.id)) + amount
       + amount * s.maxFeeBps / 10_000 <= src.spendable
  }

  /** The pass moves value from `src` to `dst`, or holds the move back for live work under another key
      that funds `dst` or drains either end. */
  ghost predicate IsFunded(p: Pass, src: FederationId, dst: FederationId, blocked: Holders) {
    || (exists d :: d in Emitted(p.decisions) && d.action.Move? && d.action.src == src && d.action.dst == dst)
    || (exists d :: d in p.suppressed && d.action.Move? && d.action.src == src && d.action.dst == dst
                    && (|| HeldByOther(blocked, FundInto(dst), d.key)
                        || HeldByOther(blocked, EvacuateFrom(src), d.key)
                        || HeldByOther(blocked, EvacuateFrom(dst), d.key)))
  }

  lemma {:induction false} EvacTotals(ds: seq<Decision>, fed: FederationId)
    requires forall d :: d in ds ==> d.action.Evacuate?
    ensures Total(ds, ShareOf(Inbound, fed)) == Total(ds, EvacuatedInto(fed))
    ensures Total(ds, ShareOf(Outbound, fed)) == Total(ds, EvacuatedFrom(fed))
  {
    if ds != [] {
      EvacTotals(ds[..|ds| - 1], fed);
    }
  }

  /** The evacuations come first and at most one funding move follows. */
  predicate EvacsThenMove(evacs: seq<Decision>, batch: seq<Decision>) {
    || batch == evacs
    || (|batch| == |evacs| + 1 && batch[..|evacs|] == evacs && batch[|evacs|].action.Move?)
  }

  lemma BatchIsEvacsThenMove(s: Snapshot, occ: Occurrence, blocked: Holders)
    requires s.Valid()
    ensures var evacs := Emitted(EvacPhase(s, |s.federations|, occ, blocked).decisions);
            EvacsThenMove(evacs, Batch(s, occ, blocked)) && forall d :: d in evacs ==> d.action.Evacuate?
  {
    BatchShape(s, occ, blocked);
  }

  lemma MoveAddsNoEvac(evacs: seq<Decision>, batch: seq<Decision>, fed: FederationId)
    requires EvacsThenMove(evacs, batch) && forall d :: d in evacs ==> d.action.Evacuate?
    ensures Total(evacs, ShareOf(Inbound, fed)) == Total(batch, EvacuatedInto(fed))
    ensures Total(evacs, ShareOf(Outbound, fed)) == Total(batch, EvacuatedFrom(fed))
  {
    EvacTotals(evacs, fed);
    if batch != evacs {
      var d := batch[|evacs|];
      assert batch == evacs + [d];
      TotalAppend(evacs, d, EvacuatedInto(fed));
      TotalAppend(evacs, d, EvacuatedFrom(fed));
    }
  }

  lemma BatchEvacTotals(s: Snapshot, occ: Occurrence, blocked: Holders, fed: FederationId)
    requires s.Valid()
    ensures var evacs := Emitted(EvacPhase(s, |s.federations|, occ, blocked).decisions);
            && Total(evacs, ShareOf(Inbound, fed)) == Total(Batch(s, occ, blocked), EvacuatedInto(fed))
            && Total(evacs, ShareOf(Outbound, fed)) == Total(Batch(s, occ, blocked), EvacuatedFrom(fed))
  {
    BatchIsEvacsThenMove(s, occ, blocked);
    MoveAddsNoEvac(Emitted(EvacPhase(s, |s.federations|, occ, blocked).decisions), Batch(s, occ, blocked), fed);
  }

  /** Room in the pass's own terms for an amount that is performable in the snapshot's. */
  lemma RoomFor(s: Snapshot, p: Pass, src: FedStatus, dst: FedStatus, keep: u64, target: u64, amount: nat)
    requires s.Valid() && Booked(p) && src in s.federations && dst in s.federations
    requires var ds := Emitted(p.decisions);
             && dst.spendable + s.reserved.Held(TargetCredit, dst.id) + Total(ds, ShareOf(Inbound, dst.id)) + amount <= target
             && dst.spendable + s.reserved.Held(Inbound, dst.id) + Total(ds, ShareOf(Inbound, dst.id)) + amount <= s.perFedCap
             && keep + s.reserved.Held(Outbound, src.id) + Total(ds, ShareOf(Outbound, src.id)) + amount
                + amount * s.maxFeeBps / 10_000 <= src.spendable
    ensures amount <= FundingShortfall(target, dst.spendable, s.reserved.Held(TargetCredit, dst.id),
                                       Lookup(p.credited, dst.id))
    ensures amount <= CapRoom(s, dst, p.credited)
    ensures amount <= MaxFundable(SourceRoom(s, src, p.debited, keep), s.maxFeeBps)
  {
    BookedTotals(p, dst.id);
    BookedTotals(p, src.id);
    MaxFundableIsExact(SourceRoom(s, src, p.debited, keep), s.maxFeeBps, amount);
  }

  /** Pushing a move leaves it, or the move already under its key, emitted or held back. */
  lemma PushFunds(p: Pass, d: Decision, blocked: Holders, occ: Occurrence)
    requires Keyed(p, occ) && d.action.Move? && WellKeyed(d, occ)
    ensures IsFunded(PushedIfEligible(p, d, blocked, occ), d.action.src, d.action.dst, blocked)
  {
    var q := PushedIfEligible(p, d, blocked, occ);
    PushExtends(p, d, blocked, occ);
    if Blocks(blocked, d, Agent(occ)) {
      var held := q.suppressed[IndexOf(p.suppressed, d.key)];
      assert held in q.suppressed && held.key == d.key && WellKeyed(held, occ);
      BlockedExactly(blocked, d, Agent(occ));
    } else {
      var sent := q.decisions[IndexOf(p.decisions, d.key)];
      assert sent in q.decisions && sent.key == d.key && WellKeyed(sent, occ);
      EmittedHas(q.decisions, sent);
    }
  }

  lemma FundedStands(p: Pass, q: Pass, src: FederationId, dst: FederationId, blocked: Holders, occ: Occurrence)
    requires IsFunded(p, src, dst, blocked) && Extends(p, q, occ)
    ensures IsFunded(q, src, dst, blocked)
  {
  }

  /** A funding with room for a performable amount is made. */
  lemma FundingIsMade(s: Snapshot, p: Pass, f: Funding, occ: Occurrence, blocked: Holders, amount: nat)
    requires Keyed(p, occ) && f.source.Some? && f.source.value.id != f.dest.id && IsTrustworthy(f.dest)
    requires RouteOpen(s, f.source.value.id, f.dest.id)
    requires 0 < amount && ReachesFloor(s, f.source.value.id, f.dest.id, amount)
    requires amount <= f.want && amount <= CapRoom(s, f.dest, p.credited) && amount <= f.available
    ensures IsFunded(Funded(p, f, s, occ, blocked), f.source.value.id, f.dest.id, blocked)
  {
    var d := MoveOf(f, s, occ, p.credited);
    var room, sized := CapRoom(s, f.dest, p.credited), f.Amount(s, p.credited);
    assert f.Floor(s) <= amount <= sized;
    var q := PushedIfEligible(p, d, blocked, occ);
    PushFunds(p, d, blocked, occ);
    PushExtends(p, d, blocked, occ);
    var candidate := if Blocks(blocked, d, Agent(occ)) then Some(d) else None;
    FundRefusalsExtend(q, f, s, occ, room, sized, candidate);
    FundedStands(q, Funded(p, f, s, occ, blocked), f.source.value.id, f.dest.id, blocked, occ);
  }

  lemma EvacPhaseKeyed(s: Snapshot, occ: Occurrence, blocked: Holders)
    requires s.Valid()
    ensures var p := EvacPhase(s, |s.federations|, occ, blocked); Keyed(p, occ) && Holds(s, p)
  {
    EvacPhaseAnswers(s, |s.federations|, occ, blocked);
  }

  /** Whenever some amount is performable, an underfunded spending federation is topped up from the
      standby, or the move is held back for live work. */
  lemma TopUpIsMade(s: Snapshot, occ: Occurrence, blocked: Holders, spending: FedStatus, standby: FedStatus, amount: nat)
    requires s.Valid() && spending in s.federations && standby in s.federations && spending.id != standby.id
    requires s.spendingFed == Some(spending.id) && s.standbyFed == Some(standby.id)
    requires !IsLeaving(spending) && !IsLeaving(standby) && IsTrustworthy(spending)
    requires RouteOpen(s, standby.id, spending.id)
    requires Performable(s, Batch(s, occ, blocked), standby, spending, 0, s.targetSpending, amount)
    ensures IsFunded(Decided(s, occ, blocked), standby.id, spending.id, blocked)
  {
    var p := EvacPhase(s, |s.federations|, occ, blocked);
    EvacPhaseKeyed(s, occ, blocked);
    FindIsUnique(s, spending);
    FindIsUnique(s, standby);
    BatchEvacTotals(s, occ, blocked, spending.id);
    BatchEvacTotals(s, occ, blocked, standby.id);
    RoomFor(s, p, standby, spending, 0, s.targetSpending, amount);
    var f := TopUp(s, spending, p);
    FundingIsMade(s, p, f, occ, blocked, amount);
    var q := ToppedUp(p, s, occ, blocked);
    FundedExtends(p, f, s, occ, blocked);
    FundedExtends(q, StandbyFunding(s, standby, q), s, occ, blocked);
    FundedStands(q, Decided(s, occ, blocked), standby.id, spending.id, blocked, occ);
  }

  /** A spending federation at its target is not topped up, so standby funding starts from what the
      evacuations left. */
  lemma NoTopUpAtTarget(s: Snapshot, p: Pass, occ: Occurrence, blocked: Holders, spending: FedStatus)
    requires s.Valid() && Holds(s, p) && Keyed(p, occ)
    requires spending in s.federations && s.spendingFed == Some(spending.id) && s.targetSpending <= spending.spendable
    ensures var q := ToppedUp(p, s, occ, blocked); Holds(s, q) && Keyed(q, occ) && SameMoney(p, q)
  {
    FindIsUnique(s, spending);
    ToppedUpHolds(s, p, occ, blocked);
    ToppedUpGoals(s, p, occ, blocked);
    FundedExtends(p, TopUp(s, spending, p), s, occ, blocked);
  }

  lemma StandbyFundingIsMade(s: Snapshot, q: Pass, batch: seq<Decision>, occ: Occurrence, blocked: Holders,
                             spending: FedStatus, standby: FedStatus, amount: nat)
    requires s.Valid() && Holds(s, q) && Keyed(q, occ)
    requires spending in s.federations && standby in s.federations && spending.id != standby.id
    requires s.spendingFed == Some(spending.id) && s.standbyFed == Some(standby.id)
    requires !IsLeaving(spending) && !IsLeaving(standby) && IsTrustworthy(standby)
    requires RouteOpen(s, spending.id, standby.id)
    requires Performable(s, batch, spending, standby, s.targetSpending, s.standbyTarget, amount)
    requires Total(Emitted(q.decisions), ShareOf(Inbound, standby.id)) == Total(batch, EvacuatedInto(standby.id))
    requires Total(Emitted(q.decisions), ShareOf(Outbound, spending.id)) == Total(batch, EvacuatedFrom(spending.id))
    ensures IsFunded(StandbyFilled(q, s, occ, blocked), spending.id, standby.id, blocked)
  {
    FindIsUnique(s, spending);
    FindIsUnique(s, standby);
    RoomFor(s, q, spending, standby, s.targetSpending, s.standbyTarget, amount);
    FundingIsMade(s, q, StandbyFunding(s, standby, q), occ, blocked, amount);
  }

  lemma PerformableKeeps(s: Snapshot, batch: seq<Decision>, src: FedStatus, dst: FedStatus, keep: u64, target: u64,
                         amount: nat)
    requires Performable(s, batch, src, dst, keep, target, amount)
    ensures keep <= src.spendable
  {
    MulMonotone(0, amount, s.maxFeeBps);
  }

  lemma StandbyIsFilledFrom(s: Snapshot, p: Pass, batch: seq<Decision>, occ: Occurrence, blocked: Holders,
                            spending: FedStatus, standby: FedStatus, amount: nat)
    requires s.Valid() && Holds(s, p) && Keyed(p, occ)
    requires spending in s.federations && standby in s.federations && spending.id != standby.id
    requires s.spendingFed == Some(spending.id) && s.standbyFed == Some(standby.id)
    requires !IsLeaving(spending) && !IsLeaving(standby) && IsTrustworthy(standby)
    requires RouteOpen(s, spending.id, standby.id)
    requires Performable(s, batch, spending, standby, s.targetSpending, s.standbyTarget, amount)
    requires Total(Emitted(p.decisions), ShareOf(Inbound, standby.id)) == Total(batch, EvacuatedInto(standby.id))
    requires Total(Emitted(p.decisions), ShareOf(Outbound, spending.id)) == Total(batch, EvacuatedFrom(spending.id))
    ensures IsFunded(StandbyFilled(ToppedUp(p, s, occ, blocked), s, occ, blocked), spending.id, standby.id, blocked)
  {
    PerformableKeeps(s, batch, spending, standby, s.targetSpending, s.standbyTarget, amount);
    NoTopUpAtTarget(s, p, occ, blocked, spending);
    StandbyFundingIsMade(s, ToppedUp(p, s, occ, blocked), batch, occ, blocked, spending, standby, amount);
  }

  /** Likewise the standby federation is filled from what the spending federation holds above its
      target. */
  lemma StandbyIsFilled(s: Snapshot, occ: Occurrence, blocked: Holders, spending: FedStatus, standby: FedStatus,
                        amount: nat)
    requires s.Valid() && spending in s.federations && standby in s.federations && spending.id != standby.id
    requires s.spendingFed == Some(spending.id) && s.standbyFed == Some(standby.id)
    requires !IsLeaving(spending) && !IsLeaving(standby) && IsTrustworthy(standby)
    requires RouteOpen(s, spending.id, standby.id)
    requires Performable(s, Batch(s, occ, blocked), spending, standby, s.targetSpending, s.standbyTarget, amount)
    ensures IsFunded(Decided(s, occ, blocked), spending.id, standby.id, blocked)
  {
    EvacPhaseKeyed(s, occ, blocked);
    BatchEvacTotals(s, occ, blocked, spending.id);
    BatchEvacTotals(s, occ, blocked, standby.id);
    StandbyIsFilledFrom(s, EvacPhase(s, |s.federations|, occ, blocked), Batch(s, occ, blocked), occ, blocked,
                        spending, standby, amount);
  }

  // ---------------------------------------------------------------- evacuations

  /** A federation other than `src` that may receive a drain and has room behind `before`. */
  ghost predicate CanReceive(s: Snapshot, before: seq<Decision>, g: FedStatus, src: FedStatus)
    requires s.Valid()
  {
    g.id != src.id && !IsLeaving(g) && IsTrustworthy(g) && Inflow(s, before, g.id) < s.perFedCap
  }

  /** An evacuation of the batch, against the federations it names and everything ahead of it: it drains
      a federation that is leaving, no further than it can pay, into the standby when that can receive
      and else into the federation with the smallest id that can, under the evacuation fee cap. */
  ghost predicate WellDrained(s: Snapshot, before: seq<Decision>, d: Decision, occ: Occurrence, src: FedStatus, dst: FedStatus)
    requires s.Valid()
  {
    && d.action.Evacuate? && d.action.src == src.id && d.action.dst == dst.id
    && d.reason == (if src.shutdownNotice then ShutdownNotice else Unhealthy) && IsLeaving(src)
    && CanReceive(s, before, dst, src)
    && 0 < d.action.amount && Outflow(s, before, src.id) + d.action.amount <= src.spendable
    && d.action.feeCap == Clamp(s.evacCap.base + d.action.amount * s.evacCap.bps / 10_000)
    && d.action.components == Some(s.evacCap)
    && d.action.gateway == RouteGateway(s, src.id, dst.id)
    && d.key == EvacKey(src.id, dst.id, occ) && d.occurrence == occ
    && (forall g :: g in s.federations && CanReceive(s, before, g, src) ==>
          (s.standbyFed == Some(g.id) || dst.id <= g.id || s.standbyFed == Some(dst.id)))
    && (forall g :: g in s.federations && CanReceive(s, before, g, src) && s.standbyFed == Some(g.id) ==> dst == g)
  }

  lemma EligibleIsReceiver(s: Snapshot, p: Pass, g: FedStatus, src: FedStatus)
    requires s.Valid() && Booked(p) && g in s.federations
    ensures EligibleTarget(s, g, src, p.credited) <==> CanReceive(s, Emitted(p.decisions), g, src)
  {
    BalanceOf(s, g);
    BookedTotals(p, g.id);
  }

  lemma EvacuationIsWellDrained(s: Snapshot, p: Pass, fed: FedStatus, occ: Occurrence)
    requires s.Valid() && Booked(p) && fed in s.federations && EvacuationReason(fed).Some?
    requires EvacuateDecision(fed, EvacuationReason(fed).value, s, occ, p.credited, p.debited).action.Evacuate?
    ensures var d := EvacuateDecision(fed, EvacuationReason(fed).value, s, occ, p.credited, p.debited);
            WellDrained(s, Emitted(p.decisions), d, occ, fed, SafestOther(s, fed, p.credited).value)
  {
    var dst := SafestOther(s, fed, p.credited).value;
    SourceRoomIsExact(s, p, fed, 0);
    BalanceOf(s, fed);
    forall g | g in s.federations
      ensures EligibleTarget(s, g, fed, p.credited) <==> CanReceive(s, Emitted(p.decisions), g, fed)
      ensures s.standbyFed == Some(g.id) ==> FindOpt(s, s.standbyFed) == Some(g)
    {
      EligibleIsReceiver(s, p, g, fed);
      FindIsUnique(s, g);
    }
  }

  ghost predicate DrainsWell(s: Snapshot, before: seq<Decision>, d: Decision, occ: Occurrence)
    requires s.Valid()
  {
    d.action.Evacuate? ==>
      exists src, dst :: src in s.federations && dst in s.federations && WellDrained(s, before, d, occ, src, dst)
  }

  ghost predicate AllDrainWell(s: Snapshot, p: Pass, occ: Occurrence)
    requires s.Valid()
  {
    Holds(s, p) && forall i :: 0 <= i < |Emitted(p.decisions)| ==>
      DrainsWell(s, Emitted(p.decisions)[..i], Emitted(p.decisions)[i], occ)
  }

  lemma DrainsWellGrows(s: Snapshot, p: Pass, q: Pass, d: Decision, occ: Occurrence)
    requires s.Valid() && AllDrainWell(s, p, occ) && Holds(s, q)
    requires Emitted(q.decisions) == Emitted(p.decisions) + [d] && DrainsWell(s, Emitted(p.decisions), d, occ)
    ensures AllDrainWell(s, q, occ)
  {
    var ds, all := Emitted(p.decisions), Emitted(q.decisions);
    forall i | 0 <= i < |all|
      ensures DrainsWell(s, all[..i], all[i], occ)
    {
      if i < |ds| {
        assert all[..i] == ds[..i] && DrainsWell(s, ds[..i], ds[i], occ);
      } else {
        assert all[..i] == ds;
      }
    }
  }

  lemma FedStepDrainsWell(s: Snapshot, p: Pass, fed: FedStatus, occ: Occurrence, blocked: Holders)
    requires s.Valid() && AllDrainWell(s, p, occ) && fed in s.federations
    ensures AllDrainWell(s, FedStep(p, fed, s, occ, blocked), occ)
  {
    var q := FedStep(p, fed, s, occ, blocked);
    FedStepHolds(s, p, fed, occ, blocked);
    FedStepMoney(p, fed, s, occ, blocked);
    if !SameMoney(p, q) {
      var d := EvacuateDecision(fed, EvacuationReason(fed).value, s, occ, p.credited, p.debited);
      EvacuationIsWellDrained(s, p, fed, occ);
      DrainsWellGrows(s, p, q, d, occ);
    }
  }

  lemma EvacPhaseDrainsWell(s: Snapshot, n: nat, occ: Occurrence, blocked: Holders)
    requires s.Valid() && n <= |s.federations|
    ensures AllDrainWell(s, EvacPhase(s, n, occ, blocked), occ)
  {
    var inv := (i: nat, p: Pass) => AllDrainWell(s, p, occ);
    assert Emitted(FRESH_PASS.decisions) == [];
    forall i: nat, p | i < |s.federations| && inv(i, p)
      ensures inv(i + 1, FedStep(p, s.federations[i], s, occ, blocked))
    {
      FedStepDrainsWell(s, p, s.federations[i], occ, blocked);
    }
    EvacPhaseInduction(s, n, occ, blocked, inv);
  }

  lemma EvacsOfBatchDrainWell(s: Snapshot, p: Pass, batch: seq<Decision>, occ: Occurrence, i: nat)
    requires s.Valid() && AllDrainWell(s, p, occ) && EvacsThenMove(Emitted(p.decisions), batch) && i < |batch|
    ensures DrainsWell(s, batch[..i], batch[i], occ)
  {
    var evacs := Emitted(p.decisions);
    if i < |evacs| {
      assert batch[..i] == evacs[..i] && batch[i] == evacs[i];
    }
  }

  /** Every evacuation the batch emits drains well. */
  lemma EvacuationsDrainWell(s: Snapshot, occ: Occurrence, blocked: Holders, i: nat)
    requires s.Valid() && i < |Batch(s, occ, blocked)|
    ensures DrainsWell(s, Batch(s, occ, blocked)[..i], Batch(s, occ, blocked)[i], occ)
  {
    EvacPhaseDrainsWell(s, |s.federations|, occ, blocked);
    BatchIsEvacsThenMove(s, occ, blocked);
    EvacsOfBatchDrainWell(s, EvacPhase(s, |s.federations|, occ, blocked), Batch(s, occ, blocked), occ, i);
  }
}

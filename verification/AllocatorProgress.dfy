/** What the allocator must do: every amount is as large as it may be, and no federation that
    needs evacuating is passed over while it has funds and another has room. */
module AllocatorProgress {
  import opened Amounts
  import opened Types
  import opened Reservations
  import opened Conflict
  import opened Sizing
  import opened Allocator
  import opened AllocatorSafety
  import opened AllocatorGoals

  // ---------------------------------------------------------------- amounts are maximal

  /** Balance, prior reservations and the batch so far, on the receiving side of `fed`. */
  ghost function Inflow(s: Snapshot, before: seq<Decision>, fed: FederationId): nat
    requires s.Valid()
  {
    Lookup(Balances(s), fed) + s.reserved.Held(Inbound, fed) + Total(before, ShareOf(Inbound, fed))
  }

  ghost function Outflow(s: Snapshot, before: seq<Decision>, fed: FederationId): nat {
    s.reserved.Held(Outbound, fed) + Total(before, ShareOf(Outbound, fed))
  }

  /** What the destination of a funding move is filled to, counting target credit. */
  ghost function FilledTo(s: Snapshot, before: seq<Decision>, a: Action): nat
    requires s.Valid() && a.Move?
  {
    Lookup(Balances(s), a.dst) + s.reserved.Held(TargetCredit, a.dst) + Total(before, ShareOf(Inbound, a.dst)) + a.amount
  }

  /** One unit more would pass the cap, the target, or what the source can pay for. */
  ghost predicate Tight(s: Snapshot, before: seq<Decision>, d: Decision)
    requires s.Valid()
  {
    var a := d.action;
    match a
    case Evacuate(src, dst, amount, _, _, _) =>
      || Inflow(s, before, dst) + amount == s.perFedCap
      || Outflow(s, before, src) + amount == Lookup(Balances(s), src)
    case Move(src, dst, amount, _, _) =>
      var target, floor := if d.reason.StandbyBelowTarget? then s.standbyTarget else s.targetSpending,
                           if d.reason.StandbyBelowTarget? then s.targetSpending else 0;
      || Inflow(s, before, dst) + amount == s.perFedCap
      || FilledTo(s, before, a) == target
      || floor + Outflow(s, before, src) + (amount + 1) + (amount + 1) * s.maxFeeBps / 10_000 > Lookup(Balances(s), src)
    case _ => false
  }

  ghost predicate AllTight(s: Snapshot, ds: seq<Decision>)
    requires s.Valid()
  {
    forall i :: 0 <= i < |ds| ==> Tight(s, ds[..i], ds[i])
  }

  lemma AppendKeepsTight(s: Snapshot, ds: seq<Decision>, d: Decision)
    requires s.Valid() && AllTight(s, ds) && Tight(s, ds, d)
    ensures AllTight(s, ds + [d])
  {
    var all := ds + [d];
    forall i | 0 <= i < |all|
      ensures Tight(s, all[..i], all[i])
    {
      if i < |ds| {
        assert all[..i] == ds[..i];
        assert Tight(s, ds[..i], ds[i]);
      } else {
        assert all[..i] == ds;
      }
    }
  }

  lemma EvacuationIsTight(s: Snapshot, p: Pass, fed: FedStatus, reason: ReasonCode, occ: Occurrence)
    requires s.Valid() && Booked(p) && fed in s.federations
    requires EvacuateDecision(fed, reason, s, occ, p.credited, p.debited).action.Evacuate?
    ensures Tight(s, Emitted(p.decisions), EvacuateDecision(fed, reason, s, occ, p.credited, p.debited))
  {
    var dst := SafestOther(s, fed, p.credited).value;
    if SourceRoom(s, fed, p.debited, 0) < CapRoom(s, dst, p.credited) {
      SourceRoomIsExact(s, p, fed, 0);
    } else {
      CapRoomIsExact(s, p, dst);
    }
  }

  lemma ShortfallIsExact(s: Snapshot, p: Pass, fed: FedStatus, target: u64)
    requires s.Valid() && Booked(p) && fed in s.federations
    requires 0 < FundingShortfall(target, fed.spendable, s.reserved.Held(TargetCredit, fed.id),
                                  Lookup(p.credited, fed.id))
    ensures var want := FundingShortfall(target, fed.spendable, s.reserved.Held(TargetCredit, fed.id),
                                         Lookup(p.credited, fed.id));
            Lookup(Balances(s), fed.id) + s.reserved.Held(TargetCredit, fed.id)
            + Total(Emitted(p.decisions), ShareOf(Inbound, fed.id)) + want == target
  {
    BalanceOf(s, fed);
    BookedTotals(p, fed.id);
  }

  lemma OneMoreIsTooMuch(s: Snapshot, p: Pass, src: FedStatus, floor: u64, amount: u64)
    requires s.Valid() && Booked(p) && src in s.federations && 0 < amount
    requires amount == MaxFundable(SourceRoom(s, src, p.debited, floor), s.maxFeeBps)
    ensures floor + Outflow(s, Emitted(p.decisions), src.id) + (amount + 1) + (amount + 1) * s.maxFeeBps / 10_000
            > Lookup(Balances(s), src.id)
  {
    var room := SourceRoom(s, src, p.debited, floor);
    MaxFundableIsExact(room, s.maxFeeBps, amount + 1);
    NothingFundable(s.maxFeeBps);
    SourceRoomIsExact(s, p, src, floor);
  }

  lemma FundingIsTight(s: Snapshot, p: Pass, f: Funding, floor: u64, target: u64, occ: Occurrence)
    requires s.Valid() && Booked(p) && DrawsOn(s, p, f, floor)
    requires f.want == FundingShortfall(target, f.dest.spendable, s.reserved.Held(TargetCredit, f.dest.id),
                                        Lookup(p.credited, f.dest.id))
    requires target == (if f.reason.StandbyBelowTarget? then s.standbyTarget else s.targetSpending)
    requires floor == (if f.reason.StandbyBelowTarget? then s.targetSpending else 0)
    requires f.source.Some? && f.Amount(s, p.credited) > 0
    ensures Tight(s, Emitted(p.decisions), MoveOf(f, s, occ, p.credited))
  {
    var amount := f.Amount(s, p.credited);
    if amount == f.want {
      ShortfallIsExact(s, p, f.dest, target);
    } else if amount == CapRoom(s, f.dest, p.credited) {
      CapRoomIsExact(s, p, f.dest);
    } else {
      OneMoreIsTooMuch(s, p, f.source.value, floor, amount);
    }
  }

  ghost predicate TightSoFar(s: Snapshot, p: Pass)
    requires s.Valid()
  {
    Holds(s, p) && AllTight(s, Emitted(p.decisions))
  }

  lemma FedStepTight(s: Snapshot, p: Pass, fed: FedStatus, occ: Occurrence, blocked: Holders)
    requires s.Valid() && TightSoFar(s, p) && fed in s.federations
    ensures TightSoFar(s, FedStep(p, fed, s, occ, blocked))
  {
    FedStepHolds(s, p, fed, occ, blocked);
    FedStepMoney(p, fed, s, occ, blocked);
    if !SameMoney(p, FedStep(p, fed, s, occ, blocked)) {
      var reason := EvacuationReason(fed).value;
      EvacuationIsTight(s, p, fed, reason, occ);
      AppendKeepsTight(s, Emitted(p.decisions), EvacuateDecision(fed, reason, s, occ, p.credited, p.debited));
    }
  }

  lemma EvacPhaseTight(s: Snapshot, n: nat, occ: Occurrence, blocked: Holders)
    requires s.Valid() && n <= |s.federations|
    ensures TightSoFar(s, EvacPhase(s, n, occ, blocked))
  {
    var inv := (i: nat, p: Pass) => TightSoFar(s, p);
    assert Emitted(FRESH_PASS.decisions) == [];
    forall i: nat, p | i < |s.federations| && inv(i, p)
      ensures inv(i + 1, FedStep(p, s.federations[i], s, occ, blocked))
    {
      FedStepTight(s, p, s.federations[i], occ, blocked);
    }
    EvacPhaseInduction(s, n, occ, blocked, inv);
  }

  lemma ToppedUpTight(s: Snapshot, p: Pass, occ: Occurrence, blocked: Holders)
    requires s.Valid() && Booked(p) && AllTight(s, Emitted(p.decisions))
    ensures AllTight(s, Emitted(ToppedUp(p, s, occ, blocked).decisions))
  {
    ToppedUpGoals(s, p, occ, blocked);
    if !SameMoney(p, ToppedUp(p, s, occ, blocked)) {
      var f := TopUp(s, FindOpt(s, s.spendingFed).value, p);
      FundingIsTight(s, p, f, 0, s.targetSpending, occ);
      AppendKeepsTight(s, Emitted(p.decisions), MoveOf(f, s, occ, p.credited));
    }
  }

  lemma StandbyFilledTight(s: Snapshot, p: Pass, occ: Occurrence, blocked: Holders)
    requires s.Valid() && Booked(p) && AllTight(s, Emitted(p.decisions))
    ensures AllTight(s, Emitted(StandbyFilled(p, s, occ, blocked).decisions))
  {
    StandbyFilledGoals(s, p, occ, blocked);
    if !SameMoney(p, StandbyFilled(p, s, occ, blocked)) {
      var f := StandbyFunding(s, FindOpt(s, s.standbyFed).value, p);
      FundingIsTight(s, p, f, s.targetSpending, s.standbyTarget, occ);
      AppendKeepsTight(s, Emitted(p.decisions), MoveOf(f, s, occ, p.credited));
    }
  }

  /** No emitted amount could be larger by even one unit: it fills its destination to the cap or
      the target, or takes all its source can pay for behind what was reserved before it. */
  lemma AmountsAreMaximal(s: Snapshot, occ: Occurrence, blocked: Holders, i: nat)
    requires s.Valid() && i < |Batch(s, occ, blocked)|
    ensures Tight(s, Batch(s, occ, blocked)[..i], Batch(s, occ, blocked)[i])
  {
    var p := EvacPhase(s, |s.federations|, occ, blocked);
    EvacPhaseTight(s, |s.federations|, occ, blocked);
    EvacPhaseHolds(s, |s.federations|, occ, blocked);
    ToppedUpTight(s, p, occ, blocked);
    ToppedUpHolds(s, p, occ, blocked);
    StandbyFilledTight(s, ToppedUp(p, s, occ, blocked), occ, blocked);
  }

  // ---------------------------------------------------------------- nothing is passed over

  /** A decision sits under the key of its kind. */
  predicate WellKeyed(d: Decision, occ: Occurrence) {
    match d.action
    case Evacuate(src, dst, _, _, _, _) => d.key == EvacKey(src, dst, occ)
    case Move(src, dst, _, _, _) => d.key == MoveKey(src, dst, occ)
    case RefuseInflow(_, _, _) => d.key.RefuseKey? || d.key.SuppressedKey?
    case _ => false
  }

  ghost predicate Keyed(p: Pass, occ: Occurrence) {
    && (forall d :: d in p.decisions ==> WellKeyed(d, occ))
    && (forall d :: d in p.suppressed ==> WellKeyed(d, occ) && d.action.IsExecutable())
  }

  /** Executable decisions, emitted or suppressed, are never dropped. */
  ghost predicate Extends(p: Pass, q: Pass, occ: Occurrence) {
    && Keyed(q, occ)
    && Emitted(p.decisions) <= Emitted(q.decisions)
    && (forall d :: d in p.suppressed ==> d in q.suppressed)
  }

  lemma PushedMembers(ds: seq<Decision>, d: Decision)
    ensures forall x :: x in Pushed(ds, d) ==> x == d || x in ds
    ensures forall x :: x in ds && (x.action.IsExecutable() || d.action.IsExecutable()) ==> x in Pushed(ds, d)
  {
    var i := IndexOf(ds, d.key);
    if i < |ds| && Enriches(d, ds[i]) {
      forall x | x in ds && x.action.IsExecutable()
        ensures x in ds[i := d]
      {
        var k :| 0 <= k < |ds| && ds[k] == x;
        assert ds[i := d][k] == x;
      }
    } else if i == |ds| {
      assert forall x :: x in ds + [d] <==> x in ds || x == d;
    }
  }

  lemma RefusedExtends(p: Pass, d: Decision, occ: Occurrence)
    requires Keyed(p, occ) && d.action.RefuseInflow? && WellKeyed(d, occ)
    ensures Extends(p, Refused(p, d), occ)
  {
    PushedMembers(p.decisions, d);
    RefusalMovesNothing(p, d);
  }

  lemma PushExtends(p: Pass, d: Decision, blocked: Holders, occ: Occurrence)
    requires Keyed(p, occ) && d.action.IsExecutable() && WellKeyed(d, occ)
    ensures Extends(p, PushedIfEligible(p, d, blocked, occ), occ)
  {
    PushedMembers(p.decisions, d);
    PushedMembers(p.suppressed, d);
    PushMoney(p, d, blocked, occ);
  }

  lemma ExtendsChain(p: Pass, q: Pass, r: Pass, occ: Occurrence)
    requires Extends(p, q, occ) && Extends(q, r, occ)
    ensures Extends(p, r, occ)
  {
  }

  lemma FundRefusalsExtend(p: Pass, f: Funding, s: Snapshot, occ: Occurrence, room: u64, amount: u64,
                           candidate: Option<Decision>)
    requires Keyed(p, occ)
    ensures Extends(p, FundRefusals(p, f, s, occ, room, amount, candidate), occ)
  {
    var over := RefusalFor(candidate, f.dest.id, OverCap, occ);
    var q := if f.want > room then Refused(p, over) else p;
    RefusedExtends(p, over, occ);
    var last := RefusalFor(candidate, f.dest.id, if f.Uneconomic(s) then UneconomicRoute else f.reason, occ);
    RefusedExtends(q, last, occ);
    ExtendsChain(p, q, Refused(q, last), occ);
  }

  lemma FundedExtends(p: Pass, f: Funding, s: Snapshot, occ: Occurrence, blocked: Holders)
    requires Keyed(p, occ)
    ensures Extends(p, Funded(p, f, s, occ, blocked), occ)
  {
    if ReceiveBlocker(f.dest).Some? {
      RefusedExtends(p, RefuseDecision(f.dest.id, ReceiveBlocker(f.dest).value, occ, true), occ);
    } else if (f.source.Some? && f.source.value.id == f.dest.id) || f.IsDust(s) {
    } else {
      var room, amount := CapRoom(s, f.dest, p.credited), f.Amount(s, p.credited);
      if f.source.Some? && amount > 0 {
        var d := MoveOf(f, s, occ, p.credited);
        var candidate := if Blocks(blocked, d, Agent(occ)) then Some(d) else None;
        PushExtends(p, d, blocked, occ);
        FundRefusalsExtend(PushedIfEligible(p, d, blocked, occ), f, s, occ, room, amount, candidate);
      } else {
        FundRefusalsExtend(p, f, s, occ, room, amount, None);
      }
    }
  }

  /** The federation announced its shutdown or is not healthy. */
  predicate IsLeaving(f: FedStatus) {
    f.shutdownNotice || !f.healthy
  }

  predicate IsTrustworthy(f: FedStatus) {
    f.eligibleToFund && f.probedOk && f.reputation >= 0
  }

  /** A federation an evacuation may drain into, room aside. */
  predicate MayReceive(g: FedStatus, fed: FedStatus) {
    g.id != fed.id && !IsLeaving(g) && IsTrustworthy(g)
  }

  predicate Drains(d: Decision, fed: FedStatus) {
    d.action.Evacuate? && d.action.src == fed.id
  }

  /** An evacuating federation is drained by the batch, is already being drained by work that
      blocks a second drain, has nothing left to move, or has nowhere with room to move it to. */
  ghost predicate Answered(s: Snapshot, p: Pass, fed: FedStatus, occ: Occurrence, blocked: Holders)
    requires s.Valid()
  {
    var ds := Emitted(p.decisions);
    || (exists d :: d in ds && Drains(d, fed))
    || (exists d :: d in p.suppressed && Drains(d, fed) && HeldByOther(blocked, EvacuateFrom(fed.id), d.key))
    || Lookup(Balances(s), fed.id) <= Outflow(s, ds, fed.id)
    || (forall g :: g in s.federations && MayReceive(g, fed) ==> s.perFedCap <= Inflow(s, ds, g.id))
  }

  lemma NoRoomIsFull(s: Snapshot, p: Pass, g: FedStatus)
    requires s.Valid() && Booked(p) && g in s.federations && CapRoom(s, g, p.credited) == 0
    ensures s.perFedCap <= Inflow(s, Emitted(p.decisions), g.id)
  {
    BalanceOf(s, g);
    BookedTotals(p, g.id);
  }

  lemma NoRoomIsEmpty(s: Snapshot, p: Pass, fed: FedStatus)
    requires s.Valid() && Booked(p) && fed in s.federations && SourceRoom(s, fed, p.debited, 0) == 0
    ensures Lookup(Balances(s), fed.id) <= Outflow(s, Emitted(p.decisions), fed.id)
  {
    BalanceOf(s, fed);
    BookedTotals(p, fed.id);
  }

  /** No evacuation is proposed only when there is nothing to move or nowhere to move it. */
  lemma RefusalIsForced(s: Snapshot, p: Pass, fed: FedStatus, reason: ReasonCode, occ: Occurrence, blocked: Holders)
    requires s.Valid() && Booked(p) && fed in s.federations
    requires !EvacuateDecision(fed, reason, s, occ, p.credited, p.debited).action.Evacuate?
    ensures Answered(s, p, fed, occ, blocked)
  {
    if SafestOther(s, fed, p.credited).None? {
      forall g | g in s.federations && MayReceive(g, fed)
        ensures s.perFedCap <= Inflow(s, Emitted(p.decisions), g.id)
      {
        assert !EligibleTarget(s, g, fed, p.credited);
        NoRoomIsFull(s, p, g);
      }
    } else {
      NoRoomIsEmpty(s, p, fed);
    }
  }

  /** Answers survive whatever the pass does later. */
  lemma AnswerStands(s: Snapshot, p: Pass, q: Pass, fed: FedStatus, occ: Occurrence, blocked: Holders)
    requires s.Valid() && Answered(s, p, fed, occ, blocked) && Extends(p, q, occ)
    ensures Answered(s, q, fed, occ, blocked)
  {
    var ds, more := Emitted(p.decisions), Emitted(q.decisions);
    assert more == ds + more[|ds|..];
    TotalConcat(ds, more[|ds|..], ShareOf(Outbound, fed.id));
    if forall g :: g in s.federations && MayReceive(g, fed) ==> s.perFedCap <= Inflow(s, ds, g.id) {
      forall g | g in s.federations && MayReceive(g, fed)
        ensures s.perFedCap <= Inflow(s, more, g.id)
      {
        TotalConcat(ds, more[|ds|..], ShareOf(Inbound, g.id));
      }
    }
  }

  /** A pushed evacuation, or the decision already under its key, drains the federation. */
  lemma PushAnswers(s: Snapshot, p: Pass, fed: FedStatus, d: Decision, occ: Occurrence, blocked: Holders)
    requires s.Valid() && Keyed(p, occ) && Drains(d, fed) && WellKeyed(d, occ)
    ensures Answered(s, PushedIfEligible(p, d, blocked, occ), fed, occ, blocked)
  {
    var q := PushedIfEligible(p, d, blocked, occ);
    PushExtends(p, d, blocked, occ);
    if Blocks(blocked, d, Agent(occ)) {
      var i := IndexOf(p.suppressed, d.key);
      var held := q.suppressed[i];
      assert held in q.suppressed && Drains(held, fed) && held.key == d.key;
      BlockedExactly(blocked, d, Agent(occ));
    } else {
      var i := IndexOf(p.decisions, d.key);
      var sent := q.decisions[i];
      assert sent in q.decisions && WellKeyed(sent, occ) && sent.key == d.key;
      EmittedHas(q.decisions, sent);
    }
  }

  lemma EvacuatedAnswers(s: Snapshot, p: Pass, fed: FedStatus, occ: Occurrence, blocked: Holders)
    requires s.Valid() && Booked(p) && Keyed(p, occ) && fed in s.federations && EvacuationReason(fed).Some?
    ensures var q := Evacuated(p, fed, EvacuationReason(fed).value, s, occ, blocked);
            Extends(p, q, occ) && Answered(s, q, fed, occ, blocked)
  {
    var reason := EvacuationReason(fed).value;
    var d := EvacuateDecision(fed, reason, s, occ, p.credited, p.debited);
    var pushed := PushedIfEligible(p, d, blocked, occ);
    var q := Evacuated(p, fed, reason, s, occ, blocked);
    if d.action.Evacuate? {
      PushExtends(p, d, blocked, occ);
      PushAnswers(s, p, fed, d, occ, blocked);
      RefusedExtends(pushed, RefusalFor(Some(d), fed.id, reason, occ), occ);
      AnswerStands(s, pushed, q, fed, occ, blocked);
    } else {
      RefusedExtends(p, d, occ);
      RefusalIsForced(s, p, fed, reason, occ, blocked);
      AnswerStands(s, p, q, fed, occ, blocked);
    }
  }

  lemma FedStepAnswers(s: Snapshot, p: Pass, fed: FedStatus, occ: Occurrence, blocked: Holders)
    requires s.Valid() && Booked(p) && Keyed(p, occ) && fed in s.federations
    ensures var q := FedStep(p, fed, s, occ, blocked);
            Extends(p, q, occ) && (EvacuationReason(fed).Some? ==> Answered(s, q, fed, occ, blocked))
  {
    var reason := EvacuationReason(fed);
    var q := if reason.Some? then Evacuated(p, fed, reason.value, s, occ, blocked) else p;
    var r := FedStep(p, fed, s, occ, blocked);
    if reason.Some? {
      EvacuatedAnswers(s, p, fed, occ, blocked);
    }
    RefusedExtends(q, RefuseDecision(fed.id, OverCap, occ, false), occ);
    if reason.Some? {
      AnswerStands(s, q, r, fed, occ, blocked);
    }
  }

  ghost predicate AnsweredUpTo(s: Snapshot, n: nat, p: Pass, occ: Occurrence, blocked: Holders)
    requires s.Valid() && n <= |s.federations|
  {
    forall i :: 0 <= i < n && EvacuationReason(s.federations[i]).Some? ==> Answered(s, p, s.federations[i], occ, blocked)
  }

  lemma AnswersStand(s: Snapshot, n: nat, p: Pass, q: Pass, occ: Occurrence, blocked: Holders)
    requires s.Valid() && n <= |s.federations| && AnsweredUpTo(s, n, p, occ, blocked) && Extends(p, q, occ)
    ensures AnsweredUpTo(s, n, q, occ, blocked)
  {
    forall i | 0 <= i < n && EvacuationReason(s.federations[i]).Some?
      ensures Answered(s, q, s.federations[i], occ, blocked)
    {
      AnswerStands(s, p, q, s.federations[i], occ, blocked);
    }
  }

  ghost predicate AnsweredSoFar(s: Snapshot, n: nat, p: Pass, occ: Occurrence, blocked: Holders)
    requires s.Valid()
  {
    n <= |s.federations| && Holds(s, p) && Keyed(p, occ) && AnsweredUpTo(s, n, p, occ, blocked)
  }

  lemma FedStepAnswersUpTo(s: Snapshot, n: nat, p: Pass, occ: Occurrence, blocked: Holders)
    requires s.Valid() && n < |s.federations| && AnsweredSoFar(s, n, p, occ, blocked)
    ensures AnsweredSoFar(s, n + 1, FedStep(p, s.federations[n], s, occ, blocked), occ, blocked)
  {
    FedStepHolds(s, p, s.federations[n], occ, blocked);
    FedStepAnswers(s, p, s.federations[n], occ, blocked);
    AnswersStand(s, n, p, FedStep(p, s.federations[n], s, occ, blocked), occ, blocked);
  }

  lemma EvacPhaseAnswers(s: Snapshot, n: nat, occ: Occurrence, blocked: Holders)
    requires s.Valid() && n <= |s.federations|
    ensures AnsweredSoFar(s, n, EvacPhase(s, n, occ, blocked), occ, blocked)
  {
    var inv := (i: nat, p: Pass) => AnsweredSoFar(s, i, p, occ, blocked);
    assert Emitted(FRESH_PASS.decisions) == [];
    forall i: nat, p | i < |s.federations| && inv(i, p)
      ensures inv(i + 1, FedStep(p, s.federations[i], s, occ, blocked))
    {
      FedStepAnswersUpTo(s, i, p, occ, blocked);
    }
    EvacPhaseInduction(s, n, occ, blocked, inv);
  }

  /** The allocator is work-conserving: no federation that must be evacuated is passed over. */
  lemma EveryEvacuationIsAnswered(s: Snapshot, occ: Occurrence, blocked: Holders, fed: FedStatus)
    requires s.Valid() && fed in s.federations && (fed.shutdownNotice || !fed.healthy)
    ensures Answered(s, Decided(s, occ, blocked), fed, occ, blocked)
  {
    var n := |s.federations|;
    var p := EvacPhase(s, n, occ, blocked);
    var q := ToppedUp(p, s, occ, blocked);
    EvacPhaseAnswers(s, n, occ, blocked);
    var spending, standby := FindOpt(s, s.spendingFed), FindOpt(s, s.standbyFed);
    if spending.Some? {
      FundedExtends(p, TopUp(s, spending.value, p), s, occ, blocked);
    }
    AnswerStands(s, p, q, fed, occ, blocked);
    if standby.Some? {
      FundedExtends(q, StandbyFunding(s, standby.value, q), s, occ, blocked);
    }
    AnswerStands(s, q, Decided(s, occ, blocked), fed, occ, blocked);
  }
}

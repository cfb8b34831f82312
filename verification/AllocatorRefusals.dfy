/** What the pass records when it does not move value: every refusal has its cause in the snapshot,
    and nothing that stays undone goes unrecorded except where the pass is meant to be silent. */
module AllocatorRefusals {
  import opened Amounts
  import opened Types
  import opened Reservations
  import opened Conflict
  import opened Allocator
  import opened AllocatorSafety
  import opened AllocatorGoals
  import opened AllocatorProgress
  import opened AllocatorFunding

  // ---------------------------------------------------------------- one decision per key

  ghost predicate OnePerKey(ds: seq<Decision>) {
    forall i, j :: 0 <= i < j < |ds| ==> ds[i].key != ds[j].key
  }

  predicate IsRefusal(d: Decision, populated: bool) {
    d.action.RefuseInflow? && d.action.populated == populated
  }

  /** Exactly what a push does: append under a new key; under a known one change nothing, but put a
      refusal with figures in the place of one without. */
  lemma PushIsExact(ds: seq<Decision>, d: Decision)
    requires OnePerKey(ds)
    ensures OnePerKey(Pushed(ds, d))
    ensures (forall x :: x in ds ==> x.key != d.key) ==> Pushed(ds, d) == ds + [d]
    ensures (exists x :: x in ds && x.key == d.key) ==>
              && |Pushed(ds, d)| == |ds|
              && forall i :: 0 <= i < |ds| ==>
                   Pushed(ds, d)[i]
                   == if ds[i].key == d.key && IsRefusal(d, true) && IsRefusal(ds[i], false) then d else ds[i]
  {
    var k := IndexOf(ds, d.key);
    if x :| x in ds && x.key == d.key {
      var i :| 0 <= i < |ds| && ds[i] == x;
      assert i == k;
    }
  }

  // ---------------------------------------------------------------- causes

  /** The federation is meant to hold more than it does. */
  predicate IsShort(s: Snapshot, f: FedStatus) {
    !IsLeaving(f) && (ShortOfSpending(s, f) || ShortOfStandby(s, f))
  }

  predicate ShortOfSpending(s: Snapshot, f: FedStatus) {
    s.spendingFed == Some(f.id) && f.spendable < s.targetSpending
  }

  predicate ShortOfStandby(s: Snapshot, f: FedStatus) {
    s.standbyFed == Some(f.id) && f.spendable < s.standbyTarget
  }

  ghost predicate HasCause(s: Snapshot, f: FedStatus, reason: ReasonCode) {
    match reason
    case ShutdownNotice => f.shutdownNotice
    case Unhealthy => !f.shutdownNotice && !f.healthy
    case OverCap => f.spendable > s.perFedCap || IsShort(s, f)
    case NotProbed => IsShort(s, f) && !(f.eligibleToFund && f.probedOk)
    case LowReputation => IsShort(s, f) && f.eligibleToFund && f.probedOk && f.reputation < 0
    case UneconomicRoute =>
      IsShort(s, f) && exists src :: (src, f.id) in s.routes && s.routes[(src, f.id)].status == UneconomicAtAnySize
    case SpendingBelowTarget => !IsLeaving(f) && ShortOfSpending(s, f)
    case StandbyBelowTarget => !IsLeaving(f) && ShortOfStandby(s, f)
    case _ => false
  }

  /** The key names the refused federation and the reason, and the candidate it stands for if any. */
  predicate NamesRefusal(d: Decision, occ: Occurrence) {
    && d.action.RefuseInflow? && d.reason == d.action.reason && d.occurrence == occ
    && (|| d.key == RefuseKey(d.reason, d.action.fed, occ)
        || (&& d.key.SuppressedKey? && d.key.reason == d.reason
            && (|| (d.key.candidate.EvacKey? && d.key.candidate.src == d.action.fed)
                || (d.key.candidate.MoveKey? && d.key.candidate.dst == d.action.fed))))
  }

  ghost predicate Justified(s: Snapshot, d: Decision, occ: Occurrence) {
    NamesRefusal(d, occ) && exists f :: f in s.federations && f.id == d.action.fed && HasCause(s, f, d.reason)
  }

  /** One decision per key, every decision under the key of its kind, every refusal with its cause. */
  ghost predicate Proper(s: Snapshot, p: Pass, occ: Occurrence) {
    && Keyed(p, occ) && OnePerKey(p.decisions) && OnePerKey(p.suppressed)
    && forall d :: d in p.decisions && d.action.RefuseInflow? ==> Justified(s, d, occ)
  }

  lemma RefusedProper(s: Snapshot, p: Pass, d: Decision, occ: Occurrence)
    requires Proper(s, p, occ) && Justified(s, d, occ)
    ensures Proper(s, Refused(p, d), occ) && Extends(p, Refused(p, d), occ)
  {
    RefusedExtends(p, d, occ);
    PushIsExact(p.decisions, d);
    PushedMembers(p.decisions, d);
  }

  lemma PushProper(s: Snapshot, p: Pass, d: Decision, blocked: Holders, occ: Occurrence)
    requires Proper(s, p, occ) && d.action.IsExecutable() && WellKeyed(d, occ)
    ensures Proper(s, PushedIfEligible(p, d, blocked, occ), occ)
  {
    PushExtends(p, d, blocked, occ);
    if Blocks(blocked, d, Agent(occ)) {
      PushIsExact(p.suppressed, d);
    } else {
      PushIsExact(p.decisions, d);
      PushedMembers(p.decisions, d);
      assert PushedIfEligible(p, d, blocked, occ).suppressed == p.suppressed;
    }
  }

  lemma CauseGiven(s: Snapshot, f: FedStatus, d: Decision, occ: Occurrence)
    requires NamesRefusal(d, occ) && f in s.federations && f.id == d.action.fed && HasCause(s, f, d.reason)
    ensures Justified(s, d, occ)
  {
  }

  // ---------------------------------------------------------------- what is recorded stays recorded

  ghost predicate Refuses(p: Pass, fed: FederationId, reason: ReasonCode) {
    exists d :: d in p.decisions && d.action.RefuseInflow? && d.action.fed == fed && d.action.reason == reason
  }

  /** Nothing recorded is lost. */
  ghost predicate Remembers(p: Pass, q: Pass) {
    forall fed, reason :: Refuses(p, fed, reason) ==> Refuses(q, fed, reason)
  }

  lemma SameKeySameRefusal(d: Decision, e: Decision, occ: Occurrence)
    requires NamesRefusal(d, occ) && NamesRefusal(e, occ) && d.key == e.key
    ensures d.action.fed == e.action.fed && d.action.reason == e.action.reason
  {
  }

  lemma RefusedRecords(s: Snapshot, p: Pass, d: Decision, occ: Occurrence)
    requires Proper(s, p, occ) && Justified(s, d, occ)
    ensures Refuses(Refused(p, d), d.action.fed, d.action.reason)
  {
    var i := IndexOf(p.decisions, d.key);
    var e := Refused(p, d).decisions[i];
    assert e in Refused(p, d).decisions;
    if i < |p.decisions| {
      assert WellKeyed(p.decisions[i], occ) && Justified(s, p.decisions[i], occ);
      SameKeySameRefusal(d, p.decisions[i], occ);
    }
  }

  lemma RefusedRemembers(s: Snapshot, p: Pass, d: Decision, occ: Occurrence)
    requires Proper(s, p, occ) && Justified(s, d, occ)
    ensures Remembers(p, Refused(p, d))
  {
    var q := Refused(p, d);
    var i := IndexOf(p.decisions, d.key);
    forall fed, reason | Refuses(p, fed, reason)
      ensures Refuses(q, fed, reason)
    {
      var e :| e in p.decisions && e.action.RefuseInflow? && e.action.fed == fed && e.action.reason == reason;
      var k :| 0 <= k < |p.decisions| && p.decisions[k] == e;
      if k == i {
        assert Justified(s, e, occ);
        SameKeySameRefusal(d, e, occ);
        RefusedRecords(s, p, d, occ);
      } else {
        assert q.decisions[k] == e;
      }
    }
  }

  lemma PushRemembers(p: Pass, d: Decision, blocked: Holders, occ: Occurrence)
    requires d.action.IsExecutable()
    ensures Remembers(p, PushedIfEligible(p, d, blocked, occ))
  {
    PushedMembers(p.decisions, d);
  }

  /** A proper continuation of a pass. */
  ghost predicate Continues(s: Snapshot, p: Pass, q: Pass, occ: Occurrence) {
    Proper(s, q, occ) && Extends(p, q, occ) && Remembers(p, q)
  }

  lemma ContinuesItself(s: Snapshot, p: Pass, occ: Occurrence)
    requires Proper(s, p, occ)
    ensures Continues(s, p, p, occ)
  {
  }

  lemma ContinuesOn(s: Snapshot, p: Pass, q: Pass, r: Pass, occ: Occurrence)
    requires Continues(s, p, q, occ) && Continues(s, q, r, occ)
    ensures Continues(s, p, r, occ)
  {
    ExtendsChain(p, q, r, occ);
  }

  lemma PushContinues(s: Snapshot, p: Pass, d: Decision, blocked: Holders, occ: Occurrence)
    requires Proper(s, p, occ) && d.action.IsExecutable() && WellKeyed(d, occ)
    ensures Continues(s, p, PushedIfEligible(p, d, blocked, occ), occ)
  {
    PushProper(s, p, d, blocked, occ);
    PushExtends(p, d, blocked, occ);
    PushRemembers(p, d, blocked, occ);
  }

  /** A justified refusal in one step. */
  lemma Refuse(s: Snapshot, p: Pass, f: FedStatus, d: Decision, occ: Occurrence)
    requires Proper(s, p, occ) && NamesRefusal(d, occ) && f in s.federations && f.id == d.action.fed
    requires HasCause(s, f, d.reason)
    ensures var q := Refused(p, d);
            Continues(s, p, q, occ) && Refuses(q, f.id, d.reason)
  {
    CauseGiven(s, f, d, occ);
    RefusedProper(s, p, d, occ);
    RefusedRecords(s, p, d, occ);
    RefusedRemembers(s, p, d, occ);
  }

  // ---------------------------------------------------------------- federations that leave

  function LeavingReason(f: FedStatus): ReasonCode {
    if f.shutdownNotice then ShutdownNotice else Unhealthy
  }

  ghost predicate DrainedBy(p: Pass, f: FedStatus) {
    exists d :: d in Emitted(p.decisions) && d.action.Evacuate? && d.action.src == f.id
  }

  /** Over-cap and leaving federations are on record, and every drain held back is. */
  ghost predicate Reported(s: Snapshot, p: Pass, f: FedStatus) {
    && (f.spendable > s.perFedCap ==> Refuses(p, f.id, OverCap))
    && (IsLeaving(f) ==> DrainedBy(p, f) || Refuses(p, f.id, LeavingReason(f)))
  }

  lemma ReportStands(s: Snapshot, p: Pass, q: Pass, f: FedStatus, occ: Occurrence)
    requires Reported(s, p, f) && Remembers(p, q) && Extends(p, q, occ)
    ensures Reported(s, q, f)
  {
  }

  lemma PushedDrain(p: Pass, fed: FedStatus, d: Decision, blocked: Holders, occ: Occurrence)
    requires Keyed(p, occ) && d.action.Evacuate? && d.action.src == fed.id && WellKeyed(d, occ)
    requires !Blocks(blocked, d, Agent(occ))
    ensures DrainedBy(PushedIfEligible(p, d, blocked, occ), fed)
  {
    var q := PushedIfEligible(p, d, blocked, occ);
    PushExtends(p, d, blocked, occ);
    var sent := q.decisions[IndexOf(p.decisions, d.key)];
    assert sent in q.decisions && WellKeyed(sent, occ) && sent.key == d.key;
    EmittedHas(q.decisions, sent);
  }

  lemma EvacuatedReports(s: Snapshot, p: Pass, fed: FedStatus, occ: Occurrence, blocked: Holders)
    requires Proper(s, p, occ) && fed in s.federations && IsLeaving(fed)
    ensures var q := Evacuated(p, fed, LeavingReason(fed), s, occ, blocked);
            && Continues(s, p, q, occ)
            && (DrainedBy(q, fed) || Refuses(q, fed.id, LeavingReason(fed)))
  {
    var reason := LeavingReason(fed);
    var d := EvacuateDecision(fed, reason, s, occ, p.credited, p.debited);
    var pushed := PushedIfEligible(p, d, blocked, occ);
    if d.action.Evacuate? {
      PushContinues(s, p, d, blocked, occ);
      if Blocks(blocked, d, Agent(occ)) {
        Refuse(s, pushed, fed, RefusalFor(Some(d), fed.id, reason, occ), occ);
        ContinuesOn(s, p, pushed, Evacuated(p, fed, reason, s, occ, blocked), occ);
      } else {
        PushedDrain(p, fed, d, blocked, occ);
      }
    } else {
      Refuse(s, p, fed, d, occ);
    }
  }

  lemma FedStepReports(s: Snapshot, p: Pass, fed: FedStatus, occ: Occurrence, blocked: Holders)
    requires Proper(s, p, occ) && fed in s.federations
    ensures var q := FedStep(p, fed, s, occ, blocked);
            Continues(s, p, q, occ) && Reported(s, q, fed)
  {
    var q := p;
    if IsLeaving(fed) {
      EvacuatedReports(s, p, fed, occ, blocked);
      q := Evacuated(p, fed, LeavingReason(fed), s, occ, blocked);
    }
    if fed.spendable > s.perFedCap {
      Refuse(s, q, fed, RefuseDecision(fed.id, OverCap, occ, false), occ);
    }
  }

  ghost predicate ReportedUpTo(s: Snapshot, n: nat, p: Pass, occ: Occurrence) {
    n <= |s.federations| && Proper(s, p, occ) && forall i :: 0 <= i < n ==> Reported(s, p, s.federations[i])
  }

  lemma FedStepReportsUpTo(s: Snapshot, n: nat, p: Pass, occ: Occurrence, blocked: Holders)
    requires n < |s.federations| && ReportedUpTo(s, n, p, occ)
    ensures ReportedUpTo(s, n + 1, FedStep(p, s.federations[n], s, occ, blocked), occ)
  {
    var q := FedStep(p, s.federations[n], s, occ, blocked);
    FedStepReports(s, p, s.federations[n], occ, blocked);
    forall i | 0 <= i < n
      ensures Reported(s, q, s.federations[i])
    {
      ReportStands(s, p, q, s.federations[i], occ);
    }
  }

  lemma EvacPhaseReports(s: Snapshot, n: nat, occ: Occurrence, blocked: Holders)
    requires n <= |s.federations|
    ensures ReportedUpTo(s, n, EvacPhase(s, n, occ, blocked), occ)
  {
    var inv := (i: nat, p: Pass) => ReportedUpTo(s, i, p, occ);
    forall i: nat, p | i < |s.federations| && inv(i, p)
      ensures inv(i + 1, FedStep(p, s.federations[i], s, occ, blocked))
    {
      FedStepReportsUpTo(s, i, p, occ, blocked);
    }
    EvacPhaseInduction(s, n, occ, blocked, inv);
  }

  // ---------------------------------------------------------------- funding that falls short

  predicate NotReceivable(f: FedStatus, reason: ReasonCode) {
    if f.eligibleToFund && f.probedOk then f.reputation < 0 && reason == LowReputation else reason == NotProbed
  }

  predicate IsUneconomic(s: Snapshot, source: Option<FedStatus>, dst: FedStatus) {
    && source.Some? && (source.value.id, dst.id) in s.routes
    && s.routes[(source.value.id, dst.id)].status == UneconomicAtAnySize
  }

  predicate WorthMoving(s: Snapshot, source: Option<FedStatus>, dst: FedStatus, want: nat) {
    && s.minMove <= want
    && (source.Some? && (source.value.id, dst.id) in s.routes && s.routes[(source.value.id, dst.id)].status == Routable ==>
          s.routes[(source.value.id, dst.id)].minViable <= want)
  }

  ghost predicate MovesInto(p: Pass, dst: FederationId, amount: nat) {
    exists d :: d in Emitted(p.decisions) && d.action.Move? && d.action.dst == dst && d.action.amount == amount
  }

  /** What is on record for a destination that wants `want` and has cap room `room`: why it may not be
      funded at all; a route no size makes economic; the part over the cap; and, unless the rest was
      moved in full, the shortfall itself. Self-funding and dust alone are silent. */
  ghost predicate Accounted(s: Snapshot, p: Pass, source: Option<FedStatus>, dst: FedStatus, want: nat, room: nat,
                            reason: ReasonCode)
  {
    && (!IsTrustworthy(dst) ==> exists r :: NotReceivable(dst, r) && Refuses(p, dst.id, r))
    && (IsTrustworthy(dst) && (source.Some? ==> source.value.id != dst.id) ==>
          && (IsUneconomic(s, source, dst) ==> Refuses(p, dst.id, UneconomicRoute))
          && (IsUneconomic(s, source, dst) || WorthMoving(s, source, dst, want) ==>
                (room < want ==> Refuses(p, dst.id, OverCap)))
          && (!IsUneconomic(s, source, dst) && WorthMoving(s, source, dst, want) ==>
                Refuses(p, dst.id, reason) || Min(want, room) == 0 || MovesInto(p, dst.id, Min(want, room))))
  }

  lemma AccountStands(s: Snapshot, p: Pass, q: Pass, source: Option<FedStatus>, dst: FedStatus, want: nat, room: nat,
                      reason: ReasonCode, occ: Occurrence)
    requires Accounted(s, p, source, dst, want, room, reason) && Remembers(p, q) && Extends(p, q, occ)
    ensures Accounted(s, q, source, dst, want, room, reason)
  {
  }

  /** The funding is for a federation that is short for the reason it gives. */
  ghost predicate IsFor(s: Snapshot, f: Funding) {
    && f.dest in s.federations && !IsLeaving(f.dest)
    && (|| (f.reason == SpendingBelowTarget && ShortOfSpending(s, f.dest))
        || (f.reason == StandbyBelowTarget && ShortOfStandby(s, f.dest)))
  }

  /** The over-cap refusal comes first and stays. */
  lemma OverCapReport(s: Snapshot, p: Pass, f: Funding, occ: Occurrence, room: u64, candidate: Option<Decision>)
    requires Proper(s, p, occ) && IsFor(s, f)
    requires candidate.Some? ==> candidate.value.key.MoveKey? && candidate.value.key.dst == f.dest.id
    ensures var q := if f.want > room then Refused(p, RefusalFor(candidate, f.dest.id, OverCap, occ)) else p;
            Continues(s, p, q, occ) && (room < f.want ==> Refuses(q, f.dest.id, OverCap))
  {
    if f.want > room {
      Refuse(s, p, f.dest, RefusalFor(candidate, f.dest.id, OverCap, occ), occ);
    } else {
      ContinuesItself(s, p, occ);
    }
  }

  lemma ShortfallReport(s: Snapshot, p: Pass, f: Funding, occ: Occurrence, reason: ReasonCode,
                        candidate: Option<Decision>)
    requires Proper(s, p, occ) && IsFor(s, f)
    requires candidate.Some? ==> candidate.value.key.MoveKey? && candidate.value.key.dst == f.dest.id
    requires reason == f.reason || (reason == UneconomicRoute && IsUneconomic(s, f.source, f.dest))
    ensures var q := Refused(p, RefusalFor(candidate, f.dest.id, reason, occ));
            Continues(s, p, q, occ) && Refuses(q, f.dest.id, reason)
  {
    Refuse(s, p, f.dest, RefusalFor(candidate, f.dest.id, reason, occ), occ);
  }

  lemma FundRefusalsReport(s: Snapshot, p: Pass, f: Funding, occ: Occurrence, room: u64, amount: u64,
                           candidate: Option<Decision>)
    requires Proper(s, p, occ) && IsFor(s, f)
    requires candidate.Some? ==> candidate.value.key.MoveKey? && candidate.value.key.dst == f.dest.id
    ensures var q := FundRefusals(p, f, s, occ, room, amount, candidate);
            && Continues(s, p, q, occ)
            && (room < f.want ==> Refuses(q, f.dest.id, OverCap))
            && (IsUneconomic(s, f.source, f.dest) ==> Refuses(q, f.dest.id, UneconomicRoute))
            && (!IsUneconomic(s, f.source, f.dest) && (candidate.Some? || amount < Min(f.want, room)) ==>
                  Refuses(q, f.dest.id, f.reason))
  {
    var q := if f.want > room then Refused(p, RefusalFor(candidate, f.dest.id, OverCap, occ)) else p;
    OverCapReport(s, p, f, occ, room, candidate);
    var reason := if f.Uneconomic(s) then UneconomicRoute else f.reason;
    if f.Uneconomic(s) || candidate.Some? || amount < Min(f.want, room) {
      ShortfallReport(s, q, f, occ, reason, candidate);
      ContinuesOn(s, p, q, Refused(q, RefusalFor(candidate, f.dest.id, reason, occ)), occ);
    }
  }

  lemma PushedMove(p: Pass, d: Decision, blocked: Holders, occ: Occurrence)
    requires Keyed(p, occ) && d.action.Move? && WellKeyed(d, occ)
    requires !Blocks(blocked, d, Agent(occ)) && !HasKey(p.decisions, d.key)
    ensures MovesInto(PushedIfEligible(p, d, blocked, occ), d.action.dst, d.action.amount)
  {
    EmittedAppend(p.decisions, d);
    assert d in Emitted(PushedIfEligible(p, d, blocked, occ).decisions);
  }

  lemma UnmovedReports(s: Snapshot, p: Pass, f: Funding, occ: Occurrence)
    requires Proper(s, p, occ) && IsFor(s, f) && IsTrustworthy(f.dest)
    requires f.source.None? ==> f.available == 0
    requires f.source.None? || f.Amount(s, p.credited) == 0
    ensures var room, amount := CapRoom(s, f.dest, p.credited), f.Amount(s, p.credited);
            var q := FundRefusals(p, f, s, occ, room, amount, None);
            Continues(s, p, q, occ) && Accounted(s, q, f.source, f.dest, f.want, room, f.reason)
  {
    FundRefusalsReport(s, p, f, occ, CapRoom(s, f.dest, p.credited), f.Amount(s, p.credited), None);
  }

  lemma FundedReports(s: Snapshot, p: Pass, f: Funding, occ: Occurrence, blocked: Holders)
    requires Proper(s, p, occ) && IsFor(s, f) && (f.source.None? ==> f.available == 0)
    requires f.source.Some? ==> !HasKey(p.decisions, MoveKey(f.source.value.id, f.dest.id, occ))
    ensures var q := Funded(p, f, s, occ, blocked);
            && Continues(s, p, q, occ)
            && Accounted(s, q, f.source, f.dest, f.want, CapRoom(s, f.dest, p.credited), f.reason)
  {
    if ReceiveBlocker(f.dest).Some? {
      Refuse(s, p, f.dest, RefuseDecision(f.dest.id, ReceiveBlocker(f.dest).value, occ, true), occ);
      assert NotReceivable(f.dest, ReceiveBlocker(f.dest).value);
    } else if (f.source.Some? && f.source.value.id == f.dest.id) || f.IsDust(s) {
      ContinuesItself(s, p, occ);
    } else if f.source.Some? && f.Amount(s, p.credited) > 0 {
      MovedReports(s, p, f, occ, blocked);
    } else {
      UnmovedReports(s, p, f, occ);
    }
  }

  lemma MovedReports(s: Snapshot, p: Pass, f: Funding, occ: Occurrence, blocked: Holders)
    requires Proper(s, p, occ) && IsFor(s, f) && ReceiveBlocker(f.dest).None?
    requires f.source.Some? && f.source.value.id != f.dest.id && !f.IsDust(s) && f.Amount(s, p.credited) > 0
    requires !HasKey(p.decisions, MoveKey(f.source.value.id, f.dest.id, occ))
    ensures var q := Funded(p, f, s, occ, blocked);
            && Continues(s, p, q, occ)
            && Accounted(s, q, f.source, f.dest, f.want, CapRoom(s, f.dest, p.credited), f.reason)
  {
    var room, amount := CapRoom(s, f.dest, p.credited), f.Amount(s, p.credited);
    var d := MoveOf(f, s, occ, p.credited);
    var pushed := PushedIfEligible(p, d, blocked, occ);
    var candidate := if Blocks(blocked, d, Agent(occ)) then Some(d) else None;
    var q := FundRefusals(pushed, f, s, occ, room, amount, candidate);
    PushContinues(s, p, d, blocked, occ);
    FundRefusalsReport(s, pushed, f, occ, room, amount, candidate);
    ContinuesOn(s, p, pushed, q, occ);
    if candidate.None? {
      PushedMove(p, d, blocked, occ);
      assert MovesInto(q, f.dest.id, amount);
    }
  }

  // ---------------------------------------------------------------- the whole pass

  /** A source for funding: the named federation, when it is listed and not leaving. */
  ghost predicate IsSource(s: Snapshot, id: Option<FederationId>, source: Option<FedStatus>) {
    match source
    case Some(f) => f in s.federations && id == Some(f.id) && !IsLeaving(f)
    case None => id.None? || forall f :: f in s.federations && f.id == id.value ==> IsLeaving(f)
  }

  lemma SourceIsUsable(s: Snapshot, id: Option<FederationId>, source: Option<FedStatus>)
    requires s.Valid() && IsSource(s, id, source)
    ensures UsableSource(FindOpt(s, id)) == source
  {
    if source.Some? {
      FindIsUnique(s, source.value);
    }
  }

  /** No funding move sits under a key of the evacuation phase. */
  lemma NoMoveKeyYet(p: Pass, src: FederationId, dst: FederationId, occ: Occurrence)
    requires Keyed(p, occ) && forall d :: d in Emitted(p.decisions) && d.action.Move? ==> d.action.dst != dst
    ensures !HasKey(p.decisions, MoveKey(src, dst, occ))
  {
    var i := IndexOf(p.decisions, MoveKey(src, dst, occ));
    if i < |p.decisions| {
      var d := p.decisions[i];
      assert d in p.decisions && WellKeyed(d, occ);
      EmittedHas(p.decisions, d);
    }
  }

  lemma ToppedUpReports(s: Snapshot, p: Pass, occ: Occurrence, blocked: Holders)
    requires s.Valid() && Proper(s, p, occ) && forall d :: d in Emitted(p.decisions) ==> d.action.Evacuate?
    ensures var q := ToppedUp(p, s, occ, blocked);
            && Continues(s, p, q, occ)
            && forall g, source :: g in s.federations && s.spendingFed == Some(g.id) && !IsLeaving(g)
                                   && IsSource(s, s.standbyFed, source) && TopUp(s, g, p).want > 0 ==>
                 Accounted(s, q, source, g, TopUp(s, g, p).want, CapRoom(s, g, p.credited), SpendingBelowTarget)
  {
    var spending := FindOpt(s, s.spendingFed);
    if spending.Some? {
      var f := TopUp(s, spending.value, p);
      if EvacuationReason(spending.value).None? && f.want > 0 {
        if f.source.Some? {
          NoMoveKeyYet(p, f.source.value.id, f.dest.id, occ);
        }
        FundedReports(s, p, f, occ, blocked);
      }
    }
    forall g, source | g in s.federations && s.spendingFed == Some(g.id) && IsSource(s, s.standbyFed, source)
      ensures spending == Some(g) && UsableSource(FindOpt(s, s.standbyFed)) == source
    {
      FindIsUnique(s, g);
      SourceIsUsable(s, s.standbyFed, source);
    }
  }

  lemma StandbyFilledReports(s: Snapshot, p: Pass, occ: Occurrence, blocked: Holders)
    requires s.Valid() && Proper(s, p, occ)
    requires forall d :: d in Emitted(p.decisions) && d.action.Move? ==> s.standbyFed != Some(d.action.dst)
    ensures var q := StandbyFilled(p, s, occ, blocked);
            && Continues(s, p, q, occ)
            && forall g, source :: g in s.federations && s.standbyFed == Some(g.id) && !IsLeaving(g)
                                   && IsSource(s, s.spendingFed, source) && StandbyFunding(s, g, p).want > 0 ==>
                 Accounted(s, q, source, g, StandbyFunding(s, g, p).want, CapRoom(s, g, p.credited), StandbyBelowTarget)
  {
    var standby := FindOpt(s, s.standbyFed);
    if standby.Some? {
      var f := StandbyFunding(s, standby.value, p);
      if EvacuationReason(standby.value).None? && f.want > 0 {
        if f.source.Some? {
          NoMoveKeyYet(p, f.source.value.id, f.dest.id, occ);
        }
        FundedReports(s, p, f, occ, blocked);
      }
    }
    forall g, source | g in s.federations && s.standbyFed == Some(g.id) && IsSource(s, s.spendingFed, source)
      ensures standby == Some(g) && UsableSource(FindOpt(s, s.spendingFed)) == source
    {
      FindIsUnique(s, g);
      SourceIsUsable(s, s.spendingFed, source);
    }
  }

  // ---------------------------------------------------------------- what is held back

  /** Every candidate held back has left a refusal under a key that names it. */
  ghost predicate HeldBackNamed(p: Pass) {
    forall d :: d in p.suppressed ==> HasKeyIn(p.decisions, SuppressedKey(d.key, d.reason))
  }

  ghost predicate HasKeyIn(ds: seq<Decision>, key: Key) {
    exists e :: e in ds && e.key == key
  }

  lemma PushKeepsKeys(ds: seq<Decision>, d: Decision)
    ensures HasKeyIn(Pushed(ds, d), d.key)
    ensures forall key :: HasKeyIn(ds, key) ==> HasKeyIn(Pushed(ds, d), key)
  {
    var after, k := Pushed(ds, d), IndexOf(ds, d.key);
    assert after[k] in after;
    forall key | HasKeyIn(ds, key)
      ensures HasKeyIn(after, key)
    {
      var e :| e in ds && e.key == key;
      var i :| 0 <= i < |ds| && ds[i] == e;
      assert after[i] in after;
    }
  }

  lemma RefusedKeepsNames(p: Pass, d: Decision)
    requires HeldBackNamed(p)
    ensures HeldBackNamed(Refused(p, d))
  {
    PushKeepsKeys(p.decisions, d);
  }

  /** Pushing a candidate keeps all names but perhaps its own. */
  lemma PushKeepsNames(p: Pass, d: Decision, blocked: Holders, occ: Occurrence)
    requires HeldBackNamed(p) && Keyed(p, occ) && d.action.IsExecutable() && WellKeyed(d, occ)
    ensures var q := PushedIfEligible(p, d, blocked, occ);
            && (!Blocks(blocked, d, Agent(occ)) ==> HeldBackNamed(q))
            && forall x :: x in q.suppressed && x != d ==> HasKeyIn(q.decisions, SuppressedKey(x.key, x.reason))
  {
    PushKeepsKeys(p.decisions, d);
    PushedMembers(p.suppressed, d);
  }

  lemma NamedAgain(p: Pass, d: Decision, e: Decision)
    requires forall x :: x in p.suppressed && x != d ==> HasKeyIn(p.decisions, SuppressedKey(x.key, x.reason))
    requires e.key == SuppressedKey(d.key, d.reason)
    ensures HeldBackNamed(Refused(p, e))
  {
    PushKeepsKeys(p.decisions, e);
  }

  lemma FedStepNames(s: Snapshot, p: Pass, fed: FedStatus, occ: Occurrence, blocked: Holders)
    requires HeldBackNamed(p) && Keyed(p, occ)
    ensures HeldBackNamed(FedStep(p, fed, s, occ, blocked))
  {
    var reason := EvacuationReason(fed);
    var q := p;
    if reason.Some? {
      var d := EvacuateDecision(fed, reason.value, s, occ, p.credited, p.debited);
      q := Evacuated(p, fed, reason.value, s, occ, blocked);
      if d.action.Evacuate? {
        PushKeepsNames(p, d, blocked, occ);
        if Blocks(blocked, d, Agent(occ)) {
          NamedAgain(PushedIfEligible(p, d, blocked, occ), d, RefusalFor(Some(d), fed.id, reason.value, occ));
        }
      } else {
        RefusedKeepsNames(p, d);
      }
    }
    RefusedKeepsNames(q, RefuseDecision(fed.id, OverCap, occ, false));
  }

  lemma FundRefusalsName(s: Snapshot, p: Pass, f: Funding, occ: Occurrence, room: u64, amount: u64, d: Decision)
    requires forall x :: x in p.suppressed && x != d ==> HasKeyIn(p.decisions, SuppressedKey(x.key, x.reason))
    requires d.reason == f.reason && !f.Uneconomic(s)
    ensures HeldBackNamed(FundRefusals(p, f, s, occ, room, amount, Some(d)))
  {
    var over := RefusalFor(Some(d), f.dest.id, OverCap, occ);
    var q := if f.want > room then Refused(p, over) else p;
    PushKeepsKeys(p.decisions, over);
    NamedAgain(q, d, RefusalFor(Some(d), f.dest.id, f.reason, occ));
  }

  lemma FundRefusalsKeepNames(s: Snapshot, p: Pass, f: Funding, occ: Occurrence, room: u64, amount: u64)
    requires HeldBackNamed(p)
    ensures HeldBackNamed(FundRefusals(p, f, s, occ, room, amount, None))
  {
    var over := RefusalFor(None, f.dest.id, OverCap, occ);
    var q := if f.want > room then Refused(p, over) else p;
    RefusedKeepsNames(p, over);
    RefusedKeepsNames(q, RefusalFor(None, f.dest.id, UneconomicRoute, occ));
    RefusedKeepsNames(q, RefusalFor(None, f.dest.id, f.reason, occ));
  }

  lemma FundedNames(s: Snapshot, p: Pass, f: Funding, occ: Occurrence, blocked: Holders)
    requires HeldBackNamed(p) && Keyed(p, occ)
    ensures HeldBackNamed(Funded(p, f, s, occ, blocked))
  {
    var room, amount := CapRoom(s, f.dest, p.credited), f.Amount(s, p.credited);
    if ReceiveBlocker(f.dest).Some? {
      RefusedKeepsNames(p, RefuseDecision(f.dest.id, ReceiveBlocker(f.dest).value, occ, true));
    } else if (f.source.Some? && f.source.value.id == f.dest.id) || f.IsDust(s) {
    } else if f.source.Some? && amount > 0 {
      var d := MoveOf(f, s, occ, p.credited);
      var pushed := PushedIfEligible(p, d, blocked, occ);
      PushKeepsNames(p, d, blocked, occ);
      if Blocks(blocked, d, Agent(occ)) {
        FundRefusalsName(s, pushed, f, occ, room, amount, d);
      } else {
        FundRefusalsKeepNames(s, pushed, f, occ, room, amount);
      }
    } else {
      FundRefusalsKeepNames(s, p, f, occ, room, amount);
    }
  }

  lemma EvacPhaseNames(s: Snapshot, n: nat, occ: Occurrence, blocked: Holders)
    requires n <= |s.federations|
    ensures HeldBackNamed(EvacPhase(s, n, occ, blocked))
  {
    var inv := (i: nat, p: Pass) => HeldBackNamed(p) && ReportedUpTo(s, i, p, occ);
    assert ReportedUpTo(s, 0, FRESH_PASS, occ);
    forall i: nat, p | i < |s.federations| && inv(i, p)
      ensures inv(i + 1, FedStep(p, s.federations[i], s, occ, blocked))
    {
      FedStepReportsUpTo(s, i, p, occ, blocked);
      FedStepNames(s, p, s.federations[i], occ, blocked);
    }
    EvacPhaseInduction(s, n, occ, blocked, inv);
  }

  // ---------------------------------------------------------------- the figures a refusal carries

  /** There were no figures to give: the federation is over the cap from outside, or it is leaving and no
      federation that may receive it has room. */
  ghost predicate NoFigures(s: Snapshot, ds: seq<Decision>, f: FedStatus, reason: ReasonCode)
    requires s.Valid()
  {
    || (reason == OverCap && f.spendable > s.perFedCap)
    || (&& IsLeaving(f) && reason == LeavingReason(f)
        && forall g :: g in s.federations && MayReceive(g, f) ==> s.perFedCap <= Inflow(s, ds, g.id))
  }

  /** There were figures to give: the federation is one the pass tries to fund, or it is leaving and some
      federation may receive it. */
  ghost predicate SomeFigures(s: Snapshot, f: FedStatus, reason: ReasonCode) {
    || Some(f.id) == s.spendingFed
    || Some(f.id) == s.standbyFed
    || (IsLeaving(f) && reason == LeavingReason(f) && exists g :: CouldTake(s, g, f))
  }

  ghost predicate CouldTake(s: Snapshot, g: FedStatus, f: FedStatus) {
    g in s.federations && MayReceive(g, f) && g.spendable < s.perFedCap
  }

  ghost predicate AptFigures(s: Snapshot, ds: seq<Decision>, d: Decision)
    requires s.Valid()
  {
    && (IsRefusal(d, false) ==>
          exists f :: f in s.federations && f.id == d.action.fed && NoFigures(s, ds, f, d.reason))
    && (IsRefusal(d, true) ==>
          exists f :: f in s.federations && f.id == d.action.fed && SomeFigures(s, f, d.reason))
  }

  /** Every refusal with figures had some to give, and every one without had none. */
  ghost predicate AllApt(s: Snapshot, p: Pass)
    requires s.Valid()
  {
    forall d :: d in p.decisions ==> AptFigures(s, Emitted(p.decisions), d)
  }

  lemma AptStands(s: Snapshot, ds: seq<Decision>, more: seq<Decision>, d: Decision)
    requires s.Valid() && AptFigures(s, ds, d) && ds <= more
    ensures AptFigures(s, more, d)
  {
    assert more == ds + more[|ds|..];
    if IsRefusal(d, false) {
      var f :| f in s.federations && f.id == d.action.fed && NoFigures(s, ds, f, d.reason);
      forall g | g in s.federations && MayReceive(g, f) && s.perFedCap <= Inflow(s, ds, g.id)
        ensures s.perFedCap <= Inflow(s, more, g.id)
      {
        TotalConcat(ds, more[|ds|..], ShareOf(Inbound, g.id));
      }
      assert NoFigures(s, more, f, d.reason);
    }
  }

  lemma RefusedIsApt(s: Snapshot, p: Pass, d: Decision)
    requires s.Valid() && AllApt(s, p) && d.action.RefuseInflow? && AptFigures(s, Emitted(p.decisions), d)
    ensures AllApt(s, Refused(p, d))
  {
    RefusalMovesNothing(p, d);
    PushedMembers(p.decisions, d);
  }

  lemma PushIsApt(s: Snapshot, p: Pass, d: Decision, blocked: Holders, occ: Occurrence)
    requires s.Valid() && AllApt(s, p) && Keyed(p, occ) && d.action.IsExecutable() && WellKeyed(d, occ)
    ensures AllApt(s, PushedIfEligible(p, d, blocked, occ))
  {
    var q := PushedIfEligible(p, d, blocked, occ);
    PushExtends(p, d, blocked, occ);
    PushedMembers(p.decisions, d);
    forall x | x in q.decisions
      ensures AptFigures(s, Emitted(q.decisions), x)
    {
      if x in p.decisions {
        AptStands(s, Emitted(p.decisions), Emitted(q.decisions), x);
      }
    }
  }

  lemma ReceiverCouldTake(s: Snapshot, p: Pass, fed: FedStatus)
    requires s.Valid() && SafestOther(s, fed, p.credited).Some?
    ensures fed in s.federations && IsLeaving(fed) ==> SomeFigures(s, fed, LeavingReason(fed))
  {
    assert CouldTake(s, SafestOther(s, fed, p.credited).value, fed);
  }

  lemma NoReceiverIsApt(s: Snapshot, p: Pass, fed: FedStatus, occ: Occurrence)
    requires s.Valid() && Booked(p) && fed in s.federations && IsLeaving(fed)
    requires !EvacuateDecision(fed, LeavingReason(fed), s, occ, p.credited, p.debited).action.Evacuate?
    ensures AptFigures(s, Emitted(p.decisions),
                          EvacuateDecision(fed, LeavingReason(fed), s, occ, p.credited, p.debited))
  {
    if SafestOther(s, fed, p.credited).None? {
      forall g | g in s.federations && MayReceive(g, fed)
        ensures s.perFedCap <= Inflow(s, Emitted(p.decisions), g.id)
      {
        assert !EligibleTarget(s, g, fed, p.credited);
        NoRoomIsFull(s, p, g);
      }
      assert NoFigures(s, Emitted(p.decisions), fed, LeavingReason(fed));
    } else {
      ReceiverCouldTake(s, p, fed);
    }
  }

  lemma EvacuatedIsApt(s: Snapshot, p: Pass, fed: FedStatus, occ: Occurrence, blocked: Holders)
    requires s.Valid() && Booked(p) && Keyed(p, occ) && AllApt(s, p) && fed in s.federations && IsLeaving(fed)
    ensures AllApt(s, Evacuated(p, fed, LeavingReason(fed), s, occ, blocked))
  {
    var d := EvacuateDecision(fed, LeavingReason(fed), s, occ, p.credited, p.debited);
    if d.action.Evacuate? {
      PushIsApt(s, p, d, blocked, occ);
      ReceiverCouldTake(s, p, fed);
      RefusedIsApt(s, PushedIfEligible(p, d, blocked, occ), RefusalFor(Some(d), fed.id, LeavingReason(fed), occ));
    } else {
      NoReceiverIsApt(s, p, fed, occ);
      RefusedIsApt(s, p, d);
    }
  }

  lemma FedStepIsApt(s: Snapshot, p: Pass, fed: FedStatus, occ: Occurrence, blocked: Holders)
    requires s.Valid() && Booked(p) && Keyed(p, occ) && AllApt(s, p) && fed in s.federations
    ensures AllApt(s, FedStep(p, fed, s, occ, blocked))
  {
    var q := p;
    if IsLeaving(fed) {
      EvacuatedIsApt(s, p, fed, occ, blocked);
      q := Evacuated(p, fed, LeavingReason(fed), s, occ, blocked);
    }
    if fed.spendable > s.perFedCap {
      var d := RefuseDecision(fed.id, OverCap, occ, false);
      assert NoFigures(s, Emitted(q.decisions), fed, OverCap);
      RefusedIsApt(s, q, d);
    }
  }

  ghost predicate IsTarget(s: Snapshot, f: FedStatus) {
    f in s.federations && (Some(f.id) == s.spendingFed || Some(f.id) == s.standbyFed)
  }

  lemma FundRefusalsAreApt(s: Snapshot, p: Pass, f: Funding, occ: Occurrence, room: u64, amount: u64,
                            candidate: Option<Decision>)
    requires s.Valid() && AllApt(s, p) && IsTarget(s, f.dest)
    ensures AllApt(s, FundRefusals(p, f, s, occ, room, amount, candidate))
  {
    var over := RefusalFor(candidate, f.dest.id, OverCap, occ);
    var q := if f.want > room then Refused(p, over) else p;
    RefusedIsApt(s, p, over);
    RefusedIsApt(s, q, RefusalFor(candidate, f.dest.id, UneconomicRoute, occ));
    RefusedIsApt(s, q, RefusalFor(candidate, f.dest.id, f.reason, occ));
  }

  lemma FundedIsApt(s: Snapshot, p: Pass, f: Funding, occ: Occurrence, blocked: Holders)
    requires s.Valid() && Keyed(p, occ) && AllApt(s, p) && IsTarget(s, f.dest)
    ensures AllApt(s, Funded(p, f, s, occ, blocked))
  {
    var room, amount := CapRoom(s, f.dest, p.credited), f.Amount(s, p.credited);
    if ReceiveBlocker(f.dest).Some? {
      RefusedIsApt(s, p, RefuseDecision(f.dest.id, ReceiveBlocker(f.dest).value, occ, true));
    } else if (f.source.Some? && f.source.value.id == f.dest.id) || f.IsDust(s) {
    } else if f.source.Some? && amount > 0 {
      var d := MoveOf(f, s, occ, p.credited);
      var candidate := if Blocks(blocked, d, Agent(occ)) then Some(d) else None;
      PushIsApt(s, p, d, blocked, occ);
      FundRefusalsAreApt(s, PushedIfEligible(p, d, blocked, occ), f, occ, room, amount, candidate);
    } else {
      FundRefusalsAreApt(s, p, f, occ, room, amount, None);
    }
  }

  ghost predicate AptUpTo(s: Snapshot, n: nat, p: Pass, occ: Occurrence)
    requires s.Valid()
  {
    Holds(s, p) && ReportedUpTo(s, n, p, occ) && AllApt(s, p)
  }

  lemma EvacPhaseIsApt(s: Snapshot, n: nat, occ: Occurrence, blocked: Holders)
    requires s.Valid() && n <= |s.federations|
    ensures AptUpTo(s, n, EvacPhase(s, n, occ, blocked), occ)
  {
    var inv := (i: nat, p: Pass) => AptUpTo(s, i, p, occ);
    assert Emitted(FRESH_PASS.decisions) == [];
    assert ReportedUpTo(s, 0, FRESH_PASS, occ);
    forall i: nat, p | i < |s.federations| && inv(i, p)
      ensures inv(i + 1, FedStep(p, s.federations[i], s, occ, blocked))
    {
      FedStepHolds(s, p, s.federations[i], occ, blocked);
      FedStepReportsUpTo(s, i, p, occ, blocked);
      FedStepIsApt(s, p, s.federations[i], occ, blocked);
    }
    EvacPhaseInduction(s, n, occ, blocked, inv);
  }

  // ---------------------------------------------------------------- main results

  /** What a federation still wants of a target, behind what is being delivered and evacuated to it. */
  ghost function Wanted(s: Snapshot, batch: seq<Decision>, g: FedStatus, target: u64): int {
    target - g.spendable - s.reserved.Held(TargetCredit, g.id) - Total(batch, EvacuatedInto(g.id))
  }

  /** The cap room it has left, or none. */
  ghost function RoomLeft(s: Snapshot, batch: seq<Decision>, g: FedStatus): nat {
    Max(0, s.perFedCap - g.spendable - s.reserved.Held(Inbound, g.id) - Total(batch, EvacuatedInto(g.id)))
  }

  lemma WantedIsShortfall(s: Snapshot, p: Pass, batch: seq<Decision>, g: FedStatus, target: u64)
    requires s.Valid() && Booked(p) && g in s.federations && Wanted(s, batch, g, target) > 0
    requires Total(Emitted(p.decisions), ShareOf(Inbound, g.id)) == Total(batch, EvacuatedInto(g.id))
    ensures FundingShortfall(target, g.spendable, s.reserved.Held(TargetCredit, g.id), Lookup(p.credited, g.id))
            == Wanted(s, batch, g, target)
    ensures CapRoom(s, g, p.credited) == RoomLeft(s, batch, g)
  {
    BookedTotals(p, g.id);
  }

  lemma EvacPhaseProper(s: Snapshot, occ: Occurrence, blocked: Holders)
    requires s.Valid()
    ensures var p := EvacPhase(s, |s.federations|, occ, blocked);
            && ReportedUpTo(s, |s.federations|, p, occ) && Holds(s, p)
            && forall d :: d in Emitted(p.decisions) ==> d.action.Evacuate?
  {
    EvacPhaseReports(s, |s.federations|, occ, blocked);
    EvacPhaseHolds(s, |s.federations|, occ, blocked);
    BatchIsEvacsThenMove(s, occ, blocked);
  }

  /** A top-up goes into the spending federation, never into its own source. */
  lemma TopUpSparesStandby(s: Snapshot, p: Pass, occ: Occurrence, blocked: Holders)
    requires s.Valid() && forall d :: d in Emitted(p.decisions) ==> d.action.Evacuate?
    ensures var q := ToppedUp(p, s, occ, blocked);
            && (forall d :: d in Emitted(q.decisions) && d.action.Move? ==> s.standbyFed != Some(d.action.dst))
            && forall fed :: s.standbyFed == Some(fed) ==>
                 Total(Emitted(q.decisions), ShareOf(Inbound, fed)) == Total(Emitted(p.decisions), ShareOf(Inbound, fed))
  {
    var q := ToppedUp(p, s, occ, blocked);
    ToppedUpGoals(s, p, occ, blocked);
    if !SameMoney(p, q) {
      var f := TopUp(s, FindOpt(s, s.spendingFed).value, p);
      MoveElsewhere(s, Emitted(p.decisions), MoveOf(f, s, occ, p.credited));
    }
  }

  lemma MoveElsewhere(s: Snapshot, ds: seq<Decision>, d: Decision)
    requires d.action.Move? && s.standbyFed != Some(d.action.dst)
    ensures forall fed :: s.standbyFed == Some(fed) ==>
              Total(ds + [d], ShareOf(Inbound, fed)) == Total(ds, ShareOf(Inbound, fed))
  {
    forall fed | s.standbyFed == Some(fed)
      ensures Total(ds + [d], ShareOf(Inbound, fed)) == Total(ds, ShareOf(Inbound, fed))
    {
      TotalAppend(ds, d, ShareOf(Inbound, fed));
    }
  }

  /** The two funding steps continue the evacuation phase properly. */
  lemma PassContinues(s: Snapshot, occ: Occurrence, blocked: Holders)
    requires s.Valid()
    ensures var p := EvacPhase(s, |s.federations|, occ, blocked);
            var q := ToppedUp(p, s, occ, blocked);
            Continues(s, p, q, occ) && Continues(s, q, Decided(s, occ, blocked), occ) && Holds(s, q)
  {
    var p := EvacPhase(s, |s.federations|, occ, blocked);
    EvacPhaseProper(s, occ, blocked);
    ToppedUpReports(s, p, occ, blocked);
    ToppedUpHolds(s, p, occ, blocked);
    TopUpSparesStandby(s, p, occ, blocked);
    StandbyFilledReports(s, ToppedUp(p, s, occ, blocked), occ, blocked);
  }

  /** The finished pass holds one decision per key, and every refusal in it names its federation and
      reason and has its cause in the snapshot. */
  lemma RefusalsAreJustified(s: Snapshot, occ: Occurrence, blocked: Holders)
    requires s.Valid()
    ensures OnePerKey(Decided(s, occ, blocked).decisions) && OnePerKey(Decided(s, occ, blocked).suppressed)
    ensures forall d :: d in Decided(s, occ, blocked).decisions && d.action.RefuseInflow? ==> Justified(s, d, occ)
  {
    PassContinues(s, occ, blocked);
  }

  /** Every federation over the cap is on record, and every leaving one that the batch does not drain. */
  lemma TroubleIsReported(s: Snapshot, occ: Occurrence, blocked: Holders, f: FedStatus)
    requires s.Valid() && f in s.federations
    ensures Reported(s, Decided(s, occ, blocked), f)
  {
    var p := EvacPhase(s, |s.federations|, occ, blocked);
    EvacPhaseProper(s, occ, blocked);
    PassContinues(s, occ, blocked);
    ContinuesOn(s, p, ToppedUp(p, s, occ, blocked), Decided(s, occ, blocked), occ);
    ReportStands(s, p, Decided(s, occ, blocked), f, occ);
  }

  lemma TopUpReportedFrom(s: Snapshot, p: Pass, r: Pass, batch: seq<Decision>, occ: Occurrence, blocked: Holders,
                          g: FedStatus, source: Option<FedStatus>)
    requires s.Valid() && Proper(s, p, occ) && Holds(s, p) && forall d :: d in Emitted(p.decisions) ==> d.action.Evacuate?
    requires Continues(s, ToppedUp(p, s, occ, blocked), r, occ)
    requires g in s.federations && s.spendingFed == Some(g.id) && !IsLeaving(g) && IsSource(s, s.standbyFed, source)
    requires Wanted(s, batch, g, s.targetSpending) > 0
    requires Total(Emitted(p.decisions), ShareOf(Inbound, g.id)) == Total(batch, EvacuatedInto(g.id))
    ensures Accounted(s, r, source, g, Wanted(s, batch, g, s.targetSpending), RoomLeft(s, batch, g), SpendingBelowTarget)
  {
    WantedIsShortfall(s, p, batch, g, s.targetSpending);
    ToppedUpReports(s, p, occ, blocked);
    AccountStands(s, ToppedUp(p, s, occ, blocked), r, source, g, TopUp(s, g, p).want, CapRoom(s, g, p.credited),
                  SpendingBelowTarget, occ);
  }

  /** A spending federation short of its target is accounted for in full. */
  lemma SpendingShortfallIsReported(s: Snapshot, occ: Occurrence, blocked: Holders, g: FedStatus,
                                    source: Option<FedStatus>)
    requires s.Valid() && g in s.federations && s.spendingFed == Some(g.id) && !IsLeaving(g)
    requires IsSource(s, s.standbyFed, source) && Wanted(s, Batch(s, occ, blocked), g, s.targetSpending) > 0
    ensures var batch := Batch(s, occ, blocked);
            Accounted(s, Decided(s, occ, blocked), source, g, Wanted(s, batch, g, s.targetSpending), RoomLeft(s, batch, g),
                      SpendingBelowTarget)
  {
    var p := EvacPhase(s, |s.federations|, occ, blocked);
    EvacPhaseProper(s, occ, blocked);
    PassContinues(s, occ, blocked);
    BatchEvacTotals(s, occ, blocked, g.id);
    TopUpReportedFrom(s, p, Decided(s, occ, blocked), Batch(s, occ, blocked), occ, blocked, g, source);
  }

  lemma StandbyReportedFrom(s: Snapshot, p: Pass, batch: seq<Decision>, occ: Occurrence, blocked: Holders,
                            g: FedStatus, source: Option<FedStatus>)
    requires s.Valid() && forall d :: d in Emitted(p.decisions) ==> d.action.Evacuate?
    requires var q := ToppedUp(p, s, occ, blocked); Proper(s, q, occ) && Holds(s, q)
    requires g in s.federations && s.standbyFed == Some(g.id) && !IsLeaving(g) && IsSource(s, s.spendingFed, source)
    requires Wanted(s, batch, g, s.standbyTarget) > 0
    requires Total(Emitted(p.decisions), ShareOf(Inbound, g.id)) == Total(batch, EvacuatedInto(g.id))
    ensures Accounted(s, StandbyFilled(ToppedUp(p, s, occ, blocked), s, occ, blocked), source, g,
                      Wanted(s, batch, g, s.standbyTarget), RoomLeft(s, batch, g), StandbyBelowTarget)
  {
    var q := ToppedUp(p, s, occ, blocked);
    TopUpSparesStandby(s, p, occ, blocked);
    WantedIsShortfall(s, q, batch, g, s.standbyTarget);
    StandbyFilledReports(s, q, occ, blocked);
  }

  /** So is a standby federation short of its own. */
  lemma StandbyShortfallIsReported(s: Snapshot, occ: Occurrence, blocked: Holders, g: FedStatus,
                                   source: Option<FedStatus>)
    requires s.Valid() && g in s.federations && s.standbyFed == Some(g.id) && !IsLeaving(g)
    requires IsSource(s, s.spendingFed, source) && Wanted(s, Batch(s, occ, blocked), g, s.standbyTarget) > 0
    ensures var batch := Batch(s, occ, blocked);
            Accounted(s, Decided(s, occ, blocked), source, g, Wanted(s, batch, g, s.standbyTarget), RoomLeft(s, batch, g),
                      StandbyBelowTarget)
  {
    EvacPhaseProper(s, occ, blocked);
    PassContinues(s, occ, blocked);
    BatchEvacTotals(s, occ, blocked, g.id);
    StandbyReportedFrom(s, EvacPhase(s, |s.federations|, occ, blocked), Batch(s, occ, blocked), occ, blocked, g, source);
  }

  /** Everything held back for live work is on record under a key that names it. */
  lemma HeldBackIsReported(s: Snapshot, occ: Occurrence, blocked: Holders)
    requires s.Valid()
    ensures HeldBackNamed(Decided(s, occ, blocked))
  {
    var p := EvacPhase(s, |s.federations|, occ, blocked);
    var q := ToppedUp(p, s, occ, blocked);
    EvacPhaseNames(s, |s.federations|, occ, blocked);
    EvacPhaseProper(s, occ, blocked);
    PassContinues(s, occ, blocked);
    var spending, standby := FindOpt(s, s.spendingFed), FindOpt(s, s.standbyFed);
    if spending.Some? {
      FundedNames(s, p, TopUp(s, spending.value, p), occ, blocked);
    }
    if standby.Some? {
      FundedNames(s, q, StandbyFunding(s, standby.value, q), occ, blocked);
    }
  }

  /** Every refusal with figures had some to give, and every one without had none. */
  lemma FiguresAreApt(s: Snapshot, occ: Occurrence, blocked: Holders)
    requires s.Valid()
    ensures AllApt(s, Decided(s, occ, blocked))
  {
    var p := EvacPhase(s, |s.federations|, occ, blocked);
    var q := ToppedUp(p, s, occ, blocked);
    EvacPhaseIsApt(s, |s.federations|, occ, blocked);
    PassContinues(s, occ, blocked);
    var spending, standby := FindOpt(s, s.spendingFed), FindOpt(s, s.standbyFed);
    if spending.Some? {
      FundedIsApt(s, p, TopUp(s, spending.value, p), occ, blocked);
    }
    if standby.Some? {
      FundedIsApt(s, q, StandbyFunding(s, standby.value, q), occ, blocked);
    }
  }
}

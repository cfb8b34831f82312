/** One pass of the allocator over a snapshot: evacuations, the two funding directions and
    advisory refusals, with the per-pass reservation maps that keep the batch inside caps and
    balances. The class updates the maps and the decision lists in place; each of its methods is
    proved against a function on the values of those fields. */
module Allocator {
  import opened Amounts
  import opened Types
  import opened Reservations
  import opened Conflict
  import opened Sizing

  datatype FedStatus = FedStatus(
    id: FederationId,
    spendable: u64,
    probedOk: bool,
    reputation: int,
    shutdownNotice: bool,
    healthy: bool,
    eligibleToFund: bool)

  datatype RouteStatus = Routable | Unroutable | UneconomicAtAnySize

  datatype Route = Route(gateway: Option<GatewayUrl>, minViable: u64, status: RouteStatus)

  datatype Snapshot = Snapshot(
    federations: seq<FedStatus>,
    spendingFed: Option<FederationId>,
    standbyFed: Option<FederationId>,
    perFedCap: u64,
    targetSpending: u64,
    standbyTarget: u64,
    maxFeeBps: Bps,
    evacCap: EvacFeeCap,
    minMove: u64,
    routes: map<(FederationId, FederationId), Route>,
    reserved: Reserved)
  {
    /** Every federation has one status. */
    ghost predicate Valid() {
      forall i, j :: 0 <= i < j < |federations| ==> federations[i].id != federations[j].id
    }

    function Route(src: FederationId, dst: FederationId): Option<Route> {
      if (src, dst) in routes then Some(routes[(src, dst)]) else None
    }
  }

  function FundingShortfall(target: u64, spendable: u64, targetCredit: u64, sameRound: u64): u64 {
    SatSub(SatSub(SatSub(target, spendable), targetCredit), sameRound)
  }

  // ---------------------------------------------------------------- federation predicates

  function EvacuationReason(fed: FedStatus): Option<ReasonCode> {
    if fed.shutdownNotice then Some(ShutdownNotice) else if !fed.healthy then Some(Unhealthy) else None
  }

  function ReceiveBlocker(fed: FedStatus): Option<ReasonCode> {
    if !fed.eligibleToFund || !fed.probedOk then Some(NotProbed)
    else if fed.reputation < 0 then Some(LowReputation)
    else None
  }

  function Find(feds: seq<FedStatus>, id: FederationId): (r: Option<FedStatus>)
    ensures r.Some? ==> r.value in feds && r.value.id == id
    ensures r.None? ==> forall f :: f in feds ==> f.id != id
  {
    if feds == [] then None
    else if feds[0].id == id then Some(feds[0])
    else Find(feds[1..], id)
  }

  function FindOpt(s: Snapshot, id: Option<FederationId>): Option<FedStatus> {
    if id.Some? then Find(s.federations, id.value) else None
  }

  /** A federation that is itself evacuating is no funding source. */
  function UsableSource(fed: Option<FedStatus>): Option<FedStatus> {
    if fed.Some? && EvacuationReason(fed.value).None? then fed else None
  }

  function CapRoom(s: Snapshot, fed: FedStatus, credited: Ledger): u64 {
    SatSub(SatSub(SatSub(s.perFedCap, fed.spendable), s.reserved.Held(Inbound, fed.id)), Lookup(credited, fed.id))
  }

  function SourceRoom(s: Snapshot, fed: FedStatus, debited: Ledger, floor: u64): u64 {
    SatSub(SatSub(SatSub(fed.spendable, floor), s.reserved.Held(Outbound, fed.id)), Lookup(debited, fed.id))
  }

  predicate EligibleTarget(s: Snapshot, fed: FedStatus, src: FedStatus, credited: Ledger) {
    && fed.id != src.id
    && EvacuationReason(fed).None?
    && ReceiveBlocker(fed).None?
    && CapRoom(s, fed, credited) > 0
  }

  function SmallestEligible(s: Snapshot, feds: seq<FedStatus>, src: FedStatus, credited: Ledger): (r: Option<FedStatus>)
    ensures r.Some? ==> r.value in feds && EligibleTarget(s, r.value, src, credited)
    ensures r.Some? ==> forall f :: f in feds && EligibleTarget(s, f, src, credited) ==> r.value.id <= f.id
    ensures r.None? ==> forall f :: f in feds ==> !EligibleTarget(s, f, src, credited)
  {
    if feds == [] then None
    else
      var rest := SmallestEligible(s, feds[1..], src, credited);
      assert forall f :: f in feds <==> f == feds[0] || f in feds[1..];
      if EligibleTarget(s, feds[0], src, credited) && (rest.None? || feds[0].id <= rest.value.id)
      then Some(feds[0]) else rest
  }

  /** The safest other federation to drain into: the standby when it qualifies, else the
      eligible federation with the smallest id, whatever the snapshot's order. */
  function SafestOther(s: Snapshot, src: FedStatus, credited: Ledger): (r: Option<FedStatus>)
    ensures r.Some? ==> r.value in s.federations && EligibleTarget(s, r.value, src, credited)
    ensures r.None? ==> forall f :: f in s.federations ==> !EligibleTarget(s, f, src, credited)
    ensures var standby := FindOpt(s, s.standbyFed);
            standby.Some? && EligibleTarget(s, standby.value, src, credited) ==> r == standby
    ensures r.Some? && r != FindOpt(s, s.standbyFed) ==>
              && forall f :: f in s.federations && EligibleTarget(s, f, src, credited) ==> r.value.id <= f.id
  {
    var standby := FindOpt(s, s.standbyFed);
    if standby.Some? && EligibleTarget(s, standby.value, src, credited) then standby
    else SmallestEligible(s, s.federations, src, credited)
  }

  // ---------------------------------------------------------------- decisions

  function RefuseDecision(fed: FederationId, reason: ReasonCode, occ: Occurrence, populated: bool): Decision {
    Decision(RefuseInflow(fed, reason, populated), reason, occ, RefuseKey(reason, fed, occ))
  }

  /** The refusal of a withheld candidate is keyed by that candidate. */
  function RefusalFor(candidate: Option<Decision>, fed: FederationId, reason: ReasonCode, occ: Occurrence): Decision {
    var plain := RefuseDecision(fed, reason, occ, true);
    if candidate.Some? then plain.(key := SuppressedKey(candidate.value.key, reason)) else plain
  }

  function EvacuateDecision(src: FedStatus, reason: ReasonCode, s: Snapshot, occ: Occurrence,
                            credited: Ledger, debited: Ledger): Decision
  {
    var dst := SafestOther(s, src, credited);
    if dst.None? then RefuseDecision(src.id, reason, occ, false)
    else
      var amount: u64 := Min(SourceRoom(s, src, debited, 0), CapRoom(s, dst.value, credited));
      if amount == 0 then RefuseDecision(src.id, reason, occ, true)
      else
        var route := s.Route(src.id, dst.value.id);
        Decision(
          Evacuate(src.id, dst.value.id, amount, s.evacCap.At(amount),
                   if route.Some? then route.value.gateway else None, Some(s.evacCap)),
          reason, occ, EvacKey(src.id, dst.value.id, occ))
  }

  function MoveDecision(reason: ReasonCode, src: FederationId, dst: FederationId, amount: u64, s: Snapshot,
                        occ: Occurrence): Decision
  {
    var route := s.Route(src, dst);
    Decision(Move(src, dst, amount, MoveFeeCap(amount, s.maxFeeBps),
                  if route.Some? then route.value.gateway else None),
             reason, occ, MoveKey(src, dst, occ))
  }

  // ---------------------------------------------------------------- the pass as values

  datatype Pass = Pass(decisions: seq<Decision>, suppressed: seq<Decision>, credited: Ledger, debited: Ledger)

  const FRESH_PASS := Pass([], [], map[], map[])

  function IndexOf(out: seq<Decision>, key: Key): (i: nat)
    ensures i <= |out|
    ensures i < |out| ==> out[i].key == key
    ensures forall j :: 0 <= j < i ==> out[j].key != key
  {
    if out == [] || out[0].key == key then 0 else 1 + IndexOf(out[1..], key)
  }

  predicate HasKey(out: seq<Decision>, key: Key) {
    IndexOf(out, key) < |out|
  }

  /** A later populated refusal takes the place of an earlier empty one under the same key. */
  predicate Enriches(d: Decision, present: Decision) {
    d.action.RefuseInflow? && present.action.RefuseInflow? && d.action.populated && !present.action.populated
  }

  function Pushed(out: seq<Decision>, d: Decision): seq<Decision> {
    var i := IndexOf(out, d.key);
    if i == |out| then out + [d]
    else if Enriches(d, out[i]) then out[i := d]
    else out
  }

  function Refused(p: Pass, d: Decision): Pass {
    p.(decisions := Pushed(p.decisions, d))
  }

  function PushedAndReserved(p: Pass, d: Decision): Pass {
    var q := Refused(p, d);
    if !HasKey(p.decisions, d.key) && (d.action.Move? || d.action.Evacuate?)
    then q.(credited := Bump(p.credited, d.action.dst, d.action.amount),
            debited := Bump(p.debited, d.action.src, SatAdd(d.action.amount, d.action.feeCap)))
    else q
  }

  function PushedIfEligible(p: Pass, d: Decision, blocked: Holders, occ: Occurrence): Pass {
    if Blocks(blocked, d, Agent(occ)) then p.(suppressed := Pushed(p.suppressed, d)) else PushedAndReserved(p, d)
  }

  function Evacuated(p: Pass, fed: FedStatus, reason: ReasonCode, s: Snapshot, occ: Occurrence, blocked: Holders): Pass {
    var d := EvacuateDecision(fed, reason, s, occ, p.credited, p.debited);
    var q := PushedIfEligible(p, d, blocked, occ);
    if Blocks(blocked, d, Agent(occ)) && d.action.Evacuate? then Refused(q, RefusalFor(Some(d), fed.id, reason, occ)) else q
  }

  function FedStep(p: Pass, fed: FedStatus, s: Snapshot, occ: Occurrence, blocked: Holders): Pass {
    var reason := EvacuationReason(fed);
    var q := if reason.Some? then Evacuated(p, fed, reason.value, s, occ, blocked) else p;
    if fed.spendable > s.perFedCap then Refused(q, RefuseDecision(fed.id, OverCap, occ, false)) else q
  }

  function EvacPhase(s: Snapshot, n: nat, occ: Occurrence, blocked: Holders): Pass
    requires n <= |s.federations|
  {
    if n == 0 then FRESH_PASS else FedStep(EvacPhase(s, n - 1, occ, blocked), s.federations[n - 1], s, occ, blocked)
  }

  /** One funding direction, as `FundInto` sees it. */
  datatype Funding = Funding(dest: FedStatus, source: Option<FedStatus>, available: u64, want: u64, reason: ReasonCode) {
    function Route(s: Snapshot): Option<Route> {
      if source.Some? then s.Route(source.value.id, dest.id) else None
    }

    function Floor(s: Snapshot): u64 {
      var route := Route(s);
      if route.Some? && route.value.status.Routable? then Max(route.value.minViable, s.minMove) else s.minMove
    }

    predicate RouteBlocked(s: Snapshot) {
      Route(s).Some? && !Route(s).value.status.Routable?
    }

    predicate Uneconomic(s: Snapshot) {
      Route(s).Some? && Route(s).value.status.UneconomicAtAnySize?
    }

    /** The clamped amount, zeroed when the route cannot carry it or it is below the floor. */
    function Amount(s: Snapshot, credited: Ledger): u64 {
      var amount: u64 := Min(Min(want, CapRoom(s, dest, credited)), available);
      if RouteBlocked(s) || amount < Floor(s) then 0 else amount
    }

    predicate IsDust(s: Snapshot) {
      want < Floor(s) && !Uneconomic(s)
    }
  }

  function FundRefusals(p: Pass, f: Funding, s: Snapshot, occ: Occurrence, room: u64, amount: u64,
                        candidate: Option<Decision>): Pass
  {
    var q := if f.want > room then Refused(p, RefusalFor(candidate, f.dest.id, OverCap, occ)) else p;
    if f.Uneconomic(s) then Refused(q, RefusalFor(candidate, f.dest.id, UneconomicRoute, occ))
    else if candidate.Some? || amount < Min(f.want, room) then Refused(q, RefusalFor(candidate, f.dest.id, f.reason, occ))
    else q
  }

  function Funded(p: Pass, f: Funding, s: Snapshot, occ: Occurrence, blocked: Holders): Pass {
    if ReceiveBlocker(f.dest).Some? then Refused(p, RefuseDecision(f.dest.id, ReceiveBlocker(f.dest).value, occ, true))
    else if f.source.Some? && f.source.value.id == f.dest.id then p
    else if f.IsDust(s) then p
    else
      var room, amount := CapRoom(s, f.dest, p.credited), f.Amount(s, p.credited);
      if f.source.Some? && amount > 0 then
        var d := MoveDecision(f.reason, f.source.value.id, f.dest.id, amount, s, occ);
        FundRefusals(PushedIfEligible(p, d, blocked, occ), f, s, occ, room, amount,
                     if Blocks(blocked, d, Agent(occ)) then Some(d) else None)
      else FundRefusals(p, f, s, occ, room, amount, None)
  }

  function Available(s: Snapshot, source: Option<FedStatus>, debited: Ledger, floor: u64): u64 {
    if source.Some? then MaxFundable(SourceRoom(s, source.value, debited, floor), s.maxFeeBps) else 0
  }

  function TopUp(s: Snapshot, spending: FedStatus, p: Pass): Funding {
    var source := UsableSource(FindOpt(s, s.standbyFed));
    Funding(spending, source, Available(s, source, p.debited, 0),
            FundingShortfall(s.targetSpending, spending.spendable, s.reserved.Held(TargetCredit, spending.id),
                             Lookup(p.credited, spending.id)),
            SpendingBelowTarget)
  }

  /** Standby funding draws only on what the spending federation holds above its target. */
  function StandbyFunding(s: Snapshot, standby: FedStatus, p: Pass): Funding {
    var source := UsableSource(FindOpt(s, s.spendingFed));
    Funding(standby, source, Available(s, source, p.debited, s.targetSpending),
            FundingShortfall(s.standbyTarget, standby.spendable, s.reserved.Held(TargetCredit, standby.id),
                             Lookup(p.credited, standby.id)),
            StandbyBelowTarget)
  }

  function ToppedUp(p: Pass, s: Snapshot, occ: Occurrence, blocked: Holders): Pass {
    var spending := FindOpt(s, s.spendingFed);
    if spending.None? then p
    else
      var f := TopUp(s, spending.value, p);
      if EvacuationReason(spending.value).None? && f.want > 0 then Funded(p, f, s, occ, blocked) else p
  }

  function StandbyFilled(p: Pass, s: Snapshot, occ: Occurrence, blocked: Holders): Pass {
    var standby := FindOpt(s, s.standbyFed);
    if standby.None? then p
    else
      var f := StandbyFunding(s, standby.value, p);
      if EvacuationReason(standby.value).None? && f.want > 0 then Funded(p, f, s, occ, blocked) else p
  }

  function Decided(s: Snapshot, occ: Occurrence, blocked: Holders): Pass {
    StandbyFilled(ToppedUp(EvacPhase(s, |s.federations|, occ, blocked), s, occ, blocked), s, occ, blocked)
  }

  // ---------------------------------------------------------------- the pass in place

  datatype PushOutcome = Admitted | ConflictSuppressed | Duplicate

  class AllocatorPass {
    var decisions: seq<Decision>
    var suppressed: seq<Decision>
    var credited: Ledger
    var debited: Ledger

    function View(): Pass
      reads this
    {
      Pass(decisions, suppressed, credited, debited)
    }

    constructor ()
      ensures View() == FRESH_PASS
    {
      decisions, suppressed, credited, debited := [], [], map[], map[];
    }

    method PushDecision(d: Decision) returns (pushed: bool)
      modifies this
      ensures View() == Refused(old(View()), d)
      ensures pushed == !HasKey(old(decisions), d.key)
    {
      var i := FindKey(decisions, d.key);
      if i < |decisions| {
        if Enriches(d, decisions[i]) {
          decisions := decisions[i := d];
        }
        pushed := false;
      } else {
        decisions := decisions + [d];
        pushed := true;
      }
    }

    method PushAndReserve(d: Decision) returns (pushed: bool)
      modifies this
      ensures View() == PushedAndReserved(old(View()), d)
      ensures pushed == !HasKey(old(decisions), d.key)
    {
      pushed := PushDecision(d);
      if pushed && (d.action.Move? || d.action.Evacuate?) {
        credited := Bump(credited, d.action.dst, d.action.amount);
        debited := Bump(debited, d.action.src, SatAdd(d.action.amount, d.action.feeCap));
      }
    }

    method PushIfEligibleAndReserve(d: Decision, blocked: Holders, occ: Occurrence) returns (outcome: PushOutcome)
      modifies this
      ensures View() == PushedIfEligible(old(View()), d, blocked, occ)
      ensures outcome.ConflictSuppressed? <==> Blocks(blocked, d, Agent(occ))
    {
      if Blocks(blocked, d, Agent(occ)) {
        var i := FindKey(suppressed, d.key);
        if i == |suppressed| {
          suppressed := suppressed + [d];
        } else if Enriches(d, suppressed[i]) {
          suppressed := suppressed[i := d];
        }
        outcome := ConflictSuppressed;
      } else {
        var pushed := PushAndReserve(d);
        outcome := if pushed then Admitted else Duplicate;
      }
    }

    method FundInto(f: Funding, s: Snapshot, occ: Occurrence, blocked: Holders)
      modifies this
      ensures View() == Funded(old(View()), f, s, occ, blocked)
    {
      if ReceiveBlocker(f.dest).Some? {
        var _ := PushDecision(RefuseDecision(f.dest.id, ReceiveBlocker(f.dest).value, occ, true));
        return;
      }
      if f.source.Some? && f.source.value.id == f.dest.id {
        return;
      }
      if f.IsDust(s) {
        return;
      }
      var room, amount := CapRoom(s, f.dest, credited), f.Amount(s, credited);
      var candidate: Option<Decision> := None;
      if f.source.Some? && amount > 0 {
        var d := MoveDecision(f.reason, f.source.value.id, f.dest.id, amount, s, occ);
        var outcome := PushIfEligibleAndReserve(d, blocked, occ);
        if outcome.ConflictSuppressed? {
          candidate := Some(d);
        }
      }
      if f.want > room {
        var _ := PushDecision(RefusalFor(candidate, f.dest.id, OverCap, occ));
      }
      if f.Uneconomic(s) {
        var _ := PushDecision(RefusalFor(candidate, f.dest.id, UneconomicRoute, occ));
      } else if candidate.Some? || amount < Min(f.want, room) {
        var _ := PushDecision(RefusalFor(candidate, f.dest.id, f.reason, occ));
      }
    }

    method StepFederation(fed: FedStatus, s: Snapshot, occ: Occurrence, blocked: Holders)
      modifies this
      ensures View() == FedStep(old(View()), fed, s, occ, blocked)
    {
      var reason := EvacuationReason(fed);
      if reason.Some? {
        var d := EvacuateDecision(fed, reason.value, s, occ, credited, debited);
        var outcome := PushIfEligibleAndReserve(d, blocked, occ);
        if outcome.ConflictSuppressed? && d.action.Evacuate? {
          var _ := PushDecision(RefusalFor(Some(d), fed.id, reason.value, occ));
        }
      }
      if fed.spendable > s.perFedCap {
        var _ := PushDecision(RefuseDecision(fed.id, OverCap, occ, false));
      }
    }
  }

  method FindKey(out: seq<Decision>, key: Key) returns (i: nat)
    ensures i == IndexOf(out, key)
  {
    i := 0;
    while i < |out| && out[i].key != key
      invariant i <= |out|
      invariant IndexOf(out, key) == i + IndexOf(out[i..], key)
    {
      i := i + 1;
    }
  }

  /** The whole pass: evacuations first, then top-up, then standby funding. */
  method Decide(s: Snapshot, occ: Occurrence, blocked: Holders) returns (outcome: Pass)
    ensures outcome == Decided(s, occ, blocked)
  {
    var pass := new AllocatorPass();
    for n := 0 to |s.federations|
      invariant pass.View() == EvacPhase(s, n, occ, blocked)
    {
      pass.StepFederation(s.federations[n], s, occ, blocked);
    }
    var spending := FindOpt(s, s.spendingFed);
    if spending.Some? {
      var f := TopUp(s, spending.value, pass.View());
      if EvacuationReason(spending.value).None? && f.want > 0 {
        pass.FundInto(f, s, occ, blocked);
      }
    }
    var standby := FindOpt(s, s.standbyFed);
    if standby.Some? {
      var f := StandbyFunding(s, standby.value, pass.View());
      if EvacuationReason(standby.value).None? && f.want > 0 {
        pass.FundInto(f, s, occ, blocked);
      }
    }
    outcome := pass.View();
  }
}

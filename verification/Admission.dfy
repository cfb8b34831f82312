/** Commit-time admission: one intent against one balance sample, a per-federation cap and an
    already projected reservation view. */
module Admission {
  import opened Amounts
  import opened Types
  import opened Reservations

  datatype Verdict = Admitted | InsufficientBalance | ExceedsCap

  /** The debit admission checks against the source. Evacuations are sized at perform time, so
      their source is not checked here. */
  function CheckedDebit(action: Action): Hold {
    match action
    case Move(src, _, amount, feeCap, _) => Hold(src, SatAdd(amount, feeCap))
    case Pay(src, _, amount, feeCap, _, _) => Hold(src, SatAdd(amount, feeCap))
    case _ => NoHold
  }

  function CheckedCredit(action: Action): Hold {
    match action
    case Move(_, dst, amount, _, _) => Hold(dst, amount)
    case Evacuate(_, dst, amount, _, _, _) => Hold(dst, amount)
    case DirectInflow(dst, amount, _) => Hold(dst, amount)
    case Receive(dst, amount, _, _, _) => Hold(dst, amount)
    case _ => NoHold
  }

  function Admit(action: Action, balances: Option<Ledger>, cap: Option<u64>, reserved: Reserved): Verdict {
    if balances.None? then Admitted
    else
      var debit, credit := CheckedDebit(action), CheckedCredit(action);
      if debit.Hold?
         && debit.amount > SatSub(Lookup(balances.value, debit.fed), reserved.Held(Outbound, debit.fed))
      then InsufficientBalance
      else if credit.Hold? && cap.Some?
              && SatAdd(SatAdd(Lookup(balances.value, credit.fed), reserved.Held(Inbound, credit.fed)),
                        credit.amount) > cap.value
      then ExceedsCap
      else Admitted
  }

  // ---------------------------------------------------------------- against the unbounded sums

  /** The source covers what is already outbound plus amount plus fee cap, in unbounded arithmetic. */
  ghost predicate DebitFits(action: Action, balances: Ledger, reserved: Reserved) {
    action.Move? || action.Pay? ==>
      reserved.Held(Outbound, action.src) + action.amount + action.feeCap <= Lookup(balances, action.src)
  }

  /** The four actions that bring value to a federation. */
  predicate IsArrival(action: Action) {
    action.Move? || action.Evacuate? || action.DirectInflow? || action.Receive?
  }

  /** The destination stays within a given cap, in unbounded arithmetic. */
  ghost predicate CreditFits(action: Action, balances: Ledger, cap: Option<u64>, reserved: Reserved) {
    IsArrival(action) && cap.Some? ==>
      Lookup(balances, action.dst) + reserved.Held(Inbound, action.dst) + action.amount <= cap.value
  }

  /** A zero debit is never refused, however overdrawn its source already is. */
  predicate EmptyOverdraft(action: Action, balances: Ledger, reserved: Reserved) {
    && (action.Move? || action.Pay?) && action.amount + action.feeCap == 0
    && reserved.Held(Outbound, action.src) > Lookup(balances, action.src)
  }

  /** A debit past 64 bits is checked at the 64-bit maximum, which a full and unreserved source
      covers. */
  predicate DebitBeyondReach(action: Action, balances: Ledger, reserved: Reserved) {
    && (action.Move? || action.Pay?) && action.amount + action.feeCap > U64_MAX
    && Lookup(balances, action.src) == U64_MAX && reserved.Held(Outbound, action.src) == 0
  }

  /** A cap of the 64-bit maximum is never exceeded by a saturated sum. */
  predicate CapBeyondReach(action: Action, balances: Ledger, cap: Option<u64>, reserved: Reserved) {
    && IsArrival(action) && cap == Some(U64_MAX)
    && Lookup(balances, action.dst) + reserved.Held(Inbound, action.dst) + action.amount > U64_MAX
  }

  predicate DebitSlips(action: Action, balances: Ledger, reserved: Reserved) {
    EmptyOverdraft(action, balances, reserved) || DebitBeyondReach(action, balances, reserved)
  }

  /** What admission accepts, for every action, sample, cap and view: each side fits in unbounded
      sums or falls in one of the families saturation lets through. */
  lemma AdmitIsExact(action: Action, balances: Ledger, cap: Option<u64>, reserved: Reserved)
    ensures Admit(action, Some(balances), cap, reserved).Admitted? <==>
            && (DebitFits(action, balances, reserved) || DebitSlips(action, balances, reserved))
            && (CreditFits(action, balances, cap, reserved) || CapBeyondReach(action, balances, cap, reserved))
    ensures Admit(action, Some(balances), cap, reserved).InsufficientBalance? <==>
            !DebitFits(action, balances, reserved) && !DebitSlips(action, balances, reserved)
    ensures Admit(action, None, cap, reserved).Admitted?
  {
  }

  /** Admission agrees with the unbounded sums if and only if no side slips through while the
      other is in order. */
  lemma AdmissionAgreesExactly(action: Action, balances: Ledger, cap: Option<u64>, reserved: Reserved)
    ensures (Admit(action, Some(balances), cap, reserved).Admitted?
             <==> DebitFits(action, balances, reserved) && CreditFits(action, balances, cap, reserved))
            <==>
            && !(DebitSlips(action, balances, reserved)
                 && (CreditFits(action, balances, cap, reserved) || CapBeyondReach(action, balances, cap, reserved)))
            && !(CapBeyondReach(action, balances, cap, reserved)
                 && (DebitFits(action, balances, reserved) || DebitSlips(action, balances, reserved)))
  {
    AdmitIsExact(action, balances, cap, reserved);
  }

  /** Fewer reservations never turn an admission into a refusal. */
  lemma AdmissionIsAntitone(action: Action, balances: Option<Ledger>, cap: Option<u64>,
                            less: Reserved, more: Reserved)
    requires less.AtMost(more)
    requires Admit(action, balances, cap, more).Admitted?
    ensures Admit(action, balances, cap, less).Admitted?
  {
    var debit, credit := CheckedDebit(action), CheckedCredit(action);
    if debit.Hold? {
      assert less.Held(Outbound, debit.fed) <= more.Held(Outbound, debit.fed);
    }
    if credit.Hold? {
      assert less.Held(Inbound, credit.fed) <= more.Held(Inbound, credit.fed);
    }
  }

  /** Whatever strict admission accepts, the allocator's artifact-aware view accepts too. */
  lemma StrictAdmissionIsEnough(action: Action, balances: Option<Ledger>, cap: Option<u64>,
                                intents: seq<Intent>, records: Records)
    requires Admit(action, balances, cap, Project(intents, StrictView())).Admitted?
    ensures Admit(action, balances, cap, Project(intents, ArtifactView(records))).Admitted?
  {
    ArtifactViewAtMostStrict(intents, records);
    AdmissionIsAntitone(action, balances, cap, Project(intents, ArtifactView(records)),
                        Project(intents, StrictView()));
  }

  // ---------------------------------------------------------------- one after another

  /** The unsaturated debit of a move or payment from `fed`. */
  function TrueSpend(fed: FederationId): Intent -> nat {
    (x: Intent) => if (x.action.Move? || x.action.Pay?) && x.action.src == fed then x.action.amount + x.action.feeCap else 0
  }

  /** Each of the spends was admitted against the strict view of everything live before it. */
  ghost predicate AdmittedInTurn(before: seq<Intent>, spends: seq<Intent>, balances: Ledger, cap: Option<u64>) {
    forall i :: 0 <= i < |spends| ==> AdmittedAt(before, spends, i, balances, cap)
  }

  ghost predicate AdmittedAt(before: seq<Intent>, spends: seq<Intent>, i: nat, balances: Ledger, cap: Option<u64>)
    requires i < |spends|
  {
    && IsLive(spends[i]) && (spends[i].action.Move? || spends[i].action.Pay?)
    && Admit(spends[i].action, Some(balances), cap, Project(before + spends[..i], StrictView())).Admitted?
  }

  lemma AdmittedPrefix(before: seq<Intent>, spends: seq<Intent>, n: nat, balances: Ledger, cap: Option<u64>)
    requires AdmittedInTurn(before, spends, balances, cap) && n <= |spends|
    ensures AdmittedInTurn(before, spends[..n], balances, cap)
  {
    forall i | 0 <= i < n
      ensures AdmittedAt(before, spends[..n], i, balances, cap)
    {
      assert spends[..n][..i] == spends[..i];
      assert AdmittedAt(before, spends, i, balances, cap);
    }
  }

  /** What admission of one spend says about the debits of everything ahead of it. */
  lemma LastSpendFits(ahead: seq<Intent>, x: Intent, balances: Ledger, cap: Option<u64>)
    requires x.action.Move? || x.action.Pay?
    requires Admit(x.action, Some(balances), cap, Project(ahead, StrictView())).Admitted?
    requires 0 < x.action.amount + x.action.feeCap <= U64_MAX
    ensures Total(ahead, StrictDebit(x.action.src)) + x.action.amount + x.action.feeCap
            <= Lookup(balances, x.action.src)
  {
    AdmitIsExact(x.action, balances, cap, Project(ahead, StrictView()));
    StrictHoldsExactly(ahead, x.action.src);
  }

  lemma {:induction false} SpendsAreHeld(spends: seq<Intent>, fed: FederationId)
    requires forall x :: x in spends ==> IsLive(x) && (x.action.Move? || x.action.Pay?)
    requires forall x :: x in spends ==> TrueSpend(fed)(x) <= U64_MAX
    ensures Total(spends, TrueSpend(fed)) == Total(spends, StrictDebit(fed))
  {
    TotalOfEqual(spends, TrueSpend(fed), StrictDebit(fed));
  }

  /** Spends admitted one after another, each against the strict view of all live work before it,
      jointly fit the one balance together with everything already held, unless nothing is spent
      or some debit is past 64 bits. */
  lemma {:induction false} SpendsJointlyFit(before: seq<Intent>, spends: seq<Intent>, balances: Ledger,
                                            cap: Option<u64>, fed: FederationId)
    requires AdmittedInTurn(before, spends, balances, cap)
    requires forall x :: x in spends ==> TrueSpend(fed)(x) <= U64_MAX
    requires 0 < Total(spends, TrueSpend(fed))
    ensures Total(before, StrictDebit(fed)) + Total(spends, TrueSpend(fed)) <= Lookup(balances, fed)
  {
    var n := |spends| - 1;
    var x := spends[n];
    assert AdmittedAt(before, spends, n, balances, cap);
    assert spends == spends[..n] + [x];
    if TrueSpend(fed)(x) == 0 {
      AdmittedPrefix(before, spends, n, balances, cap);
      SpendsJointlyFit(before, spends[..n], balances, cap, fed);
    } else {
      LastSpendFits(before + spends[..n], x, balances, cap);
      TotalConcat(before, spends[..n], StrictDebit(fed));
      forall y | y in spends[..n]
        ensures IsLive(y) && (y.action.Move? || y.action.Pay?)
      {
        var i :| 0 <= i < n && spends[i] == y;
        assert AdmittedAt(before, spends, i, balances, cap);
      }
      SpendsAreHeld(spends[..n], fed);
    }
  }
}

/** Driving one intent in sequence, and committing an allocator batch against one balance sample. */
module BatchCommit {
  import opened Amounts
  import opened Types
  import opened Reservations
  import opened Admission
  import opened Journal
  import opened Drivers
  import opened Conflict

  // ---------------------------------------------------------------- one drive, alone

  /** What the environment answers to each call one drive makes. */
  datatype DriveOracle = DriveOracle(claim: Fault, reread: Fault, outcome: PerformOutcome, write: Fault) {
    function For(pc: Pc): Oracle {
      Oracle(match pc
             case Snapshotted => claim
             case Guarded => reread
             case _ => write, outcome)
    }
  }

  function Rank(pc: Pc): nat {
    match pc
    case Snapshotted => 7
    case Claimed => 6
    case Guarded => 5
    case Ready => 4
    case Performing => 3
    case Writing(_) => 2
    case Releasing(_) => 1
    case Finished(_) => 0
  }

  /** A driver's steps taken one after the other with nothing in between. */
  function RunAlone(j: Store, inFlight: set<Key>, d: Driver, o: DriveOracle): (l: Local)
    ensures l.driver.pc.Finished?
    decreases Rank(d.pc)
  {
    var l := DriverStep(j, inFlight, d, o.For(d.pc));
    if l.driver.pc.Finished? then l else RunAlone(l.journal, l.inFlight, l.driver, o)
  }

  /** What the guarded stretch leaves in the journal and adds to the summary. */
  function GuardedResult(j: Store, d: Driver, o: DriveOracle): (Store, Tally) {
    if !o.reread.NoFault? then (j, FailedPass)
    else if !StillExecuting(j, d) then (j, Skipped)
    else
      (if o.write.Lands() then WrittenBack(j, d, o.outcome) else j,
       WriteTally(o.outcome, o.write.NoFault? && WriteAccepted(j, d, o.outcome)))
  }

  lemma Unfold(j: Store, inFlight: set<Key>, d: Driver, o: DriveOracle)
    ensures var l := DriverStep(j, inFlight, d, o.For(d.pc));
            RunAlone(j, inFlight, d, o)
            == if l.driver.pc.Finished? then l else RunAlone(l.journal, l.inFlight, l.driver, o)
  {
  }

  lemma GuardedRun(j: Store, inFlight: set<Key>, d: Driver, o: DriveOracle)
    requires d.pc.Guarded?
    ensures var (j', tally) := GuardedResult(j, d, o);
            RunAlone(j, inFlight, d, o) == Local(j', inFlight - {d.key}, d.(pc := Finished(tally)), [])
  {
    var (j', tally) := GuardedResult(j, d, o);
    Unfold(j, inFlight, d, o);
    if o.reread.NoFault? && StillExecuting(j, d) {
      Unfold(j, inFlight, d.(pc := Ready), o);
      Unfold(j, inFlight, d.(pc := Performing), o);
      Unfold(j, inFlight, d.(pc := Writing(o.outcome)), o);
    }
    Unfold(j', inFlight, d.(pc := Releasing(tally)), o);
  }

  /** The sequential drive is the concurrent model's driver run without interruption. */
  method DriveIntentStep(journal: MemJournal, guard: InFlightPerforms, intent: Intent, o: DriveOracle)
    returns (tally: Tally)
    modifies journal, guard
    ensures var l := RunAlone(old(journal.intents), old(guard.keys),
                              Driver(intent.key, intent.attempt, intent.status, Snapshotted), o);
            && journal.intents == l.journal
            && guard.keys == l.inFlight
            && l.driver.pc == Finished(tally)
  {
    if intent.status.Pending? {
      var won := false;
      if o.claim.Lands() {
        won := journal.SetStatusIf(intent.key, intent.attempt, Pending, Executing);
      }
      if !o.claim.NoFault? {
        return FailedPass;
      }
      if !won {
        return Skipped;
      }
    }
    var claimed := guard.Claim(intent.key);
    if !claimed {
      assert guard.keys == old(guard.keys);
      return Skipped;
    }
    var d := Driver(intent.key, intent.attempt, intent.status, Guarded);
    GuardedRun(journal.intents, guard.keys, d, o);
    assert guard.keys - {intent.key} == old(guard.keys);
    tally := PerformGuarded(journal, d, o);
    guard.Release(intent.key);
  }

  /** What a drive without faults records for an open intent nobody performs: done, awaiting or failed
      as the perform turned out, or pending again with the new refusal evidence. Claiming a pending
      intent drops its old evidence; nothing else in the store changes. */
  lemma DriveRecordsOutcome(j: Store, inFlight: set<Key>, intent: Intent, outcome: PerformOutcome)
    requires intent.key in j && j[intent.key] == intent && intent.key !in inFlight
    requires intent.status == Pending || intent.status == Executing
    ensures var l := RunAlone(j, inFlight, Driver(intent.key, intent.attempt, intent.status, Snapshotted),
                              DriveOracle(NoFault, NoFault, outcome, NoFault));
            var kept := if intent.status == Pending then None else intent.refusal;
            && l.inFlight == inFlight
            && (outcome.Completed? ==>
                  && l.journal == j[intent.key := intent.(status := Done, refusal := kept)]
                  && l.driver.pc == Finished(Performed))
            && (outcome.LeftAwaiting? ==>
                  && l.journal == j[intent.key := intent.(status := Awaiting, refusal := kept)]
                  && l.driver.pc == Finished(Performed))
            && (outcome.Rejected? ==>
                  && l.journal == j[intent.key := intent.(status := Failed, refusal := kept)]
                  && l.driver.pc == Finished(FailedPass))
            && (outcome.Retryable? ==>
                  && l.journal == j[intent.key := intent.(status := Pending, refusal := outcome.refusal)]
                  && l.driver.pc == Finished(RetryLater))
  {
    var o := DriveOracle(NoFault, NoFault, outcome, NoFault);
    var d := Driver(intent.key, intent.attempt, intent.status, Snapshotted);
    var claimed := if intent.status == Pending then j[intent.key := intent.(status := Executing, refusal := None)] else j;
    Unfold(j, inFlight, d, o);
    Unfold(claimed, inFlight, d.(pc := Claimed), o);
    GuardedRun(claimed, inFlight + {intent.key}, d.(pc := Guarded), o);
    assert inFlight + {intent.key} - {intent.key} == inFlight;
  }

  /** What a drive records when it does not get that far, call by call: a lost claim, a claim another
      driver won, a guard another driver holds, a failed or stale re-read, a write that is lost and
      one that commits and still reports an error. */
  lemma DriveUnderFaults(j: Store, inFlight: set<Key>, intent: Intent, o: DriveOracle)
    requires intent.key in j && j[intent.key] == intent && intent.status == Pending
    ensures var l := RunAlone(j, inFlight, Driver(intent.key, intent.attempt, Pending, Snapshotted), o);
            var claimed := j[intent.key := intent.(status := Executing, refusal := None)];
            && l.inFlight == inFlight
            && (o.claim == Lost ==> l.journal == j && l.driver.pc == Finished(FailedPass))
            && (o.claim == CommittedButFailed ==> l.journal == claimed && l.driver.pc == Finished(FailedPass))
            && (o.claim == NoFault && intent.key in inFlight ==>
                  l.journal == claimed && l.driver.pc == Finished(Skipped))
            && (o.claim == NoFault && intent.key !in inFlight ==>
                  && (o.reread != NoFault ==> l.journal == claimed && l.driver.pc == Finished(FailedPass))
                  && (o.reread == NoFault && o.write == Lost ==>
                        && l.journal == claimed
                        && l.driver.pc == Finished(if o.outcome.Retryable? then RetryLater else FailedPass))
                  && (o.reread == NoFault && o.write == CommittedButFailed ==>
                        && l.journal == RunAlone(j, inFlight, Driver(intent.key, intent.attempt, Pending, Snapshotted),
                                                 DriveOracle(NoFault, NoFault, o.outcome, NoFault)).journal
                        && l.driver.pc == Finished(if o.outcome.Retryable? then RetryLater else FailedPass)))
  {
    var d := Driver(intent.key, intent.attempt, Pending, Snapshotted);
    var clean := DriveOracle(NoFault, NoFault, o.outcome, NoFault);
    var claimed := j[intent.key := intent.(status := Executing, refusal := None)];
    Unfold(j, inFlight, d, o);
    if o.claim == NoFault {
      Unfold(claimed, inFlight, d.(pc := Claimed), o);
      if intent.key !in inFlight {
        GuardedRun(claimed, inFlight + {intent.key}, d.(pc := Guarded), o);
        assert inFlight + {intent.key} - {intent.key} == inFlight;
        Unfold(j, inFlight, d, clean);
        Unfold(claimed, inFlight, d.(pc := Claimed), clean);
        GuardedRun(claimed, inFlight + {intent.key}, d.(pc := Guarded), clean);
      }
    }
  }

  /** A driver started from a stale copy of an intent that has moved on never performs it: it skips or
      fails and leaves the store as it was. */
  lemma StaleDriveIsHarmless(j: Store, inFlight: set<Key>, d: Driver, o: DriveOracle)
    requires d.pc == Snapshotted && (d.status == Pending || d.status == Executing)
    requires d.key !in j || j[d.key].attempt != d.attempt || (j[d.key].status != Pending && j[d.key].status != Executing)
    ensures var l := RunAlone(j, inFlight, d, o);
            l.journal == j && l.inFlight == inFlight && l.events == []
            && (l.driver.pc == Finished(Skipped) || l.driver.pc == Finished(FailedPass))
            && (o.claim == NoFault && o.reread == NoFault ==> l.driver.pc == Finished(Skipped))
  {
    Unfold(j, inFlight, d, o);
    if d.status == Executing {
      Unfold(j, inFlight, d.(pc := Claimed), o);
      if d.key !in inFlight {
        GuardedRun(j, inFlight + {d.key}, d.(pc := Guarded), o);
        assert inFlight + {d.key} - {d.key} == inFlight;
      }
    }
  }

  /** The stretch between taking the guard and dropping it. */
  method PerformGuarded(journal: MemJournal, d: Driver, o: DriveOracle) returns (tally: Tally)
    modifies journal
    ensures (journal.intents, tally) == GuardedResult(old(journal.intents), d, o)
  {
    if !o.reread.NoFault? {
      return FailedPass;
    }
    var current := journal.Get(d.key);
    if current.None? || !current.value.status.Executing? || current.value.attempt != d.attempt {
      return Skipped;
    }
    var accepted := false;
    match o.outcome {
      case Retryable(refusal) =>
        if o.write.Lands() {
          accepted := journal.ResetRetryable(d.key, d.attempt, refusal);
        }
        tally := RetryLater;
      case Rejected =>
        if o.write.Lands() {
          accepted := journal.SetStatus(d.key, d.attempt, Failed);
        }
        tally := FailedPass;
      case Completed =>
        if o.write.Lands() {
          accepted := journal.SetStatus(d.key, d.attempt, Done);
        }
        tally := if accepted && o.write.NoFault? then Performed else FailedPass;
      case LeftAwaiting =>
        if o.write.Lands() {
          accepted := journal.SetStatus(d.key, d.attempt, Awaiting);
        }
        tally := if accepted && o.write.NoFault? then Performed else FailedPass;
    }
  }

  /** No key appears or disappears and no stored action changes: what performing an intent, or
      any other status writer, may do to the journal. */
  predicate SameActions(before: Store, after: Store) {
    before.Keys == after.Keys && forall k :: k in before ==> before[k].action == after[k].action
  }

  lemma DriveKeepsActions(j: Store, inFlight: set<Key>, d: Driver, o: DriveOracle)
    ensures SameActions(j, RunAlone(j, inFlight, d, o).journal)
    decreases Rank(d.pc)
  {
    var l := DriverStep(j, inFlight, d, o.For(d.pc));
    assert SameActions(j, l.journal);
    if !l.driver.pc.Finished? {
      DriveKeepsActions(l.journal, l.inFlight, l.driver, o);
    }
  }

  // ---------------------------------------------------------------- committing one decision

  datatype CommitResult = Drive(intent: Intent) | SkipIt | TerminalFailed | CommitError

  /** Whether a stored intent may be re-attached to a repeated request. */
  predicate AttachMatches(stored: Action, asked: Action) {
    match stored
    case Pay(src, _, amount, feeCap, hash, _) =>
      asked.Pay? && asked.src == src && asked.amount == amount && asked.feeCap == feeCap && asked.paymentHash == hash
    case Receive(dst, amount, feeCap, nonce, _) =>
      asked.Receive? && asked.dst == dst && asked.amount == amount && asked.feeCap == feeCap && asked.nonce == nonce
    case Join(fed, invite, _) => asked.Join? && asked.federation == fed && asked.invite == invite
    case Recover(fed, invite) => asked.Recover? && asked.federation == fed && asked.invite == invite
    case _ => true
  }

  /** A stored pay, receive, join or recover is re-attached to exactly the requests that differ from it
      in nothing but the invoice text, the gateway or the preexisting mark; other stored work to any. */
  lemma AttachIsExact(stored: Action, asked: Action)
    ensures AttachMatches(stored, asked) <==>
            || stored.Move? || stored.Evacuate? || stored.DirectInflow? || stored.RefuseInflow?
            || (&& stored.Pay? && asked.Pay?
                && asked == Pay(stored.src, asked.invoice, stored.amount, stored.feeCap, stored.paymentHash, asked.gateway))
            || (&& stored.Receive? && asked.Receive?
                && asked == Receive(stored.dst, stored.amount, stored.feeCap, stored.nonce, asked.gateway))
            || (stored.Join? && asked.Join? && asked == stored.(preexisting := asked.preexisting))
            || (stored.Recover? && asked == stored)
  {
  }

  /** What other writers may do to the journal between two awaits: add intents and change statuses,
      but not remove an intent or rewrite what a stored one does. */
  predicate Interferes(before: Store, after: Store) {
    before.Keys <= after.Keys && forall k :: k in before ==> before[k].action == after[k].action
  }

  /** The journal after other writers had their turn. */
  function Met(j: Store, others: Store): Store {
    if Interferes(j, others) then others else j
  }

  /** What the environment answers while one decision is committed and driven, and what other
      writers made of the journal between the two reads, between the second read and the write,
      and by the time the decision is dealt with. */
  datatype CommitOracle = CommitOracle(firstRead: Fault, secondRead: Fault, upsert: Fault, drive: DriveOracle,
                                       betweenReads: Store, beforeWrite: Store, afterwards: Store)
  {
    /** Every key other writers may have brought. */
    function Brings(): set<Key> {
      betweenReads.Keys + beforeWrite.Keys + afterwards.Keys
    }

    /** The journal the second read serves. */
    function AtRead(j: Store): Store {
      Met(j, betweenReads)
    }

    /** The journal the write lands on. */
    function AtWrite(j: Store): Store {
      Met(AtRead(j), beforeWrite)
    }
  }

  /** Whether a decision is new work that the caller's reservation view admits, as the second read
      shows the journal. */
  predicate IsAccepted(j: Store, d: Decision, actor: Actor, balances: Option<Ledger>, cap: Option<u64>,
                       reserved: Reserved, o: CommitOracle)
  {
    && GoalOfDecision(d, actor).Some?
    && o.secondRead.NoFault?
    && d.key !in o.AtRead(j)
    && Admit(d.action, balances, cap, reserved).Admitted?
  }

  /** The answer to one decision: an error exactly when it pursues no agent goal, a read or write fails,
      a stored intent does not match it, or it is not admitted or not taken; else a stored intent
      answers by its status, and new work is to be driven. */
  ghost predicate Answers(j: Store, d: Decision, actor: Actor, balances: Option<Ledger>, cap: Option<u64>,
                          reserved: Reserved, o: CommitOracle, result: CommitResult)
  {
    var seen, intent := o.AtRead(j), Intent(d.key, 0, d.action, Pending, d.reason, actor, None, None);
    && (result.CommitError? <==>
        || GoalOfDecision(d, actor).None? || !o.secondRead.NoFault?
        || (d.key in seen && !AttachMatches(seen[d.key].action, d.action))
        || (d.key !in seen && !(&& Admit(d.action, balances, cap, reserved).Admitted?
                                && o.upsert.NoFault? && MayUpsert(o.AtWrite(j), intent))))
    && (!result.CommitError? ==>
          result == if d.key !in seen then Drive(intent)
                    else if seen[d.key].status == Failed then TerminalFailed
                    else if seen[d.key].status == Done || seen[d.key].status == Awaiting then SkipIt
                    else Drive(seen[d.key]))
  }

  /** Admit one decision against the caller's reservation view and journal it. A key the second read
      does not show becomes durable exactly when the action is admitted, the write lands and the
      journal takes it; the caller is told to drive it exactly when the write also reports success.
      A key it shows is never written, and its stored intent decides the answer. */
  method DecideAndJournal(journal: MemJournal, d: Decision, actor: Actor, balances: Option<Ledger>,
                          cap: Option<u64>, reserved: Reserved, o: CommitOracle) returns (result: CommitResult)
    modifies journal
    ensures var j, intent := old(journal.intents), Intent(d.key, 0, d.action, Pending, d.reason, actor, None, None);
            journal.intents == if GoalOfDecision(d, actor).None? then j
                               else if !IsAccepted(j, d, actor, balances, cap, reserved, o) then o.AtRead(j)
                               else if o.upsert.Lands() then Upserted(o.AtWrite(j), intent)
                               else o.AtWrite(j)
    ensures Answers(old(journal.intents), d, actor, balances, cap, reserved, o, result)
  {
    if GoalOfDecision(d, actor).None? {
      return CommitError;
    }
    journal.intents := o.AtRead(journal.intents);
    if !o.secondRead.NoFault? {
      return CommitError;
    }
    var existing := journal.Get(d.key);
    if existing.Some? {
      var stored := existing.value;
      if !AttachMatches(stored.action, d.action) {
        return CommitError;
      }
      if stored.status.Failed? {
        return TerminalFailed;
      }
      if stored.status.Done? || stored.status.Awaiting? {
        return SkipIt;
      }
      return Drive(stored);
    }
    var intent := FromDecision(d, actor);
    if !Admit(d.action, balances, cap, reserved).Admitted? {
      return CommitError;
    }
    journal.intents := Met(journal.intents, o.beforeWrite);
    var taken := false;
    if o.upsert.Lands() {
      taken := journal.Upsert(intent);
    }
    if !o.upsert.NoFault? || !taken {
      return CommitError;
    }
    result := Drive(intent);
  }

  // ---------------------------------------------------------------- committing a batch

  datatype Summary = Summary(performed: nat, skipped: nat, failed: nat, terminalFailedSkipped: nat, retryable: nat) {
    function Add(tally: Tally): Summary {
      match tally
      case Performed => this.(performed := performed + 1)
      case Skipped => this.(skipped := skipped + 1)
      case FailedPass => this.(failed := failed + 1)
      case RetryLater => this.(failed := failed + 1, retryable := retryable + 1)
    }

    /** The summary is the count of what happened to each decision: a retry is also a failure, and a
        terminally failed intent is also a skip. */
    predicate Counts(fates: seq<Fate>) {
      && performed == CountOf(fates, Ended(Performed))
      && skipped == CountOf(fates, Ended(Skipped)) + CountOf(fates, AlreadyFailed)
      && failed == CountOf(fates, Ended(FailedPass)) + CountOf(fates, Ended(RetryLater))
      && terminalFailedSkipped == CountOf(fates, AlreadyFailed)
      && retryable == CountOf(fates, Ended(RetryLater))
    }
  }

  /** What became of one decision of a batch. */
  datatype Fate = Ended(tally: Tally) | AlreadyFailed

  function CountOf(fates: seq<Fate>, f: Fate): nat {
    multiset(fates)[f]
  }

  /** The unsaturated debit a send takes from `fed`. */
  function TrueDebit(fed: FederationId): Decision -> nat {
    (d: Decision) =>
      if (d.action.Move? || d.action.Evacuate?) && d.action.src == fed then d.action.amount + d.action.feeCap else 0
  }

  /** The i-th newly durable decision fits the one balance sample together with everything reserved
      before the batch and every newly durable decision ahead of it, but for what saturation lets
      through: an empty debit, a debit past 64 bits that is the first on a full source, and a cap of
      the 64-bit maximum. */
  ghost predicate FitsSample(durable: seq<Decision>, i: nat, balances: Ledger, cap: Option<u64>, start: Reserved)
    requires i < |durable|
  {
    var a := durable[i].action;
    && (a.Move? ==>
          var ahead := start.Held(Outbound, a.src) + Total(durable[..i], TrueDebit(a.src));
          || ahead + a.amount + a.feeCap <= Lookup(balances, a.src)
          || a.amount + a.feeCap == 0
          || (a.amount + a.feeCap > U64_MAX && ahead == 0 && Lookup(balances, a.src) == U64_MAX))
    && ((a.Move? || a.Evacuate?) && cap.Some? ==>
          || (Lookup(balances, a.dst) + start.Held(Inbound, a.dst) + Total(durable[..i + 1], ShareOf(Inbound, a.dst))
              <= cap.value)
          || cap.value == U64_MAX)
  }

  /** The folded view holds at least what the batch started with plus every durable decision. */
  ghost predicate Covers(reserved: Reserved, start: Reserved, durable: seq<Decision>) {
    forall side, fed ::
      reserved.Held(side, fed) >= Clamp(start.Held(side, fed) + Total(durable, ShareOf(side, fed)))
  }

  /** Below the 64-bit maximum no share was clamped, so the shares are the true debits. */
  lemma {:induction false} SharesAreTrue(ds: seq<Decision>, fed: FederationId)
    requires Total(ds, ShareOf(Outbound, fed)) < U64_MAX
    requires forall d :: d in ds ==> d.action.Move? || d.action.Evacuate?
    ensures Total(ds, TrueDebit(fed)) == Total(ds, ShareOf(Outbound, fed))
  {
    if ds != [] {
      SharesAreTrue(ds[..|ds| - 1], fed);
    }
  }

  lemma DebitIsCovered(durable: seq<Decision>, d: Decision, balances: Ledger, cap: Option<u64>,
                       start: Reserved, reserved: Reserved)
    requires d.action.Move? && 0 < d.action.amount + d.action.feeCap
    requires forall x :: x in durable ==> x.action.Move? || x.action.Evacuate?
    requires var src := d.action.src;
             reserved.Held(Outbound, src) >= Clamp(start.Held(Outbound, src) + Total(durable, ShareOf(Outbound, src)))
    requires Admit(d.action, Some(balances), cap, reserved).Admitted?
    ensures var a := d.action;
            var ahead := start.Held(Outbound, a.src) + Total(durable, TrueDebit(a.src));
            || ahead + a.amount + a.feeCap <= Lookup(balances, a.src)
            || (a.amount + a.feeCap > U64_MAX && ahead == 0 && Lookup(balances, a.src) == U64_MAX)
  {
    SharesAreTrue(durable, d.action.src);
  }

  lemma CreditIsCovered(durable: seq<Decision>, d: Decision, balances: Ledger, cap: u64,
                        start: Reserved, reserved: Reserved)
    requires (d.action.Move? || d.action.Evacuate?) && cap < U64_MAX
    requires var dst := d.action.dst;
             reserved.Held(Inbound, dst) >= Clamp(start.Held(Inbound, dst) + Total(durable, ShareOf(Inbound, dst)))
    requires Admit(d.action, Some(balances), Some(cap), reserved).Admitted?
    ensures var dst := d.action.dst;
            Lookup(balances, dst) + start.Held(Inbound, dst) + Total(durable + [d], ShareOf(Inbound, dst)) <= cap
  {
    TotalAppend(durable, d, ShareOf(Inbound, d.action.dst));
  }

  /** An admitted decision fits behind everything the view covers. */
  lemma AdmittedFits(durable: seq<Decision>, d: Decision, balances: Ledger, cap: Option<u64>,
                     start: Reserved, reserved: Reserved)
    requires Covers(reserved, start, durable)
    requires forall x :: x in durable ==> x.action.Move? || x.action.Evacuate?
    requires Admit(d.action, Some(balances), cap, reserved).Admitted?
    ensures FitsSample(durable + [d], |durable|, balances, cap, start)
  {
    var a, all := d.action, durable + [d];
    assert all[..|durable|] == durable && all[..|durable| + 1] == all;
    if a.Move? && 0 < a.amount + a.feeCap {
      DebitIsCovered(durable, d, balances, cap, start, reserved);
    }
    if (a.Move? || a.Evacuate?) && cap.Some? && cap.value < U64_MAX {
      CreditIsCovered(durable, d, balances, cap.value, start, reserved);
    }
  }

  lemma FoldingCoversAt(reserved: Reserved, start: Reserved, durable: seq<Decision>, d: Decision,
                        side: Side, fed: FederationId)
    requires reserved.Held(side, fed) >= Clamp(start.Held(side, fed) + Total(durable, ShareOf(side, fed)))
    ensures var held := Reserve(reserved, StrictFootprint(d.action)).Held(side, fed);
            && held >= Clamp(start.Held(side, fed) + Total(durable, ShareOf(side, fed)))
            && held >= Clamp(start.Held(side, fed) + Total(durable + [d], ShareOf(side, fed)))
  {
    ReserveHolds(reserved, StrictFootprint(d.action), side, fed);
    TotalAppend(durable, d, ShareOf(side, fed));
  }

  lemma FoldingKeepsCover(reserved: Reserved, start: Reserved, durable: seq<Decision>, d: Decision)
    requires Covers(reserved, start, durable)
    ensures Covers(Reserve(reserved, StrictFootprint(d.action)), start, durable)
    ensures Covers(Reserve(reserved, StrictFootprint(d.action)), start, durable + [d])
  {
    var after := Reserve(reserved, StrictFootprint(d.action));
    forall side, fed
      ensures after.Held(side, fed) >= Clamp(start.Held(side, fed) + Total(durable, ShareOf(side, fed)))
    {
      FoldingCoversAt(reserved, start, durable, d, side, fed);
    }
    forall side, fed
      ensures after.Held(side, fed) >= Clamp(start.Held(side, fed) + Total(durable + [d], ShareOf(side, fed)))
    {
      FoldingCoversAt(reserved, start, durable, d, side, fed);
    }
  }

  function KeysOf(ds: seq<Decision>): set<Key> {
    set d | d in ds :: d.key
  }

  ghost predicate AllFit(durable: seq<Decision>, balances: Option<Ledger>, cap: Option<u64>, start: Reserved) {
    balances.Some? ==> forall i :: 0 <= i < |durable| ==> FitsSample(durable, i, balances.value, cap, start)
  }

  /** What the batch has made durable so far: of the keys other writers did not bring, exactly the
      listed decisions are new, each stored as decided and each fitting. */
  ghost predicate Committed(before: Store, now: Store, durable: seq<Decision>, foreign: set<Key>,
                            balances: Option<Ledger>, cap: Option<u64>, start: Reserved)
  {
    && before.Keys + KeysOf(durable) <= now.Keys <= before.Keys + KeysOf(durable) + foreign
    && before.Keys !! KeysOf(durable)
    && (forall d :: d in durable ==> d.action.Move? || d.action.Evacuate?)
    && (forall d :: d in durable ==> d.key in now && now[d.key].action == d.action)
    && AllFit(durable, balances, cap, start)
  }

  lemma AllFitGrows(durable: seq<Decision>, d: Decision, balances: Option<Ledger>, cap: Option<u64>,
                    start: Reserved, reserved: Reserved)
    requires AllFit(durable, balances, cap, start) && Covers(reserved, start, durable)
    requires forall x :: x in durable ==> x.action.Move? || x.action.Evacuate?
    requires Admit(d.action, balances, cap, reserved).Admitted?
    ensures AllFit(durable + [d], balances, cap, start)
  {
    var all := durable + [d];
    forall i | 0 <= i < |all| && balances.Some?
      ensures FitsSample(all, i, balances.value, cap, start)
    {
      if i < |durable| {
        assert all[..i] == durable[..i] && all[..i + 1] == durable[..i + 1];
        assert FitsSample(durable, i, balances.value, cap, start);
      } else {
        AdmittedFits(durable, d, balances.value, cap, start, reserved);
      }
    }
  }

  /** A decision the second read did not show is written over whatever others did since. */
  lemma CommittedGrows(before: Store, seen: Store, met: Store, durable: seq<Decision>, foreign: set<Key>, d: Decision,
                       actor: Actor, balances: Option<Ledger>, cap: Option<u64>, start: Reserved, reserved: Reserved)
    requires Committed(before, seen, durable, foreign, balances, cap, start)
    requires Covers(reserved, start, durable)
    requires d.key !in seen && Interferes(seen, met) && met.Keys <= seen.Keys + foreign
    requires Admit(d.action, balances, cap, reserved).Admitted? && GoalOfDecision(d, actor).Some?
    ensures Committed(before, met[d.key := FromDecision(d, actor)], durable + [d], foreign, balances, cap, start)
  {
    AllFitGrows(durable, d, balances, cap, start, reserved);
    assert KeysOf(durable + [d]) == KeysOf(durable) + {d.key};
  }

  lemma InterferenceKeepsCommitted(before: Store, now: Store, later: Store, durable: seq<Decision>, foreign: set<Key>,
                                   balances: Option<Ledger>, cap: Option<u64>, start: Reserved)
    requires Committed(before, now, durable, foreign, balances, cap, start)
    requires Interferes(now, later) && later.Keys <= now.Keys + foreign
    ensures Committed(before, later, durable, foreign, balances, cap, start)
  {
  }

  /** What the caller folds into its view: what it was told to drive, or what it asked for when the
      answer was an error, unless the first read already showed the key. */
  function Folded(reserved: Reserved, existed: bool, d: Decision, result: CommitResult): Reserved {
    if existed then reserved
    else
      match result
      case Drive(intent) => Reserve(reserved, StrictFootprint(intent.action))
      case CommitError => Reserve(reserved, StrictFootprint(d.action))
      case _ => reserved
  }

  lemma FoldedCovers(reserved: Reserved, start: Reserved, durable: seq<Decision>, existed: bool, d: Decision,
                     result: CommitResult)
    requires Covers(reserved, start, durable)
    ensures Covers(Folded(reserved, existed, d, result), start, durable)
    ensures !existed && (result.CommitError? || (result.Drive? && result.intent.action == d.action)) ==>
              Covers(Folded(reserved, existed, d, result), start, durable + [d])
  {
    FoldingKeepsCover(reserved, start, durable, d);
    if result.Drive? {
      FoldingKeepsCover(reserved, start, durable, d.(action := result.intent.action));
    }
  }

  /** Journaling one decision, with the view every later decision is admitted against. */
  method JournalOne(journal: MemJournal, d: Decision, actor: Actor, balances: Option<Ledger>, cap: Option<u64>,
                    reserved: Reserved, o: CommitOracle, ghost before: Store, ghost durable: seq<Decision>,
                    ghost foreign: set<Key>, ghost start: Reserved)
    returns (result: CommitResult, after: Reserved, ghost now: seq<Decision>)
    requires Committed(before, journal.intents, durable, foreign, balances, cap, start)
    requires Covers(reserved, start, durable) && o.Brings() <= foreign
    modifies journal
    ensures Committed(before, journal.intents, now, foreign, balances, cap, start)
    ensures Covers(after, start, now)
    ensures Answers(old(journal.intents), d, actor, balances, cap, reserved, o, result)
    ensures IsAccepted(old(journal.intents), d, actor, balances, cap, reserved, o) && result.Drive? ==>
              d.key in journal.intents && journal.intents[d.key] == result.intent
    ensures d.key in old(journal.intents) ==> now == durable && after == reserved
    ensures && IsAccepted(old(journal.intents), d, actor, balances, cap, reserved, o) && o.upsert.NoFault?
            && d.key !in foreign ==>
              now == durable + [d] && after == Reserve(reserved, StrictFootprint(d.action))
  {
    now := durable;
    ghost var j := journal.intents;
    var existed := d.key in journal.intents;
    result := DecideAndJournal(journal, d, actor, balances, cap, reserved, o);
    after := Folded(reserved, existed, d, result);
    FoldedCovers(reserved, start, durable, existed, d, result);
    InterferenceKeepsCommitted(before, j, o.AtRead(j), durable, foreign, balances, cap, start);
    if IsAccepted(j, d, actor, balances, cap, reserved, o) {
      InterferenceKeepsCommitted(before, o.AtRead(j), o.AtWrite(j), durable, foreign, balances, cap, start);
      if o.upsert.Lands() && MayUpsert(o.AtWrite(j), FromDecision(d, actor)) {
        CommittedGrows(before, o.AtRead(j), o.AtWrite(j), durable, foreign, d, actor, balances, cap, start, reserved);
        now := durable + [d];
      }
    }
  }

  /** What becomes of a decision, given its answer: an error is a failed pass, and a driven intent ends
      as its drive does. */
  ghost predicate Becomes(result: CommitResult, j: Store, inFlight: set<Key>, o: DriveOracle, fate: Fate) {
    match result
    case CommitError => fate == Ended(FailedPass)
    case TerminalFailed => fate == AlreadyFailed
    case SkipIt => fate == Ended(Skipped)
    case Drive(intent) =>
      && fate.Ended?
      && RunAlone(j, inFlight, Driver(intent.key, intent.attempt, intent.status, Snapshotted), o).driver.pc
         == Finished(fate.tally)
  }

  /** How a fresh intent's drive ends, without faults, by what the perform returned. */
  function EndOf(outcome: PerformOutcome): Fate {
    match outcome
    case Completed => Ended(Performed)
    case LeftAwaiting => Ended(Performed)
    case Retryable(_) => Ended(RetryLater)
    case Rejected => Ended(FailedPass)
  }

  predicate DrivesCleanly(o: DriveOracle) {
    o.claim.NoFault? && o.reread.NoFault? && o.write.NoFault?
  }

  /** One more fate is one more in exactly its own counts. */
  lemma CountsGrow(summary: Summary, fates: seq<Fate>, fate: Fate)
    requires summary.Counts(fates)
    ensures fate.Ended? ==> summary.Add(fate.tally).Counts(fates + [fate])
    ensures fate.AlreadyFailed? ==>
              summary.(skipped := summary.skipped + 1, terminalFailedSkipped := summary.terminalFailedSkipped + 1)
              .Counts(fates + [fate])
  {
    assert multiset(fates + [fate]) == multiset(fates) + multiset{fate};
  }

  /** Acting on an answer: count it, and drive what is to be driven. */
  method ActOn(journal: MemJournal, guard: InFlightPerforms, answer: CommitResult, o: DriveOracle, summary: Summary,
               ghost fates: seq<Fate>)
    returns (counted: Summary, ghost fate: Fate)
    requires summary.Counts(fates)
    modifies journal, guard
    ensures counted.Counts(fates + [fate]) && guard.keys == old(guard.keys)
    ensures SameActions(old(journal.intents), journal.intents)
    ensures Becomes(answer, old(journal.intents), old(guard.keys), o, fate)
  {
    match answer {
      case TerminalFailed =>
        fate := AlreadyFailed;
        CountsGrow(summary, fates, fate);
        counted := summary.Add(Skipped);
        counted := counted.(terminalFailedSkipped := counted.terminalFailedSkipped + 1);
      case SkipIt =>
        fate := Ended(Skipped);
        CountsGrow(summary, fates, fate);
        counted := summary.Add(Skipped);
      case Drive(intent) =>
        var d := Driver(intent.key, intent.attempt, intent.status, Snapshotted);
        DriveKeepsActions(journal.intents, guard.keys, d, o);
        DriveKeepsGuard(journal.intents, guard.keys, d, o);
        var tally := DriveIntentStep(journal, guard, intent, o);
        fate := Ended(tally);
        CountsGrow(summary, fates, fate);
        counted := summary.Add(tally);
      case CommitError =>
        fate := Ended(FailedPass);
        CountsGrow(summary, fates, fate);
        counted := summary.Add(FailedPass);
    }
  }

  /** A whole drive leaves the set of keys being performed as it found it. */
  lemma DriveKeepsGuard(j: Store, inFlight: set<Key>, d: Driver, o: DriveOracle)
    requires d.pc == Snapshotted
    ensures RunAlone(j, inFlight, d, o).inFlight == inFlight
  {
    var l := DriverStep(j, inFlight, d, o.For(d.pc));
    Unfold(j, inFlight, d, o);
    if l.driver.pc.Claimed? {
      Unfold(l.journal, inFlight, l.driver, o);
      if d.key !in inFlight {
        GuardedRun(l.journal, inFlight + {d.key}, l.driver.(pc := Guarded), o);
        assert inFlight + {d.key} - {d.key} == inFlight;
      }
    }
  }

  /** A fresh intent whose drive meets no fault ends by what its perform returned. */
  lemma FreshDriveEnds(answer: CommitResult, j: Store, inFlight: set<Key>, o: DriveOracle, fate: Fate)
    requires Becomes(answer, j, inFlight, o, fate) && answer.Drive? && DrivesCleanly(o)
    requires var x := answer.intent; x.key in j && j[x.key] == x && x.status == Pending && x.key !in inFlight
    ensures fate == EndOf(o.outcome)
  {
    assert o == DriveOracle(NoFault, NoFault, o.outcome, NoFault);
    DriveRecordsOutcome(j, inFlight, answer.intent, o.outcome);
  }

  /** One executable, first-seen decision of the batch. */
  method CommitOne(journal: MemJournal, guard: InFlightPerforms, d: Decision, actor: Actor,
                   balances: Option<Ledger>, cap: Option<u64>, reserved: Reserved, o: CommitOracle, summary: Summary,
                   ghost before: Store, ghost durable: seq<Decision>, ghost foreign: set<Key>, ghost start: Reserved,
                   ghost fates: seq<Fate>)
    returns (after: Reserved, counted: Summary, ghost now: seq<Decision>, ghost fate: Fate,
             ghost result: CommitResult, ghost journaled: Store)
    requires Committed(before, journal.intents, durable, foreign, balances, cap, start)
    requires Covers(reserved, start, durable) && o.Brings() <= foreign && summary.Counts(fates)
    modifies journal, guard
    ensures Committed(before, journal.intents, now, foreign, balances, cap, start)
    ensures Covers(after, start, now) && guard.keys == old(guard.keys)
    ensures counted.Counts(fates + [fate])
    ensures Answers(old(journal.intents), d, actor, balances, cap, reserved, o, result)
    ensures Becomes(result, journaled, old(guard.keys), o.drive, fate)
    ensures d.key in old(journal.intents) ==> now == durable && after == reserved
    ensures && IsAccepted(old(journal.intents), d, actor, balances, cap, reserved, o) && o.upsert.NoFault?
            && d.key !in foreign ==>
              && now == durable + [d] && after == Reserve(reserved, StrictFootprint(d.action))
              && (DrivesCleanly(o.drive) && d.key !in old(guard.keys) ==> fate == EndOf(o.drive.outcome))
  {
    var answer;
    answer, after, now := JournalOne(journal, d, actor, balances, cap, reserved, o, before, durable, foreign, start);
    result, journaled := answer, journal.intents;
    counted, fate := ActOn(journal, guard, answer, o.drive, summary, fates);
    InterferenceKeepsCommitted(before, journaled, journal.intents, now, foreign, balances, cap, start);
    if && IsAccepted(old(journal.intents), d, actor, balances, cap, reserved, o) && answer.Drive?
       && DrivesCleanly(o.drive) && d.key !in old(guard.keys) {
      FreshDriveEnds(answer, journaled, old(guard.keys), o.drive, fate);
    }
  }

  /** One decision of the batch, advisory and repeated ones included, and then other writers' turn. */
  method CommitNext(journal: MemJournal, guard: InFlightPerforms, d: Decision, actor: Actor, balances: Option<Ledger>,
                    cap: Option<u64>, seen: set<Key>, reserved: Reserved, o: CommitOracle, summary: Summary,
                    ghost before: Store, ghost durable: seq<Decision>, ghost foreign: set<Key>, ghost start: Reserved,
                    ghost fates: seq<Fate>)
    returns (met: set<Key>, after: Reserved, counted: Summary, ghost now: seq<Decision>, ghost fate: Fate)
    requires Committed(before, journal.intents, durable, foreign, balances, cap, start)
    requires Covers(reserved, start, durable) && o.Brings() <= foreign && summary.Counts(fates)
    modifies journal, guard
    ensures Committed(before, journal.intents, now, foreign, balances, cap, start)
    ensures Covers(after, start, now) && guard.keys == old(guard.keys)
    ensures counted.Counts(fates + [fate])
    ensures met == if d.action.RefuseInflow? then seen else seen + {d.key}
    ensures d.action.RefuseInflow? || d.key in seen ==> now == durable && after == reserved && fate == Ended(Skipped)
    ensures d.key in old(journal.intents) ==> now == durable && after == reserved
    ensures !d.action.RefuseInflow? && d.key !in seen && !o.firstRead.NoFault? ==>
              now == durable && after == reserved && fate == Ended(FailedPass)
    ensures !d.action.RefuseInflow? && d.key !in seen && o.firstRead.NoFault? ==>
              exists result, journaled :: Answers(old(journal.intents), d, actor, balances, cap, reserved, o, result)
                                          && Becomes(result, journaled, old(guard.keys), o.drive, fate)
    ensures && !d.action.RefuseInflow? && d.key !in seen + foreign && o.firstRead.NoFault? && o.upsert.NoFault?
            && IsAccepted(old(journal.intents), d, actor, balances, cap, reserved, o) ==>
              && now == durable + [d] && after == Reserve(reserved, StrictFootprint(d.action))
              && (DrivesCleanly(o.drive) && d.key !in old(guard.keys) ==> fate == EndOf(o.drive.outcome))
  {
    met, after, counted, now := seen, reserved, summary, durable;
    if !d.action.IsExecutable() || d.key in seen {
      counted := summary.Add(Skipped);
      fate := Ended(Skipped);
    } else {
      met := seen + {d.key};
      if !o.firstRead.NoFault? {
        counted := summary.Add(FailedPass);
        fate := Ended(FailedPass);
      } else {
        ghost var result, journaled;
        after, counted, now, fate, result, journaled :=
          CommitOne(journal, guard, d, actor, balances, cap, reserved, o, summary,
                    before, durable, foreign, start, fates);
      }
    }
    InterferenceKeepsCommitted(before, journal.intents, Met(journal.intents, o.afterwards), now, foreign,
                               balances, cap, start);
    journal.intents := Met(journal.intents, o.afterwards);
  }

  /** Every key some other writer may bring while the batch is committed. */
  function Brought(oracles: seq<CommitOracle>): set<Key> {
    set o, k | o in oracles && k in o.Brings() :: k
  }

  /** The executable decisions of a list whose keys the journal does not hold yet, in order. */
  function Fresh(ds: seq<Decision>, before: Store): seq<Decision> {
    if ds == [] then []
    else
      var d := ds[|ds| - 1];
      Fresh(ds[..|ds| - 1], before) + (if !d.action.RefuseInflow? && d.key !in before then [d] else [])
  }

  predicate IsFresh(d: Decision, before: Store) {
    !d.action.RefuseInflow? && d.key !in before
  }

  /** A decision list whose fresh members have distinct keys and pursue goals, each admitted behind the
      fresh ones before it, met by a journal that reports no error and other writers that take none of
      its keys. Members the journal already holds take no room. */
  ghost predicate IsClean(decisions: seq<Decision>, actor: Actor, balances: Option<Ledger>, cap: Option<u64>,
                          start: Reserved, oracles: seq<CommitOracle>, before: Store)
    requires |oracles| == |decisions|
  {
    && (forall i :: 0 <= i < |decisions| && IsFresh(decisions[i], before) ==>
          && CleanAt(decisions, i, actor, balances, cap, start, before)
          && oracles[i].firstRead.NoFault? && oracles[i].secondRead.NoFault? && oracles[i].upsert.NoFault?)
    && DistinctKeys(decisions)
    && Brought(oracles) !! KeysOf(Fresh(decisions, before))
  }

  ghost predicate DistinctKeys(decisions: seq<Decision>) {
    forall i, j :: 0 <= i < j < |decisions| && decisions[i].action.IsExecutable() && decisions[j].action.IsExecutable()
                   ==> decisions[i].key != decisions[j].key
  }

  ghost predicate CleanAt(decisions: seq<Decision>, i: nat, actor: Actor, balances: Option<Ledger>,
                          cap: Option<u64>, start: Reserved, before: Store)
    requires i < |decisions|
  {
    var d := decisions[i];
    && GoalOfDecision(d, actor).Some?
    && Admit(d.action, balances, cap, FoldBatch(start, Fresh(decisions[..i], before))).Admitted?
  }

  lemma {:induction false} FreshMembers(ds: seq<Decision>, before: Store)
    ensures forall d :: d in Fresh(ds, before) <==> d in ds && IsFresh(d, before)
  {
    if ds != [] {
      var n := |ds| - 1;
      FreshMembers(ds[..n], before);
      assert ds == ds[..n] + [ds[n]];
    }
  }

  /** When the journal holds none of the keys, the fresh decisions are the executable ones. */
  lemma {:induction false} FreshIsEmitted(ds: seq<Decision>, before: Store)
    requires forall d :: d in ds && !d.action.RefuseInflow? ==> d.key !in before
    ensures Fresh(ds, before) == Emitted(ds)
  {
    if ds != [] {
      FreshIsEmitted(ds[..|ds| - 1], before);
    }
  }

  function SeenBy(ds: seq<Decision>): set<Key> {
    set d | d in ds && !d.action.RefuseInflow? :: d.key
  }

  lemma SeenKey(decisions: seq<Decision>, n: nat)
    requires DistinctKeys(decisions) && n < |decisions| && decisions[n].action.IsExecutable()
    ensures decisions[n].key !in SeenBy(decisions[..n])
  {
    forall d | d in decisions[..n] && !d.action.RefuseInflow?
      ensures d.key != decisions[n].key
    {
      var i :| 0 <= i < n && decisions[..n][i] == d;
      assert decisions[i] == d;
    }
  }

  lemma CleanIsAccepted(decisions: seq<Decision>, actor: Actor, balances: Option<Ledger>, cap: Option<u64>,
                        start: Reserved, oracles: seq<CommitOracle>, before: Store, now: Store, n: nat)
    requires |oracles| == |decisions| && n < |decisions| && IsFresh(decisions[n], before)
    requires IsClean(decisions, actor, balances, cap, start, oracles, before)
    requires now.Keys <= before.Keys + KeysOf(Fresh(decisions[..n], before)) + Brought(oracles)
    ensures decisions[n].key !in SeenBy(decisions[..n]) + Brought(oracles)
    ensures IsAccepted(now, decisions[n], actor, balances, cap, FoldBatch(start, Fresh(decisions[..n], before)), oracles[n])
    ensures oracles[n].firstRead.NoFault? && oracles[n].upsert.NoFault?
  {
    assert CleanAt(decisions, n, actor, balances, cap, start, before);
    SeenKey(decisions, n);
    FreshMembers(decisions, before);
    FreshMembers(decisions[..n], before);
    assert decisions[n] in Fresh(decisions, before);
    assert oracles[n] in oracles;
    assert oracles[n].Brings() <= Brought(oracles);
  }

  /** After `n` decisions of a clean list: exactly the fresh ones are durable and folded. */
  ghost predicate Tracks(decisions: seq<Decision>, n: nat, before: Store, start: Reserved, durable: seq<Decision>,
                         reserved: Reserved)
    requires n <= |decisions|
  {
    durable == Fresh(decisions[..n], before) && reserved == FoldBatch(start, durable)
  }

  lemma TracksOn(decisions: seq<Decision>, n: nat, before: Store, start: Reserved, durable: seq<Decision>,
                 reserved: Reserved, now: seq<Decision>, after: Reserved)
    requires n < |decisions| && Tracks(decisions, n, before, start, durable, reserved)
    requires var d := decisions[n];
             if IsFresh(d, before) then now == durable + [d] && after == Reserve(reserved, StrictFootprint(d.action))
             else now == durable && after == reserved
    ensures Tracks(decisions, n + 1, before, start, now, after)
  {
    assert decisions[..n + 1][..n] == decisions[..n];
    FoldBatchAppend(start, durable, decisions[n]);
  }

  lemma SeenOn(decisions: seq<Decision>, n: nat)
    requires n < |decisions|
    ensures var d := decisions[n];
            SeenBy(decisions[..n + 1]) == if d.action.RefuseInflow? then SeenBy(decisions[..n])
                                          else SeenBy(decisions[..n]) + {d.key}
  {
    assert decisions[..n + 1] == decisions[..n] + [decisions[n]];
  }

  /** Advisory decisions are skipped; in a clean list, a fresh one whose drive meets no fault ends by what
      its perform returned. */
  predicate EndsAsDriven(d: Decision, o: CommitOracle, before: Store, inFlight: set<Key>, fate: Fate, clean: bool) {
    && (d.action.RefuseInflow? ==> fate == Ended(Skipped))
    && (clean && IsFresh(d, before) && DrivesCleanly(o.drive) && d.key !in inFlight ==>
          fate == EndOf(o.drive.outcome))
  }

  ghost predicate EndAsDriven(decisions: seq<Decision>, oracles: seq<CommitOracle>, before: Store, inFlight: set<Key>,
                              fates: seq<Fate>, clean: bool)
    requires |fates| <= |decisions| == |oracles|
  {
    forall i :: 0 <= i < |fates| ==> EndsAsDriven(decisions[i], oracles[i], before, inFlight, fates[i], clean)
  }

  lemma EndAsDrivenGrows(decisions: seq<Decision>, oracles: seq<CommitOracle>, before: Store, inFlight: set<Key>,
                         fates: seq<Fate>, fate: Fate, clean: bool)
    requires |fates| < |decisions| == |oracles| && EndAsDriven(decisions, oracles, before, inFlight, fates, clean)
    requires EndsAsDriven(decisions[|fates|], oracles[|fates|], before, inFlight, fate, clean)
    ensures EndAsDriven(decisions, oracles, before, inFlight, fates + [fate], clean)
  {
  }

  /** Committing an allocator batch against one balance sample. Whatever the executor does, whichever
      journal writes commit while reporting an error and whatever intents other writers add at any
      point in between, the decisions left durable by
      this call fit that one sample, and every decision is counted exactly once. Everything
      executable in a clean list is left durable. */
  method ApplyWithAllocatorAdmission(journal: MemJournal, guard: InFlightPerforms, decisions: seq<Decision>,
                                     actor: Actor, balances: Option<Ledger>, cap: Option<u64>,
                                     start: Reserved, oracles: seq<CommitOracle>)
    returns (summary: Summary, ghost durable: seq<Decision>, ghost fates: seq<Fate>)
    requires |oracles| == |decisions|
    modifies journal, guard
    ensures Committed(old(journal.intents), journal.intents, durable, Brought(oracles), balances, cap, start)
    ensures |fates| == |decisions| && summary.Counts(fates) && guard.keys == old(guard.keys)
    ensures IsClean(decisions, actor, balances, cap, start, oracles, old(journal.intents)) ==>
              durable == Fresh(decisions, old(journal.intents))
    ensures EndAsDriven(decisions, oracles, old(journal.intents), old(guard.keys), fates,
                        IsClean(decisions, actor, balances, cap, start, oracles, old(journal.intents)))
  {
    summary := Summary(0, 0, 0, 0, 0);
    durable, fates := [], [];
    var seen: set<Key> := {};
    var reserved := start;
    ghost var before, foreign := journal.intents, Brought(oracles);
    ghost var clean := IsClean(decisions, actor, balances, cap, start, oracles, before);
    for n := 0 to |decisions|
      invariant Committed(before, journal.intents, durable, foreign, balances, cap, start)
      invariant Covers(reserved, start, durable)
      invariant |fates| == n && summary.Counts(fates) && guard.keys == old(guard.keys)
      invariant EndAsDriven(decisions, oracles, before, old(guard.keys), fates, clean)
      invariant seen == SeenBy(decisions[..n])
      invariant clean ==> Tracks(decisions, n, before, start, durable, reserved)
    {
      var d, o := decisions[n], oracles[n];
      assert o in oracles && o.Brings() <= foreign;
      SeenOn(decisions, n);
      if clean && IsFresh(d, before) {
        CleanIsAccepted(decisions, actor, balances, cap, start, oracles, before, journal.intents, n);
      }
      ghost var was, held := durable, reserved;
      ghost var fate;
      seen, reserved, summary, durable, fate :=
        CommitNext(journal, guard, d, actor, balances, cap, seen, reserved, o, summary,
                   before, durable, foreign, start, fates);
      if clean {
        TracksOn(decisions, n, before, start, was, held, durable, reserved);
      }
      EndAsDrivenGrows(decisions, oracles, before, old(guard.keys), fates, fate, clean);
      fates := fates + [fate];
    }
    assert decisions[..|decisions|] == decisions;
  }

  // ---------------------------------------------------------------- where the bounds are needed

  /** A cap of the 64-bit maximum is no cap: the saturated sum meets it however much is inbound. */
  lemma MaximalCapAdmitsOverflow(dst: FederationId)
    ensures var a, balances: Ledger := Evacuate(dst + 1, dst, 1, 0, None, None), map[dst := U64_MAX];
            var held := Reserved(map[], map[dst := U64_MAX], map[]);
            && Admit(a, Some(balances), Some(U64_MAX), held).Admitted?
            && !CreditFits(a, balances, Some(U64_MAX), held) && CapBeyondReach(a, balances, Some(U64_MAX), held)
  {
  }

  /** A move of nothing is admitted from a source that is already overdrawn. */
  lemma EmptyMoveAdmitsOverdraft(src: FederationId)
    ensures var a, held := Move(src, src + 1, 0, 0, None), Reserved(map[src := 5], map[], map[]);
            && Admit(a, Some(map[]), None, held).Admitted?
            && !DebitFits(a, map[], held) && EmptyOverdraft(a, map[], held)
  {
  }

  /** A debit past 64 bits is admitted from a source that holds one unit less. */
  lemma HugeFeeCapAdmitsOverdraft(src: FederationId, cap: u64)
    requires 0 < cap
    ensures var a, balances: Ledger := Move(src, src + 1, 1, U64_MAX, None), map[src := U64_MAX];
            && Admit(a, Some(balances), Some(cap), NOTHING).Admitted?
            && !DebitFits(a, balances, NOTHING) && DebitBeyondReach(a, balances, NOTHING)
  {
  }
}

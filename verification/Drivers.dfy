/** Concurrent drivers of journaled intents. A driver claims a pending intent by compare-and-set,
    takes the process-local in-flight guard, re-reads the intent, performs it, writes the result
    back and drops the guard. Every await between two of these is a point where any other driver,
    a re-admission, a settlement or a retry may run, and where the driver may be killed. */
module Drivers {
  import opened Types
  import opened Journal

  datatype PerformOutcome =
    | Completed
    | LeftAwaiting
    | Retryable(refusal: Option<RefusalEvidence>)
    | Rejected
  {
    predicate IsSuccess() {
      Completed? || LeftAwaiting?
    }
  }

  /** What a driver adds to its caller's summary. */
  datatype Tally = Performed | Skipped | FailedPass | RetryLater

  datatype Pc =
    | Snapshotted
    | Claimed
    | Guarded
    | Ready
    | Performing
    | Writing(outcome: PerformOutcome)
    | Releasing(tally: Tally)
    | Finished(tally: Tally)
  {
    predicate HoldsGuard() {
      Guarded? || InPerform() || Releasing?
    }

    /** Between the re-read and the status write. */
    predicate InPerform() {
      Ready? || Performing? || Writing?
    }
  }

  /** `status` and `attempt` are the possibly stale snapshot the driver was started from. */
  datatype Driver = Driver(key: Key, attempt: nat, status: IntentStatus, pc: Pc)

  /** A journal call may fail outright, or commit and still report an error. */
  datatype Fault = NoFault | Lost | CommittedButFailed {
    predicate Lands() {
      !Lost?
    }
  }

  datatype Oracle = Oracle(fault: Fault, outcome: PerformOutcome)

  datatype Event =
    | Started(key: Key, attempt: nat)
    | Succeeded(key: Key, attempt: nat)
    | Recorded(key: Key, attempt: nat)
    | ResultLost(key: Key, attempt: nat)

  datatype System = System(
    journal: Store,
    inFlight: set<Key>,
    drivers: map<nat, Driver>,
    log: seq<Event>)

  // ---------------------------------------------------------------- one driver

  datatype Local = Local(journal: Store, inFlight: set<Key>, driver: Driver, events: seq<Event>)

  function ClaimStep(j: Store, d: Driver, fault: Fault): (Store, Pc) {
    if !d.status.Pending? then (j, Claimed)
    else
      var swapped := Swapped(j, d.key, d.attempt, Pending, Executing);
      match fault
      case Lost => (j, Finished(FailedPass))
      case CommittedButFailed => (swapped, Finished(FailedPass))
      case NoFault =>
        if MaySwap(j, d.key, d.attempt, Pending, Executing) then (swapped, Claimed) else (j, Finished(Skipped))
  }

  predicate StillExecuting(j: Store, d: Driver) {
    d.key in j && j[d.key].status.Executing? && j[d.key].attempt == d.attempt
  }

  function RereadStep(j: Store, d: Driver, fault: Fault): Pc {
    if !fault.NoFault? then Releasing(FailedPass)
    else if StillExecuting(j, d) then Ready
    else Releasing(Skipped)
  }

  function NextStatus(outcome: PerformOutcome): IntentStatus {
    match outcome
    case Completed => Done
    case LeftAwaiting => Awaiting
    case Retryable(_) => Pending
    case Rejected => Failed
  }

  function WrittenBack(j: Store, d: Driver, outcome: PerformOutcome): Store {
    if outcome.Retryable? then Reset(j, d.key, d.attempt, outcome.refusal)
    else StatusSet(j, d.key, d.attempt, NextStatus(outcome))
  }

  function WriteTally(outcome: PerformOutcome, ok: bool): Tally {
    match outcome
    case Retryable(_) => RetryLater
    case Rejected => FailedPass
    case _ => if ok then Performed else FailedPass
  }

  predicate WriteAccepted(j: Store, d: Driver, outcome: PerformOutcome) {
    if outcome.Retryable? then MayReset(j, d.key, d.attempt)
    else MaySetStatus(j, d.key, d.attempt, NextStatus(outcome))
  }

  /** Whether the write leaves a closing status (anything but `Pending`) in the journal. */
  predicate Closes(j: Store, d: Driver, outcome: PerformOutcome, fault: Fault) {
    fault.Lands() && !outcome.Retryable? && WriteAccepted(j, d, outcome)
  }

  function WriteEvents(j: Store, d: Driver, outcome: PerformOutcome, fault: Fault): seq<Event> {
    if Closes(j, d, outcome, fault) then [Recorded(d.key, d.attempt)]
    else if outcome.IsSuccess() then [ResultLost(d.key, d.attempt)]
    else []
  }

  /** One await-free stretch of a driver. */
  function DriverStep(j: Store, inFlight: set<Key>, d: Driver, o: Oracle): Local {
    match d.pc
    case Snapshotted =>
      var (j', pc) := ClaimStep(j, d, o.fault);
      Local(j', inFlight, d.(pc := pc), [])
    case Claimed =>
      if d.key in inFlight then Local(j, inFlight, d.(pc := Finished(Skipped)), [])
      else Local(j, inFlight + {d.key}, d.(pc := Guarded), [])
    case Guarded => Local(j, inFlight, d.(pc := RereadStep(j, d, o.fault)), [])
    case Ready => Local(j, inFlight, d.(pc := Performing), [Started(d.key, d.attempt)])
    case Performing =>
      Local(j, inFlight, d.(pc := Writing(o.outcome)),
            if o.outcome.IsSuccess() then [Succeeded(d.key, d.attempt)] else [])
    case Writing(outcome) =>
      var j' := if o.fault.Lands() then WrittenBack(j, d, outcome) else j;
      var ok := o.fault.NoFault? && WriteAccepted(j, d, outcome);
      Local(j', inFlight, d.(pc := Releasing(WriteTally(outcome, ok))), WriteEvents(j, d, outcome, o.fault))
    case Releasing(tally) => Local(j, inFlight - {d.key}, d.(pc := Finished(tally)), [])
    case Finished(_) => Local(j, inFlight, d, [])
  }

  // ---------------------------------------------------------------- the whole system

  datatype Step =
    | Spawn(id: nat, key: Key, attempt: nat, status: IntentStatus)
    | Advance(id: nat, oracle: Oracle)
    | Kill(id: nat)
    | Readmit(intent: Intent)
    | Settle(key: Key, status: IntentStatus)
    | Retry(intent: Intent)

  /** A step that is not enabled leaves the system as it is. `Kill` is a dropped future; a
      process crash is a run of kills. `Readmit` is the admission path's upsert, which may carry
      a stale pending copy; `Settle` finishes an awaiting intent; `Retry` is the manual retry of
      a failed one under the next attempt number. */
  function Take(s: System, step: Step): System {
    match step
    case Spawn(id, key, attempt, status) =>
      if id in s.drivers || !(status.Pending? || status.Executing?) then s
      else s.(drivers := s.drivers[id := Driver(key, attempt, status, Snapshotted)])
    case Advance(id, oracle) =>
      if id !in s.drivers then s
      else
        var l := DriverStep(s.journal, s.inFlight, s.drivers[id], oracle);
        System(l.journal, l.inFlight, s.drivers[id := l.driver], s.log + l.events)
    case Kill(id) =>
      if id !in s.drivers then s
      else
        var d := s.drivers[id];
        System(
          s.journal,
          if d.pc.HoldsGuard() then s.inFlight - {d.key} else s.inFlight,
          s.drivers - {id},
          s.log + (if d.pc.Writing? && d.pc.outcome.IsSuccess() then [ResultLost(d.key, d.attempt)] else []))
    case Readmit(intent) =>
      if !intent.status.Pending? || (intent.key !in s.journal && intent.attempt != 0) then s
      else s.(journal := Upserted(s.journal, intent))
    case Settle(key, status) =>
      if !(key in s.journal && s.journal[key].status.Awaiting? && status.IsTerminal()) then s
      else s.(journal := StatusSet(s.journal, key, s.journal[key].attempt, status),
              log := s.log + [Recorded(key, s.journal[key].attempt)])
    case Retry(intent) =>
      if !(&& intent.key in s.journal && s.journal[intent.key].status.Failed?
           && intent.status.Pending? && intent.attempt == s.journal[intent.key].attempt + 1)
      then s
      else s.(journal := s.journal[intent.key := intent])
  }

  function Run(s: System, steps: seq<Step>): System {
    if steps == [] then s else Take(Run(s, steps[..|steps| - 1]), steps[|steps| - 1])
  }

  /** A fresh process over any durable journal. */
  function Boot(journal: Store): System {
    System(journal, {}, map[], [])
  }

  // ---------------------------------------------------------------- invariant

  /** The attempt has a closing record: it was superseded, or it is no longer drivable. */
  predicate IsClosed(j: Store, key: Key, attempt: nat) {
    key in j && (j[key].attempt > attempt
                 || (j[key].attempt == attempt && !j[key].status.Pending? && !j[key].status.Executing?))
  }

  predicate IsOpen(j: Store, key: Key, attempt: nat) {
    key in j && j[key].attempt == attempt && (j[key].status.Pending? || j[key].status.Executing?)
  }

  ghost predicate GuardsHeld(s: System) {
    && (forall i :: i in s.drivers && s.drivers[i].pc.HoldsGuard() ==> s.drivers[i].key in s.inFlight)
    && (forall i, k :: i in s.drivers && k in s.drivers && i != k
                       && s.drivers[i].pc.HoldsGuard() && s.drivers[k].pc.HoldsGuard()
                       ==> s.drivers[i].key != s.drivers[k].key)
  }

  ghost predicate PerformsOpen(s: System) {
    forall i :: i in s.drivers && s.drivers[i].pc.InPerform() ==>
      IsOpen(s.journal, s.drivers[i].key, s.drivers[i].attempt)
  }

  ghost predicate RecordsClosed(s: System) {
    forall e :: e in s.log && e.Recorded? ==> IsClosed(s.journal, e.key, e.attempt)
  }

  ghost predicate NoStartAfterRecord(log: seq<Event>) {
    forall i, j :: 0 <= i < j < |log| && log[i].Recorded? ==> log[j] != Started(log[i].key, log[i].attempt)
  }

  predicate HoldsSuccess(d: Driver, key: Key, attempt: nat) {
    d.key == key && d.attempt == attempt && d.pc.Writing? && d.pc.outcome.IsSuccess()
  }

  ghost predicate SuccessInHand(s: System, key: Key, attempt: nat) {
    exists i :: i in s.drivers && HoldsSuccess(s.drivers[i], key, attempt)
  }

  function Count(log: seq<Event>, e: Event): nat {
    multiset(log)[e]
  }

  /** Every success but one has had its result lost, and the last one is either still in a
      driver's hand or closed in the journal. */
  ghost predicate SuccessesAccounted(s: System, key: Key, attempt: nat) {
    Count(s.log, Succeeded(key, attempt)) <=
    Count(s.log, ResultLost(key, attempt))
    + (if SuccessInHand(s, key, attempt) || IsClosed(s.journal, key, attempt) then 1 else 0)
  }

  ghost predicate Inv(s: System) {
    && GuardsHeld(s)
    && PerformsOpen(s)
    && RecordsClosed(s)
    && NoStartAfterRecord(s.log)
    && forall key, attempt :: SuccessesAccounted(s, key, attempt)
  }
}

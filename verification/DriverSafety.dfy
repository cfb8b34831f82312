/** Safety of every interleaving of drivers, kills, re-admissions, settlements and retries. */
module DriverSafety {
  import opened Types
  import opened Journal
  import opened Drivers

  /** A closed attempt stays closed. */
  lemma ClosedIsStable(s: System, step: Step, key: Key, attempt: nat)
    requires IsClosed(s.journal, key, attempt)
    ensures IsClosed(Take(s, step).journal, key, attempt)
  {
  }

  /** A driver's step touches only its own key's guard, and takes it only when free. */
  lemma GuardOfStep(j: Store, inFlight: set<Key>, d: Driver, o: Oracle)
    requires d.pc.HoldsGuard() ==> d.key in inFlight
    ensures var l := DriverStep(j, inFlight, d, o);
            && l.driver.key == d.key
            && l.inFlight - {d.key} == inFlight - {d.key}
            && (l.driver.pc.HoldsGuard() ==> d.key in l.inFlight && (d.pc.HoldsGuard() || d.key !in inFlight))
            && (!d.pc.HoldsGuard() ==> inFlight <= l.inFlight)
  {
  }

  lemma AdvanceKeepsGuards(s: System, id: nat, inFlight: set<Key>, d: Driver)
    requires GuardsHeld(s) && id in s.drivers && d.key == s.drivers[id].key
    requires inFlight - {d.key} == s.inFlight - {d.key}
    requires d.pc.HoldsGuard() ==> d.key in inFlight && (s.drivers[id].pc.HoldsGuard() || d.key !in s.inFlight)
    requires !s.drivers[id].pc.HoldsGuard() ==> s.inFlight <= inFlight
    ensures GuardsHeld(s.(inFlight := inFlight, drivers := s.drivers[id := d]))
  {
    forall i | i in s.drivers && i != id && s.drivers[i].pc.HoldsGuard()
      ensures s.drivers[i].key in inFlight && (d.pc.HoldsGuard() ==> s.drivers[i].key != d.key)
    {
      if s.drivers[i].key != d.key {
        assert s.drivers[i].key in s.inFlight - {d.key};
      }
    }
  }

  lemma GuardsHeldStep(s: System, step: Step)
    requires GuardsHeld(s)
    ensures GuardsHeld(Take(s, step))
  {
    if step.Advance? && step.id in s.drivers {
      var l := DriverStep(s.journal, s.inFlight, s.drivers[step.id], step.oracle);
      GuardOfStep(s.journal, s.inFlight, s.drivers[step.id], step.oracle);
      AdvanceKeepsGuards(s, step.id, l.inFlight, l.driver);
    }
  }

  lemma OpenIsKept(s: System, step: Step, key: Key, attempt: nat)
    requires IsOpen(s.journal, key, attempt)
    requires step.Advance? && step.id in s.drivers && s.drivers[step.id].pc.Writing? ==> s.drivers[step.id].key != key
    ensures IsOpen(Take(s, step).journal, key, attempt)
  {
  }

  lemma PerformsOpenStep(s: System, step: Step)
    requires GuardsHeld(s) && PerformsOpen(s)
    ensures PerformsOpen(Take(s, step))
  {
    var t := Take(s, step);
    forall i | i in t.drivers && t.drivers[i].pc.InPerform()
      ensures IsOpen(t.journal, t.drivers[i].key, t.drivers[i].attempt)
    {
      if i in s.drivers && s.drivers[i].pc.InPerform() {
        OpenIsKept(s, step, s.drivers[i].key, s.drivers[i].attempt);
      }
    }
  }

  function NewEvents(s: System, step: Step): (es: seq<Event>)
    ensures Take(s, step).log == s.log + es
    ensures |es| <= 1
  {
    match step
    case Advance(id, oracle) =>
      if id in s.drivers then DriverStep(s.journal, s.inFlight, s.drivers[id], oracle).events else []
    case Kill(id) =>
      if id in s.drivers && s.drivers[id].pc.Writing? && s.drivers[id].pc.outcome.IsSuccess()
      then [ResultLost(s.drivers[id].key, s.drivers[id].attempt)] else []
    case Settle(key, status) =>
      if key in s.journal && s.journal[key].status.Awaiting? && status.IsTerminal()
      then [Recorded(key, s.journal[key].attempt)] else []
    case _ => []
  }

  lemma NewRecordIsClosed(s: System, step: Step)
    requires NewEvents(s, step) != [] && NewEvents(s, step)[0].Recorded?
    ensures var e := NewEvents(s, step)[0]; IsClosed(Take(s, step).journal, e.key, e.attempt)
  {
  }

  lemma RecordsClosedStep(s: System, step: Step)
    requires RecordsClosed(s)
    ensures RecordsClosed(Take(s, step))
  {
    var t := Take(s, step);
    forall e | e in t.log && e.Recorded?
      ensures IsClosed(t.journal, e.key, e.attempt)
    {
      if e in s.log {
        ClosedIsStable(s, step, e.key, e.attempt);
      } else {
        assert e in NewEvents(s, step);
        NewRecordIsClosed(s, step);
      }
    }
  }

  lemma NoStartAfterRecordStep(s: System, step: Step)
    requires PerformsOpen(s) && RecordsClosed(s) && NoStartAfterRecord(s.log)
    ensures NoStartAfterRecord(Take(s, step).log)
  {
    var es := NewEvents(s, step);
    var log := Take(s, step).log;
    forall i, j | 0 <= i < j < |log| && log[i].Recorded?
      ensures log[j] != Started(log[i].key, log[i].attempt)
    {
      if j == |s.log| && es[0].Started? {
        assert log[i] == s.log[i] && log[i] in s.log;
        var d := s.drivers[step.id];
        assert IsOpen(s.journal, d.key, d.attempt);
      }
    }
  }

  lemma SuccessesAccountedStep(s: System, step: Step, key: Key, attempt: nat)
    requires GuardsHeld(s) && PerformsOpen(s) && SuccessesAccounted(s, key, attempt)
    ensures SuccessesAccounted(Take(s, step), key, attempt)
  {
    var t := Take(s, step);
    if IsClosed(s.journal, key, attempt) {
      ClosedIsStable(s, step, key, attempt);
      ClosedEarnsNothing(s, step, key, attempt);
    } else if SuccessInHand(s, key, attempt) {
      var i :| i in s.drivers && HoldsSuccess(s.drivers[i], key, attempt);
      InHandStep(s, step, i, key, attempt);
    } else {
      NothingInHandStep(s, step, key, attempt);
    }
  }

  /** A success can only be earned on an open attempt. */
  lemma ClosedEarnsNothing(s: System, step: Step, key: Key, attempt: nat)
    requires PerformsOpen(s) && IsClosed(s.journal, key, attempt)
    ensures Succeeded(key, attempt) !in NewEvents(s, step)
  {
    if step.Advance? && step.id in s.drivers {
      assert s.drivers[step.id].pc.InPerform() ==> IsOpen(s.journal, s.drivers[step.id].key, s.drivers[step.id].attempt);
    }
  }

  lemma InHandStep(s: System, step: Step, i: nat, key: Key, attempt: nat)
    requires GuardsHeld(s) && PerformsOpen(s) && SuccessesAccounted(s, key, attempt)
    requires i in s.drivers && HoldsSuccess(s.drivers[i], key, attempt)
    ensures SuccessesAccounted(Take(s, step), key, attempt)
  {
    if (step.Advance? || step.Kill?) && step.id == i {
      HandEmptied(s, step, key, attempt);
    } else {
      HandKept(s, step, i, key, attempt);
    }
  }

  /** The holder of a success writes it, loses the write, or is killed with it. */
  lemma HandEmptied(s: System, step: Step, key: Key, attempt: nat)
    requires PerformsOpen(s) && SuccessesAccounted(s, key, attempt)
    requires step.Advance? || step.Kill?
    requires step.id in s.drivers && HoldsSuccess(s.drivers[step.id], key, attempt)
    ensures SuccessesAccounted(Take(s, step), key, attempt)
  {
    var t := Take(s, step);
    assert IsOpen(s.journal, key, attempt);
    assert NewEvents(s, step) == [ResultLost(key, attempt)]
        || (NewEvents(s, step) == [Recorded(key, attempt)] && IsClosed(t.journal, key, attempt));
  }

  lemma OthersAreUntouched(s: System, step: Step, i: nat)
    requires i in s.drivers
    requires (step.Advance? || step.Kill?) ==> step.id != i
    ensures i in Take(s, step).drivers && Take(s, step).drivers[i] == s.drivers[i]
  {
  }

  /** While one driver holds the guard of a key, no other earns a success on it. */
  lemma GuardExcludesEarning(s: System, step: Step, i: nat, attempt: nat)
    requires GuardsHeld(s)
    requires i in s.drivers && s.drivers[i].pc.HoldsGuard()
    requires step.Advance? ==> step.id != i
    ensures Succeeded(s.drivers[i].key, attempt) !in NewEvents(s, step)
  {
    if step.Advance? && step.id in s.drivers && s.drivers[step.id].pc.HoldsGuard() {
      assert s.drivers[step.id].key != s.drivers[i].key;
    }
  }

  lemma HandKept(s: System, step: Step, i: nat, key: Key, attempt: nat)
    requires GuardsHeld(s) && SuccessesAccounted(s, key, attempt)
    requires i in s.drivers && HoldsSuccess(s.drivers[i], key, attempt)
    requires (step.Advance? || step.Kill?) ==> step.id != i
    ensures SuccessesAccounted(Take(s, step), key, attempt)
  {
    OthersAreUntouched(s, step, i);
    GuardExcludesEarning(s, step, i, attempt);
    assert SuccessInHand(s, key, attempt);
    AccountingKept(s, Take(s, step), NewEvents(s, step), i, key, attempt);
  }

  lemma AccountingKept(s: System, t: System, es: seq<Event>, i: nat, key: Key, attempt: nat)
    requires SuccessesAccounted(s, key, attempt) && t.log == s.log + es
    requires i in t.drivers && HoldsSuccess(t.drivers[i], key, attempt)
    requires Succeeded(key, attempt) !in es
    ensures SuccessesAccounted(t, key, attempt)
  {
    assert SuccessInHand(t, key, attempt);
  }

  lemma NothingInHandStep(s: System, step: Step, key: Key, attempt: nat)
    requires PerformsOpen(s) && SuccessesAccounted(s, key, attempt)
    requires !SuccessInHand(s, key, attempt) && !IsClosed(s.journal, key, attempt)
    ensures SuccessesAccounted(Take(s, step), key, attempt)
  {
    var t := Take(s, step);
    if Succeeded(key, attempt) in NewEvents(s, step) {
      assert HoldsSuccess(t.drivers[step.id], key, attempt);
      assert SuccessInHand(t, key, attempt);
    }
  }

  lemma {:induction false} InvHolds(journal: Store, steps: seq<Step>)
    ensures Inv(Run(Boot(journal), steps))
  {
    if steps != [] {
      var n := |steps| - 1;
      InvHolds(journal, steps[..n]);
      var s, step := Run(Boot(journal), steps[..n]), steps[n];
      GuardsHeldStep(s, step);
      PerformsOpenStep(s, step);
      RecordsClosedStep(s, step);
      NoStartAfterRecordStep(s, step);
      forall key, attempt
        ensures SuccessesAccounted(Take(s, step), key, attempt)
      {
        SuccessesAccountedStep(s, step, key, attempt);
      }
    }
  }

  /** At most one driver per key is between its re-read and its status write: about to perform,
      performing, or with a result in hand. */
  lemma PerformIsExclusive(journal: Store, steps: seq<Step>, i: nat, k: nat)
    requires var s := Run(Boot(journal), steps);
             && i in s.drivers && k in s.drivers
             && s.drivers[i].key == s.drivers[k].key
             && (s.drivers[i].pc.Ready? || s.drivers[i].pc.Performing? || s.drivers[i].pc.Writing?)
             && (s.drivers[k].pc.Ready? || s.drivers[k].pc.Performing? || s.drivers[k].pc.Writing?)
    ensures i == k
  {
    InvHolds(journal, steps);
  }

  /** No perform of an attempt starts after that attempt was recorded done, awaiting or failed. */
  lemma NoPerformAfterRecord(journal: Store, steps: seq<Step>, i: nat, j: nat)
    requires var log := Run(Boot(journal), steps).log; i < j < |log| && log[i].Recorded?
    ensures var log := Run(Boot(journal), steps).log; log[j] != Started(log[i].key, log[i].attempt)
  {
    InvHolds(journal, steps);
  }

  /** An attempt is performed successfully at most once more than its results were lost to a
      kill or a failed status write; with no loss, at most once. */
  lemma SuccessesBounded(journal: Store, steps: seq<Step>, key: Key, attempt: nat)
    ensures var log := Run(Boot(journal), steps).log;
            Count(log, Succeeded(key, attempt)) <= 1 + Count(log, ResultLost(key, attempt))
  {
    InvHolds(journal, steps);
    assert SuccessesAccounted(Run(Boot(journal), steps), key, attempt);
  }

  // ---------------------------------------------------------------- the log is truthful

  /** What a driver's step logs: the start of a perform, its success whether done or awaiting, and at the
      write either the record that closes the attempt or the loss of a success. A kill loses exactly a
      success in hand. */
  lemma LogIsTruthful(s: System, id: nat, o: Oracle)
    requires id in s.drivers
    ensures var d, t := s.drivers[id], Take(s, Advance(id, o));
            var es := t.log[|s.log|..];
            && t.log == s.log + es
            && (d.pc.Ready? ==> es == [Started(d.key, d.attempt)])
            && (d.pc.Performing? ==>
                  es == if o.outcome == Completed || o.outcome == LeftAwaiting then [Succeeded(d.key, d.attempt)] else [])
            && (d.pc.Writing? ==>
                  var success := d.pc.outcome == Completed || d.pc.outcome == LeftAwaiting;
                  var closes := && !d.pc.outcome.Retryable? && o.fault != Lost && d.key in s.journal
                                && s.journal[d.key].attempt == d.attempt
                                && MayFollow(s.journal[d.key].status, t.journal[d.key].status)
                                && t.journal[d.key].status != Pending && t.journal[d.key].status != Executing;
                  && (closes && IsOpen(s.journal, d.key, d.attempt) ==> es == [Recorded(d.key, d.attempt)])
                  && (o.fault == Lost || d.pc.outcome.Retryable? ==>
                        es == if success then [ResultLost(d.key, d.attempt)] else []))
            && (!d.pc.Ready? && !d.pc.Performing? && !d.pc.Writing? ==> es == [])
    ensures var d, t := s.drivers[id], Take(s, Kill(id));
            t.log == s.log + (if d.pc == Writing(Completed) || d.pc == Writing(LeftAwaiting)
                              then [ResultLost(d.key, d.attempt)] else [])
  {
    var l := DriverStep(s.journal, s.inFlight, s.drivers[id], o);
    assert Take(s, Advance(id, o)).log[|s.log|..] == l.events;
  }

  // ---------------------------------------------------------------- the runs reach what they should

  /** The surrounding steps do act: an awaiting intent is settled, a failed one is reopened under the next
      attempt, a known or new pending one is admitted again, and a kill frees what its driver held. */
  lemma SurroundingsAct(s: System, key: Key, status: IntentStatus, intent: Intent, id: nat)
    ensures key in s.journal && s.journal[key].status == Awaiting && (status == Done || status == Failed) ==>
              var t := Take(s, Settle(key, status));
              && t.journal == s.journal[key := s.journal[key].(status := status)]
              && t.log == s.log + [Recorded(key, s.journal[key].attempt)]
    ensures && intent.key in s.journal && s.journal[intent.key].status == Failed
            && intent.attempt == s.journal[intent.key].attempt + 1 && intent.status == Pending ==>
              Take(s, Retry(intent)).journal == s.journal[intent.key := intent]
    ensures && intent.status == Pending && intent.key in s.journal && s.journal[intent.key].attempt == intent.attempt
            && (s.journal[intent.key].status == Pending || s.journal[intent.key].status == Executing) ==>
              Take(s, Readmit(intent)).journal == s.journal[intent.key := intent]
    ensures intent.status == Pending && intent.key !in s.journal && intent.attempt == 0 ==>
              Take(s, Readmit(intent)).journal == s.journal[intent.key := intent]
    ensures id in s.drivers ==>
              var d, t := s.drivers[id], Take(s, Kill(id));
              && t.journal == s.journal && t.drivers == s.drivers - {id}
              && t.inFlight == if d.pc.HoldsGuard() then s.inFlight - {d.key} else s.inFlight
  {
  }

  // ---------------------------------------------------------------- the bound is attained

  const CLEAN := Oracle(NoFault, Completed)

  lemma RunAppend(s: System, steps: seq<Step>, step: Step)
    ensures Run(s, steps + [step]) == Take(Run(s, steps), step)
  {
    assert (steps + [step])[..|steps|] == steps;
  }

  /** `key` can be driven by a new driver `id`. */
  predicate Drivable(s: System, key: Key, id: nat) {
    && key in s.journal && (s.journal[key].status.Pending? || s.journal[key].status.Executing?)
    && key !in s.inFlight && id !in s.drivers
  }

  /** The intent once claimed: winning the claim drops an earlier refusal marker. */
  function Claimant(intent: Intent): Intent {
    if intent.status.Pending? then intent.(status := Executing, refusal := None) else intent
  }

  /** A driver that has performed and is about to write. */
  ghost predicate Reached(s: System, t: System, key: Key, id: nat)
    requires key in s.journal
  {
    var intent := s.journal[key];
    && t.journal == s.journal[key := Claimant(intent)]
    && t.inFlight == s.inFlight + {key}
    && t.drivers == s.drivers[id := Driver(key, intent.attempt, intent.status, Writing(Completed))]
    && t.log == s.log + [Started(key, intent.attempt), Succeeded(key, intent.attempt)]
  }

  function EventsBy(k: nat): nat {
    if k < 4 then 0 else k - 3
  }

  const WAY: seq<Pc> := [Snapshotted, Claimed, Guarded, Ready, Performing, Writing(Completed)]

  lemma DriveToWrite(s: System, key: Key, id: nat) returns (t: System, steps: seq<Step>)
    requires Drivable(s, key, id)
    ensures t == Run(s, steps) && Reached(s, t, key, id)
  {
    var intent := s.journal[key];
    steps := [Spawn(id, key, intent.attempt, intent.status)];
    t := Take(s, steps[0]);
    RunAppend(s, [], steps[0]);
    assert [] + [steps[0]] == steps;
    assert intent.status.Executing? ==> s.journal == s.journal[key := Claimant(intent)];
    var k := 0;
    while k < 5
      invariant 0 <= k <= 5 && t == Run(s, steps)
      invariant id in t.drivers && t.drivers == s.drivers[id := t.drivers[id]]
      invariant t.drivers[id] == Driver(key, intent.attempt, intent.status, WAY[k])
      invariant t.journal == if k == 0 then s.journal else s.journal[key := Claimant(intent)]
      invariant t.inFlight == if k < 2 then s.inFlight else s.inFlight + {key}
      invariant t.log == s.log + [Started(key, intent.attempt), Succeeded(key, intent.attempt)][..EventsBy(k)]
    {
      RunAppend(s, steps, Advance(id, CLEAN));
      steps := steps + [Advance(id, CLEAN)];
      t := Take(t, Advance(id, CLEAN));
      k := k + 1;
    }
  }

  /** The write closes the attempt. */
  lemma WriteDone(s: System, t: System, key: Key, id: nat)
    requires Drivable(s, key, id) && Reached(s, t, key, id)
    ensures var u, intent := Take(t, Advance(id, CLEAN)), s.journal[key];
            && u.journal == t.journal[key := Claimant(intent).(status := Done)]
            && u.inFlight == t.inFlight
            && u.drivers == t.drivers[id := Driver(key, intent.attempt, intent.status, Releasing(Performed))]
            && u.log == t.log + [Recorded(key, intent.attempt)]
  {
  }

  function CleanEvents(key: Key, attempt: nat): seq<Event> {
    [Started(key, attempt), Succeeded(key, attempt), Recorded(key, attempt)]
  }

  lemma Released(s: System, t: System, key: Key, id: nat)
    requires Drivable(s, key, id) && Reached(s, t, key, id)
    ensures var u, intent := Take(Take(t, Advance(id, CLEAN)), Advance(id, CLEAN)), s.journal[key];
            && u.journal == s.journal[key := Claimant(intent).(status := Done)]
            && u.inFlight == s.inFlight
            && u.log == s.log + CleanEvents(key, intent.attempt)
  {
    WriteDone(s, t, key, id);
    assert s.inFlight + {key} - {key} == s.inFlight;
  }

  /** An open intent nobody is performing can always be driven to done by one fresh driver, with
      one success and nothing lost. */
  lemma OpenIntentCanFinish(s: System, key: Key, id: nat) returns (steps: seq<Step>)
    requires Drivable(s, key, id)
    ensures var t, intent := Run(s, steps), s.journal[key];
            && t.journal == s.journal[key := Claimant(intent).(status := Done)]
            && t.inFlight == s.inFlight
            && t.log == s.log + CleanEvents(key, intent.attempt)
  {
    var t;
    t, steps := DriveToWrite(s, key, id);
    Released(s, t, key, id);
    RunAppend(s, steps, Advance(id, CLEAN));
    steps := steps + [Advance(id, CLEAN)];
    RunAppend(s, steps, Advance(id, CLEAN));
    steps := steps + [Advance(id, CLEAN)];
  }

  lemma {:induction false} RunConcat(s: System, a: seq<Step>, b: seq<Step>)
    ensures Run(s, a + b) == Run(Run(s, a), b)
  {
    if b == [] {
      assert a + b == a;
    } else {
      var n := |b| - 1;
      RunConcat(s, a, b[..n]);
      assert (a + b)[..|a + b| - 1] == a + b[..n];
    }
  }

  /** A driver killed between its effect and its write leaves the intent as drivable as before. */
  lemma LossCycle(s: System, key: Key, id: nat) returns (steps: seq<Step>)
    requires Drivable(s, key, id)
    ensures var t, attempt := Run(s, steps), s.journal[key].attempt;
            && Drivable(t, key, id) && t.journal[key].attempt == attempt
            && Count(t.log, Succeeded(key, attempt)) == Count(s.log, Succeeded(key, attempt)) + 1
            && Count(t.log, ResultLost(key, attempt)) == Count(s.log, ResultLost(key, attempt)) + 1
  {
    var t;
    t, steps := DriveToWrite(s, key, id);
    RunAppend(s, steps, Kill(id));
    steps := steps + [Kill(id)];
  }

  lemma {:induction false} LossCycles(s: System, key: Key, id: nat, n: nat) returns (steps: seq<Step>)
    requires Drivable(s, key, id)
    ensures var t, attempt := Run(s, steps), s.journal[key].attempt;
            && Drivable(t, key, id) && t.journal[key].attempt == attempt
            && Count(t.log, Succeeded(key, attempt)) == Count(s.log, Succeeded(key, attempt)) + n
            && Count(t.log, ResultLost(key, attempt)) == Count(s.log, ResultLost(key, attempt)) + n
  {
    if n == 0 {
      steps := [];
    } else {
      var first := LossCycles(s, key, id, n - 1);
      var last := LossCycle(Run(s, first), key, id);
      RunConcat(s, first, last);
      steps := first + last;
    }
  }

  /** The bound on successes is the best there is: for any number of lost results some run of a
      fresh process succeeds once more than that. */
  lemma BoundIsAttained(journal: Store, key: Key, losses: nat) returns (steps: seq<Step>)
    requires key in journal && (journal[key].status.Pending? || journal[key].status.Executing?)
    ensures var log, attempt := Run(Boot(journal), steps).log, journal[key].attempt;
            && Count(log, ResultLost(key, attempt)) == losses
            && Count(log, Succeeded(key, attempt)) == losses + 1
  {
    var s := Boot(journal);
    var lost := LossCycles(s, key, 0, losses);
    var done := OpenIntentCanFinish(Run(s, lost), key, 0);
    RunConcat(s, lost, done);
    steps := lost + done;
  }
}

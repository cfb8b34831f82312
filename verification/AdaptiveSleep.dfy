/** How long the watch loop sleeps, and what every run of wakes meets. */
module AdaptiveSleep {
  import opened Amounts

  const BUSY_SPIN_FLOOR_MS := 1_000

  datatype WatchPolicy = WatchPolicy(base: u64, min: u64, evacuationLead: u64, discoverEvery: u64) {
    /** What policy validation guarantees. */
    predicate Valid() {
      0 < min <= base
    }
  }

  datatype Deadlines = Deadlines(lastDiscover: u64, backlog: bool, expiries: seq<u64>, probeDue: seq<u64>)

  function Routine(now: u64, p: WatchPolicy, d: Deadlines): u64 {
    var discover: u64 := if d.backlog then p.min else SatSub(SatAdd(d.lastDiscover, p.discoverEvery), now);
    Min(Max(Min(p.base, discover), p.min), p.base)
  }

  function EvacuationPoint(expiry: u64, p: WatchPolicy): (point: u64)
    ensures p.evacuationLead <= expiry ==> point + p.evacuationLead == expiry
    ensures expiry < p.evacuationLead ==> point == 0
  {
    SatSub(expiry, p.evacuationLead)
  }

  /** A future evacuation point is honoured exactly; inside the window the cadence is capped, and
      never past the shutdown itself. */
  function ExpiryDelay(expiry: u64, now: u64, p: WatchPolicy): u64 {
    var point := EvacuationPoint(expiry, p);
    if point > now then point - now else Min(p.min, SatSub(expiry, now))
  }

  function ProbeDelay(due: u64, now: u64): u64 {
    Max(SatSub(due, now), BUSY_SPIN_FLOOR_MS)
  }

  /** The smallest of `bound` and a delay for every deadline. */
  function Earliest(bound: u64, deadlines: seq<u64>, delay: u64 -> u64): (r: u64)
    ensures r <= bound
    ensures forall x :: x in deadlines ==> r <= delay(x)
    ensures r == bound || exists x :: x in deadlines && r == delay(x)
  {
    if deadlines == [] then bound
    else
      var rest := Earliest(bound, deadlines[1..], delay);
      var head := delay(deadlines[0]);
      assert forall x :: x in deadlines <==> x == deadlines[0] || x in deadlines[1..];
      if head < rest then head else rest
  }

  function Sleep(now: u64, p: WatchPolicy, d: Deadlines): u64 {
    Earliest(Earliest(Routine(now, p, d), d.expiries, (e: u64) => ExpiryDelay(e, now, p)),
             d.probeDue, (due: u64) => ProbeDelay(due, now))
  }

  /** One sleep: positive, no longer than a future evacuation point, a shutdown or a due probe
      allows, and at most the minimum interval inside an evacuation window or with a backlog. */
  lemma SleepRespectsDeadlines(now: u64, p: WatchPolicy, d: Deadlines)
    requires p.Valid() && forall e :: e in d.expiries ==> now < e
    ensures 0 < Sleep(now, p, d) <= p.base
    ensures forall e :: e in d.expiries ==>
              && now + Sleep(now, p, d) <= e
              && (now < EvacuationPoint(e, p) ==> now + Sleep(now, p, d) <= EvacuationPoint(e, p))
              && (EvacuationPoint(e, p) <= now ==> Sleep(now, p, d) <= p.min)
    ensures forall due :: due in d.probeDue ==> now + Sleep(now, p, d) <= Max(due, now + BUSY_SPIN_FLOOR_MS)
    ensures d.backlog || d.lastDiscover + p.discoverEvery <= now ==> Sleep(now, p, d) <= p.min
  {
    var delay := (e: u64) => ExpiryDelay(e, now, p);
    var probeDelay := (due: u64) => ProbeDelay(due, now);
    forall due | due in d.probeDue
      ensures Sleep(now, p, d) <= ProbeDelay(due, now)
    {
      assert probeDelay(due) == ProbeDelay(due, now);
    }
    forall e | e in d.expiries
      ensures 0 < delay(e) && Sleep(now, p, d) <= ExpiryDelay(e, now, p)
    {
      assert delay(e) == ExpiryDelay(e, now, p);
    }
  }

  // ---------------------------------------------------------------- exactly how long

  /** The routine cadence: the minimum interval with a backlog or once discovery is due, the base
      interval while discovery is further off than that, and else just until discovery. */
  ghost predicate IsCadence(now: u64, p: WatchPolicy, d: Deadlines, sleep: int) {
    var due := if d.lastDiscover + p.discoverEvery <= U64_MAX then d.lastDiscover + p.discoverEvery else U64_MAX;
    if d.backlog || due <= now + p.min then sleep == p.min
    else if now + p.base <= due then sleep == p.base
    else now + sleep == due
  }

  /** A shutdown asks for a wake at its evacuation point, and past that once every minimum interval
      and at the shutdown itself. */
  ghost predicate ExpiryAsks(now: u64, p: WatchPolicy, e: u64, sleep: int) {
    if now + p.evacuationLead < e then now + sleep + p.evacuationLead == e
    else if now + p.min <= e then sleep == p.min
    else sleep == (if now <= e then e - now else 0)
  }

  /** A probe asks for a wake when it is due, though never within a second. */
  ghost predicate ProbeAsks(now: u64, due: u64, sleep: int) {
    if now + 1_000 <= due then now + sleep == due else sleep == 1_000
  }

  ghost predicate Asked(now: u64, p: WatchPolicy, d: Deadlines, sleep: int) {
    || IsCadence(now, p, d, sleep)
    || (exists e :: e in d.expiries && ExpiryAsks(now, p, e, sleep))
    || (exists due :: due in d.probeDue && ProbeAsks(now, due, sleep))
  }

  lemma CadenceIsRoutine(now: u64, p: WatchPolicy, d: Deadlines, sleep: int)
    requires p.Valid()
    ensures IsCadence(now, p, d, sleep) <==> sleep == Routine(now, p, d)
  {
  }

  lemma DelaysAreAsked(now: u64, p: WatchPolicy, x: u64, sleep: int)
    ensures ExpiryAsks(now, p, x, sleep) <==> sleep == ExpiryDelay(x, now, p)
    ensures ProbeAsks(now, x, sleep) <==> sleep == ProbeDelay(x, now)
  {
  }

  /** The sleep is exactly the least that the cadence, a shutdown or a probe asks for: the loop wakes
      for every one of them and never early for nothing. */
  lemma SleepIsExact(now: u64, p: WatchPolicy, d: Deadlines)
    requires p.Valid()
    ensures Asked(now, p, d, Sleep(now, p, d))
    ensures forall sleep :: Asked(now, p, d, sleep) ==> Sleep(now, p, d) <= sleep
  {
    var expiryDelay := (e: u64) => ExpiryDelay(e, now, p);
    var probeDelay := (due: u64) => ProbeDelay(due, now);
    var bound := Earliest(Routine(now, p, d), d.expiries, expiryDelay);
    var least := Sleep(now, p, d);
    assert least == Earliest(bound, d.probeDue, probeDelay);
    CadenceIsRoutine(now, p, d, least);
    if least != bound {
      var due :| due in d.probeDue && least == probeDelay(due);
      DelaysAreAsked(now, p, due, least);
    } else if bound != Routine(now, p, d) {
      var e :| e in d.expiries && bound == expiryDelay(e);
      DelaysAreAsked(now, p, e, least);
    }
    forall sleep | Asked(now, p, d, sleep)
      ensures least <= sleep
    {
      CadenceIsRoutine(now, p, d, sleep);
      if e :| e in d.expiries && ExpiryAsks(now, p, e, sleep) {
        DelaysAreAsked(now, p, e, sleep);
        assert bound <= expiryDelay(e);
      }
      if due :| due in d.probeDue && ProbeAsks(now, due, sleep) {
        DelaysAreAsked(now, p, due, sleep);
        assert least <= probeDelay(due);
      }
    }
  }

  // ---------------------------------------------------------------- runs of ideal wakes

  /** Each wake comes exactly one sleep after the last; other deadlines may change freely. */
  ghost predicate IsRun(wakes: seq<u64>, ds: seq<Deadlines>, p: WatchPolicy) {
    && |wakes| == |ds| + 1
    && (forall i :: 0 <= i < |ds| ==> wakes[i] < U64_MAX && wakes[i + 1] == wakes[i] + Sleep(wakes[i], p, ds[i]))
    && (forall i, e :: 0 <= i < |ds| && e in ds[i].expiries ==> wakes[i] < e)
  }

  /** The expiry stays on the list until it has passed. */
  ghost predicate Watches(wakes: seq<u64>, ds: seq<Deadlines>, expiry: u64)
    requires |wakes| == |ds| + 1
  {
    forall i :: 0 <= i < |ds| && wakes[i] < expiry ==> expiry in ds[i].expiries
  }

  lemma OneStep(wakes: seq<u64>, ds: seq<Deadlines>, p: WatchPolicy, expiry: u64, i: nat)
    requires p.Valid() && IsRun(wakes, ds, p) && Watches(wakes, ds, expiry) && i < |ds|
    ensures wakes[i] < wakes[i + 1]
    ensures wakes[i] < expiry ==>
              && wakes[i + 1] <= expiry
              && (wakes[i] < EvacuationPoint(expiry, p) ==> wakes[i + 1] <= EvacuationPoint(expiry, p))
              && (EvacuationPoint(expiry, p) <= wakes[i] ==> wakes[i + 1] - wakes[i] <= p.min)
  {
    SleepRespectsDeadlines(wakes[i], p, ds[i]);
  }

  /** A target no single wake may jump over is hit exactly. */
  lemma {:induction false} NoJumpHits(wakes: seq<u64>, target: u64, n: nat) returns (i: nat)
    requires n < |wakes| && wakes[0] <= target <= wakes[n]
    requires forall j :: 0 <= j < n && wakes[j] < target ==> wakes[j + 1] <= target
    ensures i <= n && wakes[i] == target
  {
    if wakes[n] == target {
      i := n;
    } else {
      assert target <= wakes[n - 1];
      i := NoJumpHits(wakes, target, n - 1);
    }
  }

  /** In every run, however long and wherever it starts: no wake jumps over an evacuation point or a
      shutdown still ahead, no gap inside the evacuation window is above the minimum interval, and a
      run that passes either time has a wake exactly on it. */
  lemma EveryDeadlineIsMet(wakes: seq<u64>, ds: seq<Deadlines>, p: WatchPolicy, expiry: u64)
    requires p.Valid() && IsRun(wakes, ds, p) && Watches(wakes, ds, expiry)
    ensures forall i :: 0 <= i < |ds| ==> wakes[i] < wakes[i + 1]
    ensures forall i :: 0 <= i < |ds| && wakes[i] < EvacuationPoint(expiry, p) ==>
              wakes[i + 1] <= EvacuationPoint(expiry, p)
    ensures forall i :: 0 <= i < |ds| && wakes[i] < expiry ==> wakes[i + 1] <= expiry
    ensures forall i :: 0 <= i < |ds| && EvacuationPoint(expiry, p) <= wakes[i] < expiry ==>
              wakes[i + 1] - wakes[i] <= p.min
    ensures wakes[0] <= EvacuationPoint(expiry, p) <= wakes[|ds|] ==>
              exists i :: 0 <= i < |wakes| && wakes[i] == EvacuationPoint(expiry, p)
    ensures wakes[0] <= expiry <= wakes[|ds|] ==> exists i :: 0 <= i < |wakes| && wakes[i] == expiry
  {
    forall i | 0 <= i < |ds|
      ensures wakes[i] < wakes[i + 1]
      ensures wakes[i] < expiry ==> wakes[i + 1] <= expiry
      ensures wakes[i] < EvacuationPoint(expiry, p) ==> wakes[i + 1] <= EvacuationPoint(expiry, p)
      ensures EvacuationPoint(expiry, p) <= wakes[i] < expiry ==> wakes[i + 1] - wakes[i] <= p.min
    {
      OneStep(wakes, ds, p, expiry, i);
    }
    if wakes[0] <= EvacuationPoint(expiry, p) <= wakes[|ds|] {
      var i := NoJumpHits(wakes, EvacuationPoint(expiry, p), |ds|);
    }
    if wakes[0] <= expiry <= wakes[|ds|] {
      var i := NoJumpHits(wakes, expiry, |ds|);
    }
  }

  lemma WakeAdvances(wakes: seq<u64>, ds: seq<Deadlines>, p: WatchPolicy, i: nat)
    requires p.Valid() && IsRun(wakes, ds, p) && i < |ds|
    ensures wakes[i] < wakes[i + 1]
  {
    SleepRespectsDeadlines(wakes[i], p, ds[i]);
  }

  /** Time passes: the n-th wake is at least n milliseconds in. */
  lemma {:induction false} WakesAdvance(wakes: seq<u64>, ds: seq<Deadlines>, p: WatchPolicy, i: nat)
    requires p.Valid() && IsRun(wakes, ds, p) && i < |wakes|
    ensures wakes[0] + i <= wakes[i]
  {
    if i > 0 {
      WakesAdvance(wakes, ds, p, i - 1);
      WakeAdvances(wakes, ds, p, i - 1);
    }
  }

  /** So a run that goes on always gets there. */
  lemma RunsReachShutdown(wakes: seq<u64>, ds: seq<Deadlines>, p: WatchPolicy, expiry: u64)
    requires p.Valid() && IsRun(wakes, ds, p) && Watches(wakes, ds, expiry)
    requires wakes[0] <= expiry <= wakes[0] + |ds|
    ensures exists i :: 0 <= i < |wakes| && wakes[i] == expiry
    ensures wakes[0] <= EvacuationPoint(expiry, p) ==>
              exists i :: 0 <= i < |wakes| && wakes[i] == EvacuationPoint(expiry, p)
  {
    WakesAdvance(wakes, ds, p, |ds|);
    EveryDeadlineIsMet(wakes, ds, p, expiry);
  }
}

/** Runs of the planning cycle: scan the live intents, decide with the goals they hold, journal
    the emitted batch piece by piece, while statuses change and other intents are admitted at any
    point in between. */
module ConflictRun {
  import opened Types
  import opened Journal
  import opened Conflict
  import opened Allocator
  import opened AllocatorSafety
  import opened AllocatorGoals

  /** `plan` is what is left to journal of the current batch, decided under `occ`. */
  datatype World = World(journal: Store, plan: seq<Decision>, occ: Occurrence)

  datatype Step =
    | Plan(snapshot: Snapshot, occ: Occurrence, scan: seq<Intent>)
    | JournalNext
    | DropNext
    | ChangeStatus(key: Key, status: IntentStatus)
    | AdmitOther(intent: Intent)

  /** The scan lists exactly the stored intents that are pending or executing. */
  ghost predicate IsPendingScan(journal: Store, scan: seq<Intent>) {
    && (forall x :: x in scan ==> x.key in journal && journal[x.key] == x && Scanned(x))
    && (forall k :: k in journal && Scanned(journal[k]) ==> journal[k] in scan)
  }

  predicate Scanned(x: Intent) {
    x.status.Pending? || x.status.Executing?
  }

  /** A goal-bearing intent is a send-required move, which its driver never leaves awaiting. */
  predicate StatusIsReachable(x: Intent, status: IntentStatus) {
    GoalOfIntent(x).Some? ==> !status.Awaiting?
  }

  ghost function Take(w: World, step: Step): World {
    match step
    case Plan(snapshot, occ, scan) =>
      if snapshot.Valid() && IsPendingScan(w.journal, scan)
      then w.(plan := Batch(snapshot, occ, HoldersOf(scan)), occ := occ)
      else w
    case JournalNext =>
      if w.plan == [] then w
      else
        var d := w.plan[0];
        w.(plan := w.plan[1..],
           journal := if d.key in w.journal then w.journal else w.journal[d.key := FromDecision(d, Agent(w.occ))])
    case DropNext => if w.plan == [] then w else w.(plan := w.plan[1..])
    case ChangeStatus(key, status) =>
      if key in w.journal && StatusIsReachable(w.journal[key], status)
      then w.(journal := StatusSet(w.journal, key, w.journal[key].attempt, status))
      else w
    case AdmitOther(intent) =>
      if intent.key !in w.journal && GoalOfIntent(intent).None?
      then w.(journal := w.journal[intent.key := intent])
      else w
  }

  ghost function Run(steps: seq<Step>): World {
    if steps == [] then World(map[], [], 0) else Take(Run(steps[..|steps| - 1]), steps[|steps| - 1])
  }

  /** A live intent that owns a goal. */
  predicate Owns(journal: Store, k: Key) {
    k in journal && !journal[k].status.IsTerminal() && GoalOfIntent(journal[k]).Some?
  }

  function GoalAt(journal: Store, k: Key): Goal
    requires Owns(journal, k)
  {
    GoalOfIntent(journal[k]).value
  }

  ghost predicate OneOwnerPerGoal(journal: Store) {
    forall k, l :: Owns(journal, k) && Owns(journal, l) && k != l ==> GoalAt(journal, k) != GoalAt(journal, l)
  }

  ghost predicate OwnersAreScanned(journal: Store) {
    && (forall k :: k in journal ==> journal[k].key == k)
    && (forall k :: Owns(journal, k) ==> Scanned(journal[k]))
  }

  /** No live owner conflicts with the decision, unless the decision is already journaled. */
  ghost predicate Unopposed(journal: Store, d: Decision, actor: Actor) {
    GoalOfDecision(d, actor).Some? &&
    (d.key !in journal ==>
       forall k :: Owns(journal, k) ==> !Conflicts(GoalAt(journal, k), GoalOfDecision(d, actor).value, d.action))
  }

  ghost predicate ConflictFree(plan: seq<Decision>, actor: Actor) {
    && (forall d :: d in plan ==> GoalOfDecision(d, actor).Some?)
    && (forall i, j :: 0 <= i < |plan| && 0 <= j < |plan| && i != j ==>
          !Conflicts(GoalOfDecision(plan[i], actor).value, GoalOfDecision(plan[j], actor).value, plan[j].action))
  }

  ghost predicate Inv(w: World) {
    && OwnersAreScanned(w.journal)
    && OneOwnerPerGoal(w.journal)
    && ConflictFree(w.plan, Agent(w.occ))
    && (forall d :: d in w.plan ==> Unopposed(w.journal, d, Agent(w.occ)))
  }

  // ---------------------------------------------------------------- steps

  lemma BatchIsConflictFree(s: Snapshot, occ: Occurrence, blocked: Holders)
    requires s.Valid()
    ensures ConflictFree(Batch(s, occ, blocked), Agent(occ))
  {
    var batch := Batch(s, occ, blocked);
    BatchGoals(s, occ, blocked);
    forall i, j | 0 <= i < |batch| && 0 <= j < |batch| && i != j
      ensures GoalOfDecision(batch[i], Agent(occ)).Some? && GoalOfDecision(batch[j], Agent(occ)).Some?
      ensures !Conflicts(GoalOfDecision(batch[i], Agent(occ)).value, GoalOfDecision(batch[j], Agent(occ)).value,
                         batch[j].action)
    {
      assert batch[i] in batch && batch[j] in batch;
      assert GoalOfDecision(batch[i], Agent(occ)) != GoalOfDecision(batch[j], Agent(occ));
    }
    forall d | d in batch
      ensures GoalOfDecision(d, Agent(occ)).Some?
    {
    }
  }

  lemma OwnerIsHolder(journal: Store, scan: seq<Intent>, k: Key)
    requires OwnersAreScanned(journal) && IsPendingScan(journal, scan) && Owns(journal, k)
    ensures (GoalAt(journal, k), k) in HoldersOf(scan)
  {
    assert journal[k] in scan;
  }

  lemma PlanIsUnopposed(w: World, s: Snapshot, occ: Occurrence, scan: seq<Intent>, d: Decision)
    requires OwnersAreScanned(w.journal) && s.Valid() && IsPendingScan(w.journal, scan)
    requires d in Batch(s, occ, HoldersOf(scan))
    ensures Unopposed(w.journal, d, Agent(occ))
  {
    BatchGoals(s, occ, HoldersOf(scan));
    assert WellAimed(s, d, occ);
    var goal := GoalOfDecision(d, Agent(occ)).value;
    forall k | d.key !in w.journal && Owns(w.journal, k)
      ensures !Conflicts(GoalAt(w.journal, k), goal, d.action)
    {
      OwnerIsHolder(w.journal, scan, k);
      var h := (GoalAt(w.journal, k), k);
      assert h in HoldersOf(scan) && !HolderBlocks(h, d, goal);
    }
  }

  lemma PlanStep(w: World, s: Snapshot, occ: Occurrence, scan: seq<Intent>)
    requires Inv(w) && s.Valid() && IsPendingScan(w.journal, scan)
    ensures Inv(Take(w, Plan(s, occ, scan)))
  {
    BatchIsConflictFree(s, occ, HoldersOf(scan));
    forall d | d in Batch(s, occ, HoldersOf(scan))
      ensures Unopposed(w.journal, d, Agent(occ))
    {
      PlanIsUnopposed(w, s, occ, scan, d);
    }
  }

  lemma TailIsConflictFree(plan: seq<Decision>, actor: Actor)
    requires plan != [] && ConflictFree(plan, actor)
    ensures ConflictFree(plan[1..], actor)
  {
  }

  /** What changes when an unopposed decision becomes a stored owner. */
  lemma FreshOwner(journal: Store, d: Decision, actor: Actor, k: Key)
    requires d.key !in journal && GoalOfDecision(d, actor).Some?
    ensures var after := journal[d.key := FromDecision(d, actor)];
            && (Owns(after, k) <==> Owns(journal, k) || k == d.key)
            && (Owns(journal, k) ==> GoalAt(after, k) == GoalAt(journal, k))
            && Owns(after, d.key) && GoalAt(after, d.key) == GoalOfDecision(d, actor).value
  {
  }

  lemma JournalKeepsOwners(journal: Store, d: Decision, actor: Actor)
    requires OwnersAreScanned(journal) && OneOwnerPerGoal(journal) && d.key !in journal
    requires Unopposed(journal, d, actor)
    ensures var after := journal[d.key := FromDecision(d, actor)]; OwnersAreScanned(after) && OneOwnerPerGoal(after)
  {
    var after := journal[d.key := FromDecision(d, actor)];
    forall k, l | Owns(after, k) && Owns(after, l) && k != l
      ensures GoalAt(after, k) != GoalAt(after, l)
    {
      FreshOwner(journal, d, actor, k);
      FreshOwner(journal, d, actor, l);
    }
  }

  lemma JournalKeepsUnopposed(journal: Store, d: Decision, e: Decision, actor: Actor)
    requires d.key !in journal && GoalOfDecision(d, actor).Some? && Unopposed(journal, e, actor)
    requires !Conflicts(GoalOfDecision(d, actor).value, GoalOfDecision(e, actor).value, e.action)
    ensures Unopposed(journal[d.key := FromDecision(d, actor)], e, actor)
  {
    var after := journal[d.key := FromDecision(d, actor)];
    forall k | e.key !in after && Owns(after, k)
      ensures !Conflicts(GoalAt(after, k), GoalOfDecision(e, actor).value, e.action)
    {
      FreshOwner(journal, d, actor, k);
    }
  }

  lemma JournalNextStep(w: World)
    requires Inv(w) && w.plan != []
    ensures Inv(Take(w, JournalNext))
  {
    var d, actor := w.plan[0], Agent(w.occ);
    TailIsConflictFree(w.plan, actor);
    if d.key !in w.journal {
      assert Unopposed(w.journal, d, actor);
      JournalKeepsOwners(w.journal, d, actor);
      forall e | e in w.plan[1..]
        ensures Unopposed(w.journal[d.key := FromDecision(d, actor)], e, actor)
      {
        var j :| 1 <= j < |w.plan| && w.plan[j] == e;
        JournalKeepsUnopposed(w.journal, d, e, actor);
      }
    }
  }

  /** A journal in which nobody gains a goal keeps the invariant. */
  ghost predicate NoNewOwner(before: Store, after: Store) {
    && before.Keys <= after.Keys
    && (forall k :: k in after ==> after[k].key == k)
    && (forall k :: Owns(after, k) ==> Owns(before, k) && GoalAt(after, k) == GoalAt(before, k) && Scanned(after[k]))
  }

  lemma NoNewOwnerKeeps(w: World, after: Store)
    requires Inv(w) && NoNewOwner(w.journal, after)
    ensures Inv(w.(journal := after))
  {
    forall d | d in w.plan
      ensures Unopposed(after, d, Agent(w.occ))
    {
      assert Unopposed(w.journal, d, Agent(w.occ));
    }
  }

  lemma TakeKeepsInv(w: World, step: Step)
    requires Inv(w)
    ensures Inv(Take(w, step))
  {
    match step
    case Plan(s, occ, scan) =>
      if s.Valid() && IsPendingScan(w.journal, scan) {
        PlanStep(w, s, occ, scan);
      }
    case JournalNext =>
      if w.plan != [] {
        JournalNextStep(w);
      }
    case DropNext =>
      if w.plan != [] {
        TailIsConflictFree(w.plan, Agent(w.occ));
      }
    case ChangeStatus(_, _) =>
      NoNewOwnerKeeps(w, Take(w, step).journal);
    case AdmitOther(_) =>
      NoNewOwnerKeeps(w, Take(w, step).journal);
  }

  lemma {:induction false} InvHolds(steps: seq<Step>)
    ensures Inv(Run(steps))
  {
    if steps != [] {
      InvHolds(steps[..|steps| - 1]);
      TakeKeepsInv(Run(steps[..|steps| - 1]), steps[|steps| - 1]);
    }
  }

  // ---------------------------------------------------------------- main results

  predicate LiveAgent(journal: Store, k: Key) {
    k in journal && journal[k].status != Done && journal[k].status != Failed && journal[k].actor.Agent?
  }

  /** In every run, two live agent intents under different keys never fund the same destination and
      never drain the same source. */
  lemma GoalsAreNeverShared(steps: seq<Step>, k: Key, l: Key)
    requires var journal := Run(steps).journal; LiveAgent(journal, k) && LiveAgent(journal, l) && k != l
    ensures var x, y := Run(steps).journal[k], Run(steps).journal[l];
            && (IsFunding(x.action, x.reason) && IsFunding(y.action, y.reason) ==> x.action.dst != y.action.dst)
            && (x.action.Evacuate? && y.action.Evacuate? ==> x.action.src != y.action.src)
  {
    InvHolds(steps);
    var journal := Run(steps).journal;
    assert Owns(journal, k) && Owns(journal, l) ==> GoalAt(journal, k) != GoalAt(journal, l);
  }

  /** In every run, no funding move is journaled while a live evacuation drains either of its ends. */
  lemma FundingNeverRacesDrain(steps: seq<Step>, step: Step, key: Key, k: Key)
    requires var w, after := Run(steps), Run(steps + [step]);
             && key !in w.journal && LiveAgent(after.journal, key)
             && IsFunding(after.journal[key].action, after.journal[key].reason)
             && LiveAgent(w.journal, k) && w.journal[k].action.Evacuate?
    ensures var w, after := Run(steps), Run(steps + [step]);
            && after.journal[key].action.src != w.journal[k].action.src
            && after.journal[key].action.dst != w.journal[k].action.src
  {
    InvHolds(steps);
    var w := Run(steps);
    assert (steps + [step])[..|steps|] == steps;
    assert Owns(w.journal, k);
    assert step.JournalNext? && key == w.plan[0].key;
    assert Unopposed(w.journal, w.plan[0], Agent(w.occ));
  }

  /** Statuses do change in between, as far as the lifecycle and the executor allow. */
  lemma StatusesChange(steps: seq<Step>, key: Key, status: IntentStatus)
    requires var journal := Run(steps).journal;
             key in journal && MayFollow(journal[key].status, status) && StatusIsReachable(journal[key], status)
    ensures var w, after := Run(steps), Run(steps + [ChangeStatus(key, status)]);
            after == w.(journal := w.journal[key := w.journal[key].(status := status)])
  {
    assert (steps + [ChangeStatus(key, status)])[..|steps|] == steps;
  }

  /** The runs do journal plans: what is planned is stored as decided, pending, under its own key. */
  lemma PlansAreJournaled(steps: seq<Step>)
    requires Run(steps).plan != [] && Run(steps).plan[0].key !in Run(steps).journal
    ensures var w, after := Run(steps), Run(steps + [JournalNext]);
            var d := w.plan[0];
            && after.plan == w.plan[1..]
            && after.journal == w.journal[d.key := Intent(d.key, 0, d.action, Pending, d.reason, Agent(w.occ), None, None)]
  {
    assert (steps + [JournalNext])[..|steps|] == steps;
  }
}

/** Round-robin discovery passes over a sorted candidate list. */
module Rotation {
  import opened Types
  import opened Sizing

  datatype Plan = Plan(window: seq<FederationId>, nextCursor: Option<FederationId>, wrapped: bool)

  ghost predicate Sorted(ids: seq<FederationId>) {
    forall i, j :: 0 <= i < j < |ids| ==> ids[i] < ids[j]
  }

  /** The first place of an id. */
  predicate IsAt(ids: seq<FederationId>, id: FederationId, i: nat) {
    i < |ids| && ids[i] == id && forall j :: 0 <= j < i ==> ids[j] != id
  }

  /** The first current id after an absent cursor. */
  predicate IsAfter(ids: seq<FederationId>, current: set<FederationId>, cursor: FederationId, i: nat) {
    && i < |ids| && ids[i] in current && ids[i] > cursor
    && forall j :: 0 <= j < i ==> !(ids[j] in current && ids[j] > cursor)
  }

  /** The index of an id, or the length when it is absent. */
  ghost function Position(ids: seq<FederationId>, id: FederationId): (i: nat)
    ensures i <= |ids|
  {
    if exists i: nat :: IsAt(ids, id, i) then var i: nat :| IsAt(ids, id, i); i else |ids|
  }

  ghost function Successor(ids: seq<FederationId>, current: set<FederationId>, cursor: FederationId): (i: nat)
    ensures i <= |ids|
  {
    if exists i: nat :: IsAfter(ids, current, cursor, i) then var i: nat :| IsAfter(ids, current, cursor, i); i else |ids|
  }

  method FindPosition(ids: seq<FederationId>, id: FederationId) returns (i: nat)
    ensures i <= |ids| && i == Position(ids, id)
  {
    i := 0;
    while i < |ids| && ids[i] != id
      invariant i <= |ids| && forall j :: 0 <= j < i ==> ids[j] != id
    {
      i := i + 1;
    }
    if i < |ids| {
      assert IsAt(ids, id, i);
    }
  }

  method FindSuccessor(ids: seq<FederationId>, current: set<FederationId>, cursor: FederationId) returns (i: nat)
    ensures i <= |ids| && i == Successor(ids, current, cursor)
  {
    i := 0;
    while i < |ids| && !(ids[i] in current && ids[i] > cursor)
      invariant i <= |ids| && forall j :: 0 <= j < i ==> !(ids[j] in current && ids[j] > cursor)
    {
      i := i + 1;
    }
    if i < |ids| {
      assert IsAfter(ids, current, cursor, i);
    }
  }

  /** An index past the end continues at the front. */
  function Around(i: nat, n: nat): nat {
    if i < n then i else i - n
  }

  lemma AroundIsMod(i: nat, n: nat)
    requires i < n
    ensures (i + 1) % n == Around(i + 1, n)
  {
    DivIff(1, i + 1, n);
    DivIff(2, i + 1, n);
    assert i + 1 == (i + 1) / n * n + (i + 1) % n;
  }

  ghost function StartIndex(cursor: Option<FederationId>, order: seq<FederationId>, current: set<FederationId>): (start: nat)
    requires order != []
    ensures start < |order|
  {
    if cursor.None? then 0
    else
      var i := Position(order, cursor.value);
      if i < |order| then Around(i + 1, |order|)
      else
        var succ := Successor(order, current, cursor.value);
        if succ < |order| then succ else 0
  }

  function Ids(ids: seq<FederationId>): set<FederationId> {
    set id | id in ids
  }

  function Take(k: nat, n: nat): nat {
    if k < n then k else n
  }

  /** A window of consecutive candidates, continuing at the front. */
  function Slice(ids: seq<FederationId>, start: nat, len: nat): (w: seq<FederationId>)
    requires start < |ids| && len <= |ids|
    ensures |w| == len && forall i :: 0 <= i < len ==> w[i] == ids[Around(start + i, |ids|)]
  {
    seq(len, i requires 0 <= i < len => ids[Around(start + i, |ids|)])
  }

  /** A pass over a list that is its own rotation order, from a given start. `known` says that
      the cursor was found in the list. */
  function PlanFrom(start: nat, known: bool, ids: seq<FederationId>, k: nat): Plan
    requires start < |ids| && 0 < k
  {
    var n, take := |ids|, Take(k, |ids|);
    var window := Slice(ids, start, take);
    Plan(window, Some(window[take - 1]), take == n || (known && start != 0 && start + take >= n))
  }

  ghost predicate IsKnown(cursor: Option<FederationId>, ids: seq<FederationId>) {
    cursor.Some? && Position(ids, cursor.value) < |ids|
  }

  ghost function PassPlan(cursor: Option<FederationId>, ids: seq<FederationId>, k: nat): Plan {
    if ids == [] then Plan([], None, true)
    else if k == 0 then Plan([], None, false)
    else PlanFrom(StartIndex(cursor, ids, Ids(ids)), IsKnown(cursor, ids), ids, k)
  }

  lemma {:induction false} DistinctCount(ids: seq<FederationId>)
    requires Sorted(ids)
    ensures |Ids(ids)| == |ids|
  {
    if ids != [] {
      var n := |ids| - 1;
      DistinctCount(ids[..n]);
      assert Ids(ids) == Ids(ids[..n]) + {ids[n]};
      assert ids[n] !in Ids(ids[..n]);
    }
  }

  /** Where a pass starts, and whether its cursor is in the order. */
  method FindStart(cursor: Option<FederationId>, order: seq<FederationId>, current: set<FederationId>)
    returns (known: bool, start: nat)
    requires order != []
    ensures start < |order|
    ensures known == IsKnown(cursor, order) && start == StartIndex(cursor, order, current)
  {
    if cursor.None? {
      return false, 0;
    }
    var i := FindPosition(order, cursor.value);
    known := i < |order|;
    if known {
      AroundIsMod(i, |order|);
      start := (i + 1) % |order|;
    } else {
      start := FindSuccessor(order, current, cursor.value);
      if start == |order| {
        start := 0;
      }
    }
  }

  function Rotated(order: seq<FederationId>, start: nat): seq<FederationId>
    requires start <= |order|
  {
    order[start..] + order[..start]
  }

  /** The current ids of a list, in its order. */
  function Kept(xs: seq<FederationId>, current: set<FederationId>): seq<FederationId> {
    if xs == [] then []
    else Kept(xs[..|xs| - 1], current) + (if xs[|xs| - 1] in current then [xs[|xs| - 1]] else [])
  }

  function Prefix(xs: seq<FederationId>, n: nat): seq<FederationId> {
    if |xs| <= n then xs else xs[..n]
  }

  lemma KeptNext(xs: seq<FederationId>, current: set<FederationId>, i: nat)
    requires i < |xs|
    ensures Kept(xs[..i + 1], current) == Kept(xs[..i], current) + (if xs[i] in current then [xs[i]] else [])
  {
    assert xs[..i + 1][..i] == xs[..i];
  }

  lemma {:induction false} KeptPrefix(xs: seq<FederationId>, current: set<FederationId>, i: nat, j: nat)
    requires i <= j <= |xs|
    ensures Kept(xs[..i], current) <= Kept(xs[..j], current)
  {
    if i < j {
      KeptPrefix(xs, current, i, j - 1);
      KeptNext(xs, current, j - 1);
    }
  }

  lemma {:induction false} KeptMembers(xs: seq<FederationId>, current: set<FederationId>)
    ensures forall id :: id in Kept(xs, current) <==> id in xs && id in current
    ensures (forall id :: id in xs ==> id in current) ==> Kept(xs, current) == xs
  {
    if xs != [] {
      var n := |xs| - 1;
      KeptMembers(xs[..n], current);
      assert xs == xs[..n] + [xs[n]];
    }
  }

  lemma RotatedAt(order: seq<FederationId>, start: nat, i: nat)
    requires start < |order| && i < |order|
    ensures |Rotated(order, start)| == |order| && Rotated(order, start)[i] == order[Around(start + i, |order|)]
  {
  }

  /** Where the loop stops, what it has kept is the prefix asked for. */
  lemma Stopped(xs: seq<FederationId>, current: set<FederationId>, step: nat, last: nat, take: nat)
    requires step <= |xs| && last < |xs| && |Kept(xs[..step], current)| <= take
    requires step == |xs| || |Kept(xs[..step], current)| == take
    requires step > last ==> |Kept(xs[..last], current)| < take
    ensures Kept(xs[..step], current) == Prefix(Kept(xs, current), take)
    ensures step > last <==> |Kept(xs[..last], current)| < take
  {
    assert xs[..|xs|] == xs;
    KeptPrefix(xs, current, step, |xs|);
    if step <= last {
      KeptPrefix(xs, current, step, last);
    }
  }

  /** The collecting loop: step through the order from `start`, keeping current ids, until `take`
      of them are found. */
  method Collect(order: seq<FederationId>, current: set<FederationId>, start: nat, take: nat, watched: bool)
    returns (window: seq<FederationId>, crossed: bool)
    requires start < |order|
    ensures window == Prefix(Kept(Rotated(order, start), current), take)
    ensures crossed <==> watched && |Kept(Rotated(order, start)[..|order| - 1 - start], current)| < take
  {
    var len := |order|;
    ghost var around, last := Rotated(order, start), len - 1 - start;
    window, crossed := [], false;
    var index := start;
    var step := 0;
    while step < len && |window| < take
      invariant 0 <= index < len && step <= len && |window| <= take
      invariant step < len ==> index == Around(start + step, len)
      invariant window == Kept(around[..step], current)
      invariant crossed <==> watched && step > last
      invariant step > last ==> |Kept(around[..last], current)| < take
    {
      if watched && index == len - 1 {
        crossed := true;
      }
      var id := order[index];
      RotatedAt(order, start, step);
      KeptNext(around, current, step);
      if id in current {
        window := window + [id];
      }
      AroundIsMod(index, len);
      index := (index + 1) % len;
      step := step + 1;
    }
    Stopped(around, current, step, last, take);
  }

  function Last(window: seq<FederationId>): Option<FederationId> {
    if window == [] then None else Some(window[|window| - 1])
  }

  /** From `start`, the first `k` current candidates in rotation order. */
  function PlanWithin(start: nat, known: bool, order: seq<FederationId>, current: set<FederationId>, k: nat): Plan
    requires start < |order|
  {
    var around, take := Rotated(order, start), Take(k, |current|);
    var window := Prefix(Kept(around, current), take);
    var crossed := known && start != 0 && |Kept(around[..|order| - 1 - start], current)| < take;
    Plan(window, Last(window), |window| == |current| || crossed)
  }

  /** One pass from the place after the cursor. It wraps when it holds every candidate, or passes
      the end of the order from a known cursor. */
  ghost function PlanIn(cursor: Option<FederationId>, rotation: seq<FederationId>, candidates: seq<FederationId>,
                        k: nat): Plan
  {
    if candidates == [] then Plan([], None, true)
    else if k == 0 then Plan([], None, false)
    else
      var current, order := Ids(candidates), if rotation == [] then candidates else rotation;
      PlanWithin(StartIndex(cursor, order, current), IsKnown(cursor, order), order, current, k)
  }

  /** The pass as the code plans it. */
  method DiscoverPassPlanInRotation(cursor: Option<FederationId>, rotation: seq<FederationId>,
                                    candidates: seq<FederationId>, k: nat) returns (plan: Plan)
    ensures plan == PlanIn(cursor, rotation, candidates, k)
  {
    if candidates == [] {
      return Plan([], None, true);
    }
    if k == 0 {
      return Plan([], None, false);
    }
    var current := Ids(candidates);
    var order := if rotation == [] then candidates else rotation;
    var known, start := FindStart(cursor, order, current);
    var window, crossed := Collect(order, current, start, Take(k, |current|), known && start != 0);
    plan := Plan(window, Last(window), |window| == |current| || crossed);
  }

  lemma KeptInOrder(order: seq<FederationId>, start: nat, current: set<FederationId>)
    requires start <= |order|
    ensures forall id :: id in Kept(Rotated(order, start), current) <==> id in order && id in current
  {
    assert order == order[..start] + order[start..];
    KeptMembers(Rotated(order, start), current);
  }

  lemma PrefixMembers(xs: seq<FederationId>, n: nat)
    ensures |Prefix(xs, n)| <= n && (|Prefix(xs, n)| < n ==> Prefix(xs, n) == xs)
    ensures forall id :: id in Prefix(xs, n) ==> id in xs
  {
  }

  /** Whatever the order, a window holds only current candidates and never more than asked; it is
      short only when the order has no more of them. */
  lemma WindowIsCurrent(cursor: Option<FederationId>, rotation: seq<FederationId>, candidates: seq<FederationId>,
                        k: nat, id: FederationId)
    requires rotation != []
    ensures var window := PlanIn(cursor, rotation, candidates, k).window;
            && |window| <= k
            && (id in window ==> id in candidates && id in rotation)
            && (|window| < k && |window| < |Ids(candidates)| && id in rotation && id in candidates ==> id in window)
  {
    if candidates != [] && k > 0 {
      var current := Ids(candidates);
      var start := StartIndex(cursor, rotation, current);
      KeptInOrder(rotation, start, current);
      PrefixMembers(Kept(Rotated(rotation, start), current), Take(k, |current|));
    }
  }

  lemma RotatedIsSlice(ids: seq<FederationId>, start: nat, n: nat)
    requires start < |ids| && n <= |ids|
    ensures Rotated(ids, start)[..n] == Slice(ids, start, n)
  {
  }

  lemma AllKept(ids: seq<FederationId>, start: nat, n: nat)
    requires start < |ids| && n <= |ids|
    ensures Kept(Rotated(ids, start)[..n], Ids(ids)) == Slice(ids, start, n)
  {
    RotatedIsSlice(ids, start, n);
    forall id | id in Slice(ids, start, n)
      ensures id in Ids(ids)
    {
    }
    KeptMembers(Slice(ids, start, n), Ids(ids));
  }

  lemma OwnWindow(ids: seq<FederationId>, start: nat, take: nat)
    requires start < |ids| && take <= |ids|
    ensures Prefix(Kept(Rotated(ids, start), Ids(ids)), take) == Slice(ids, start, take)
    ensures |Kept(Rotated(ids, start)[..|ids| - 1 - start], Ids(ids))| == |ids| - 1 - start
  {
    assert Rotated(ids, start)[..|ids|] == Rotated(ids, start);
    AllKept(ids, start, |ids|);
    AllKept(ids, start, |ids| - 1 - start);
    assert Slice(ids, start, |ids|)[..take] == Slice(ids, start, take);
  }

  lemma PlanWithinOwn(start: nat, known: bool, ids: seq<FederationId>, k: nat)
    requires start < |ids| && 0 < k && |Ids(ids)| == |ids|
    ensures PlanWithin(start, known, ids, Ids(ids), k) == PlanFrom(start, known, ids, k)
  {
    OwnWindow(ids, start, Take(k, |ids|));
  }

  /** Over a candidate list that is its own order, the pass is a cyclic slice. */
  lemma PlanInOwnOrder(cursor: Option<FederationId>, rotation: seq<FederationId>, candidates: seq<FederationId>, k: nat)
    requires (rotation == [] || rotation == candidates) && Sorted(candidates)
    ensures PlanIn(cursor, rotation, candidates, k) == PassPlan(cursor, candidates, k)
  {
    if candidates != [] && k > 0 {
      DistinctCount(candidates);
      PlanWithinOwn(StartIndex(cursor, candidates, Ids(candidates)), IsKnown(cursor, candidates), candidates, k);
    }
  }

  // ---------------------------------------------------------------- where a pass starts and ends

  /** Where a pass resumes: with no cursor at the front; after a cursor that is in the order; else at the
      first current candidate above it, or at the front when there is none. */
  lemma ResumesAt(cursor: Option<FederationId>, order: seq<FederationId>, current: set<FederationId>, start: nat)
    requires order != [] && start == StartIndex(cursor, order, current)
    ensures cursor.None? ==> start == 0
    ensures cursor.Some? && cursor.value in order ==>
              exists i :: 0 <= i < |order| && order[i] == cursor.value && cursor.value !in order[..i]
                          && start == if i + 1 < |order| then i + 1 else 0
    ensures cursor.Some? && cursor.value !in order && (exists id :: id in order && id in current && id > cursor.value) ==>
              && order[start] in current && order[start] > cursor.value
              && forall j :: 0 <= j < start && order[j] in current ==> order[j] < cursor.value
    ensures cursor.Some? && cursor.value !in order && (forall id :: id in order && id in current ==> id < cursor.value) ==>
              start == 0
  {
    if cursor.Some? {
      if cursor.value in order {
        var i := FirstIndex(order, cursor.value);
        assert IsAt(order, cursor.value, i);
      } else {
        SuccessorIs(order, current, cursor.value);
      }
    }
  }

  lemma FirstIndex(order: seq<FederationId>, id: FederationId) returns (i: nat)
    requires id in order
    ensures IsAt(order, id, i) && id !in order[..i]
  {
    i := 0;
    while order[i] != id
      invariant i < |order| && id !in order[..i] && id in order[i..]
      decreases |order| - i
    {
      assert order[..i + 1] == order[..i] + [order[i]] && order[i..] == [order[i]] + order[i + 1..];
      i := i + 1;
    }
  }

  lemma SuccessorIs(order: seq<FederationId>, current: set<FederationId>, cursor: FederationId)
    ensures var i := Successor(order, current, cursor);
            if i < |order| then IsAfter(order, current, cursor, i)
            else forall id :: id in order && id in current ==> id <= cursor
  {
    if id :| id in order && id in current && id > cursor {
      var i := 0;
      while !(order[i] in current && order[i] > cursor)
        invariant i < |order| && forall j :: 0 <= j < i ==> !(order[j] in current && order[j] > cursor)
        invariant id in order[i..]
        decreases |order| - i
      {
        assert order[i..] == [order[i]] + order[i + 1..];
        i := i + 1;
      }
      assert IsAfter(order, current, cursor, i);
    }
  }

  /** Over a sorted list, a pass wraps exactly when it visits every candidate, or resumed after a known
      candidate other than the last and visits the last. */
  lemma WrapsExactly(cursor: Option<FederationId>, ids: seq<FederationId>, k: nat)
    requires Sorted(ids) && ids != [] && 0 < k
    ensures var plan, last := PassPlan(cursor, ids, k), ids[|ids| - 1];
            plan.wrapped <==>
            || k >= |ids|
            || (cursor.Some? && cursor.value in ids && cursor.value != last && last in plan.window)
    ensures var plan := PassPlan(cursor, ids, k);
            |plan.window| == (if k < |ids| then k else |ids|) && plan.nextCursor == Some(plan.window[|plan.window| - 1])
  {
    var n, take, start := |ids|, Take(k, |ids|), StartIndex(cursor, ids, Ids(ids));
    var window := Slice(ids, start, take);
    if cursor.Some? && cursor.value in ids {
      var i := FirstIndex(ids, cursor.value);
      PositionIsIndex(ids, i);
    } else if cursor.Some? {
      assert forall i: nat :: !IsAt(ids, cursor.value, i);
    }
    LastInSlice(ids, start, take);
  }

  lemma LastInSlice(ids: seq<FederationId>, start: nat, take: nat)
    requires Sorted(ids) && start < |ids| && 0 < take <= |ids|
    ensures ids[|ids| - 1] in Slice(ids, start, take) <==> start + take >= |ids|
  {
    var n, window := |ids|, Slice(ids, start, take);
    if start + take >= n {
      assert window[n - 1 - start] == ids[n - 1];
    } else {
      forall i | 0 <= i < take
        ensures window[i] != ids[n - 1]
      {
        assert window[i] == ids[start + i] < ids[n - 1];
      }
    }
  }

  // ---------------------------------------------------------------- runs of passes

  ghost predicate Follows(plans: seq<Plan>, ids: seq<FederationId>, k: nat, j: nat)
    requires j + 1 < |plans|
  {
    plans[j + 1] == PassPlan(plans[j].nextCursor, ids, k)
  }

  /** Consecutive passes from `cursor`, each resuming at the cursor the previous one left. */
  ghost predicate IsRun(plans: seq<Plan>, cursor: Option<FederationId>, ids: seq<FederationId>, k: nat) {
    && Sorted(ids) && ids != [] && 0 < k
    && (plans != [] ==> plans[0] == PassPlan(cursor, ids, k))
    && Chained(plans, ids, k)
  }

  ghost predicate Chained(plans: seq<Plan>, ids: seq<FederationId>, k: nat) {
    forall j: nat :: j + 1 < |plans| ==> Follows(plans, ids, k, j)
  }

  function CeilDiv(n: nat, k: nat): nat
    requires 0 < k
  {
    (n + k - 1) / k
  }

  /** `m` passes of `take` are just enough for `n` candidates. */
  lemma JustEnough(n: nat, k: nat)
    requires 0 < n && 0 < k
    ensures var m, take := CeilDiv(n, k), Take(k, n); 0 < m && (m - 1) * take < n <= m * take
  {
    var m := CeilDiv(n, k);
    DivIff(m, n + k - 1, k);
    DivIff(m + 1, n + k - 1, k);
    DivIff(1, n + k - 1, k);
    if k > n {
      DivIff(2, n + k - 1, k);
    } else {
      assert (m + 1) * k == m * k + k && (m - 1) * k == m * k - k;
    }
  }

  lemma PositionIsIndex(ids: seq<FederationId>, i: nat)
    requires Sorted(ids) && i < |ids|
    ensures Position(ids, ids[i]) == i
  {
    assert IsAt(ids, ids[i], i);
  }

  lemma StartOfKnown(ids: seq<FederationId>, p: nat)
    requires Sorted(ids) && p < |ids|
    ensures StartIndex(Some(ids[p]), ids, Ids(ids)) == Around(p + 1, |ids|) && IsKnown(Some(ids[p]), ids)
  {
    PositionIsIndex(ids, p);
  }

  /** Where pass `j` starts, as a number. */
  function StartAt(s: nat, take: nat, n: nat, j: nat): (r: nat)
    requires s < n && take <= n
    ensures r < n
  {
    if j == 0 then s else Around(StartAt(s, take, n, j - 1) + take, n)
  }

  lemma StartAtNext(s: nat, take: nat, n: nat, j: nat)
    requires s < n && take <= n
    ensures StartAt(s, take, n, j + 1) == Around(StartAt(s, take, n, j) + take, n)
  {
  }

  lemma {:induction false} StartAtIs(s: nat, take: nat, n: nat, j: nat, offset: nat)
    requires s < n && take <= n && offset == j * take < n
    ensures StartAt(s, take, n, j) == Around(s + offset, n)
  {
    if j > 0 {
      assert offset - take == (j - 1) * take;
      StartAtIs(s, take, n, j - 1, offset - take);
    }
  }

  lemma NextPlan(start: nat, known: bool, ids: seq<FederationId>, k: nat)
    requires Sorted(ids) && start < |ids| && 0 < k
    ensures PassPlan(PlanFrom(start, known, ids, k).nextCursor, ids, k)
            == PlanFrom(Around(start + Take(k, |ids|), |ids|), true, ids, k)
  {
    StartOfKnown(ids, Around(start + Take(k, |ids|) - 1, |ids|));
  }

  lemma RunStep(plans: seq<Plan>, ids: seq<FederationId>, k: nat, j: nat, start: nat, known: bool)
    requires Sorted(ids) && start < |ids| && 0 < k && j + 1 < |plans| && Chained(plans, ids, k)
    requires plans[j] == PlanFrom(start, known, ids, k)
    ensures plans[j + 1] == PlanFrom(Around(start + Take(k, |ids|), |ids|), true, ids, k)
  {
    assert Follows(plans, ids, k, j);
    NextPlan(start, known, ids, k);
  }

  lemma RunBase(plans: seq<Plan>, cursor: Option<FederationId>, ids: seq<FederationId>, k: nat, s: nat)
    requires IsRun(plans, cursor, ids, k) && s == StartIndex(cursor, ids, Ids(ids)) && plans != []
    ensures plans[0] == PlanFrom(s, IsKnown(cursor, ids), ids, k)
  {
  }

  lemma StartedAtNext(plans: seq<Plan>, ids: seq<FederationId>, k: nat, s: nat, known: bool, i: nat)
    requires Sorted(ids) && 0 < k && s < |ids| && i + 1 < |plans| && Chained(plans, ids, k)
    requires plans[i] == PlanFrom(StartAt(s, Take(k, |ids|), |ids|, i), 0 < i || known, ids, k)
    ensures plans[i + 1] == PlanFrom(StartAt(s, Take(k, |ids|), |ids|, i + 1), true, ids, k)
  {
    RunStep(plans, ids, k, i, StartAt(s, Take(k, |ids|), |ids|, i), 0 < i || known);
    StartAtNext(s, Take(k, |ids|), |ids|, i);
  }

  ghost predicate Keeps(plans: seq<Plan>, expected: nat -> Plan, i: nat)
    requires i + 1 < |plans|
  {
    plans[i] == expected(i) ==> plans[i + 1] == expected(i + 1)
  }

  lemma {:induction false} KeptUp(plans: seq<Plan>, expected: nat -> Plan, j: nat)
    requires j < |plans| && plans[0] == expected(0)
    requires forall i: nat :: i + 1 < |plans| ==> Keeps(plans, expected, i)
    ensures plans[j] == expected(j)
  {
    if j > 0 {
      KeptUp(plans, expected, j - 1);
      assert Keeps(plans, expected, j - 1);
    }
  }

  lemma RunFrom(plans: seq<Plan>, ids: seq<FederationId>, k: nat, s: nat, known: bool, j: nat)
    requires Sorted(ids) && 0 < k && s < |ids| && j < |plans| && Chained(plans, ids, k)
    requires plans[0] == PlanFrom(s, known, ids, k)
    ensures plans[j] == PlanFrom(StartAt(s, Take(k, |ids|), |ids|, j), 0 < j || known, ids, k)
  {
    var expected := (i: nat) => PlanFrom(StartAt(s, Take(k, |ids|), |ids|, i), 0 < i || known, ids, k);
    forall i: nat | i + 1 < |plans|
      ensures Keeps(plans, expected, i)
    {
      if plans[i] == expected(i) {
        StartedAtNext(plans, ids, k, s, known, i);
      }
    }
    KeptUp(plans, expected, j);
  }

  /** A run of passes is a run of starts, each one window further on. */
  lemma RunIsNumeric(plans: seq<Plan>, cursor: Option<FederationId>, ids: seq<FederationId>, k: nat, s: nat, j: nat)
    requires IsRun(plans, cursor, ids, k) && s == StartIndex(cursor, ids, Ids(ids)) && j < |plans|
    ensures plans[j] == PlanFrom(StartAt(s, Take(k, |ids|), |ids|, j), 0 < j || IsKnown(cursor, ids), ids, k)
  {
    RunBase(plans, cursor, ids, k, s);
    RunFrom(plans, ids, k, s, IsKnown(cursor, ids), j);
  }

  lemma PlanHolds(start: nat, known: bool, ids: seq<FederationId>, k: nat, s: nat, offset: nat, i: nat)
    requires s < |ids| && 0 < k && i < Take(k, |ids|) && offset + i < |ids| && start == Around(s + offset, |ids|)
    ensures var window := PlanFrom(start, known, ids, k).window;
            |window| == Take(k, |ids|) && window[i] == ids[Around(s + offset + i, |ids|)]
  {
  }

  /** From any cursor, the candidate `j * take + i` places after the start is in pass `j`. */
  lemma PassHolds(plans: seq<Plan>, cursor: Option<FederationId>, ids: seq<FederationId>, k: nat, s: nat, j: nat, i: nat,
                  offset: nat)
    requires IsRun(plans, cursor, ids, k) && s == StartIndex(cursor, ids, Ids(ids)) && j < |plans|
    requires i < Take(k, |ids|) && offset == j * Take(k, |ids|) && offset + i < |ids|
    ensures |plans[j].window| == Take(k, |ids|) && plans[j].window[i] == ids[Around(s + offset + i, |ids|)]
  {
    var start, known := StartAt(s, Take(k, |ids|), |ids|, j), 0 < j || IsKnown(cursor, ids);
    RunIsNumeric(plans, cursor, ids, k, s, j);
    StartAtIs(s, Take(k, |ids|), |ids|, j, offset);
    PlanHolds(start, known, ids, k, s, offset, i);
  }

  lemma DivideInto(d: nat, take: nat, m: nat, n: nat) returns (j: nat, i: nat)
    requires 0 < take && d < n <= m * take
    ensures d == j * take + i && i < take && j < m
  {
    j, i := d / take, d % take;
    DivIff(m, d, take);
  }

  lemma VisitOf(plans: seq<Plan>, cursor: Option<FederationId>, ids: seq<FederationId>, k: nat, s: nat, x: nat)
    returns (j: nat)
    requires IsRun(plans, cursor, ids, k) && s == StartIndex(cursor, ids, Ids(ids))
    requires |plans| >= CeilDiv(|ids|, k) && x < |ids|
    ensures j < CeilDiv(|ids|, k) && ids[x] in plans[j].window
  {
    var n, take := |ids|, Take(k, |ids|);
    JustEnough(n, k);
    var i;
    j, i := DivideInto(if x >= s then x - s else x - s + n, take, CeilDiv(n, k), n);
    PassHolds(plans, cursor, ids, k, s, j, i, j * take);
  }

  /** From any cursor at all, `ceil(n/k)` consecutive passes visit every candidate. */
  lemma EveryCandidateIsVisited(plans: seq<Plan>, cursor: Option<FederationId>, ids: seq<FederationId>, k: nat,
                                id: FederationId)
    requires IsRun(plans, cursor, ids, k) && |plans| >= CeilDiv(|ids|, k) && id in ids
    ensures exists j :: 0 <= j < CeilDiv(|ids|, k) && id in plans[j].window
  {
    var x :| 0 <= x < |ids| && ids[x] == id;
    var j := VisitOf(plans, cursor, ids, k, StartIndex(cursor, ids, Ids(ids)), x);
  }

  lemma OffsetBounds(n: nat, take: nat, m: nat, j: nat, offset: nat)
    requires 0 < take <= n && j < m && (m - 1) * take < n <= m * take && offset == j * take
    ensures offset < n
    ensures offset + take >= n <==> j == m - 1
    ensures offset == 0 <==> j == 0
    ensures take == n ==> m == 1
  {
    MulMonotone(j, m - 1, take);
    assert (j + 1) * take == offset + take && (m - 1) * take == m * take - take;
    if j < m - 1 {
      MulMonotone(j + 1, m - 1, take);
    }
    if 0 < j {
      MulMonotone(1, j, take);
    }
    if 2 <= m {
      MulMonotone(1, m - 1, take);
    }
  }

  /** Where pass `j` of a full round stands. */
  lemma PassOffset(n: nat, k: nat, j: nat) returns (offset: nat)
    requires 0 < n && 0 < k && j < CeilDiv(n, k)
    ensures offset == j * Take(k, n) && offset < n
    ensures offset + Take(k, n) >= n <==> j == CeilDiv(n, k) - 1
    ensures offset == 0 <==> j == 0
    ensures Take(k, n) == n ==> CeilDiv(n, k) == 1
  {
    offset := j * Take(k, n);
    JustEnough(n, k);
    OffsetBounds(n, Take(k, n), CeilDiv(n, k), j, offset);
  }

  /** A run from no cursor first wraps in pass number `ceil(n/k)`. */
  lemma FirstWrap(plans: seq<Plan>, ids: seq<FederationId>, k: nat, j: nat)
    requires IsRun(plans, None, ids, k) && j < |plans| && j < CeilDiv(|ids|, k)
    ensures plans[j].wrapped <==> j == CeilDiv(|ids|, k) - 1
  {
    var offset := PassOffset(|ids|, k, j);
    RunIsNumeric(plans, None, ids, k, 0, j);
    StartAtIs(0, Take(k, |ids|), |ids|, j, offset);
  }

  lemma SliceMembers(ids: seq<FederationId>, a: nat, b: nat, id: FederationId)
    requires Sorted(ids) && a <= b <= |ids|
    ensures id in ids[a..b] <==> a <= Position(ids, id) < b
  {
    var x := Position(ids, id);
    if i :| a <= i < b && ids[i] == id {
      PositionIsIndex(ids, i);
    }
    if a <= x < b {
      assert IsAt(ids, id, x);
    }
  }

  lemma WindowIsSlice(plans: seq<Plan>, ids: seq<FederationId>, k: nat, j: nat, offset: nat)
    requires IsRun(plans, None, ids, k) && j < |plans|
    requires offset == j * Take(k, |ids|) && offset + Take(k, |ids|) <= |ids|
    ensures plans[j].window == ids[offset..offset + Take(k, |ids|)]
  {
    var take := Take(k, |ids|);
    PassHolds(plans, None, ids, k, 0, j, 0, offset);
    forall i | 0 <= i < take
      ensures plans[j].window[i] == ids[offset..offset + take][i]
    {
      PassHolds(plans, None, ids, k, 0, j, i, offset);
    }
  }

  /** Pass `j`, when it is not the last, visits exactly positions `j * take` to `(j + 1) * take`. */
  lemma WindowRange(plans: seq<Plan>, ids: seq<FederationId>, k: nat, j: nat, id: FederationId)
    requires IsRun(plans, None, ids, k) && j < |plans| && j < CeilDiv(|ids|, k) - 1
    ensures var take := Take(k, |ids|);
            id in plans[j].window <==> j * take <= Position(ids, id) < j * take + take
  {
    var offset := PassOffset(|ids|, k, j);
    WindowIsSlice(plans, ids, k, j, offset);
    SliceMembers(ids, offset, offset + Take(k, |ids|), id);
  }

  /** Before the first wrapping pass no candidate is visited twice. */
  lemma WindowsAreDisjoint(plans: seq<Plan>, ids: seq<FederationId>, k: nat, i: nat, j: nat, id: FederationId)
    requires IsRun(plans, None, ids, k) && i < j < |plans| && j < CeilDiv(|ids|, k) - 1
    requires id in plans[i].window
    ensures id !in plans[j].window
  {
    var take := Take(k, |ids|);
    MulMonotone(i + 1, j, take);
    assert (i + 1) * take == i * take + take;
    WindowRange(plans, ids, k, i, id);
    WindowRange(plans, ids, k, j, id);
  }

  /** The first wrapping pass is exactly the one that completes coverage: before it some
      candidate is still unvisited. */
  lemma CoverageCompletesAtWrap(plans: seq<Plan>, ids: seq<FederationId>, k: nat, j: nat)
    requires IsRun(plans, None, ids, k) && j < |plans| && j < CeilDiv(|ids|, k) - 1
    ensures var last := (CeilDiv(|ids|, k) - 1) * Take(k, |ids|);
            last < |ids| && ids[last] !in plans[j].window
  {
    var n, take, m := |ids|, Take(k, |ids|), CeilDiv(|ids|, k);
    JustEnough(n, k);
    var last := (m - 1) * take;
    MulMonotone(j + 1, m - 1, take);
    assert (j + 1) * take == j * take + take;
    PositionIsIndex(ids, last);
    WindowRange(plans, ids, k, j, ids[last]);
  }
}

/** The active probe's verdict over an attempt history, and the moment a pass expires. */
module Probe {
  import opened Amounts
  import opened Types

  datatype Attempt = Attempt(at: u64, ok: bool, from: FederationId, amount: u64, legFeeCap: u64)

  datatype Policy = Policy(amount: u64, legFeeCap: u64, minSuccesses: nat, minSpan: u64, ttl: u64)

  datatype Verdict = Passed | NeverProbed | Insufficient | Expired | FailedVerdict | FailedSinceLastPass

  // ---------------------------------------------------------------- chronological order

  ghost predicate Chronological(h: seq<Attempt>) {
    forall i, j :: 0 <= i < j < |h| ==> h[i].at <= h[j].at
  }

  /** Insertion behind every attempt that is not later: stable. */
  function Insert(h: seq<Attempt>, a: Attempt): seq<Attempt> {
    if h == [] || h[|h| - 1].at <= a.at then h + [a] else Insert(h[..|h| - 1], a) + [h[|h| - 1]]
  }

  /** The history sorted by time, equal times in recorded order. */
  function ByTime(attempts: seq<Attempt>): seq<Attempt> {
    if attempts == [] then [] else Insert(ByTime(attempts[..|attempts| - 1]), attempts[|attempts| - 1])
  }

  /** Nothing in the history is later than `t`. */
  ghost predicate NoLaterThan(h: seq<Attempt>, t: u64) {
    forall a :: a in h ==> a.at <= t
  }

  lemma ChronologicalSnoc(h: seq<Attempt>, z: Attempt)
    ensures Chronological(h + [z]) <==> Chronological(h) && NoLaterThan(h, z.at)
  {
    var all := h + [z];
    if Chronological(all) {
      forall i, j | 0 <= i < j < |h|
        ensures h[i].at <= h[j].at
      {
        assert all[i].at <= all[j].at;
      }
      forall a | a in h
        ensures a.at <= z.at
      {
        var i :| 0 <= i < |h| && h[i] == a;
        assert all[i].at <= all[|h|].at;
      }
    }
  }

  lemma ChronologicalInit(h: seq<Attempt>)
    requires Chronological(h) && h != []
    ensures Chronological(h[..|h| - 1]) && NoLaterThan(h[..|h| - 1], h[|h| - 1].at)
  {
    assert h == h[..|h| - 1] + [h[|h| - 1]];
    ChronologicalSnoc(h[..|h| - 1], h[|h| - 1]);
  }

  lemma {:induction false} InsertKeeps(h: seq<Attempt>, a: Attempt)
    ensures multiset(Insert(h, a)) == multiset(h) + multiset{a}
  {
    if h != [] && h[|h| - 1].at > a.at {
      var n := |h| - 1;
      InsertKeeps(h[..n], a);
      assert h == h[..n] + [h[n]];
    }
  }

  lemma {:induction false} InsertIsChronological(h: seq<Attempt>, a: Attempt)
    requires Chronological(h)
    ensures Chronological(Insert(h, a))
  {
    if h == [] {
    } else if h[|h| - 1].at <= a.at {
      ChronologicalInit(h);
      ChronologicalSnoc(h, a);
    } else {
      var n := |h| - 1;
      ChronologicalInit(h);
      InsertIsChronological(h[..n], a);
      InsertKeeps(h[..n], a);
      forall x | x in Insert(h[..n], a)
        ensures x.at <= h[n].at
      {
        assert x in multiset(Insert(h[..n], a));
      }
      ChronologicalSnoc(Insert(h[..n], a), h[n]);
    }
  }

  lemma MultisetSnoc(xs: seq<Attempt>, x: Attempt)
    ensures multiset(xs + [x]) == multiset(xs) + multiset{x}
  {
  }

  lemma {:induction false} ByTimePermutes(attempts: seq<Attempt>)
    ensures multiset(ByTime(attempts)) == multiset(attempts)
  {
    if attempts != [] {
      var n := |attempts| - 1;
      ByTimePermutes(attempts[..n]);
      InsertKeeps(ByTime(attempts[..n]), attempts[n]);
      MultisetSnoc(attempts[..n], attempts[n]);
      assert attempts == attempts[..n] + [attempts[n]];
    }
  }

  lemma {:induction false} ByTimeIsChronological(attempts: seq<Attempt>)
    ensures Chronological(ByTime(attempts))
  {
    if attempts != [] {
      var n := |attempts| - 1;
      ByTimeIsChronological(attempts[..n]);
      InsertIsChronological(ByTime(attempts[..n]), attempts[n]);
    }
  }

  // ---------------------------------------------------------------- the verdict

  predicate InWindow(a: Attempt, now: u64, p: Policy) {
    SatSub(now, a.at) <= p.ttl
  }

  /** The partition point: how many leading attempts are older than the window. */
  function WindowStart(h: seq<Attempt>, now: u64, p: Policy): (k: nat)
    ensures k <= |h|
    ensures forall i :: 0 <= i < k ==> !InWindow(h[i], now, p)
    ensures k < |h| ==> InWindow(h[k], now, p)
  {
    if h == [] || InWindow(h[0], now, p) then 0 else 1 + WindowStart(h[1..], now, p)
  }

  function Window(h: seq<Attempt>, now: u64, p: Policy): seq<Attempt> {
    h[WindowStart(h, now, p)..]
  }

  /** The successes strictly after the last failure. */
  function SuccessSuffix(h: seq<Attempt>): (s: seq<Attempt>)
    ensures |s| <= |h| && s == h[|h| - |s|..]
  {
    if h == [] || !h[|h| - 1].ok then [] else SuccessSuffix(h[..|h| - 1]) + [h[|h| - 1]]
  }

  predicate Qualifies(a: Attempt, source: FederationId, p: Policy) {
    a.ok && a.from == source && a.amount >= p.amount && a.legFeeCap <= p.legFeeCap
  }

  function Qualifying(h: seq<Attempt>, source: FederationId, p: Policy): (q: seq<Attempt>)
    ensures |q| <= |h|
    ensures forall a :: a in q ==> a in h && Qualifies(a, source, p)
  {
    if h == [] then []
    else Qualifying(h[..|h| - 1], source, p) + (if Qualifies(h[|h| - 1], source, p) then [h[|h| - 1]] else [])
  }

  predicate SlicePasses(q: seq<Attempt>, p: Policy) {
    q != [] && |q| >= p.minSuccesses && SatSub(q[|q| - 1].at, q[0].at) >= p.minSpan
  }

  /** Whether any maximal run of successes qualifies. */
  predicate PriorPass(h: seq<Attempt>, source: FederationId, p: Policy)
    decreases |h|
  {
    var run := SuccessSuffix(h);
    || SlicePasses(Qualifying(run, source, p), p)
    || (|run| < |h| && PriorPass(h[..|h| - |run| - 1], source, p))
  }

  function VerdictOf(attempts: seq<Attempt>, source: FederationId, now: u64, p: Policy): Verdict {
    if attempts == [] then NeverProbed
    else
      var h := ByTime(attempts);
      var window := Window(h, now, p);
      if window == [] then (if exists a :: a in h && Qualifies(a, source, p) then Expired else NeverProbed)
      else
        var suffix := SuccessSuffix(window);
        if suffix == [] then (if PriorPass(h[..|h| - 1], source, p) then FailedSinceLastPass else FailedVerdict)
        else if SlicePasses(Qualifying(suffix, source, p), p) then Passed
        else Insufficient
  }

  // ---------------------------------------------------------------- the evidence behind a pass

  function Evidence(h: seq<Attempt>, source: FederationId, now: u64, p: Policy): seq<Attempt> {
    Qualifying(SuccessSuffix(Window(h, now, p)), source, p)
  }

  lemma PassedIsEvidence(attempts: seq<Attempt>, source: FederationId, now: u64, p: Policy)
    ensures VerdictOf(attempts, source, now, p).Passed? <==> SlicePasses(Evidence(ByTime(attempts), source, now, p), p)
  {
  }

  lemma {:induction false} WindowStartAppend(h: seq<Attempt>, z: Attempt, now: u64, p: Policy)
    requires InWindow(z, now, p)
    ensures WindowStart(h + [z], now, p) == WindowStart(h, now, p)
  {
    if h != [] && !InWindow(h[0], now, p) {
      WindowStartAppend(h[1..], z, now, p);
      assert (h + [z])[1..] == h[1..] + [z];
    }
  }

  lemma NothingInWindow(h: seq<Attempt>, now: u64, p: Policy, t: u64)
    requires NoLaterThan(h, t) && SatSub(now, t) > p.ttl
    ensures WindowStart(h, now, p) == |h|
  {
    forall i | 0 <= i < |h|
      ensures !InWindow(h[i], now, p)
    {
      assert h[i] in h;
    }
  }

  lemma SuffixAppend(h: seq<Attempt>, z: Attempt, source: FederationId, p: Policy)
    ensures SuccessSuffix(h + [z]) == if z.ok then SuccessSuffix(h) + [z] else []
    ensures Qualifying(h + [z], source, p) == Qualifying(h, source, p) + (if Qualifies(z, source, p) then [z] else [])
  {
    assert (h + [z])[..|h|] == h;
  }

  /** How one more, latest attempt changes the evidence. */
  lemma EvidenceAppend(h: seq<Attempt>, z: Attempt, source: FederationId, now: u64, p: Policy)
    requires NoLaterThan(h, z.at)
    ensures Evidence(h + [z], source, now, p)
            == if !z.ok || !InWindow(z, now, p) then []
               else Evidence(h, source, now, p) + (if Qualifies(z, source, p) then [z] else [])
  {
    var all := h + [z];
    if InWindow(z, now, p) {
      var k := WindowStart(h, now, p);
      WindowStartAppend(h, z, now, p);
      assert all[k..] == h[k..] + [z];
      SuffixAppend(h[k..], z, source, p);
      SuffixAppend(SuccessSuffix(h[k..]), z, source, p);
    } else {
      NothingInWindow(all, now, p, z.at);
    }
  }

  lemma {:induction false} EvidenceIsChronological(h: seq<Attempt>, source: FederationId, now: u64, p: Policy)
    requires Chronological(h)
    ensures Chronological(Evidence(h, source, now, p))
    ensures forall t :: NoLaterThan(h, t) ==> NoLaterThan(Evidence(h, source, now, p), t)
  {
    if h != [] {
      var n := |h| - 1;
      ChronologicalInit(h);
      assert h == h[..n] + [h[n]];
      EvidenceIsChronological(h[..n], source, now, p);
      EvidenceAppend(h[..n], h[n], source, now, p);
      var q := Evidence(h[..n], source, now, p);
      assert NoLaterThan(q, h[n].at);
      ChronologicalSnoc(q, h[n]);
      forall t | NoLaterThan(h, t)
        ensures NoLaterThan(Evidence(h, source, now, p), t)
      {
        assert NoLaterThan(h[..n], t) && h[n] in h;
      }
    }
  }

  /** A longer chronological slice passes whenever a tail of it does. */
  lemma TailPasses(q: seq<Attempt>, i: nat, k: nat, p: Policy)
    requires Chronological(q) && i <= k <= |q| && SlicePasses(q[k..], p)
    ensures SlicePasses(q[i..], p)
  {
    assert q[i].at <= q[k].at;
  }

  /** Dropping the part of some evidence that has expired by `later`. */
  function Unexpired(q: seq<Attempt>, later: u64, p: Policy): seq<Attempt> {
    q[WindowStart(q, later, p)..]
  }

  lemma UnexpiredAppend(q: seq<Attempt>, z: Attempt, later: u64, p: Policy)
    requires InWindow(z, later, p)
    ensures Unexpired(q + [z], later, p) == Unexpired(q, later, p) + [z]
  {
    WindowStartAppend(q, z, later, p);
  }

  /** A later time or a shorter ttl only narrows the window. */
  ghost predicate Narrows(now: u64, p: Policy, later: u64, p': Policy) {
    p' == p.(ttl := p'.ttl) && forall a: Attempt :: InWindow(a, later, p') ==> InWindow(a, now, p)
  }

  /** With no new attempts, evidence under a narrower window is the wider one's with its expired
      head dropped. */
  lemma {:induction false} EvidenceLater(h: seq<Attempt>, source: FederationId, now: u64, p: Policy,
                                         later: u64, p': Policy)
    requires Chronological(h) && Narrows(now, p, later, p')
    ensures Evidence(h, source, later, p') == Unexpired(Evidence(h, source, now, p), later, p')
  {
    if h != [] {
      var n := |h| - 1;
      var z := h[n];
      ChronologicalInit(h);
      assert h == h[..n] + [z];
      EvidenceAppend(h[..n], z, source, now, p);
      EvidenceAppend(h[..n], z, source, later, p');
      if z.ok && InWindow(z, later, p') {
        EvidenceLater(h[..n], source, now, p, later, p');
        UnexpiredTail(Evidence(h[..n], source, now, p), z, Qualifies(z, source, p), later, p');
      } else if z.ok {
        AllExpired(h, source, now, p, later, p');
      }
    }
  }

  lemma UnexpiredTail(q: seq<Attempt>, z: Attempt, kept: bool, later: u64, p: Policy)
    requires InWindow(z, later, p)
    ensures Unexpired(q + (if kept then [z] else []), later, p)
            == Unexpired(q, later, p) + (if kept then [z] else [])
  {
    if kept {
      UnexpiredAppend(q, z, later, p);
    } else {
      assert q + [] == q;
    }
  }

  lemma AllExpired(h: seq<Attempt>, source: FederationId, now: u64, p: Policy, later: u64, p': Policy)
    requires Chronological(h) && h != [] && !InWindow(h[|h| - 1], later, p')
    ensures Unexpired(Evidence(h, source, now, p), later, p') == []
  {
    ChronologicalInit(h);
    assert NoLaterThan(h, h[|h| - 1].at);
    EvidenceIsChronological(h, source, now, p);
    NothingInWindow(Evidence(h, source, now, p), later, p', h[|h| - 1].at);
  }

  // ---------------------------------------------------------------- the expiry anchor

  /** The group of equal times whose expiry first breaks the pass. */
  ghost predicate IsAnchor(q: seq<Attempt>, index: nat, next: nat, p: Policy) {
    && index < next <= |q|
    && (forall i :: index <= i < next ==> q[i].at == q[index].at)
    && SlicePasses(q[index..], p) && !SlicePasses(q[next..], p)
  }

  ghost predicate AnchorAt(q: seq<Attempt>, at: u64, p: Policy) {
    exists i: nat, j: nat :: IsAnchor(q, i, j, p) && q[i].at == at
  }

  lemma AnchorDecides(q: seq<Attempt>, at: u64, later: u64, p: Policy)
    requires Chronological(q) && AnchorAt(q, at, p)
    ensures SlicePasses(Unexpired(q, later, p), p) <==> later <= at + p.ttl
  {
    var index: nat, next: nat :| IsAnchor(q, index, next, p) && q[index].at == at;
    var k := WindowStart(q, later, p);
    if later <= at + p.ttl {
      assert InWindow(q[index], later, p);
      TailPasses(q, k, index, p);
    } else {
      forall i | 0 <= i < next
        ensures !InWindow(q[i], later, p)
      {
        assert q[i].at <= q[next - 1].at || i == next - 1;
      }
      assert next <= k;
      if SlicePasses(q[k..], p) {
        TailPasses(q, next, k, p);
      }
    }
  }

  /** Scanning the qualifying evidence, one group of equal times at a time. */
  method FindAnchor(q: seq<Attempt>, p: Policy) returns (anchor: Option<u64>)
    requires Chronological(q)
    ensures anchor.Some? <==> SlicePasses(q, p)
    ensures anchor.Some? ==> AnchorAt(q, anchor.value, p)
  {
    anchor := None;
    if !SlicePasses(q, p) {
      return;
    }
    assert q[0..] == q;
    var index := 0;
    while index < |q| && anchor.None?
      invariant index <= |q|
      invariant anchor.None? ==> SlicePasses(q[index..], p)
      invariant anchor.Some? ==> AnchorAt(q, anchor.value, p)
      decreases |q| - index, anchor.None?
    {
      var next := index + 1;
      while next < |q| && q[next].at == q[index].at
        invariant index < next <= |q|
        invariant forall i :: index <= i < next ==> q[i].at == q[index].at
      {
        next := next + 1;
      }
      if !SlicePasses(q[next..], p) {
        anchor := Some(q[index].at);
        assert IsAnchor(q, index, next, p);
      } else {
        index := next;
      }
    }
  }

  /** The pass-expiry anchor exists exactly when the verdict is a pass, and then, for every later
      time with no new attempt, the verdict is still a pass exactly up to anchor plus ttl. */
  method PassExpiryAnchor(attempts: seq<Attempt>, source: FederationId, now: u64, p: Policy)
    returns (anchor: Option<u64>)
    ensures anchor.Some? <==> VerdictOf(attempts, source, now, p).Passed?
    ensures anchor.Some? ==> forall later: u64 :: now <= later ==>
              (VerdictOf(attempts, source, later, p).Passed? <==> later <= anchor.value + p.ttl)
  {
    var h := ByTime(attempts);
    ByTimeIsChronological(attempts);
    var q := Evidence(h, source, now, p);
    EvidenceIsChronological(h, source, now, p);
    PassedIsEvidence(attempts, source, now, p);
    anchor := FindAnchor(q, p);
    forall later: u64 | now <= later && anchor.Some?
      ensures VerdictOf(attempts, source, later, p).Passed? <==> later <= anchor.value + p.ttl
    {
      AnchorTells(attempts, source, now, later, p, anchor.value);
    }
  }

  lemma AnchorTells(attempts: seq<Attempt>, source: FederationId, now: u64, later: u64, p: Policy, at: u64)
    requires now <= later && AnchorAt(Evidence(ByTime(attempts), source, now, p), at, p)
    ensures VerdictOf(attempts, source, later, p).Passed? <==> later <= at + p.ttl
  {
    var h := ByTime(attempts);
    ByTimeIsChronological(attempts);
    EvidenceIsChronological(h, source, now, p);
    EvidenceLater(h, source, now, p, later, p);
    AnchorDecides(Evidence(h, source, now, p), at, later, p);
    PassedIsEvidence(attempts, source, later, p);
  }

  // ---------------------------------------------------------------- what a pass means

  /** A success from the probing federation, of at least the policy's amount, within its fee cap. */
  predicate IsProof(a: Attempt, source: FederationId, p: Policy) {
    a.ok && a.from == source && p.amount <= a.amount && a.legFeeCap <= p.legFeeCap
  }

  predicate IsRecent(a: Attempt, now: u64, p: Policy) {
    now <= a.at + p.ttl
  }

  /** Attempt `i` counts: it is a recent proof, and no failure follows it. */
  ghost predicate Counts(h: seq<Attempt>, i: nat, source: FederationId, now: u64, p: Policy) {
    i < |h| && IsProof(h[i], source, p) && IsRecent(h[i], now, p) && forall j :: i < j < |h| ==> h[j].ok
  }

  ghost function Counted(h: seq<Attempt>, source: FederationId, now: u64, p: Policy): set<nat> {
    set i: nat | i < |h| && Counts(h, i, source, now, p)
  }

  lemma CountedEmpty(h: seq<Attempt>, z: Attempt, source: FederationId, now: u64, p: Policy)
    requires NoLaterThan(h, z.at) && (!z.ok || !InWindow(z, now, p))
    ensures Counted(h + [z], source, now, p) == {}
  {
    var all := h + [z];
    forall i: nat | i < |all|
      ensures !Counts(all, i, source, now, p)
    {
      if i < |h| {
        assert all[i] == h[i] && h[i] in h && all[|h|] == z;
      }
    }
  }

  lemma CountedAppend(h: seq<Attempt>, z: Attempt, source: FederationId, now: u64, p: Policy)
    requires z.ok && InWindow(z, now, p)
    ensures Counted(h + [z], source, now, p)
            == Counted(h, source, now, p) + (if Qualifies(z, source, p) then {|h|} else {})
  {
    var all := h + [z];
    forall i: nat | i < |h|
      ensures Counts(all, i, source, now, p) <==> Counts(h, i, source, now, p)
    {
      if Counts(h, i, source, now, p) {
        forall j | i < j < |all|
          ensures all[j].ok
        {
        }
      }
      if Counts(all, i, source, now, p) {
        forall j | i < j < |h|
          ensures h[j].ok
        {
          assert all[j].ok;
        }
      }
    }
  }

  /** An attempt is among the evidence exactly when it is one of the counted ones. */
  ghost predicate Lists(q: seq<Attempt>, h: seq<Attempt>, c: set<nat>) {
    && |q| == |c|
    && (forall i :: i in c ==> i < |h| && h[i] in q)
    && (forall a :: a in q ==> exists i :: i in c && i < |h| && h[i] == a)
  }

  lemma ListsAppend(q: seq<Attempt>, h: seq<Attempt>, c: set<nat>, z: Attempt, kept: bool)
    requires Lists(q, h, c)
    ensures Lists(q + (if kept then [z] else []), h + [z], c + (if kept then {|h|} else {}))
  {
    var q', h', c' := q + (if kept then [z] else []), h + [z], c + (if kept then {|h|} else {});
    assert |h| !in c;
    forall a | a in q'
      ensures exists i :: i in c' && i < |h'| && h'[i] == a
    {
      if a in q {
        var i :| i in c && i < |h| && h[i] == a;
        assert i in c' && h'[i] == a;
      } else {
        assert |h| in c' && h'[|h|] == a;
      }
    }
    forall i | i in c'
      ensures i < |h'| && h'[i] in q'
    {
      if i in c {
        assert h[i] in q;
      }
    }
  }

  lemma {:induction false} EvidenceIsCounted(h: seq<Attempt>, source: FederationId, now: u64, p: Policy)
    requires Chronological(h)
    ensures Lists(Evidence(h, source, now, p), h, Counted(h, source, now, p))
  {
    if h != [] {
      var n := |h| - 1;
      var z := h[n];
      ChronologicalInit(h);
      assert h == h[..n] + [z];
      EvidenceAppend(h[..n], z, source, now, p);
      if z.ok && InWindow(z, now, p) {
        EvidenceIsCounted(h[..n], source, now, p);
        CountedAppend(h[..n], z, source, now, p);
        ListsAppend(Evidence(h[..n], source, now, p), h[..n], Counted(h[..n], source, now, p), z, Qualifies(z, source, p));
      } else {
        CountedEmpty(h[..n], z, source, now, p);
      }
    }
  }

  /** Two counted attempts lie at least `span` apart. */
  ghost predicate Spans(h: seq<Attempt>, c: set<nat>, span: u64) {
    exists i, j :: i in c && j in c && i < |h| && j < |h| && h[j].at - h[i].at >= span
  }

  lemma SliceSpans(q: seq<Attempt>, h: seq<Attempt>, c: set<nat>, span: u64)
    requires q != [] && Lists(q, h, c) && q[|q| - 1].at - q[0].at >= span
    ensures Spans(h, c, span)
  {
    var first, last := q[0], q[|q| - 1];
    assert first in q && last in q;
    var i :| i in c && i < |h| && h[i] == first;
    var j :| j in c && j < |h| && h[j] == last;
    assert h[j].at - h[i].at >= span;
  }

  lemma SpanIsSliced(q: seq<Attempt>, h: seq<Attempt>, c: set<nat>, span: u64)
    requires Chronological(q) && Lists(q, h, c) && Spans(h, c, span)
    ensures q != [] && q[|q| - 1].at - q[0].at >= span
  {
    var i, j :| i in c && j in c && i < |h| && j < |h| && h[j].at - h[i].at >= span;
    assert h[i] in q && h[j] in q;
    var x :| 0 <= x < |q| && q[x] == h[i];
    var y :| 0 <= y < |q| && q[y] == h[j];
    assert q[0].at <= q[x].at || x == 0;
    assert q[y].at <= q[|q| - 1].at || y == |q| - 1;
  }

  lemma ListedSpan(q: seq<Attempt>, h: seq<Attempt>, c: set<nat>, p: Policy)
    requires Chronological(q) && Lists(q, h, c)
    ensures SlicePasses(q, p) <==> |c| >= p.minSuccesses && Spans(h, c, p.minSpan)
  {
    if SlicePasses(q, p) {
      SliceSpans(q, h, c, p.minSpan);
    }
    if Spans(h, c, p.minSpan) {
      SpanIsSliced(q, h, c, p.minSpan);
    }
  }

  /** A pass is exactly: enough qualifying in-window successes with no failure after them, two of
      which lie at least the required span apart. */
  lemma PassMeans(attempts: seq<Attempt>, source: FederationId, now: u64, p: Policy)
    ensures var h := ByTime(attempts);
            var c := Counted(h, source, now, p);
            VerdictOf(attempts, source, now, p).Passed? <==> |c| >= p.minSuccesses && Spans(h, c, p.minSpan)
  {
    var h := ByTime(attempts);
    ByTimeIsChronological(attempts);
    EvidenceIsChronological(h, source, now, p);
    EvidenceIsCounted(h, source, now, p);
    PassedIsEvidence(attempts, source, now, p);
    ListedSpan(Evidence(h, source, now, p), h, Counted(h, source, now, p), p);
  }

  // ---------------------------------------------------------------- what the other verdicts mean

  ghost predicate AreProofs(h: seq<Attempt>, c: set<nat>, source: FederationId, p: Policy) {
    forall i :: i in c ==> i < |h| && IsProof(h[i], source, p)
  }

  /** No failure lies between two of them. */
  ghost predicate Unbroken(h: seq<Attempt>, c: set<nat>) {
    forall k, i, j :: 0 <= k < |h| && !h[k].ok && i in c && j in c && i < k ==> j <= k
  }

  ghost predicate AllBelow(c: set<nat>, n: nat) {
    forall i :: i in c ==> i < n
  }

  ghost predicate AllFrom(c: set<nat>, n: nat) {
    forall i :: i in c ==> n <= i
  }

  /** A sustained pass somewhere in the history: enough proofs with no failure between them, two of
      which lie the required span apart. */
  ghost predicate IsSustained(h: seq<Attempt>, c: set<nat>, source: FederationId, p: Policy) {
    AreProofs(h, c, source, p) && Unbroken(h, c) && |c| >= p.minSuccesses && Spans(h, c, p.minSpan)
  }

  ghost predicate WasSustained(h: seq<Attempt>, source: FederationId, p: Policy) {
    exists c :: IsSustained(h, c, source, p)
  }

  /** The proofs after the last failure, whatever their age. */
  ghost function LastRun(h: seq<Attempt>, source: FederationId, p: Policy): set<nat> {
    Counted(h, source, 0, p.(ttl := U64_MAX))
  }

  lemma RunIsEvidence(h: seq<Attempt>, source: FederationId, p: Policy)
    ensures Evidence(h, source, 0, p.(ttl := U64_MAX)) == Qualifying(SuccessSuffix(h), source, p)
  {
    var wide := p.(ttl := U64_MAX);
    assert WindowStart(h, 0, wide) == 0 && h[0..] == h;
    QualifyingIgnoresTtl(SuccessSuffix(h), source, wide, p);
  }

  lemma LastRunDecides(h: seq<Attempt>, source: FederationId, p: Policy)
    requires Chronological(h)
    ensures var c := LastRun(h, source, p);
            SlicePasses(Qualifying(SuccessSuffix(h), source, p), p) <==> |c| >= p.minSuccesses && Spans(h, c, p.minSpan)
  {
    var wide := p.(ttl := U64_MAX);
    EvidenceIsChronological(h, source, 0, wide);
    EvidenceIsCounted(h, source, 0, wide);
    RunIsEvidence(h, source, p);
    ListedSpan(Qualifying(SuccessSuffix(h), source, p), h, LastRun(h, source, p), p);
  }

  lemma LastRunIsSustained(h: seq<Attempt>, source: FederationId, p: Policy)
    requires var c := LastRun(h, source, p); |c| >= p.minSuccesses && Spans(h, c, p.minSpan)
    ensures IsSustained(h, LastRun(h, source, p), source, p)
  {
    var c := LastRun(h, source, p);
    forall i, k | i in c && i < k < |h|
      ensures h[k].ok
    {
      assert Counts(h, i, source, 0, p.(ttl := U64_MAX));
    }
  }

  lemma {:induction false} SuffixIsRun(h: seq<Attempt>)
    ensures var n := |h| - |SuccessSuffix(h)|;
            (forall k :: n <= k < |h| ==> h[k].ok) && (0 < n ==> !h[n - 1].ok)
  {
    if h != [] && h[|h| - 1].ok {
      SuffixIsRun(h[..|h| - 1]);
    }
  }

  lemma SubsetIsSmaller(a: set<nat>, b: set<nat>)
    requires a <= b
    ensures |a| <= |b|
  {
    if a != b {
      assert b == a + (b - a);
    }
  }

  ghost predicate AllOkFrom(h: seq<Attempt>, n: nat) {
    forall k :: n <= k < |h| ==> h[k].ok
  }

  lemma SustainedInLastRun(h: seq<Attempt>, c: set<nat>, source: FederationId, p: Policy, n: nat)
    requires IsSustained(h, c, source, p) && AllOkFrom(h, n) && AllFrom(c, n)
    ensures var run := LastRun(h, source, p); |run| >= p.minSuccesses && Spans(h, run, p.minSpan)
  {
    var run := LastRun(h, source, p);
    forall i | i in c
      ensures i in run
    {
      assert Counts(h, i, source, 0, p.(ttl := U64_MAX));
    }
    SubsetIsSmaller(c, run);
    var i, j :| i in c && j in c && i < |h| && j < |h| && h[j].at - h[i].at >= p.minSpan;
    assert i in run && j in run;
  }

  /** A sustained pass does not straddle a failure. */
  lemma SustainedOnOneSide(h: seq<Attempt>, c: set<nat>, source: FederationId, p: Policy, n: nat)
    requires AreProofs(h, c, source, p) && Unbroken(h, c) && n < |h| && !h[n].ok
    ensures AllFrom(c, n + 1) || AllBelow(c, n)
  {
  }

  lemma SustainedInPrefix(h: seq<Attempt>, c: set<nat>, source: FederationId, p: Policy, n: nat)
    requires n <= |h| && AllBelow(c, n)
    ensures IsSustained(h, c, source, p) <==> IsSustained(h[..n], c, source, p)
  {
    assert AreProofs(h, c, source, p) <==> AreProofs(h[..n], c, source, p);
    assert Unbroken(h, c) <==> Unbroken(h[..n], c) by {
      if Unbroken(h, c) {
        forall k, i, j | 0 <= k < n && !h[..n][k].ok && i in c && j in c && i < k
          ensures j <= k
        {
          assert !h[k].ok;
        }
      }
      if Unbroken(h[..n], c) {
        forall k, i, j | 0 <= k < |h| && !h[k].ok && i in c && j in c && i < k
          ensures j <= k
        {
          assert k < n ==> !h[..n][k].ok;
        }
      }
    }
    SpansInPrefix(h, c, p.minSpan, n);
  }

  lemma SpansInPrefix(h: seq<Attempt>, c: set<nat>, span: u64, n: nat)
    requires n <= |h| && AllBelow(c, n)
    ensures Spans(h, c, span) <==> Spans(h[..n], c, span)
  {
    if Spans(h, c, span) {
      var i, j :| i in c && j in c && i < |h| && j < |h| && h[j].at - h[i].at >= span;
      assert h[..n][j].at - h[..n][i].at >= span;
    }
    if Spans(h[..n], c, span) {
      var i, j :| i in c && j in c && i < n && j < n && h[..n][j].at - h[..n][i].at >= span;
      assert h[j].at - h[i].at >= span;
    }
  }

  lemma ChronologicalPrefix(h: seq<Attempt>, n: nat)
    requires Chronological(h) && n <= |h|
    ensures Chronological(h[..n])
  {
  }

  lemma {:induction false} PriorPassIsSustained(h: seq<Attempt>, source: FederationId, p: Policy)
    requires Chronological(h) && PriorPass(h, source, p)
    ensures WasSustained(h, source, p)
    decreases |h|
  {
    LastRunDecides(h, source, p);
    if SlicePasses(Qualifying(SuccessSuffix(h), source, p), p) {
      LastRunIsSustained(h, source, p);
    } else {
      var n := |h| - |SuccessSuffix(h)| - 1;
      ChronologicalPrefix(h, n);
      PriorPassIsSustained(h[..n], source, p);
      var c :| IsSustained(h[..n], c, source, p);
      assert AllBelow(c, n);
      SustainedInPrefix(h, c, source, p, n);
    }
  }

  /** Where a sustained pass lies: in the run after the last failure, or before that failure. */
  lemma SustainedLies(h: seq<Attempt>, c: set<nat>, source: FederationId, p: Policy, n: nat)
    requires IsSustained(h, c, source, p) && n <= |h| && AllOkFrom(h, n) && (0 < n ==> !h[n - 1].ok)
    ensures var run := LastRun(h, source, p);
            || (|run| >= p.minSuccesses && Spans(h, run, p.minSpan))
            || (0 < n && IsSustained(h[..n - 1], c, source, p))
  {
    if 0 < n {
      SustainedOnOneSide(h, c, source, p, n - 1);
    }
    if AllFrom(c, n) {
      SustainedInLastRun(h, c, source, p, n);
    } else {
      SustainedInPrefix(h, c, source, p, n - 1);
    }
  }

  lemma PriorPassEarlier(h: seq<Attempt>, source: FederationId, p: Policy, n: nat)
    requires n == |h| - |SuccessSuffix(h)| && 0 < n && PriorPass(h[..n - 1], source, p)
    ensures PriorPass(h, source, p)
  {
  }

  lemma {:induction false} SustainedIsPriorPass(h: seq<Attempt>, c: set<nat>, source: FederationId, p: Policy)
    requires Chronological(h) && IsSustained(h, c, source, p)
    ensures PriorPass(h, source, p)
    decreases |h|
  {
    var n := |h| - |SuccessSuffix(h)|;
    SuffixIsRun(h);
    LastRunDecides(h, source, p);
    SustainedLies(h, c, source, p, n);
    if !SlicePasses(Qualifying(SuccessSuffix(h), source, p), p) {
      ChronologicalPrefix(h, n - 1);
      SustainedIsPriorPass(h[..n - 1], c, source, p);
      PriorPassEarlier(h, source, p, n);
    }
  }

  /** Looking for a qualifying run between failures finds exactly the sustained passes. */
  lemma PriorPassMeans(h: seq<Attempt>, source: FederationId, p: Policy)
    requires Chronological(h)
    ensures PriorPass(h, source, p) <==> WasSustained(h, source, p)
  {
    if PriorPass(h, source, p) {
      PriorPassIsSustained(h, source, p);
    }
    if c :| IsSustained(h, c, source, p) {
      SustainedIsPriorPass(h, c, source, p);
    }
  }

  lemma {:induction false} WindowIsSuffix(h: seq<Attempt>, now: u64, p: Policy)
    requires Chronological(h)
    ensures Window(h, now, p) != [] <==> h != [] && IsRecent(h[|h| - 1], now, p)
    ensures Window(h, now, p) != [] ==> Window(h, now, p)[|Window(h, now, p)| - 1] == h[|h| - 1]
  {
    var k := WindowStart(h, now, p);
    if k < |h| && k != |h| - 1 {
      assert h[k].at <= h[|h| - 1].at;
    }
  }

  lemma SameMembers(attempts: seq<Attempt>, a: Attempt)
    ensures a in ByTime(attempts) <==> a in attempts
  {
    ByTimePermutes(attempts);
    assert a in ByTime(attempts) <==> a in multiset(ByTime(attempts));
    assert a in attempts <==> a in multiset(attempts);
  }

  /** The verdict by what the newest attempt shows. */
  lemma VerdictByNewest(attempts: seq<Attempt>, source: FederationId, now: u64, p: Policy)
    ensures var h, v := ByTime(attempts), VerdictOf(attempts, source, now, p);
            if h == [] || !IsRecent(h[|h| - 1], now, p)
            then v == if exists a :: a in h && Qualifies(a, source, p) then Expired else NeverProbed
            else if !h[|h| - 1].ok
            then v == if PriorPass(h[..|h| - 1], source, p) then FailedSinceLastPass else FailedVerdict
            else v == Passed || v == Insufficient
  {
    var h := ByTime(attempts);
    ByTimeIsChronological(attempts);
    WindowIsSuffix(h, now, p);
    if attempts != [] {
      SameMembers(attempts, attempts[0]);
    }
  }

  /** Every verdict, by the history in time order: nothing recent and no proof ever, never probed;
      nothing recent but some proof, expired; a recent newest failure, failed, or failed since the last
      pass if a sustained pass precedes it; a recent newest success, passed or insufficient. */
  lemma VerdictMeans(attempts: seq<Attempt>, source: FederationId, now: u64, p: Policy)
    ensures var h, v := ByTime(attempts), VerdictOf(attempts, source, now, p);
            if h == [] || !IsRecent(h[|h| - 1], now, p)
            then v == if exists a :: a in attempts && IsProof(a, source, p) then Expired else NeverProbed
            else if !h[|h| - 1].ok
            then v == if WasSustained(h[..|h| - 1], source, p) then FailedSinceLastPass else FailedVerdict
            else v == Passed || v == Insufficient
  {
    var h := ByTime(attempts);
    VerdictByNewest(attempts, source, now, p);
    forall a
      ensures a in h <==> a in attempts
      ensures IsProof(a, source, p) <==> Qualifies(a, source, p)
    {
      SameMembers(attempts, a);
    }
    if h != [] {
      ByTimeIsChronological(attempts);
      ChronologicalInit(h);
      PriorPassMeans(h[..|h| - 1], source, p);
    }
  }

  // ---------------------------------------------------------------- a failure demotes a pass

  lemma QualifyingIgnoresTtl(h: seq<Attempt>, source: FederationId, p: Policy, p': Policy)
    requires p' == p.(ttl := p'.ttl)
    ensures Qualifying(h, source, p) == Qualifying(h, source, p')
  {
    if h != [] {
      QualifyingIgnoresTtl(h[..|h| - 1], source, p, p');
    }
  }

  /** The whole success run qualifies whenever its in-window part does. */
  lemma PassedRunQualifies(attempts: seq<Attempt>, source: FederationId, now: u64, p: Policy)
    requires VerdictOf(attempts, source, now, p).Passed?
    ensures PriorPass(ByTime(attempts), source, p)
  {
    var h, wide := ByTime(attempts), p.(ttl := U64_MAX);
    var run := Evidence(h, source, now, wide);
    ByTimeIsChronological(attempts);
    EvidenceIsChronological(h, source, now, wide);
    EvidenceLater(h, source, now, wide, now, p);
    PassedIsEvidence(attempts, source, now, p);
    TailPasses(run, 0, WindowStart(run, now, p), p);
    assert run[0..] == run;
    assert WindowStart(h, now, wide) == 0 && h[0..] == h;
    QualifyingIgnoresTtl(SuccessSuffix(h), source, wide, p);
  }

  lemma FailureGoesLast(attempts: seq<Attempt>, f: Attempt)
    requires NoLaterThan(attempts, f.at)
    ensures ByTime(attempts + [f]) == ByTime(attempts) + [f]
  {
    var h := ByTime(attempts);
    ByTimePermutes(attempts);
    assert (attempts + [f])[..|attempts|] == attempts;
    if h != [] {
      assert h[|h| - 1] in multiset(h);
      assert h[|h| - 1] in attempts;
    }
  }

  lemma NewestFailure(attempts: seq<Attempt>, h: seq<Attempt>, f: Attempt, source: FederationId, now: u64, p: Policy)
    requires attempts != [] && ByTime(attempts) == h + [f] && !f.ok && InWindow(f, now, p)
    ensures VerdictOf(attempts, source, now, p)
            == if PriorPass(h, source, p) then FailedSinceLastPass else FailedVerdict
  {
    var all := h + [f];
    WindowStartAppend(h, f, now, p);
    var window := Window(all, now, p);
    assert window[|window| - 1] == f;
    assert all[..|all| - 1] == h;
  }

  /** Recording a failure no earlier than every attempt of a passed history demotes it to
      failed-since-last-pass for as long as the failure is in the window, even when part of the
      success run is already outside it. */
  lemma FailureDemotesPass(attempts: seq<Attempt>, f: Attempt, source: FederationId, now: u64, later: u64, p: Policy)
    requires VerdictOf(attempts, source, now, p).Passed?
    requires !f.ok && NoLaterThan(attempts, f.at) && InWindow(f, later, p)
    ensures VerdictOf(attempts + [f], source, later, p).FailedSinceLastPass?
  {
    FailureGoesLast(attempts, f);
    PassedRunQualifies(attempts, source, now, p);
    NewestFailure(attempts + [f], ByTime(attempts), f, source, later, p);
  }
}

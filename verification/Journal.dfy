/** The in-memory intent journal and the process-local in-flight guard. Each method is proved
    against a function on the stored map, which the concurrent model steps over. */
module Journal {
  import opened Types

  type Store = map<Key, Intent>

  /** Which lifecycle writes may move an intent within its current attempt. */
  predicate TransitionAllowed(current: IntentStatus, next: IntentStatus) {
    match current
    case Pending => true
    case Executing => true
    case Awaiting => next.Awaiting? || next.Done? || next.Failed?
    case Done => next.Done?
    case Failed => next.Failed?
  }

  predicate MayUpsert(m: Store, intent: Intent) {
    intent.key in m ==>
      m[intent.key].attempt == intent.attempt && TransitionAllowed(m[intent.key].status, intent.status)
  }

  function Upserted(m: Store, intent: Intent): Store {
    if MayUpsert(m, intent) then m[intent.key := intent] else m
  }

  predicate MaySetStatus(m: Store, key: Key, attempt: nat, status: IntentStatus) {
    key in m && m[key].attempt == attempt && TransitionAllowed(m[key].status, status)
  }

  function StatusSet(m: Store, key: Key, attempt: nat, status: IntentStatus): Store {
    if MaySetStatus(m, key, attempt, status) then m[key := m[key].(status := status)] else m
  }

  predicate MaySwap(m: Store, key: Key, attempt: nat, expected: IntentStatus, next: IntentStatus) {
    MaySetStatus(m, key, attempt, next) && m[key].status == expected
  }

  /** The single-writer claim; winning `Pending -> Executing` drops an earlier refusal marker. */
  function Swapped(m: Store, key: Key, attempt: nat, expected: IntentStatus, next: IntentStatus): Store {
    if !MaySwap(m, key, attempt, expected, next) then m
    else
      var refusal := if expected.Pending? && next.Executing? then None else m[key].refusal;
      m[key := m[key].(status := next, refusal := refusal)]
  }

  predicate MayReset(m: Store, key: Key, attempt: nat) {
    key in m && m[key].attempt == attempt && m[key].status.Executing?
  }

  function Reset(m: Store, key: Key, attempt: nat, refusal: Option<RefusalEvidence>): Store {
    if MayReset(m, key, attempt) then m[key := m[key].(status := Pending, refusal := refusal)] else m
  }

  // ---------------------------------------------------------------- runs of writes

  datatype Lifecycle =
    | UpsertWrite(intent: Intent)
    | SetWrite(key: Key, attempt: nat, status: IntentStatus)
    | SwapWrite(key: Key, attempt: nat, expected: IntentStatus, next: IntentStatus)
    | ResetWrite(key: Key, attempt: nat, refusal: Option<RefusalEvidence>)

  function Written(m: Store, w: Lifecycle): Store {
    match w
    case UpsertWrite(intent) => Upserted(m, intent)
    case SetWrite(key, attempt, status) => StatusSet(m, key, attempt, status)
    case SwapWrite(key, attempt, expected, next) => Swapped(m, key, attempt, expected, next)
    case ResetWrite(key, attempt, refusal) => Reset(m, key, attempt, refusal)
  }

  function AllWritten(m: Store, ws: seq<Lifecycle>): Store {
    if ws == [] then m else Written(AllWritten(m, ws[..|ws| - 1]), ws[|ws| - 1])
  }

  /** What may follow a status within one attempt, written out: open work may become anything,
      awaiting work may only finish, finished work never changes. */
  predicate MayFollow(before: IntentStatus, after: IntentStatus) {
    || before == Pending || before == Executing || before == after
    || (before == Awaiting && (after == Done || after == Failed))
  }

  /** No run of lifecycle writes loses an intent, changes its attempt or moves its status other
      than that; in particular a terminal attempt is immutable. */
  lemma {:induction false} LifecycleIsFenced(m: Store, ws: seq<Lifecycle>, key: Key)
    requires key in m
    ensures var n := AllWritten(m, ws);
            && key in n && n[key].attempt == m[key].attempt
            && MayFollow(m[key].status, n[key].status)
  {
    if ws != [] {
      LifecycleIsFenced(m, ws[..|ws| - 1], key);
    }
  }

  predicate Reaches(m: Store, ws: seq<Lifecycle>, key: Key, status: IntentStatus) {
    key in AllWritten(m, ws) && AllWritten(m, ws)[key].status == status
  }

  /** And every move it allows is one write away. */
  lemma LifecycleIsComplete(m: Store, key: Key, status: IntentStatus)
    requires key in m
    ensures MayFollow(m[key].status, status) <==>
            exists ws :: Reaches(m, ws, key, status)
  {
    if MayFollow(m[key].status, status) {
      var w := SetWrite(key, m[key].attempt, status);
      assert AllWritten(m, [w]) == Written(m, w) by {
        assert [w][..0] == [];
      }
      assert Reaches(m, [w], key, status);
    } else {
      forall ws
        ensures !Reaches(m, ws, key, status)
      {
        LifecycleIsFenced(m, ws, key);
      }
    }
  }

  /** Every write touches only its own key, and what it leaves there is one of these: the new intent
      as given, the stored one under another status, the claim that drops the refusal marker, or the
      reset that carries the new one. A write under another attempt, or out of order, leaves the
      store as it was. */
  lemma WritesAreExact(m: Store, key: Key, attempt: nat, status: IntentStatus, expected: IntentStatus, intent: Intent,
                       refusal: Option<RefusalEvidence>)
    ensures Upserted(m, intent)
            == if intent.key !in m || (m[intent.key].attempt == intent.attempt
                                       && MayFollow(m[intent.key].status, intent.status))
               then m[intent.key := intent] else m
    ensures StatusSet(m, key, attempt, status)
            == if key in m && m[key].attempt == attempt && MayFollow(m[key].status, status)
               then m[key := m[key].(status := status)] else m
    ensures Swapped(m, key, attempt, Pending, Executing)
            == if key in m && m[key].attempt == attempt && m[key].status == Pending
               then m[key := m[key].(status := Executing, refusal := None)] else m
    ensures Swapped(m, key, attempt, expected, status)
            == if key in m && m[key].attempt == attempt && m[key].status == expected && MayFollow(expected, status)
               then m[key := m[key].(status := status,
                                     refusal := if expected == Pending && status == Executing then None
                                                else m[key].refusal)] else m
    ensures Reset(m, key, attempt, refusal)
            == if key in m && m[key].attempt == attempt && m[key].status == Executing
               then m[key := m[key].(status := Pending, refusal := refusal)] else m
  {
  }

  class MemJournal {
    var intents: Store

    constructor ()
      ensures intents == map[]
    {
      intents := map[];
    }

    method Upsert(intent: Intent) returns (ok: bool)
      modifies this
      ensures ok == MayUpsert(old(intents), intent)
      ensures intents == Upserted(old(intents), intent)
    {
      if intent.key in intents {
        var existing := intents[intent.key];
        if existing.attempt != intent.attempt {
          return false;
        }
        if !TransitionAllowed(existing.status, intent.status) {
          return false;
        }
      }
      intents := intents[intent.key := intent];
      ok := true;
    }

    method Get(key: Key) returns (found: Option<Intent>)
      ensures found.Some? <==> key in intents
      ensures found.Some? ==> found.value == intents[key]
    {
      if key in intents {
        found := Some(intents[key]);
      } else {
        found := None;
      }
    }

    method SetStatus(key: Key, attempt: nat, status: IntentStatus) returns (ok: bool)
      modifies this
      ensures ok == MaySetStatus(old(intents), key, attempt, status)
      ensures intents == StatusSet(old(intents), key, attempt, status)
    {
      if key !in intents {
        return false;
      }
      var intent := intents[key];
      if intent.attempt != attempt || !TransitionAllowed(intent.status, status) {
        return false;
      }
      intents := intents[key := intent.(status := status)];
      ok := true;
    }

    method SetStatusIf(key: Key, attempt: nat, expected: IntentStatus, next: IntentStatus) returns (won: bool)
      modifies this
      ensures won == MaySwap(old(intents), key, attempt, expected, next)
      ensures intents == Swapped(old(intents), key, attempt, expected, next)
    {
      won := false;
      if key in intents {
        var intent := intents[key];
        if intent.attempt == attempt && intent.status == expected && TransitionAllowed(intent.status, next) {
          intent := intent.(status := next);
          if expected.Pending? && next.Executing? {
            intent := intent.(refusal := None);
          }
          intents := intents[key := intent];
          won := true;
        }
      }
    }

    method ResetRetryable(key: Key, attempt: nat, refusal: Option<RefusalEvidence>) returns (ok: bool)
      modifies this
      ensures ok == MayReset(old(intents), key, attempt)
      ensures intents == Reset(old(intents), key, attempt, refusal)
    {
      if key !in intents {
        return false;
      }
      var intent := intents[key];
      if intent.attempt != attempt || !intent.status.Executing? {
        return false;
      }
      intents := intents[key := intent.(status := Pending, refusal := refusal)];
      ok := true;
    }
  }

  /** The process-local set of keys being performed. */
  class InFlightPerforms {
    var keys: set<Key>

    constructor ()
      ensures keys == {}
    {
      keys := {};
    }

    method Claim(key: Key) returns (claimed: bool)
      modifies this
      ensures claimed == (key !in old(keys))
      ensures keys == old(keys) + {key}
    {
      claimed := key !in keys;
      keys := keys + {key};
    }

    method Release(key: Key)
      modifies this
      ensures keys == old(keys) - {key}
    {
      keys := keys - {key};
    }
  }
}

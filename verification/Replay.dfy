/** The artifact-aware reservation view against the move protocol: a source is freed only when
    replay can no longer spend from it. */
module Replay {
  import opened Amounts
  import opened Types
  import opened Reservations
  import opened MoveProtocol
  import opened MoveRun

  predicate IsSendingAction(action: Action) {
    action.Move? || action.Evacuate?
  }

  predicate CouldStillSpend(rec: MoveRecord) {
    NextStep(rec).CreateInvoice? || NextStep(rec).PayInvoice?
  }

  /** The debit the view must keep: the record's own once trusted and invoiced, else the action's. */
  function FullDebit(intent: Intent, records: Records): u64
    requires IsSendingAction(intent.action)
  {
    if HasTrusted(intent, records) && records[intent.key].phase.Invoiced?
    then SatAdd(records[intent.key].amount, records[intent.key].feeCap)
    else SatAdd(intent.action.amount, intent.action.feeCap)
  }

  /** Exactly when a live send's source is freed. */
  lemma SourceIsFreedExactly(intent: Intent, records: Records)
    requires !intent.status.IsTerminal() && IsSendingAction(intent.action)
    ensures var hold := ArtifactView(records)(intent).outbound;
            && (hold.NoHold? <==> HasTrusted(intent, records)
                                  && (records[intent.key].phase.Sending? || records[intent.key].phase.IsTerminal()))
            && (hold.NoHold? ==> !CouldStillSpend(records[intent.key]))
            && (!hold.NoHold? ==> hold == Hold(intent.action.src, FullDebit(intent, records)))
  {
  }

  lemma {:induction false} TermAtMostTotal<T(!new)>(xs: seq<T>, k: nat, f: T -> nat)
    requires k < |xs|
    ensures f(xs[k]) <= Total(xs, f)
  {
    TotalRemove(xs, k, f);
  }

  /** Whenever replay of a stored record could still mint or pay, the projection of any intent
      list holding that intent keeps at least the full debit on its source. */
  lemma ReplayableSourceIsHeld(intents: seq<Intent>, records: Records, k: nat)
    requires k < |intents|
    requires !intents[k].status.IsTerminal() && IsSendingAction(intents[k].action)
    requires intents[k].key in records && CouldStillSpend(records[intents[k].key])
    ensures Project(intents, ArtifactView(records)).Held(Outbound, intents[k].action.src) >= FullDebit(intents[k], records)
  {
    var fed := intents[k].action.src;
    SourceIsFreedExactly(intents[k], records);
    ProjectHolds(intents, ArtifactView(records), Outbound, fed);
    TermAtMostTotal(intents, k, Via(ArtifactView(records), Share(Outbound, fed)));
  }

  /** The stored rows of a run: what the journal serves for this key is the surviving cache. */
  ghost predicate Serves(records: Records, key: Key, cache: Option<MoveRecord>) {
    (key in records <==> cache.Some?) && (cache.Some? ==> records[key] == cache.value)
  }

  /** In every run of an attempt, whatever cache survives it, the source keeps its full debit
      until the send has been committed to the operation log. */
  lemma SourceIsHeldUntilSent(p: MoveParams, steps: seq<Step>, intent: Intent, records: Records)
    requires p.key == intent.key && p.sendRequired
    requires !intent.status.IsTerminal() && IsSendingAction(intent.action)
    requires Serves(records, intent.key, Run(p, steps).cache)
    ensures ArtifactView(records)(intent).outbound.NoHold? ==> |Run(p, steps).log| == 2
    ensures !ArtifactView(records)(intent).outbound.NoHold? ==>
              ArtifactView(records)(intent).outbound == Hold(intent.action.src, FullDebit(intent, records))
  {
    InvHolds(p, steps);
    SourceIsFreedExactly(intent, records);
    if ArtifactView(records)(intent).outbound.NoHold? {
      assert TrueRecord(p, Run(p, steps).log, records[intent.key]);
    }
  }
}

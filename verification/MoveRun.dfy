/** Every run of one move attempt: assemble the record, take the next effect, commit it to the
    operation log, write the cache; crash anywhere, and lose or roll back the cache at any time. */
module MoveRun {
  import opened Amounts
  import opened Types
  import opened MoveProtocol

  /** The driver's in-memory state. `Minted` and `Paid` are the windows after an operation has
      committed and before the driver has noted it on its record. */
  datatype Worker =
    | Idle
    | Working(rec: MoveRecord)
    | Minted(rec: MoveRecord, op: OpArtifact)
    | Paid(rec: MoveRecord, op: OpArtifact)

  /** `log` is this attempt's committed operations, oldest first; `written` is every cache row
      ever persisted, any of which a rollback may bring back. */
  datatype World = World(log: seq<OpArtifact>, cache: Option<MoveRecord>, written: set<MoveRecord>, worker: Worker)

  datatype Step =
    | Begin(visible: seq<OpArtifact>)
    | Resize(amount: u64, feeCap: u64)
    | Quote(receiveFee: Option<u64>, sendFee: Option<u64>)
    | Persist
    | CommitReceive(opId: OperationId, invoice: Invoice, net: u64, feeCap: u64)
    | NoteReceive
    | CommitSend(opId: OperationId)
    | NoteSend
    | Finish(phase: MovePhase, outcome: Option<string>, preimage: Option<nat>)
    | Stop
    | LoseCache
    | RollBackCache(row: MoveRecord)

  /** Backfill invents nothing: every artifact it reports for this attempt was committed. */
  ghost predicate Faithful(p: MoveParams, log: seq<OpArtifact>, visible: seq<OpArtifact>) {
    forall a :: a in visible && a.moveId == p.operationKey ==> a in log
  }

  /** The newest committed leg is reported by backfill or noted in the cache. */
  predicate NewestIsVisible(log: seq<OpArtifact>, visible: seq<OpArtifact>, cache: Option<MoveRecord>) {
    log == []
    || log[|log| - 1] in visible
    || (if log[|log| - 1].leg.SendLeg? then CacheSent(cache) else CacheInvoiced(cache))
  }

  function ReceiveOp(p: MoveParams, step: Step): OpArtifact
    requires step.CommitReceive?
  {
    OpArtifact(p.operationKey, ReceiveLeg, step.opId, step.net, Some(step.feeCap), Some(step.invoice))
  }

  function SendOp(p: MoveParams, step: Step, rec: MoveRecord): OpArtifact
    requires step.CommitSend?
  {
    OpArtifact(p.operationKey, SendLeg, step.opId, rec.amount, Some(rec.feeCap), None)
  }

  predicate MayMint(w: World) {
    w.worker.Working? && NextStep(w.worker.rec).CreateInvoice?
  }

  predicate MayPay(w: World) {
    w.worker.Working? && NextStep(w.worker.rec).PayInvoice?
  }

  ghost function Take(p: MoveParams, w: World, step: Step): World {
    match step
    case Begin(visible) =>
      if w.worker.Idle? && Faithful(p, w.log, visible) && NewestIsVisible(w.log, visible, w.cache)
      then w.(worker := Working(Assembled(p, visible, w.cache))) else w
    case Resize(amount, feeCap) =>
      if MayMint(w) then w.(worker := Working(w.worker.rec.(amount := amount, feeCap := feeCap))) else w
    case Quote(receiveFee, sendFee) =>
      if w.worker.Working?
      then w.(worker := Working(w.worker.rec.(receiveFeeQuoted := receiveFee, sendFeeQuoted := sendFee))) else w
    case Persist =>
      if w.worker.Working? then w.(cache := Some(w.worker.rec), written := w.written + {w.worker.rec}) else w
    case CommitReceive(_, _, _, _) =>
      if MayMint(w)
      then w.(log := w.log + [ReceiveOp(p, step)], worker := Minted(w.worker.rec, ReceiveOp(p, step))) else w
    case NoteReceive =>
      if w.worker.Minted? && w.worker.op.feeCap.Some?
      then w.(worker := Working(w.worker.rec.(
                invoice := w.worker.op.invoice, recvOp := Some(w.worker.op.opId), phase := Invoiced,
                amount := w.worker.op.amount, feeCap := w.worker.op.feeCap.value))) else w
    case CommitSend(_) =>
      if MayPay(w)
      then w.(log := w.log + [SendOp(p, step, w.worker.rec)],
              worker := Paid(w.worker.rec, SendOp(p, step, w.worker.rec))) else w
    case NoteSend =>
      if w.worker.Paid?
      then w.(worker := Working(w.worker.rec.(sendOp := Some(w.worker.op.opId), phase := Sending))) else w
    case Finish(phase, outcome, preimage) =>
      if w.worker.Working? && NextStep(w.worker.rec).AwaitSettle? && phase.IsTerminal()
      then w.(worker := Working(w.worker.rec.(phase := phase, outcome := outcome, preimage := preimage))) else w
    case Stop => w.(worker := Idle)
    case LoseCache => w.(cache := None)
    case RollBackCache(row) => if row in w.written then w.(cache := Some(row)) else w
  }

  ghost function Run(p: MoveParams, steps: seq<Step>): World {
    if steps == [] then World([], None, {}, Idle) else Take(p, Run(p, steps[..|steps| - 1]), steps[|steps| - 1])
  }

  // ---------------------------------------------------------------- invariant

  /** The log is empty, one receive, or one receive followed by one send of a move that sends,
      both committed under the same amount and fee cap. */
  ghost predicate AtMostOnce(p: MoveParams, log: seq<OpArtifact>) {
    && |log| <= 2
    && (1 <= |log| ==> IsReceive(log[0], p.operationKey) && log[0].feeCap.Some?)
    && (|log| == 2 ==>
          && IsSend(log[1], p.operationKey) && p.sendRequired
          && log[1].amount == log[0].amount && log[1].feeCap == log[0].feeCap)
  }

  /** A record names only committed legs, and once it names one it carries the committed sizing. */
  ghost predicate TrueRecord(p: MoveParams, log: seq<OpArtifact>, rec: MoveRecord)
    requires AtMostOnce(p, log)
  {
    && rec.key == p.key && rec.sendRequired == p.sendRequired
    && (rec.invoice.Some? <==> rec.recvOp.Some?)
    && (rec.invoice.Some? ==> 1 <= |log|)
    && (rec.sendOp.Some? ==> |log| == 2)
    && (rec.phase.IsTerminal() && rec.sendRequired ==> rec.sendOp.Some?)
    && (rec.invoice.Some? || rec.sendOp.Some? ==> rec.amount == log[0].amount && Some(rec.feeCap) == log[0].feeCap)
  }

  /** The driver's record knows the newest committed leg. */
  predicate UpToDate(log: seq<OpArtifact>, rec: MoveRecord) {
    (|log| == 1 ==> rec.invoice.Some?) && (|log| == 2 ==> rec.sendOp.Some?)
  }

  ghost predicate WorkerTrue(p: MoveParams, w: World)
    requires AtMostOnce(p, w.log)
  {
    match w.worker
    case Idle => true
    case Working(rec) => TrueRecord(p, w.log, rec) && UpToDate(w.log, rec)
    case Minted(rec, op) => TrueRecord(p, w.log, rec) && w.log == [op] && rec.sendOp.None?
    case Paid(rec, op) => TrueRecord(p, w.log, rec) && |w.log| == 2 && rec.invoice.Some?
  }

  ghost predicate Inv(p: MoveParams, w: World) {
    && AtMostOnce(p, w.log)
    && (forall rec :: rec in w.written ==> TrueRecord(p, w.log, rec))
    && (w.cache.Some? ==> w.cache.value in w.written)
    && WorkerTrue(p, w)
  }

  /** Committing another operation cannot make a true record false. */
  lemma TrueStaysTrue(p: MoveParams, log: seq<OpArtifact>, op: OpArtifact, rec: MoveRecord)
    requires AtMostOnce(p, log) && AtMostOnce(p, log + [op]) && TrueRecord(p, log, rec)
    ensures TrueRecord(p, log + [op], rec)
  {
    assert log != [] ==> (log + [op])[0] == log[0];
  }

  lemma OwnArtifact(p: MoveParams, log: seq<OpArtifact>, visible: seq<OpArtifact>, a: OpArtifact)
    requires AtMostOnce(p, log) && Faithful(p, log, visible) && a in visible && a.moveId == p.operationKey
    ensures a in log && a.amount == log[0].amount && a.feeCap == log[0].feeCap
  {
    var i :| 0 <= i < |log| && log[i] == a;
  }

  /** Assembly from a faithful backfill and a true cache gives a true record. */
  lemma AssembledIsTrue(p: MoveParams, w: World, visible: seq<OpArtifact>)
    requires Inv(p, w) && Faithful(p, w.log, visible)
    ensures TrueRecord(p, w.log, Assembled(p, visible, w.cache))
  {
    var op := p.operationKey;
    var own, capped := First(visible, Owned(op)), First(visible, Capped(op));
    var receive, send := First(visible, Receives(op)), First(visible, Sends(op));
    if own.Some? {
      OwnArtifact(p, w.log, visible, own.value);
      assert Capped(op)(own.value);
      OwnArtifact(p, w.log, visible, capped.value);
    }
    if receive.Some? {
      assert Owned(op)(receive.value);
    }
    if send.Some? {
      assert Owned(op)(send.value);
      OwnArtifact(p, w.log, visible, send.value);
    }
  }

  lemma AssembledIsUpToDate(p: MoveParams, w: World, visible: seq<OpArtifact>)
    requires Inv(p, w) && Faithful(p, w.log, visible) && NewestIsVisible(w.log, visible, w.cache)
    ensures UpToDate(w.log, Assembled(p, visible, w.cache))
  {
    var op := p.operationKey;
    if w.log != [] {
      var newest := w.log[|w.log| - 1];
      if newest in visible {
        assert |w.log| == 1 ==> Receives(op)(newest);
        assert |w.log| == 2 ==> Sends(op)(newest);
      }
    }
  }

  lemma CommitReceiveStep(p: MoveParams, w: World, step: Step)
    requires Inv(p, w) && step.CommitReceive? && MayMint(w)
    ensures Inv(p, Take(p, w, step))
  {
    var op := ReceiveOp(p, step);
    assert w.log == [] && w.log + [op] == [op];
    forall rec | rec in w.written
      ensures TrueRecord(p, w.log + [op], rec)
    {
      TrueStaysTrue(p, w.log, op, rec);
    }
    TrueStaysTrue(p, w.log, op, w.worker.rec);
  }

  lemma CommitSendStep(p: MoveParams, w: World, step: Step)
    requires Inv(p, w) && step.CommitSend? && MayPay(w)
    ensures Inv(p, Take(p, w, step))
  {
    var op := SendOp(p, step, w.worker.rec);
    assert |w.log| == 1;
    forall rec | rec in w.written
      ensures TrueRecord(p, w.log + [op], rec)
    {
      TrueStaysTrue(p, w.log, op, rec);
    }
    TrueStaysTrue(p, w.log, op, w.worker.rec);
  }

  lemma TakeKeepsInv(p: MoveParams, w: World, step: Step)
    requires Inv(p, w)
    ensures Inv(p, Take(p, w, step))
  {
    match step
    case Begin(visible) =>
      if Faithful(p, w.log, visible) && NewestIsVisible(w.log, visible, w.cache) {
        AssembledIsTrue(p, w, visible);
        AssembledIsUpToDate(p, w, visible);
      }
    case CommitReceive(_, _, _, _) =>
      if MayMint(w) {
        CommitReceiveStep(p, w, step);
      }
    case CommitSend(_) =>
      if MayPay(w) {
        CommitSendStep(p, w, step);
      }
    case _ =>
  }

  lemma {:induction false} InvHolds(p: MoveParams, steps: seq<Step>)
    ensures Inv(p, Run(p, steps))
  {
    if steps != [] {
      InvHolds(p, steps[..|steps| - 1]);
      TakeKeepsInv(p, Run(p, steps[..|steps| - 1]), steps[|steps| - 1]);
    }
  }

  // ---------------------------------------------------------------- main results

  /** In every run the attempt commits at most one receive and at most one send, the receive
      first, a receive-only move none, and the send under exactly the amount and fee cap the
      receive was committed under. */
  lemma LegsCommitAtMostOnce(p: MoveParams, steps: seq<Step>)
    ensures AtMostOnce(p, Run(p, steps).log)
  {
    InvHolds(p, steps);
  }

  lemma HiddenReceiveIsReplayed(p: MoveParams, w: World, visible: seq<OpArtifact>)
    requires Inv(p, w) && |w.log| == 1 && Faithful(p, w.log, visible) && !CacheFinished(w.cache)
    ensures NextStep(Assembled(p, visible, w.cache)).CreateInvoice? <==> !NewestIsVisible(w.log, visible, w.cache)
  {
    ReplayIssues(p, visible, w.cache);
    assert ShowsReceive(visible, p.operationKey) <==> w.log[0] in visible;
    assert !ShowsSend(visible, p.operationKey);
  }

  lemma HiddenSendIsReplayed(p: MoveParams, w: World, visible: seq<OpArtifact>)
    requires Inv(p, w) && |w.log| == 2 && Faithful(p, w.log, visible)
    ensures var next := NextStep(Assembled(p, visible, w.cache));
            next.CreateInvoice? || next.PayInvoice? <==> !NewestIsVisible(w.log, visible, w.cache)
  {
    ReplayIssues(p, visible, w.cache);
    assert ShowsSend(visible, p.operationKey) <==> w.log[1] in visible by {
      if a :| a in visible && IsSend(a, p.operationKey) {
        assert a in w.log;
      }
    }
  }

  /** The visibility of the newest leg is exactly what this rests on: with a receive committed
      and no outcome cached, replay mints a second invoice if and only if neither backfill nor
      the cache shows the first. */
  lemma BlindReplayMintsAgain(p: MoveParams, steps: seq<Step>, visible: seq<OpArtifact>)
    requires var w := Run(p, steps); |w.log| == 1 && Faithful(p, w.log, visible) && !CacheFinished(w.cache)
    ensures var w := Run(p, steps);
            NextStep(Assembled(p, visible, w.cache)).CreateInvoice? <==> !NewestIsVisible(w.log, visible, w.cache)
  {
    InvHolds(p, steps);
    HiddenReceiveIsReplayed(p, Run(p, steps), visible);
  }

  /** Likewise for the send: replay acts again exactly when the committed send is hidden. */
  lemma BlindReplayActsAgain(p: MoveParams, steps: seq<Step>, visible: seq<OpArtifact>)
    requires var w := Run(p, steps); |w.log| == 2 && Faithful(p, w.log, visible)
    ensures var w := Run(p, steps);
            var next := NextStep(Assembled(p, visible, w.cache));
            next.CreateInvoice? || next.PayInvoice? <==> !NewestIsVisible(w.log, visible, w.cache)
  {
    InvHolds(p, steps);
    HiddenSendIsReplayed(p, Run(p, steps), visible);
  }

  lemma RunAppend(p: MoveParams, steps: seq<Step>, step: Step)
    ensures Run(p, steps + [step]) == Take(p, Run(p, steps), step)
  {
    assert (steps + [step])[..|steps|] == steps;
  }

  /** Both families are reachable: a crash right after a commit, with the cache never written and
      backfill silent, replays a committed receive and replays past a committed send. */
  lemma HiddenReceiveIsReachable(p: MoveParams, mint: Step) returns (steps: seq<Step>)
    requires mint.CommitReceive?
    ensures var w := Run(p, steps);
            && |w.log| == 1 && Faithful(p, w.log, []) && !CacheFinished(w.cache)
            && NextStep(Assembled(p, [], w.cache)).CreateInvoice?
  {
    ReplayIssues(p, [], None);
    RunAppend(p, [], Begin([]));
    RunAppend(p, [] + [Begin([])], mint);
    RunAppend(p, [] + [Begin([])] + [mint], Stop);
    steps := [] + [Begin([])] + [mint] + [Stop];
  }

  lemma HiddenSendIsReachable(p: MoveParams, mint: Step, pay: Step) returns (steps: seq<Step>)
    requires p.sendRequired && mint.CommitReceive? && pay.CommitSend?
    ensures var w := Run(p, steps);
            && |w.log| == 2 && Faithful(p, w.log, []) && Faithful(p, w.log, [w.log[0]])
            && NextStep(Assembled(p, [], w.cache)).CreateInvoice?
            && NextStep(Assembled(p, [w.log[0]], w.cache)).PayInvoice?
  {
    ReplayIssues(p, [], None);
    RunAppend(p, [], Begin([]));
    RunAppend(p, [] + [Begin([])], mint);
    RunAppend(p, [] + [Begin([])] + [mint], NoteReceive);
    RunAppend(p, [] + [Begin([])] + [mint] + [NoteReceive], pay);
    RunAppend(p, [] + [Begin([])] + [mint] + [NoteReceive] + [pay], Stop);
    steps := [] + [Begin([])] + [mint] + [NoteReceive] + [pay] + [Stop];
    ReplayIssues(p, [ReceiveOp(p, mint)], None);
  }

  /** The runs do what the driver and the world around it can: rows are persisted, lost and brought back,
      and a move that awaits its settlement takes the outcome it is given. */
  lemma RunsAct(p: MoveParams, w: World, phase: MovePhase, outcome: Option<string>, preimage: Option<nat>, row: MoveRecord)
    ensures w.worker.Working? ==>
              var t := Take(p, w, Persist); t.cache == Some(w.worker.rec) && t.written == w.written + {w.worker.rec}
    ensures Take(p, w, LoseCache).cache == None
    ensures row in w.written ==> Take(p, w, RollBackCache(row)).cache == Some(row)
    ensures && w.worker.Working? && NextStep(w.worker.rec) == AwaitSettle
            && (phase == Settled || phase == Refunded || phase == PhaseFailed || phase == Stranded) ==>
              var t := Take(p, w, Finish(phase, outcome, preimage));
              t == w.(worker := Working(w.worker.rec.(phase := phase, outcome := outcome, preimage := preimage)))
    ensures Take(p, w, Stop) == w.(worker := Idle)
  {
  }
}

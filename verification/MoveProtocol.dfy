/** The cross-federation move protocol: rebuilding the derived record from the intent, the
    operation log and the cache, and picking the next effect from it. */
module MoveProtocol {
  import opened Amounts
  import opened Types

  datatype MoveStep = CreateInvoice | PayInvoice | AwaitSettle | StepDone | StepFailed

  datatype Leg = SendLeg | ReceiveLeg

  /** One operation-log entry's contribution to a move. */
  datatype OpArtifact = OpArtifact(
    moveId: Key,
    leg: Leg,
    opId: OperationId,
    amount: u64,
    feeCap: Option<u64>,
    invoice: Option<Invoice>)

  datatype MoveParams = MoveParams(
    key: Key,
    operationKey: Key,
    src: Option<FederationId>,
    dst: FederationId,
    amount: u64,
    feeCap: u64,
    gateway: GatewayUrl,
    sendRequired: bool)

  function NextStep(rec: MoveRecord): MoveStep {
    if rec.phase.Settled? then StepDone
    else if rec.phase.IsTerminal() then StepFailed
    else if rec.invoice.None? && rec.sendOp.None? then CreateInvoice
    else if rec.sendRequired && rec.sendOp.None? then PayInvoice
    else AwaitSettle
  }

  function DerivePhase(cached: Option<MovePhase>, hasInvoice: bool, hasSendOp: bool): MovePhase {
    if cached.Some? && cached.value.IsTerminal() then cached.value
    else if hasSendOp then Sending
    else if hasInvoice then Invoiced
    else Created
  }

  /** What the artifact loop has latched so far. */
  datatype Latched = Latched(
    invoice: Option<Invoice>,
    recvOp: Option<OperationId>,
    sendOp: Option<OperationId>,
    amount: Option<u64>,
    feeCap: Option<u64>)

  const NOTHING_LATCHED := Latched(None, None, None, None, None)

  predicate IsReceive(a: OpArtifact, op: Key) {
    a.moveId == op && a.leg.ReceiveLeg? && a.invoice.Some?
  }

  predicate IsSend(a: OpArtifact, op: Key) {
    a.moveId == op && a.leg.SendLeg?
  }

  /** The first artifact satisfying a test, newest first. */
  function First(artifacts: seq<OpArtifact>, test: OpArtifact -> bool): (r: Option<OpArtifact>)
    ensures r.Some? ==> r.value in artifacts && test(r.value)
    ensures r.None? ==> forall a :: a in artifacts ==> !test(a)
  {
    if artifacts == [] then None
    else if test(artifacts[0]) then Some(artifacts[0])
    else First(artifacts[1..], test)
  }

  function Receives(op: Key): OpArtifact -> bool {
    (a: OpArtifact) => IsReceive(a, op)
  }

  function Sends(op: Key): OpArtifact -> bool {
    (a: OpArtifact) => IsSend(a, op)
  }

  function Owned(op: Key): OpArtifact -> bool {
    (a: OpArtifact) => a.moveId == op
  }

  function Capped(op: Key): OpArtifact -> bool {
    (a: OpArtifact) => a.moveId == op && a.feeCap.Some?
  }

  /** Newest known wins, per field: the first own artifact fixes the amount, the first own
      artifact carrying a cap fixes the cap, and each leg is taken from its first artifact; a
      receive without its invoice is refused entirely. */
  function Latch(artifacts: seq<OpArtifact>, op: Key): Latched {
    var receive, send := First(artifacts, Receives(op)), First(artifacts, Sends(op));
    var own, capped := First(artifacts, Owned(op)), First(artifacts, Capped(op));
    Latched(
      if receive.Some? then receive.value.invoice else None,
      if receive.Some? then Some(receive.value.opId) else None,
      if send.Some? then Some(send.value.opId) else None,
      if own.Some? then Some(own.value.amount) else None,
      if capped.Some? then capped.value.feeCap else None)
  }

  function Merge(params: MoveParams, l: Latched, cached: Option<MoveRecord>): MoveRecord {
    var invoice := l.invoice.Or(if cached.Some? then cached.value.invoice else None);
    var recvOp := l.recvOp.Or(if cached.Some? then cached.value.recvOp else None);
    var sendOp := l.sendOp.Or(if cached.Some? then cached.value.sendOp else None);
    var cachedAmount := if cached.Some? then Some(cached.value.amount) else None;
    var committedCap :=
      if cached.Some? && (cached.value.recvOp.Some? || cached.value.sendOp.Some?) then Some(cached.value.feeCap) else None;
    MoveRecord(
      params.key, params.src, params.dst,
      l.amount.Or(cachedAmount).GetOr(params.amount),
      l.feeCap.Or(committedCap).GetOr(params.feeCap),
      params.gateway, params.sendRequired, invoice, recvOp, sendOp,
      DerivePhase(if cached.Some? then Some(cached.value.phase) else None, invoice.Some?, sendOp.Some?),
      if cached.Some? then cached.value.outcome else None,
      if cached.Some? then cached.value.preimage else None,
      if cached.Some? then cached.value.receiveFeeQuoted else None,
      if cached.Some? then cached.value.sendFeeQuoted else None)
  }

  /** A cache row under another key is ignored. */
  function OwnCache(params: MoveParams, cached: Option<MoveRecord>): Option<MoveRecord> {
    if cached.Some? && cached.value.key == params.key then cached else None
  }

  function Assembled(params: MoveParams, artifacts: seq<OpArtifact>, cached: Option<MoveRecord>): MoveRecord {
    Merge(params, Latch(artifacts, params.operationKey), OwnCache(params, cached))
  }

  lemma {:induction false} FirstAppend(xs: seq<OpArtifact>, a: OpArtifact, test: OpArtifact -> bool)
    ensures First(xs + [a], test) == if First(xs, test).Some? then First(xs, test) else if test(a) then Some(a) else None
  {
    if xs == [] {
      assert xs + [a] == [a];
      assert First([], test) == None;
    } else if !test(xs[0]) {
      FirstAppend(xs[1..], a, test);
      assert (xs + [a])[1..] == xs[1..] + [a];
    }
  }

  lemma LatchAppend(xs: seq<OpArtifact>, a: OpArtifact, op: Key)
    ensures First(xs + [a], Receives(op)) == First(xs, Receives(op)).Or(if IsReceive(a, op) then Some(a) else None)
    ensures First(xs + [a], Sends(op)) == First(xs, Sends(op)).Or(if IsSend(a, op) then Some(a) else None)
    ensures First(xs + [a], Owned(op)) == First(xs, Owned(op)).Or(if a.moveId == op then Some(a) else None)
    ensures First(xs + [a], Capped(op))
            == First(xs, Capped(op)).Or(if a.moveId == op && a.feeCap.Some? then Some(a) else None)
  {
    FirstAppend(xs, a, Receives(op));
    FirstAppend(xs, a, Sends(op));
    FirstAppend(xs, a, Owned(op));
    FirstAppend(xs, a, Capped(op));
  }

  /** The assembly loop, latching first-seen legs, amount and cap in local variables. */
  method AssembleMoveRecord(params: MoveParams, artifacts: seq<OpArtifact>, cached: Option<MoveRecord>)
    returns (rec: MoveRecord)
    ensures rec == Assembled(params, artifacts, cached)
  {
    var invoice: Option<Invoice> := None;
    var recvOp: Option<OperationId> := None;
    var sendOp: Option<OperationId> := None;
    var amount: Option<u64> := None;
    var feeCap: Option<u64> := None;
    for i := 0 to |artifacts|
      invariant Latched(invoice, recvOp, sendOp, amount, feeCap) == Latch(artifacts[..i], params.operationKey)
    {
      var a := artifacts[i];
      assert artifacts[..i + 1] == artifacts[..i] + [a];
      LatchAppend(artifacts[..i], a, params.operationKey);
      if a.moveId == params.operationKey {
        if amount.None? {
          amount := Some(a.amount);
        }
        if feeCap.None? {
          feeCap := a.feeCap;
        }
        if a.leg.ReceiveLeg? {
          if recvOp.None? && a.invoice.Some? {
            recvOp := Some(a.opId);
            invoice := a.invoice;
          }
        } else if sendOp.None? {
          sendOp := Some(a.opId);
        }
      }
    }
    assert artifacts[..|artifacts|] == artifacts;
    rec := Merge(params, Latched(invoice, recvOp, sendOp, amount, feeCap), OwnCache(params, cached));
  }

  // ---------------------------------------------------------------- exactly what is assembled

  /** The first artifact that passes the test. */
  ghost predicate IsFirst(artifacts: seq<OpArtifact>, test: OpArtifact -> bool, a: OpArtifact) {
    exists i :: 0 <= i < |artifacts| && artifacts[i] == a && test(a) && forall j :: 0 <= j < i ==> !test(artifacts[j])
  }

  lemma {:induction false} FirstIsFirst(artifacts: seq<OpArtifact>, test: OpArtifact -> bool)
    ensures var r := First(artifacts, test);
            if r.Some? then IsFirst(artifacts, test, r.value) else forall a :: a in artifacts ==> !test(a)
  {
    if artifacts != [] && !test(artifacts[0]) {
      FirstIsFirst(artifacts[1..], test);
      var r := First(artifacts, test);
      if r.Some? {
        var i :| 0 <= i < |artifacts[1..]| && artifacts[1..][i] == r.value && test(r.value)
                 && forall j :: 0 <= j < i ==> !test(artifacts[1..][j]);
        assert artifacts[i + 1] == r.value;
        forall j | 0 <= j < i + 1
          ensures !test(artifacts[j])
        {
          assert j > 0 ==> artifacts[j] == artifacts[1..][j - 1];
        }
      }
    }
  }

  /** A value is the newest artifact's if any passes the test, else the fallback. */
  ghost predicate NewestOr<T(!new)>(artifacts: seq<OpArtifact>, test: OpArtifact -> bool, of: OpArtifact -> T, fallback: T,
                                    v: T)
  {
    || (exists a :: IsFirst(artifacts, test, a) && v == of(a))
    || ((forall a :: a in artifacts ==> !test(a)) && v == fallback)
  }

  /** Where every field of an assembled record comes from. Each leg is taken from the newest artifact
      of this attempt that shows it, else from the cache under this key; the amount from the newest
      artifact at all, else the cache, else the intent; the fee cap from the newest artifact that
      carries one, else from a cache that shows a leg, else from the intent; the phase from a finished
      cache, else from the legs; and what the log does not carry from the cache. */
  lemma AssembledExactly(p: MoveParams, artifacts: seq<OpArtifact>, cached: Option<MoveRecord>)
    ensures var r, c := Assembled(p, artifacts, cached), if cached.Some? && cached.value.key == p.key then cached else None;
            && r.key == p.key && r.src == p.src && r.dst == p.dst && r.gateway == p.gateway
            && r.sendRequired == p.sendRequired
            && NewestOr(artifacts, (a: OpArtifact) => a.moveId == p.operationKey && a.leg == ReceiveLeg && a.invoice.Some?,
                        (a: OpArtifact) => (a.invoice, Some(a.opId)),
                        if c.Some? then (c.value.invoice, c.value.recvOp) else (None, None),
                        (r.invoice, r.recvOp))
    ensures var r, c := Assembled(p, artifacts, cached), if cached.Some? && cached.value.key == p.key then cached else None;
            && NewestOr(artifacts, (a: OpArtifact) => a.moveId == p.operationKey && a.leg == SendLeg,
                        (a: OpArtifact) => Some(a.opId), if c.Some? then c.value.sendOp else None, r.sendOp)
            && NewestOr(artifacts, (a: OpArtifact) => a.moveId == p.operationKey, (a: OpArtifact) => a.amount,
                        if c.Some? then c.value.amount else p.amount, r.amount)
            && NewestOr(artifacts, (a: OpArtifact) => a.moveId == p.operationKey && a.feeCap.Some?,
                        (a: OpArtifact) => a.feeCap,
                        Some(if c.Some? && (c.value.recvOp.Some? || c.value.sendOp.Some?) then c.value.feeCap else p.feeCap),
                        Some(r.feeCap))
    ensures var r, c := Assembled(p, artifacts, cached), if cached.Some? && cached.value.key == p.key then cached else None;
            && r.phase == (if c.Some? && c.value.phase in {Settled, Refunded, PhaseFailed, Stranded} then c.value.phase
                           else if r.sendOp.Some? then Sending else if r.invoice.Some? then Invoiced else Created)
            && (c.None? ==> r.outcome == None && r.preimage == None && r.receiveFeeQuoted == None && r.sendFeeQuoted == None)
            && (c.Some? ==> && r.outcome == c.value.outcome && r.preimage == c.value.preimage
                            && r.receiveFeeQuoted == c.value.receiveFeeQuoted && r.sendFeeQuoted == c.value.sendFeeQuoted)
  {
    var op := p.operationKey;
    FirstIsFirst(artifacts, Receives(op));
    FirstIsFirst(artifacts, Sends(op));
    FirstIsFirst(artifacts, Owned(op));
    FirstIsFirst(artifacts, Capped(op));
    SameFirst(artifacts, Receives(op), (a: OpArtifact) => a.moveId == op && a.leg == ReceiveLeg && a.invoice.Some?);
    SameFirst(artifacts, Sends(op), (a: OpArtifact) => a.moveId == op && a.leg == SendLeg);
    SameFirst(artifacts, Owned(op), (a: OpArtifact) => a.moveId == op);
    SameFirst(artifacts, Capped(op), (a: OpArtifact) => a.moveId == op && a.feeCap.Some?);
  }

  lemma SameFirst(artifacts: seq<OpArtifact>, f: OpArtifact -> bool, g: OpArtifact -> bool)
    requires forall a :: f(a) == g(a)
    ensures forall a :: IsFirst(artifacts, f, a) <==> IsFirst(artifacts, g, a)
  {
  }

  /** The next effect, in the record's own terms. */
  lemma NextStepExactly(r: MoveRecord)
    ensures NextStep(r) == StepDone <==> r.phase == Settled
    ensures NextStep(r) == StepFailed <==> r.phase == Refunded || r.phase == PhaseFailed || r.phase == Stranded
    ensures var open := r.phase == Created || r.phase == Invoiced || r.phase == Sending;
            && (NextStep(r) == CreateInvoice <==> open && r.invoice.None? && r.sendOp.None?)
            && (NextStep(r) == PayInvoice <==> open && r.invoice.Some? && r.sendRequired && r.sendOp.None?)
            && (NextStep(r) == AwaitSettle <==> open && (r.sendOp.Some? || (r.invoice.Some? && !r.sendRequired)))
  {
  }

  // ---------------------------------------------------------------- when an effect is issued

  ghost predicate ShowsReceive(artifacts: seq<OpArtifact>, op: Key) {
    exists a :: a in artifacts && IsReceive(a, op)
  }

  ghost predicate ShowsSend(artifacts: seq<OpArtifact>, op: Key) {
    exists a :: a in artifacts && IsSend(a, op)
  }

  predicate CacheFinished(c: Option<MoveRecord>) {
    c.Some? && c.value.phase.IsTerminal()
  }

  predicate CacheInvoiced(c: Option<MoveRecord>) {
    c.Some? && c.value.invoice.Some?
  }

  predicate CacheSent(c: Option<MoveRecord>) {
    c.Some? && c.value.sendOp.Some?
  }

  /** Exactly when replay mints an invoice and exactly when it pays: neither the log nor the
      cache may show the leg, and the cache may not record an outcome. */
  lemma ReplayIssues(params: MoveParams, artifacts: seq<OpArtifact>, cached: Option<MoveRecord>)
    ensures var c, op := OwnCache(params, cached), params.operationKey;
            && (NextStep(Assembled(params, artifacts, cached)).CreateInvoice? <==>
                && !CacheFinished(c)
                && !ShowsReceive(artifacts, op) && !CacheInvoiced(c)
                && !ShowsSend(artifacts, op) && !CacheSent(c))
            && (NextStep(Assembled(params, artifacts, cached)).PayInvoice? <==>
                && !CacheFinished(c) && params.sendRequired
                && (ShowsReceive(artifacts, op) || CacheInvoiced(c))
                && !ShowsSend(artifacts, op) && !CacheSent(c))
  {
    var op := params.operationKey;
    var receive, send := First(artifacts, Receives(op)), First(artifacts, Sends(op));
    assert receive.Some? <==> ShowsReceive(artifacts, op) by {
      if a :| a in artifacts && IsReceive(a, op) {
        assert Receives(op)(a);
      }
    }
    assert send.Some? <==> ShowsSend(artifacts, op) by {
      if a :| a in artifacts && IsSend(a, op) {
        assert Sends(op)(a);
      }
    }
  }
}

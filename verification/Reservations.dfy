/** Cross-operation reservations: what live intents hold against each federation, as seen by
    the strict view (user admission) and by the artifact-aware view (allocator planning). */
module Reservations {
  import opened Amounts
  import opened Types

  datatype Side = Outbound | Inbound | TargetCredit

  type Ledger = map<FederationId, u64>

  function Lookup(m: Ledger, fed: FederationId): u64 {
    if fed in m then m[fed] else 0
  }

  function Bump(m: Ledger, fed: FederationId, amount: u64): Ledger {
    m[fed := SatAdd(Lookup(m, fed), amount)]
  }

  datatype Reserved = Reserved(outbound: Ledger, inbound: Ledger, targetCredit: Ledger) {
    function On(side: Side): Ledger {
      match side
      case Outbound => outbound
      case Inbound => inbound
      case TargetCredit => targetCredit
    }

    function Held(side: Side, fed: FederationId): u64 {
      Lookup(On(side), fed)
    }

    /** Pointwise no larger than `other`, on every side of every federation. */
    ghost predicate AtMost(other: Reserved) {
      forall side, fed :: Held(side, fed) <= other.Held(side, fed)
    }
  }

  const NOTHING := Reserved(map[], map[], map[])

  datatype Hold = NoHold | Hold(fed: FederationId, amount: u64)

  /** What one action holds on each side. */
  datatype Footprint = Footprint(outbound: Hold, inbound: Hold, targetCredit: Hold) {
    function On(side: Side): Hold {
      match side
      case Outbound => outbound
      case Inbound => inbound
      case TargetCredit => targetCredit
    }

    predicate Touches(side: Side, fed: FederationId) {
      On(side).Hold? && On(side).fed == fed
    }

    function At(side: Side, fed: FederationId): nat {
      var h := On(side);
      if h.Hold? && h.fed == fed then h.amount else 0
    }
  }

  const NO_FOOTPRINT := Footprint(NoHold, NoHold, NoHold)

  function BumpHold(m: Ledger, h: Hold): Ledger {
    if h.Hold? then Bump(m, h.fed, h.amount) else m
  }

  function Reserve(r: Reserved, f: Footprint): Reserved {
    Reserved(BumpHold(r.outbound, f.outbound), BumpHold(r.inbound, f.inbound),
             BumpHold(r.targetCredit, f.targetCredit))
  }

  /** The strict hold of an action: sends debit amount plus fee cap, arrivals hold cap room,
      and only wallet-delivered arrivals count toward a target. */
  function StrictFootprint(action: Action): Footprint {
    match action
    case Move(src, dst, amount, feeCap, _) =>
      Footprint(Hold(src, SatAdd(amount, feeCap)), Hold(dst, amount), Hold(dst, amount))
    case Evacuate(src, dst, amount, feeCap, _, _) =>
      Footprint(Hold(src, SatAdd(amount, feeCap)), Hold(dst, amount), Hold(dst, amount))
    case DirectInflow(dst, amount, _) => Footprint(NoHold, Hold(dst, amount), NoHold)
    case Receive(dst, amount, _, _, _) => Footprint(NoHold, Hold(dst, amount), NoHold)
    case Pay(src, _, amount, feeCap, _, _) =>
      Footprint(Hold(src, SatAdd(amount, feeCap)), NoHold, NoHold)
    case Join(_, _, _) => NO_FOOTPRINT
    case Recover(_, _) => NO_FOOTPRINT
    case RefuseInflow(_, _, _) => NO_FOOTPRINT
  }

  /** Whether a derived record describes this very action: same direction and sizing. */
  predicate Describes(action: Action, rec: MoveRecord) {
    match action
    case Move(src, dst, amount, feeCap, _) =>
      rec.src == Some(src) && rec.dst == dst && rec.sendRequired && rec.amount == amount && rec.feeCap == feeCap
    case Evacuate(src, dst, amount, feeCap, _, components) =>
      && rec.src == Some(src) && rec.dst == dst && rec.sendRequired
      && 0 < rec.amount <= amount
      && (if components.Some?
          then rec.feeCap == components.value.At(rec.amount) && rec.feeCap <= feeCap
          else rec.feeCap == feeCap)
    case DirectInflow(dst, amount, feeCap) =>
      rec.src.None? && rec.dst == dst && !rec.sendRequired && rec.amount == amount && rec.feeCap == feeCap
    case _ => false
  }

  /** Whether the artifacts a phase needs are present. */
  predicate PhaseIsBacked(rec: MoveRecord) {
    var received := rec.invoice.Some? && rec.recvOp.Some?;
    match rec.phase
    case Created => true
    case Invoiced => received
    case Sending => rec.sendRequired && received && rec.sendOp.Some?
    case Settled => received && (rec.sendRequired ==> rec.sendOp.Some? && rec.preimage.Some?)
    case Stranded => received && (rec.sendRequired ==> rec.sendOp.Some? && rec.preimage.Some?)
    case Refunded => received && (rec.sendRequired ==> rec.sendOp.Some? && rec.preimage.None?)
    case PhaseFailed => received && (rec.sendRequired ==> rec.sendOp.Some? && rec.preimage.None?)
  }

  /** Whether a derived record may weaken the intent's strict reservation. */
  predicate IsTrusted(intent: Intent, rec: MoveRecord) {
    && Describes(intent.action, rec)
    && rec.key == intent.key
    && (intent.action.DirectInflow? ==>
          && rec.sendOp.None? && rec.preimage.None? && rec.sendFeeQuoted.None?
          && !rec.phase.Sending? && !rec.phase.Refunded? && !rec.phase.Stranded?)
    && PhaseIsBacked(rec)
  }

  type Records = map<Key, MoveRecord>

  predicate HasTrusted(intent: Intent, records: Records) {
    intent.key in records && IsTrusted(intent, records[intent.key])
  }

  /** The hold of a live intent in the artifact-aware view. */
  function ArtifactFootprint(intent: Intent, records: Records): Footprint {
    match intent.action
    case Move(src, dst, _, _, _) => SentFootprint(intent, src, dst, records)
    case Evacuate(src, dst, _, _, _, _) => SentFootprint(intent, src, dst, records)
    case DirectInflow(dst, _, _) =>
      if !HasTrusted(intent, records) then StrictFootprint(intent.action)
      else (
        var rec := records[intent.key];
        match rec.phase
        case Created => StrictFootprint(intent.action)
        case Sending => StrictFootprint(intent.action)
        case Invoiced => Footprint(NoHold, Hold(dst, rec.amount), NoHold)
        case _ => NO_FOOTPRINT
      )
    case Pay(_, _, _, _, _, _) =>
      if intent.operationId.Some? then NO_FOOTPRINT else StrictFootprint(intent.action)
    case _ => StrictFootprint(intent.action)
  }

  function SentFootprint(intent: Intent, src: FederationId, dst: FederationId, records: Records): Footprint {
    if !HasTrusted(intent, records) then StrictFootprint(intent.action)
    else (
      var rec := records[intent.key];
      match rec.phase
      case Created => StrictFootprint(intent.action)
      case Invoiced =>
        Footprint(Hold(src, SatAdd(rec.amount, rec.feeCap)), Hold(dst, rec.amount), Hold(dst, rec.amount))
      case Sending => Footprint(NoHold, Hold(dst, rec.amount), Hold(dst, rec.amount))
      case _ => NO_FOOTPRINT
    )
  }

  /** The two views as functions from an intent to its hold; finished intents hold nothing. */
  function StrictView(): Intent -> Footprint {
    (intent: Intent) => if intent.status.IsTerminal() then NO_FOOTPRINT else StrictFootprint(intent.action)
  }

  function ArtifactView(records: Records): Intent -> Footprint {
    (intent: Intent) => if intent.status.IsTerminal() then NO_FOOTPRINT else ArtifactFootprint(intent, records)
  }

  function Map<A, B>(xs: seq<A>, f: A -> B): (ys: seq<B>)
    ensures |ys| == |xs|
    ensures forall i :: 0 <= i < |xs| ==> ys[i] == f(xs[i])
  {
    seq(|xs|, i requires 0 <= i < |xs| => f(xs[i]))
  }

  /** Reserving a run of footprints, left to right, on top of `start`. */
  function Fold(start: Reserved, fs: seq<Footprint>): Reserved {
    if fs == [] then start else Reserve(Fold(start, fs[..|fs| - 1]), fs[|fs| - 1])
  }

  function Project(intents: seq<Intent>, view: Intent -> Footprint): Reserved {
    Fold(NOTHING, Map(intents, view))
  }

  lemma FoldAppend(start: Reserved, fs: seq<Footprint>, f: Footprint)
    ensures Fold(start, fs + [f]) == Reserve(Fold(start, fs), f)
  {
    assert (fs + [f])[..|fs|] == fs;
  }

  lemma ProjectAppend(intents: seq<Intent>, n: nat, view: Intent -> Footprint)
    requires n < |intents|
    ensures Project(intents[..n + 1], view) == Reserve(Project(intents[..n], view), view(intents[n]))
  {
    assert Map(intents[..n + 1], view) == Map(intents[..n], view) + [view(intents[n])];
    FoldAppend(NOTHING, Map(intents[..n], view), view(intents[n]));
  }

  /** The strict projection loop: finished intents are skipped, live ones reserve in full. */
  method ProjectReservations(intents: seq<Intent>) returns (out: Reserved)
    ensures out == Project(intents, StrictView())
    ensures forall fed :: out.Held(Outbound, fed) == Clamp(Total(intents, StrictDebit(fed)))
    ensures forall fed :: out.Held(Inbound, fed) == Clamp(Total(intents, StrictArrival(fed)))
    ensures forall fed :: out.Held(TargetCredit, fed) == Clamp(Total(intents, StrictDelivery(fed)))
  {
    out := NOTHING;
    for i := 0 to |intents|
      invariant out == Project(intents[..i], StrictView())
    {
      ProjectAppend(intents, i, StrictView());
      if !intents[i].status.IsTerminal() {
        out := Reserve(out, StrictFootprint(intents[i].action));
      }
    }
    assert intents[..|intents|] == intents;
    forall fed
      ensures out.Held(Outbound, fed) == Clamp(Total(intents, StrictDebit(fed)))
      ensures out.Held(Inbound, fed) == Clamp(Total(intents, StrictArrival(fed)))
      ensures out.Held(TargetCredit, fed) == Clamp(Total(intents, StrictDelivery(fed)))
    {
      StrictHoldsExactly(intents, fed);
    }
  }

  /** The artifact-aware projection loop. */
  method ProjectAllocatorReservations(intents: seq<Intent>, records: Records) returns (out: Reserved)
    ensures out == Project(intents, ArtifactView(records))
    ensures forall fed :: out.Held(Outbound, fed) == Clamp(Total(intents, ArtifactDebit(fed, records)))
    ensures forall fed :: out.Held(Inbound, fed) == Clamp(Total(intents, ArtifactArrival(fed, records)))
    ensures forall fed :: out.Held(TargetCredit, fed) == Clamp(Total(intents, ArtifactDelivery(fed, records)))
  {
    out := NOTHING;
    for i := 0 to |intents|
      invariant out == Project(intents[..i], ArtifactView(records))
    {
      ProjectAppend(intents, i, ArtifactView(records));
      if !intents[i].status.IsTerminal() {
        out := Reserve(out, ArtifactFootprint(intents[i], records));
      }
    }
    assert intents[..|intents|] == intents;
    forall fed
      ensures out.Held(Outbound, fed) == Clamp(Total(intents, ArtifactDebit(fed, records)))
      ensures out.Held(Inbound, fed) == Clamp(Total(intents, ArtifactArrival(fed, records)))
      ensures out.Held(TargetCredit, fed) == Clamp(Total(intents, ArtifactDelivery(fed, records)))
    {
      ArtifactHoldsExactly(intents, records, fed);
    }
  }

  // ---------------------------------------------------------------- what a fold holds

  function Share(side: Side, fed: FederationId): Footprint -> nat {
    (f: Footprint) => f.At(side, fed)
  }

  lemma ReserveHolds(r: Reserved, f: Footprint, side: Side, fed: FederationId)
    ensures Reserve(r, f).Held(side, fed) == Clamp(r.Held(side, fed) + f.At(side, fed))
  {
  }

  /** Saturated accumulation is the clamped true sum, whatever the order of the adds. */
  lemma {:induction false} FoldHolds(start: Reserved, fs: seq<Footprint>, side: Side, fed: FederationId)
    ensures Fold(start, fs).Held(side, fed) == Clamp(start.Held(side, fed) + Total(fs, Share(side, fed)))
  {
    if fs != [] {
      FoldHolds(start, fs[..|fs| - 1], side, fed);
    }
  }

  ghost predicate Touched(fs: seq<Footprint>, side: Side, fed: FederationId) {
    exists i :: 0 <= i < |fs| && fs[i].Touches(side, fed)
  }

  lemma {:induction false} FoldKeys(start: Reserved, fs: seq<Footprint>, side: Side, fed: FederationId)
    ensures fed in Fold(start, fs).On(side) <==> fed in start.On(side) || Touched(fs, side, fed)
  {
    if fs != [] {
      var n := |fs| - 1;
      FoldKeys(start, fs[..n], side, fed);
      assert Touched(fs[..n], side, fed) ==> Touched(fs, side, fed) by {
        if i :| 0 <= i < n && fs[..n][i].Touches(side, fed) {
          assert fs[i].Touches(side, fed);
        }
      }
      assert Touched(fs, side, fed) ==> Touched(fs[..n], side, fed) || fs[n].Touches(side, fed) by {
        if i :| 0 <= i < |fs| && fs[i].Touches(side, fed) && i != n {
          assert fs[..n][i].Touches(side, fed);
        }
      }
    }
  }

  function Via<A, B>(h: A -> B, c: B -> nat): A -> nat {
    (x: A) => c(h(x))
  }

  lemma {:induction false} TotalOfMap<A(!new), B(!new)>(xs: seq<A>, h: A -> B, c: B -> nat)
    ensures Total(Map(xs, h), c) == Total(xs, Via(h, c))
  {
    if xs != [] {
      var n := |xs| - 1;
      TotalOfMap(xs[..n], h, c);
      assert Map(xs, h)[..n] == Map(xs[..n], h);
    }
  }

  // ---------------------------------------------------------------- a batch of decisions

  function StrictOf(): Decision -> Footprint {
    (d: Decision) => StrictFootprint(d.action)
  }

  function ShareOf(side: Side, fed: FederationId): Decision -> nat {
    (d: Decision) => StrictFootprint(d.action).At(side, fed)
  }

  /** Reserving a batch of decisions strictly, in order, on top of `start`. */
  function FoldBatch(start: Reserved, ds: seq<Decision>): Reserved {
    Fold(start, Map(ds, StrictOf()))
  }

  lemma FoldBatchAppend(start: Reserved, ds: seq<Decision>, d: Decision)
    ensures FoldBatch(start, ds + [d]) == Reserve(FoldBatch(start, ds), StrictFootprint(d.action))
  {
    assert Map(ds + [d], StrictOf()) == Map(ds, StrictOf()) + [StrictFootprint(d.action)];
    FoldAppend(start, Map(ds, StrictOf()), StrictFootprint(d.action));
  }

  lemma {:induction false} FoldBatchHolds(start: Reserved, ds: seq<Decision>, side: Side, fed: FederationId)
    ensures FoldBatch(start, ds).Held(side, fed) == Clamp(start.Held(side, fed) + Total(ds, ShareOf(side, fed)))
  {
    if ds == [] {
    } else {
      var n := |ds| - 1;
      FoldBatchHolds(start, ds[..n], side, fed);
      FoldBatchAppend(start, ds[..n], ds[n]);
      assert ds == ds[..n] + [ds[n]];
      ReserveHolds(FoldBatch(start, ds[..n]), StrictFootprint(ds[n].action), side, fed);
    }
  }

  /** The executable decisions of a list, in order. */
  function Emitted(ds: seq<Decision>): seq<Decision> {
    if ds == [] then []
    else Emitted(ds[..|ds| - 1]) + (if ds[|ds| - 1].action.IsExecutable() then [ds[|ds| - 1]] else [])
  }

  lemma {:induction false} EmittedHas(ds: seq<Decision>, d: Decision)
    requires d in ds && d.action.IsExecutable()
    ensures d in Emitted(ds)
  {
    var n := |ds| - 1;
    if ds[n] != d {
      EmittedHas(ds[..n], d);
    }
  }

  lemma EmittedAppend(ds: seq<Decision>, d: Decision)
    ensures Emitted(ds + [d]) == Emitted(ds) + (if d.action.IsExecutable() then [d] else [])
  {
    assert (ds + [d])[..|ds|] == ds;
  }

  // ---------------------------------------------------------------- what a projection holds

  lemma ProjectHolds(intents: seq<Intent>, view: Intent -> Footprint, side: Side, fed: FederationId)
    ensures Project(intents, view).Held(side, fed) == Clamp(Total(intents, Via(view, Share(side, fed))))
  {
    FoldHolds(NOTHING, Map(intents, view), side, fed);
    TotalOfMap(intents, view, Share(side, fed));
  }

  // ---------------------------------------------------------------- the two views, intent by intent

  predicate IsLive(x: Intent) {
    x.status != Done && x.status != Failed
  }

  /** What a live intent debits from `fed` in full: sends and payments, with their fee cap. */
  function StrictDebit(fed: FederationId): Intent -> nat {
    (x: Intent) =>
      if IsLive(x) && (x.action.Move? || x.action.Evacuate? || x.action.Pay?) && x.action.src == fed
      then Clamp(x.action.amount + x.action.feeCap) else 0
  }

  /** What it may bring to `fed`, from this wallet or from outside. */
  function StrictArrival(fed: FederationId): Intent -> nat {
    (x: Intent) =>
      if IsLive(x) && (x.action.Move? || x.action.Evacuate? || x.action.DirectInflow? || x.action.Receive?)
         && x.action.dst == fed
      then x.action.amount else 0
  }

  /** What this wallet itself delivers to `fed`. */
  function StrictDelivery(fed: FederationId): Intent -> nat {
    (x: Intent) => if IsLive(x) && (x.action.Move? || x.action.Evacuate?) && x.action.dst == fed then x.action.amount else 0
  }

  lemma {:induction false} TotalOfEqual<T(!new)>(xs: seq<T>, f: T -> nat, g: T -> nat)
    requires forall x :: x in xs ==> f(x) == g(x)
    ensures Total(xs, f) == Total(xs, g)
  {
    TotalMonotone(xs, f, g);
    TotalMonotone(xs, g, f);
  }

  /** A projection holds the clamped sum of any term that agrees with the view on that side. */
  lemma ProjectHoldsTerm(intents: seq<Intent>, view: Intent -> Footprint, side: Side, fed: FederationId,
                         term: Intent -> nat)
    requires forall x :: x in intents ==> view(x).At(side, fed) == term(x)
    ensures Project(intents, view).Held(side, fed) == Clamp(Total(intents, term))
  {
    ProjectHolds(intents, view, side, fed);
    TotalOfEqual(intents, Via(view, Share(side, fed)), term);
  }

  lemma StrictHoldsOne(x: Intent, fed: FederationId)
    ensures var f := StrictView()(x);
            && f.At(Outbound, fed) == StrictDebit(fed)(x)
            && f.At(Inbound, fed) == StrictArrival(fed)(x)
            && f.At(TargetCredit, fed) == StrictDelivery(fed)(x)
  {
  }

  /** The strict view of any intents, side by side, in the actions' own terms. */
  lemma StrictHoldsExactly(intents: seq<Intent>, fed: FederationId)
    ensures var r := Project(intents, StrictView());
            && r.Held(Outbound, fed) == Clamp(Total(intents, StrictDebit(fed)))
            && r.Held(Inbound, fed) == Clamp(Total(intents, StrictArrival(fed)))
            && r.Held(TargetCredit, fed) == Clamp(Total(intents, StrictDelivery(fed)))
  {
    var view := StrictView();
    forall x | x in intents
      ensures && view(x).At(Outbound, fed) == StrictDebit(fed)(x)
              && view(x).At(Inbound, fed) == StrictArrival(fed)(x)
              && view(x).At(TargetCredit, fed) == StrictDelivery(fed)(x)
    {
      StrictHoldsOne(x, fed);
    }
    ProjectHoldsTerm(intents, view, Outbound, fed, StrictDebit(fed));
    ProjectHoldsTerm(intents, view, Inbound, fed, StrictArrival(fed));
    ProjectHoldsTerm(intents, view, TargetCredit, fed, StrictDelivery(fed));
  }

  /** Exactly which records are trusted: the intent's own row for its own direction and sizing, with
      every artifact its phase claims. An evacuation may have been resized down under its own cap
      components; a receive-only inflow has no sender side at all. */
  lemma TrustedExactly(x: Intent, rec: MoveRecord)
    ensures IsTrusted(x, rec) <==>
            && rec.key == x.key
            && (|| (&& x.action.Move? && rec.src == Some(x.action.src) && rec.amount == x.action.amount
                    && rec.feeCap == x.action.feeCap && rec.sendRequired)
                || (&& x.action.Evacuate? && rec.src == Some(x.action.src) && 1 <= rec.amount <= x.action.amount
                    && rec.feeCap <= x.action.feeCap && rec.sendRequired
                    && rec.feeCap == (match x.action.components
                                      case Some(c) => Clamp(c.base + rec.amount * c.bps / 10_000)
                                      case None => x.action.feeCap))
                || (&& x.action.DirectInflow? && rec.src == None && rec.amount == x.action.amount
                    && rec.feeCap == x.action.feeCap && !rec.sendRequired
                    && rec.sendOp == None && rec.preimage == None && rec.sendFeeQuoted == None
                    && (rec.phase == Created || rec.phase == Invoiced || rec.phase == Settled || rec.phase == PhaseFailed)))
            && rec.dst == x.action.dst
            && (rec.phase != Created ==> rec.invoice.Some? && rec.recvOp.Some?)
            && (rec.sendRequired && rec.phase != Created && rec.phase != Invoiced ==> rec.sendOp.Some?)
            && (rec.sendRequired && (rec.phase == Settled || rec.phase == Stranded) ==> rec.preimage.Some?)
            && (rec.sendRequired && (rec.phase == Refunded || rec.phase == PhaseFailed) ==> rec.preimage.None?)
  {
  }

  /** The sizing a live move or inflow is held at: its action's until a trusted record shows a receive
      operation, then the record's. */
  function Sized(x: Intent, records: Records): (u64, u64)
    requires x.action.Move? || x.action.Evacuate? || x.action.DirectInflow?
  {
    if HasTrusted(x, records) && records[x.key].phase != Created
    then (records[x.key].amount, records[x.key].feeCap)
    else (x.action.amount, x.action.feeCap)
  }

  predicate ShowsSent(x: Intent, records: Records) {
    HasTrusted(x, records) && (records[x.key].phase == Sending || ShowsOver(x, records))
  }

  predicate ShowsOver(x: Intent, records: Records) {
    && HasTrusted(x, records)
    && var phase := records[x.key].phase;
    phase == Settled || phase == Refunded || phase == PhaseFailed || phase == Stranded
  }

  /** The debit the artifact-aware view keeps: none once the send or payment is known to be out. */
  function ArtifactDebit(fed: FederationId, records: Records): Intent -> nat {
    (x: Intent) =>
      if !IsLive(x) then 0
      else if (x.action.Move? || x.action.Evacuate?) && x.action.src == fed && !ShowsSent(x, records)
      then Clamp(Sized(x, records).0 + Sized(x, records).1)
      else if x.action.Pay? && x.action.src == fed && x.operationId.None?
      then Clamp(x.action.amount + x.action.feeCap)
      else 0
  }

  /** The arrival it keeps: none once the move is known to be over. */
  function ArtifactArrival(fed: FederationId, records: Records): Intent -> nat {
    (x: Intent) =>
      if !IsLive(x) then 0
      else if (x.action.Move? || x.action.Evacuate? || x.action.DirectInflow?) && x.action.dst == fed
              && !ShowsOver(x, records)
      then Sized(x, records).0
      else if x.action.Receive? && x.action.dst == fed then x.action.amount
      else 0
  }

  function ArtifactDelivery(fed: FederationId, records: Records): Intent -> nat {
    (x: Intent) =>
      if IsLive(x) && (x.action.Move? || x.action.Evacuate?) && x.action.dst == fed && !ShowsOver(x, records)
      then Sized(x, records).0 else 0
  }

  lemma ArtifactHoldsOne(x: Intent, records: Records, fed: FederationId)
    ensures var f := ArtifactView(records)(x);
            && f.At(Outbound, fed) == ArtifactDebit(fed, records)(x)
            && f.At(Inbound, fed) == ArtifactArrival(fed, records)(x)
            && f.At(TargetCredit, fed) == ArtifactDelivery(fed, records)(x)
  {
    if x.key in records {
      TrustedExactly(x, records[x.key]);
    }
  }

  /** The artifact-aware view of any intents and records, side by side. */
  lemma ArtifactHoldsExactly(intents: seq<Intent>, records: Records, fed: FederationId)
    ensures var r := Project(intents, ArtifactView(records));
            && r.Held(Outbound, fed) == Clamp(Total(intents, ArtifactDebit(fed, records)))
            && r.Held(Inbound, fed) == Clamp(Total(intents, ArtifactArrival(fed, records)))
            && r.Held(TargetCredit, fed) == Clamp(Total(intents, ArtifactDelivery(fed, records)))
  {
    var view := ArtifactView(records);
    forall x | x in intents
      ensures && view(x).At(Outbound, fed) == ArtifactDebit(fed, records)(x)
              && view(x).At(Inbound, fed) == ArtifactArrival(fed, records)(x)
              && view(x).At(TargetCredit, fed) == ArtifactDelivery(fed, records)(x)
    {
      ArtifactHoldsOne(x, records, fed);
    }
    ProjectHoldsTerm(intents, view, Outbound, fed, ArtifactDebit(fed, records));
    ProjectHoldsTerm(intents, view, Inbound, fed, ArtifactArrival(fed, records));
    ProjectHoldsTerm(intents, view, TargetCredit, fed, ArtifactDelivery(fed, records));
  }

  // ---------------------------------------------------------------- the two views compared

  lemma ArtifactShareAtMostStrict(intent: Intent, records: Records, side: Side, fed: FederationId)
    ensures ArtifactView(records)(intent).At(side, fed) <= StrictView()(intent).At(side, fed)
  {
  }

  /** However malformed the records, the artifact-aware view never holds more than the strict
      one, on any side of any federation. */
  lemma ArtifactViewAtMostStrict(intents: seq<Intent>, records: Records)
    ensures Project(intents, ArtifactView(records)).AtMost(Project(intents, StrictView()))
  {
    forall side, fed
      ensures Project(intents, ArtifactView(records)).Held(side, fed) <= Project(intents, StrictView()).Held(side, fed)
    {
      var f, g := Via(ArtifactView(records), Share(side, fed)), Via(StrictView(), Share(side, fed));
      forall x | x in intents
        ensures f(x) <= g(x)
      {
        ArtifactShareAtMostStrict(x, records, side, fed);
      }
      TotalMonotone(intents, f, g);
      ProjectHolds(intents, ArtifactView(records), side, fed);
      ProjectHolds(intents, StrictView(), side, fed);
    }
  }

  lemma ProjectKeysPermuted(xs: seq<Intent>, ys: seq<Intent>, view: Intent -> Footprint, side: Side, fed: FederationId)
    requires multiset(xs) == multiset(ys)
    requires fed in Project(xs, view).On(side)
    ensures fed in Project(ys, view).On(side)
  {
    FoldKeys(NOTHING, Map(xs, view), side, fed);
    FoldKeys(NOTHING, Map(ys, view), side, fed);
    var i :| 0 <= i < |xs| && Map(xs, view)[i].Touches(side, fed);
    assert xs[i] in multiset(ys);
    var j :| 0 <= j < |ys| && ys[j] == xs[i];
    assert Map(ys, view)[j].Touches(side, fed);
  }

  /** Any projection of the same intents in another order is the same three maps. */
  lemma ProjectionIgnoresOrder(xs: seq<Intent>, ys: seq<Intent>, view: Intent -> Footprint)
    requires multiset(xs) == multiset(ys)
    ensures Project(xs, view) == Project(ys, view)
  {
    forall side: Side
      ensures Project(xs, view).On(side) == Project(ys, view).On(side)
    {
      forall fed: FederationId
        ensures fed in Project(xs, view).On(side) <==> fed in Project(ys, view).On(side)
        ensures Project(xs, view).Held(side, fed) == Project(ys, view).Held(side, fed)
      {
        if fed in Project(xs, view).On(side) {
          ProjectKeysPermuted(xs, ys, view, side, fed);
        }
        if fed in Project(ys, view).On(side) {
          ProjectKeysPermuted(ys, xs, view, side, fed);
        }
        ProjectHolds(xs, view, side, fed);
        ProjectHolds(ys, view, side, fed);
        TotalPermutation(xs, ys, Via(view, Share(side, fed)));
      }
    }
    assert Project(xs, view).On(Outbound) == Project(ys, view).On(Outbound);
    assert Project(xs, view).On(Inbound) == Project(ys, view).On(Inbound);
    assert Project(xs, view).On(TargetCredit) == Project(ys, view).On(TargetCredit);
  }
}

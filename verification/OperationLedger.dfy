/** The append-only operation ledger: one row's transition rule, and what every run of writes
    to a row keeps. */
module OperationLedger {
  import opened Amounts
  import opened Types

  datatype Status = Started | AwaitingRow | Succeeded | FailedRow {
    predicate IsTerminal() {
      Succeeded? || FailedRow?
    }

    function Rank(): nat {
      match this
      case Started => 0
      case AwaitingRow => 1
      case Succeeded => 2
      case FailedRow => 2
    }
  }

  datatype Kind =
    | JoinKind(fed: FederationId)
    | RecoverKind(fed: FederationId)
    | ReceiveKind(fed: FederationId, amountInvoiced: u64, opId: Option<OperationId>, gateway: Option<GatewayUrl>)
    | PayKind(fed: FederationId, invoiceAmount: Option<u64>, paymentHash: Option<nat>, opId: Option<OperationId>,
              gateway: Option<GatewayUrl>)
    | InflowKind(fed: FederationId, amount: u64, recvOp: Option<OperationId>, gateway: Option<GatewayUrl>)
    | MoveKind(src: FederationId, dst: FederationId, amount: u64, sendOp: Option<OperationId>,
               recvOp: Option<OperationId>, gateway: Option<GatewayUrl>, evacuation: bool)
    | RefusalKind(fed: FederationId, populated: bool)
    | ProbeKind(fed: FederationId, src: FederationId, amount: u64, cost: Option<u64>)
    | TickKind(occurrence: Occurrence, decisions: nat, performed: nat, failed: nat)
    | DiscoverKind(source: nat, status: nat, found: nat, passed: nat, rejected: nat)
    | AutoJoinKind(considered: nat, joined: nat, concurrent: nat, weekly: nat, lifetime: nat)
    | ApproveKind(fed: FederationId)

  datatype Fees = Fees(feeCap: Option<u64>, receiveFee: Option<u64>, sendFeeQuoted: Option<u64>)

  datatype Row = Row(
    sequence: nat,
    key: Key,
    kind: Kind,
    actor: Actor,
    reason: ReasonCode,
    status: Status,
    createdAt: u64,
    updatedAt: u64,
    fees: Fees,
    error: Option<string>,
    repaired: bool)

  datatype Update = Update(
    opId: Option<OperationId>,
    gateway: Option<GatewayUrl>,
    invoiceAmount: Option<u64>,
    paymentHash: Option<nat>,
    fees: Option<Fees>,
    feesDefinitive: bool)

  datatype Authority = Authoritative | Repair

  datatype Write = Write(status: Status, now: u64, update: Option<Update>, error: Option<string>, authority: Authority)

  // ---------------------------------------------------------------- the transition

  /** A present value overwrites; an absent one leaves what is known. */
  function Fill<T>(slot: Option<T>, incoming: Option<T>): Option<T> {
    incoming.Or(slot)
  }

  function Enriched(kind: Kind, u: Update): Kind {
    match kind
    case ReceiveKind(fed, amount, opId, gateway) =>
      ReceiveKind(fed, amount, Fill(opId, u.opId), Fill(gateway, u.gateway))
    case PayKind(fed, amount, hash, opId, gateway) =>
      PayKind(fed, Fill(amount, u.invoiceAmount), Fill(hash, u.paymentHash), Fill(opId, u.opId), Fill(gateway, u.gateway))
    case InflowKind(fed, amount, recvOp, gateway) =>
      InflowKind(fed, amount, Fill(recvOp, u.opId), Fill(gateway, u.gateway))
    case MoveKind(src, dst, amount, sendOp, recvOp, gateway, evacuation) =>
      MoveKind(src, dst, amount, sendOp, recvOp, Fill(gateway, u.gateway), evacuation)
    case _ => kind
  }

  function MergedFees(into: Fees, incoming: Fees, definitive: bool): Fees {
    var cap := Fill(into.feeCap, incoming.feeCap);
    if definitive then incoming.(feeCap := cap)
    else Fees(cap, Fill(into.receiveFee, incoming.receiveFee), Fill(into.sendFeeQuoted, incoming.sendFeeQuoted))
  }

  predicate Accepts(row: Row, w: Write) {
    if row.status.IsTerminal() then row.repaired && w.authority.Authoritative?
    else w.status.Rank() >= row.status.Rank()
  }

  function Advanced(row: Row, w: Write): Option<Row> {
    if !Accepts(row, w) then None
    else
      var kind := if w.update.Some? then Enriched(row.kind, w.update.value) else row.kind;
      var fees := if w.update.Some? && w.update.value.fees.Some?
                  then MergedFees(row.fees, w.update.value.fees.value, w.update.value.feesDefinitive) else row.fees;
      var error := if row.status.IsTerminal() || w.status != row.status then w.error else Fill(row.error, w.error);
      Some(row.(status := w.status, updatedAt := w.now, repaired := w.authority.Repair? && w.status.IsTerminal(),
                kind := kind, fees := fees, error := error))
  }

  /** The transition as the code makes it: a copy whose fields are assigned one by one. */
  method Advance(row: Row, w: Write) returns (next: Option<Row>)
    ensures next == Advanced(row, w)
  {
    if row.status.IsTerminal() {
      if !(row.repaired && w.authority.Authoritative?) {
        return None;
      }
    } else if w.status.Rank() < row.status.Rank() {
      return None;
    }
    var r := row;
    r := r.(status := w.status);
    r := r.(updatedAt := w.now);
    r := r.(repaired := w.authority.Repair? && w.status.IsTerminal());
    if w.update.Some? {
      var u := w.update.value;
      r := r.(kind := Enriched(r.kind, u));
      if u.fees.Some? {
        r := r.(fees := MergedFees(r.fees, u.fees.value, u.feesDefinitive));
      }
    }
    if row.status.IsTerminal() || w.status != row.status {
      r := r.(error := w.error);
    } else if w.error.Some? {
      r := r.(error := w.error);
    }
    next := Some(r);
  }

  // ---------------------------------------------------------------- exactly what a write does

  /** A present value is stored; an absent one leaves what was known. */
  predicate Stores<T(==)>(before: Option<T>, incoming: Option<T>, after: Option<T>) {
    if incoming.Some? then after == incoming else after == before
  }

  /** Each kind of row takes from an update exactly the values that belong to it: a receive and an
      inflow their operation and gateway, a payment also its amount and hash, a move its gateway, and
      every other kind nothing. */
  lemma EnrichedExactly(k: Kind, u: Update)
    ensures var n := Enriched(k, u);
            match k
            case ReceiveKind(fed, amount, opId, gateway) =>
              && n.ReceiveKind? && n.fed == fed && n.amountInvoiced == amount
              && Stores(opId, u.opId, n.opId) && Stores(gateway, u.gateway, n.gateway)
            case PayKind(fed, amount, hash, opId, gateway) =>
              && n.PayKind? && n.fed == fed
              && Stores(amount, u.invoiceAmount, n.invoiceAmount) && Stores(hash, u.paymentHash, n.paymentHash)
              && Stores(opId, u.opId, n.opId) && Stores(gateway, u.gateway, n.gateway)
            case InflowKind(fed, amount, recvOp, gateway) =>
              && n.InflowKind? && n.fed == fed && n.amount == amount
              && Stores(recvOp, u.opId, n.recvOp) && Stores(gateway, u.gateway, n.gateway)
            case MoveKind(src, dst, amount, sendOp, recvOp, gateway, evac) =>
              && n.MoveKind? && n.src == src && n.dst == dst && n.amount == amount && n.evacuation == evac
              && n.sendOp == sendOp && n.recvOp == recvOp && Stores(gateway, u.gateway, n.gateway)
            case _ => n == k
  {
  }

  /** Fees are filled in the same way, but a settlement that knows better replaces the two costs. */
  lemma FeesExactly(before: Fees, u: Fees, definitive: bool)
    ensures var n := MergedFees(before, u, definitive);
            && Stores(before.feeCap, u.feeCap, n.feeCap)
            && (definitive ==> n.receiveFee == u.receiveFee && n.sendFeeQuoted == u.sendFeeQuoted)
            && (!definitive ==> Stores(before.receiveFee, u.receiveFee, n.receiveFee)
                                && Stores(before.sendFeeQuoted, u.sendFeeQuoted, n.sendFeeQuoted))
  {
  }

  /** A finished row yields only to an authoritative write over a repair; an unfinished one to anything
      but a step from awaiting back to started. What lands has the write's status and time, is a repair
      exactly when a repair finished it, and carries the write's error, except that a repeated
      unfinished status without one keeps the old. */
  lemma AdvancedExactly(row: Row, w: Write)
    ensures var finished := row.status == Succeeded || row.status == FailedRow;
            Advanced(row, w).None? <==>
            if finished then !(row.repaired && w.authority == Authoritative)
            else row.status == AwaitingRow && w.status == Started
    ensures Advanced(row, w).Some? ==>
              var n := Advanced(row, w).value;
              && n == Row(row.sequence, row.key, n.kind, row.actor, row.reason, w.status, row.createdAt, w.now, n.fees,
                          n.error, w.authority == Repair && (w.status == Succeeded || w.status == FailedRow))
              && (w.update.None? ==> n.kind == row.kind && n.fees == row.fees)
              && (w.update.Some? ==> n.kind == Enriched(row.kind, w.update.value))
              && (w.update.Some? && w.update.value.fees.None? ==> n.fees == row.fees)
              && (w.update.Some? && w.update.value.fees.Some? ==>
                    n.fees == MergedFees(row.fees, w.update.value.fees.value, w.update.value.feesDefinitive))
              && (if w.status == row.status && (row.status == Started || row.status == AwaitingRow)
                  then Stores(row.error, w.error, n.error) else n.error == w.error)
  {
  }

  /** A rejected write leaves the stored row. */
  function Stored(row: Row, w: Write): Row {
    Advanced(row, w).GetOr(row)
  }

  function Run(row: Row, ws: seq<Write>): Row {
    if ws == [] then row else Stored(Run(row, ws[..|ws| - 1]), ws[|ws| - 1])
  }

  // ---------------------------------------------------------------- what a run keeps

  predicate IsFinal(row: Row) {
    row.status.IsTerminal() && !row.repaired
  }

  predicate SameKind(a: Kind, b: Kind) {
    match a
    case JoinKind(_) => b == a
    case RecoverKind(_) => b == a
    case ReceiveKind(fed, amount, _, _) => b.ReceiveKind? && b.fed == fed && b.amountInvoiced == amount
    case PayKind(fed, _, _, _, _) => b.PayKind? && b.fed == fed
    case InflowKind(fed, amount, _, _) => b.InflowKind? && b.fed == fed && b.amount == amount
    case MoveKind(src, dst, amount, sendOp, recvOp, _, evac) =>
      b.MoveKind? && b.src == src && b.dst == dst && b.amount == amount
      && b.sendOp == sendOp && b.recvOp == recvOp && b.evacuation == evac
    case _ => b == a
  }

  predicate Keeps<T>(before: Option<T>, after: Option<T>) {
    before.Some? ==> after.Some?
  }

  /** Nothing known about the operation is forgotten. */
  predicate Remembers(before: Kind, after: Kind) {
    && (before.ReceiveKind? && after.ReceiveKind? ==>
          Keeps(before.opId, after.opId) && Keeps(before.gateway, after.gateway))
    && (before.PayKind? && after.PayKind? ==>
          && Keeps(before.opId, after.opId) && Keeps(before.gateway, after.gateway)
          && Keeps(before.paymentHash, after.paymentHash) && Keeps(before.invoiceAmount, after.invoiceAmount))
    && (before.InflowKind? && after.InflowKind? ==>
          Keeps(before.recvOp, after.recvOp) && Keeps(before.gateway, after.gateway))
    && (before.MoveKind? && after.MoveKind? ==> Keeps(before.gateway, after.gateway))
  }

  predicate SameOperation(before: Row, after: Row) {
    && before.sequence == after.sequence && before.key == after.key && before.actor == after.actor
    && before.reason == after.reason && before.createdAt == after.createdAt
    && SameKind(before.kind, after.kind)
    && Remembers(before.kind, after.kind)
    && Keeps(before.fees.feeCap, after.fees.feeCap)
  }

  /** In every run the row stays the same operation and forgets no handle, hash or fee cap. */
  lemma {:induction false} RunKeepsOperation(row: Row, ws: seq<Write>)
    ensures SameOperation(row, Run(row, ws))
  {
    if ws != [] {
      RunKeepsOperation(row, ws[..|ws| - 1]);
    }
  }

  /** A terminal row that is not a repair is immutable. */
  lemma {:induction false} FinalRowNeverChanges(row: Row, ws: seq<Write>)
    requires IsFinal(row)
    ensures Run(row, ws) == row
  {
    if ws != [] {
      FinalRowNeverChanges(row, ws[..|ws| - 1]);
    }
  }

  /** In every run a repaired row is terminal. */
  lemma {:induction false} RepairedIsTerminal(row: Row, ws: seq<Write>)
    requires row.repaired ==> row.status.IsTerminal()
    ensures Run(row, ws).repaired ==> Run(row, ws).status.IsTerminal()
  {
    if ws != [] {
      RepairedIsTerminal(row, ws[..|ws| - 1]);
    }
  }

  predicate Falls(row: Row, w: Write) {
    Stored(row, w).status.Rank() < row.status.Rank()
  }

  /** Status rank falls only on an authoritative write that consumes a repair. */
  lemma RankFallsOnlyOverRepair(row: Row, w: Write)
    requires Falls(row, w)
    ensures row.repaired && w.authority.Authoritative? && !Stored(row, w).repaired
  {
  }

  function FallCount(row: Row, ws: seq<Write>): nat {
    if ws == [] then 0
    else FallCount(row, ws[..|ws| - 1]) + (if Falls(Run(row, ws[..|ws| - 1]), ws[|ws| - 1]) then 1 else 0)
  }

  function RepairCount(ws: seq<Write>): nat {
    if ws == [] then 0 else RepairCount(ws[..|ws| - 1]) + (if ws[|ws| - 1].authority.Repair? then 1 else 0)
  }

  /** Over a whole run, status falls at most once per repair write, plus once for a repair the
      run started from; without repairs it never falls. */
  lemma {:induction false} FallsArePaidForByRepairs(row: Row, ws: seq<Write>)
    ensures FallCount(row, ws) + (if Run(row, ws).repaired then 1 else 0)
            <= RepairCount(ws) + (if row.repaired then 1 else 0)
  {
    if ws != [] {
      FallsArePaidForByRepairs(row, ws[..|ws| - 1]);
    }
  }

  /** A write that reports an outcome on its own authority. */
  predicate Decides(w: Write) {
    w.authority.Authoritative? && w.status.IsTerminal()
  }

  lemma {:induction false} UndecidedIsNotFinal(row: Row, ws: seq<Write>)
    requires !IsFinal(row) && forall w :: w in ws ==> !Decides(w)
    ensures !IsFinal(Run(row, ws))
  {
    if ws != [] {
      UndecidedIsNotFinal(row, ws[..|ws| - 1]);
      assert ws[|ws| - 1] in ws;
    }
  }

  /** The first authoritative outcome is the outcome: whatever progress writes and repairs come
      before it, and whatever comes after, the row ends with its status, time and error. */
  lemma {:induction false} FirstOutcomeDecides(row: Row, ws: seq<Write>, i: nat)
    requires !IsFinal(row) && i < |ws| && Decides(ws[i]) && forall j :: 0 <= j < i ==> !Decides(ws[j])
    ensures var r := Run(row, ws);
            IsFinal(r) && r.status == ws[i].status && r.updatedAt == ws[i].now && r.error == ws[i].error
  {
    var n := |ws| - 1;
    if i == n {
      UndecidedIsNotFinal(row, ws[..n]);
    } else {
      FirstOutcomeDecides(row, ws[..n], i);
    }
  }

  ghost predicate HonestWrites(ws: seq<Write>) {
    forall w :: w in ws && w.status.Succeeded? ==> w.error.None?
  }

  /** If no write pairs success with an error, no reachable succeeded row carries one. */
  lemma {:induction false} SuccessCarriesNoError(row: Row, ws: seq<Write>)
    requires row.status.Succeeded? ==> row.error.None?
    requires HonestWrites(ws)
    ensures Run(row, ws).status.Succeeded? ==> Run(row, ws).error.None?
  {
    if ws != [] {
      assert ws[|ws| - 1] in ws;
      SuccessCarriesNoError(row, ws[..|ws| - 1]);
    }
  }
}

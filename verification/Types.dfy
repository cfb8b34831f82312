/** The data the wallet's decision and execution core shares. Federation ids are 32-byte
    strings compared lexicographically, so they are modelled by the natural number they spell;
    idempotency keys are modelled by an injective datatype instead of the formatted string. */
module Types {
  import opened Amounts

  datatype Option<+T> = None | Some(value: T) {
    function GetOr(default: T): T {
      if Some? then value else default
    }

    /** The first present of two options. */
    function Or(other: Option<T>): Option<T> {
      if Some? then this else other
    }
  }

  type FederationId = nat
  type Occurrence = nat
  type OperationId = nat
  type GatewayUrl = string
  type Invoice = string
  type Bps = x: int | 0 <= x <= 0xFFFF

  datatype ReasonCode =
    | SpendingBelowTarget
    | StandbyBelowTarget
    | ShutdownNotice
    | Unhealthy
    | OverCap
    | NotProbed
    | LowReputation
    | UneconomicRoute
    | UserInitiated
    | ActiveProbe
    | StandingInstruction

  datatype Key =
    | MoveKey(src: FederationId, dst: FederationId, occurrence: Occurrence)
    | EvacKey(src: FederationId, dst: FederationId, occurrence: Occurrence)
    | RefuseKey(reason: ReasonCode, fed: FederationId, occurrence: Occurrence)
    | SuppressedKey(candidate: Key, reason: ReasonCode)
    | ExternalKey(name: string)

  datatype Actor = User | Agent(occurrence: Occurrence)

  /** An evacuation's fee cap: an absolute base plus basis points of the net delivered. */
  datatype EvacFeeCap = EvacFeeCap(base: u64, bps: Bps) {
    function At(net: u64): u64 {
      Clamp(base + net * bps / 10_000)
    }
  }

  /** `RefuseInflow.populated` records whether the refusal carries any figures; the figures
      themselves are observational and take no part in identity. */
  datatype Action =
    | DirectInflow(dst: FederationId, amount: u64, feeCap: u64)
    | Move(src: FederationId, dst: FederationId, amount: u64, feeCap: u64, gateway: Option<GatewayUrl>)
    | Evacuate(src: FederationId, dst: FederationId, amount: u64, feeCap: u64, gateway: Option<GatewayUrl>,
               components: Option<EvacFeeCap>)
    | Pay(src: FederationId, invoice: Invoice, amount: u64, feeCap: u64, paymentHash: nat,
          gateway: Option<GatewayUrl>)
    | Receive(dst: FederationId, amount: u64, feeCap: u64, nonce: string, gateway: Option<GatewayUrl>)
    | Join(federation: FederationId, invite: string, preexisting: bool)
    | Recover(federation: FederationId, invite: string)
    | RefuseInflow(fed: FederationId, reason: ReasonCode, populated: bool)
  {
    predicate IsExecutable() {
      !RefuseInflow?
    }
  }

  datatype Decision = Decision(action: Action, reason: ReasonCode, occurrence: Occurrence, key: Key)

  datatype IntentStatus = Pending | Executing | Done | Awaiting | Failed {
    /** Terminal for the attempt: no lifecycle write may leave these. */
    predicate IsTerminal() {
      Done? || Failed?
    }
  }

  /** One diagnosis-time quote of an evacuation, over the net it would deliver. */
  datatype QuoteSample = QuoteSample(deliveredNet: u64, totalFee: u64)

  datatype RefusalEvidence = RefusalEvidence(cap: EvacFeeCap, low: QuoteSample, high: QuoteSample)

  datatype Intent = Intent(
    key: Key,
    attempt: nat,
    action: Action,
    status: IntentStatus,
    reason: ReasonCode,
    actor: Actor,
    operationId: Option<OperationId>,
    refusal: Option<RefusalEvidence>)

  function FromDecision(d: Decision, actor: Actor): Intent {
    Intent(d.key, 0, d.action, Pending, d.reason, actor, None, None)
  }

  datatype MovePhase = Created | Invoiced | Sending | Settled | Refunded | PhaseFailed | Stranded {
    predicate IsTerminal() {
      Settled? || Refunded? || PhaseFailed? || Stranded?
    }
  }

  datatype MoveRecord = MoveRecord(
    key: Key,
    src: Option<FederationId>,
    dst: FederationId,
    amount: u64,
    feeCap: u64,
    gateway: GatewayUrl,
    sendRequired: bool,
    invoice: Option<Invoice>,
    recvOp: Option<OperationId>,
    sendOp: Option<OperationId>,
    phase: MovePhase,
    outcome: Option<string>,
    preimage: Option<nat>,
    receiveFeeQuoted: Option<u64>,
    sendFeeQuoted: Option<u64>)
}

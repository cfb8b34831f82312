/** Sizing a receive invoice so the recipient nets a target after the gateway's and the
    federation's fees, both of which grow with the invoice. */
module GrossUp {
  import opened Amounts
  import opened Types

  const UNSOLVABLE_GATEWAY_PPM := 1_000_000

  datatype GatewayFee = GatewayFee(base: u64, ppm: u64) {
    /** Base plus a floored share, the product saturating before the division. */
    function On(amount: u64): u64 {
      SatAdd(base, Clamp(amount * ppm) / 1_000_000)
    }
  }

  type FederationFee = u64 -> u64

  function Contract(g: GatewayFee, invoice: u64): u64 {
    SatSub(invoice, g.On(invoice))
  }

  /** What the recipient nets for an invoice. */
  function Forward(g: GatewayFee, fee: FederationFee, invoice: u64): u64 {
    SatSub(Contract(g, invoice), fee(Contract(g, invoice)))
  }

  datatype Solve = Solve(invoice: u64, contract: u64, receiveQuote: u64) {
    function DeliveredNet(): u64 {
      SatSub(invoice, receiveQuote)
    }
  }

  function PredictedNet(invoice: u64, g: GatewayFee, fee: u64): u64 {
    SatSub(Contract(g, invoice), fee)
  }

  /** The federation fee rises by nothing or by one for each extra unit of contract. */
  ghost predicate RisesSlowly(fee: FederationFee) {
    forall x: u64 :: x < U64_MAX ==> RisesSlowlyAt(fee, x)
  }

  ghost predicate RisesSlowlyAt(fee: FederationFee, x: u64)
    requires x < U64_MAX
  {
    fee(x) <= fee(x + 1) <= fee(x) + 1
  }

  // ---------------------------------------------------------------- the forward map

  lemma FlooredShareSteps(a: nat, b: nat)
    requires b < 1_000_000
    ensures Clamp(a) / 1_000_000 <= Clamp(a + b) / 1_000_000 <= Clamp(a) / 1_000_000 + 1
  {
  }

  lemma GatewayFeeSteps(g: GatewayFee, x: u64)
    requires g.ppm < UNSOLVABLE_GATEWAY_PPM && x < U64_MAX
    ensures g.On(x) <= g.On(x + 1) <= g.On(x) + 1
  {
    assert (x + 1) * g.ppm == x * g.ppm + g.ppm;
    FlooredShareSteps(x * g.ppm, g.ppm);
  }

  lemma ContractSteps(g: GatewayFee, x: u64)
    requires g.ppm < UNSOLVABLE_GATEWAY_PPM && x < U64_MAX
    ensures Contract(g, x + 1) == Contract(g, x) || Contract(g, x + 1) == Contract(g, x) + 1
  {
    GatewayFeeSteps(g, x);
  }

  lemma ForwardSteps(g: GatewayFee, fee: FederationFee, x: u64)
    requires g.ppm < UNSOLVABLE_GATEWAY_PPM && RisesSlowly(fee) && x < U64_MAX
    ensures Forward(g, fee, x) <= Forward(g, fee, x + 1) <= Forward(g, fee, x) + 1
  {
    ContractSteps(g, x);
    var c := Contract(g, x);
    if Contract(g, x + 1) == c + 1 {
      assert RisesSlowlyAt(fee, c);
    }
  }

  lemma {:induction false} ForwardMonotone(g: GatewayFee, fee: FederationFee, x: u64, y: u64)
    requires g.ppm < UNSOLVABLE_GATEWAY_PPM && RisesSlowly(fee) && x <= y
    ensures Forward(g, fee, x) <= Forward(g, fee, y)
    decreases y - x
  {
    if x < y {
      ForwardSteps(g, fee, x);
      ForwardMonotone(g, fee, x + 1, y);
    }
  }

  /** The least invoice reaching a target reaches it exactly. */
  lemma LeastIsExact(g: GatewayFee, fee: FederationFee, net: u64, x: u64)
    requires g.ppm < UNSOLVABLE_GATEWAY_PPM && RisesSlowly(fee)
    requires Forward(g, fee, x) >= net
    requires x > 0 ==> Forward(g, fee, x - 1) < net
    ensures Forward(g, fee, x) == net
  {
    if x > 0 {
      ForwardSteps(g, fee, x - 1);
    }
  }

  // ---------------------------------------------------------------- powers of two

  function Pow2(n: nat): (r: nat)
    ensures r >= 1
  {
    if n == 0 then 1 else 2 * Pow2(n - 1)
  }

  lemma {:induction false} Pow2Sum(m: nat, n: nat)
    ensures Pow2(m + n) == Pow2(m) * Pow2(n)
  {
    if n > 0 {
      Pow2Sum(m, n - 1);
      assert Pow2(m + n) == 2 * Pow2(m + (n - 1));
    }
  }

  lemma {:induction false} Pow2Monotone(m: nat, n: nat)
    requires m <= n
    ensures Pow2(m) <= Pow2(n)
  {
    if m < n {
      Pow2Monotone(m, n - 1);
    }
  }

  lemma Squared(n: nat, v: nat) returns (m: nat)
    requires Pow2(n) == v
    ensures m <= n + n && Pow2(m) == v * v
  {
    m := n + n;
    Pow2Sum(n, n);
  }

  /** Sixty-four bits span a word. */
  lemma WordBits() returns (bits: nat)
    ensures bits <= 64 && Pow2(bits) == U64_MAX + 1
  {
    bits := Squared(1, 2);
    bits := Squared(bits, 4);
    bits := Squared(bits, 16);
    bits := Squared(bits, 0x100);
    bits := Squared(bits, 0x1_0000);
    bits := Squared(bits, 0x1_0000_0000);
  }

  /** Halving a width takes one from its bit budget. */
  lemma HalvingFits(width: nat, bits: nat)
    requires 1 < width <= Pow2(bits)
    ensures 0 < bits && width / 2 <= Pow2(bits - 1) && width - width / 2 <= Pow2(bits - 1)
  {
  }

  // ---------------------------------------------------------------- the search

  /** Doubling to a bracket, for any forward map. */
  method Bracket(net: u64, forward: u64 -> u64) returns (hi: Option<u64>, ghost doublings: nat)
    ensures doublings <= 64
    ensures hi.Some? ==> net <= hi.value && forward(hi.value) >= net
    ensures hi.None? ==> forward(U64_MAX) < net
  {
    var h: u64 := net;
    doublings := 0;
    ghost var bits := WordBits();
    while forward(h) < net
      invariant net <= h && doublings <= 64
      invariant 0 < net ==> h >= Clamp(Pow2(doublings))
      decreases U64_MAX - h
    {
      if h == U64_MAX {
        return None, doublings;
      }
      if bits <= doublings {
        Pow2Monotone(bits, doublings);
      }
      h := Clamp(2 * h);
      doublings := doublings + 1;
    }
    hi := Some(h);
  }

  /** Bisecting the bracket, for any forward map. */
  method Bisect(net: u64, high: u64, forward: u64 -> u64) returns (invoice: u64, ghost bisections: nat)
    requires net <= high && forward(high) >= net
    ensures bisections <= 64
    ensures net <= invoice && forward(invoice) >= net
    ensures invoice > net ==> forward(invoice - 1) < net
  {
    var lo: u64, hi: u64 := net, high;
    bisections := 0;
    ghost var bits := WordBits();
    while hi - lo > 1
      invariant net <= lo <= hi && bisections + bits <= 64
      invariant hi - lo <= Pow2(bits)
      invariant forward(hi) >= net
      invariant lo == net || forward(lo) < net
    {
      HalvingFits(hi - lo, bits);
      var mid := lo + (hi - lo) / 2;
      if forward(mid) >= net {
        hi := mid;
      } else {
        lo := mid;
      }
      bisections, bits := bisections + 1, bits - 1;
    }
    invoice := if forward(lo) >= net then lo else hi;
  }

  // ---------------------------------------------------------------- what an invoice pays for

  /** The gateway's floored share of an invoice, its product held at 64 bits. */
  function Share(ppm: u64, invoice: u64): nat {
    (if invoice * ppm <= U64_MAX then invoice * ppm else U64_MAX) / 1_000_000
  }

  /** The invoice covers the gateway's base and share, the federation's fee on what is left, and the
      net, in unbounded sums. */
  ghost predicate PaysFor(invoice: u64, net: nat, base: u64, ppm: u64, fee: FederationFee) {
    var taken := base + Share(ppm, invoice);
    taken <= invoice && taken + fee(invoice - taken) + net <= invoice
  }

  /** Reaching a positive net is exactly paying for everything. */
  lemma ReachingIsPaying(g: GatewayFee, fee: FederationFee, invoice: u64, net: u64)
    requires 0 < net
    ensures Forward(g, fee, invoice) >= net <==> PaysFor(invoice, net, g.base, g.ppm, fee)
  {
  }

  lemma NetIsExact(g: GatewayFee, fee: FederationFee, invoice: u64, net: u64)
    requires 0 < net == Forward(g, fee, invoice)
    ensures var taken := g.base + Share(g.ppm, invoice);
            taken <= invoice && taken + fee(invoice - taken) + net == invoice
  {
  }

  /** Everything promised of a solve of a positive net. */
  ghost predicate IsSolve(r: Solve, net: u64, g: GatewayFee, fee: FederationFee) {
    && PaysFor(r.invoice, net, g.base, g.ppm, fee)
    && r.contract == r.invoice - g.base - Share(g.ppm, r.invoice)
    && r.receiveQuote == r.invoice - net
    && r.DeliveredNet() == net
    && PredictedNet(r.invoice, g, fee(r.contract)) == r.contract - fee(r.contract) >= net
    && (r.invoice > net ==> !PaysFor(r.invoice - 1, net, g.base, g.ppm, fee))
  }

  /** And, for a slowly rising federation fee: it pays for the net exactly, and nothing smaller does. */
  ghost predicate IsLeastSolve(invoice: u64, net: u64, g: GatewayFee, fee: FederationFee) {
    var taken := g.base + Share(g.ppm, invoice);
    && taken <= invoice && taken + fee(invoice - taken) + net == invoice
    && forall x: u64 :: x < invoice ==> !PaysFor(x, net, g.base, g.ppm, fee)
  }

  lemma FoundIsSolve(net: u64, g: GatewayFee, fee: FederationFee, invoice: u64)
    requires 0 < net <= invoice && Forward(g, fee, invoice) >= net
    requires invoice > net ==> Forward(g, fee, invoice - 1) < net
    ensures IsSolve(Solve(invoice, Contract(g, invoice), SatSub(invoice, net)), net, g, fee)
  {
    ReachingIsPaying(g, fee, invoice, net);
    if invoice > net {
      ReachingIsPaying(g, fee, invoice - 1, net);
    }
  }

  lemma SlowRiseIsLeast(net: u64, g: GatewayFee, fee: FederationFee, invoice: u64)
    requires g.ppm < UNSOLVABLE_GATEWAY_PPM && RisesSlowly(fee)
    requires 0 < net <= invoice && Forward(g, fee, invoice) >= net
    requires invoice > net ==> Forward(g, fee, invoice - 1) < net
    ensures IsLeastSolve(invoice, net, g, fee)
    ensures PaysFor(U64_MAX, net, g.base, g.ppm, fee)
  {
    assert invoice == net ==> Forward(g, fee, invoice - 1) < net;
    LeastIsExact(g, fee, net, invoice);
    NetIsExact(g, fee, invoice, net);
    forall x: u64 | x < invoice
      ensures !PaysFor(x, net, g.base, g.ppm, fee)
    {
      ForwardMonotone(g, fee, x, invoice - 1);
      ReachingIsPaying(g, fee, x, net);
    }
    ForwardMonotone(g, fee, invoice, U64_MAX);
    ReachingIsPaying(g, fee, U64_MAX, net);
  }

  /** The solver. It stops within 64 doublings and 64 bisections. For any federation fee what it
      returns pays for the gateway's base and share, the federation's fee and the whole net, and one
      unit less does not. For a fee that rises slowly it returns the least such invoice, which pays
      exactly, and it gives up exactly at an unsolvable rate or when even the largest invoice does
      not pay. A net of nothing needs no invoice. */
  method Solved(net: u64, g: GatewayFee, fee: FederationFee)
    returns (r: Option<Solve>, ghost doublings: nat, ghost bisections: nat)
    ensures doublings <= 64 && bisections <= 64
    ensures r.Some? && 0 < net ==> IsSolve(r.value, net, g, fee)
    ensures r.Some? && 0 < net && r.value.invoice * g.ppm <= U64_MAX ==>
              net + g.base + r.value.invoice * g.ppm / 1_000_000 + fee(r.value.contract) <= r.value.invoice
    ensures r.Some? && 0 < net && r.value.invoice * g.ppm > U64_MAX ==>
              net + g.base + U64_MAX / 1_000_000 + fee(r.value.contract) <= r.value.invoice
    ensures net == 0 ==> r == if g.ppm < 1_000_000 then Some(Solve(0, 0, 0)) else None
    ensures r.None? ==> g.ppm >= 1_000_000 || !PaysFor(U64_MAX, net, g.base, g.ppm, fee)
    ensures g.ppm >= 1_000_000 ==> r.None?
    ensures RisesSlowly(fee) && r.Some? && 0 < net ==>
              IsLeastSolve(r.value.invoice, net, g, fee) && PaysFor(U64_MAX, net, g.base, g.ppm, fee)
  {
    bisections := 0;
    if g.ppm >= UNSOLVABLE_GATEWAY_PPM {
      return None, 0, 0;
    }
    var forward := (x: u64) => Forward(g, fee, x);
    var high;
    high, doublings := Bracket(net, forward);
    if high.None? {
      ReachingIsPaying(g, fee, U64_MAX, net);
      return None, doublings, 0;
    }
    var invoice;
    invoice, bisections := Bisect(net, high.value, forward);
    r := Some(Solve(invoice, Contract(g, invoice), SatSub(invoice, net)));
    if 0 < net {
      FoundIsSolve(net, g, fee, invoice);
      if RisesSlowly(fee) {
        SlowRiseIsLeast(net, g, fee, invoice);
      }
    }
  }
}

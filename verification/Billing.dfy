/** Entities of the overage-billing protocol, plan table and charge arithmetic. */
module Billing {
  import opened Wrappers

  /** The three metered counters, in the order the reporting service walks them. */
  datatype Category = Traces | TraceEvals | SessionEvals

  const COUNTERS: seq<Category> := [Traces, TraceEvals, SessionEvals]

  datatype Counts = Counts(traces: int, traceEvals: int, sessionEvals: int) {
    function Get(c: Category): int {
      match c
      case Traces => traces
      case TraceEvals => traceEvals
      case SessionEvals => sessionEvals
    }

    function With(c: Category, n: int): (r: Counts)
      ensures forall d: Category :: r.Get(d) == if d == c then n else Get(d)
    {
      match c
      case Traces => this.(traces := n)
      case TraceEvals => this.(traceEvals := n)
      case SessionEvals => this.(sessionEvals := n)
    }
  }

  const ZERO := Counts(0, 0, 0)

  datatype Plan = Hobby | Pro | Startup | Enterprise | Development

  function PayAsYouGo(plan: Plan): bool {
    plan.Pro? || plan.Startup? || plan.Enterprise?
  }

  /** Included units per period; a plan without a configured base counts as zero. */
  function BaseUnits(plan: Plan): Counts {
    match plan
    case Hobby => Counts(100, 100, 10)
    case Pro => Counts(5_000, 5_000, 100)
    case Startup => Counts(50_000, 50_000, 1_000)
    case Enterprise => ZERO
    case Development => ZERO
  }

  const OVERAGE_UNIT_PRICE: real := 0.004

  datatype Pricing = Pricing(unitPrice: real, base: Counts)

  datatype Subscription = Subscription(plan: Plan, customer: Option<string>, stripeSubscription: Option<string>)

  /** What every report of one usage record must agree on. */
  datatype Terms = Terms(pricing: Pricing, customer: string, subscription: Option<string>)

  /** The part of a Stripe request that no delivery step may touch. */
  datatype Charge = Charge(customer: string, subscription: Option<string>, amount: int, units: int,
                           from: int, to: int, report: nat, category: Category)

  /** `pp:report:{report}:{category}`, followed by `:carryover` once per re-keying. */
  datatype Key = Key(report: nat, category: Category, carryovers: nat)

  datatype Request = Request(charge: Charge, invoice: Option<string>, key: Key)

  datatype Status = Pending | Reported | NeedsReview

  datatype Report = Report(usage: nat, terms: Terms, closing: Option<string>, snapshot: Counts,
                           requests: map<Category, Request>, attempted: map<Category, int>,
                           items: map<Category, nat>, status: Status)

  /** `opening` is history only: the reported counts the record started with. */
  datatype Usage = Usage(counters: Counts, reported: Counts, billed: bool, opening: Counts)

  function Max(a: int, b: int): int {
    if a < b then b else a
  }

  function Min(a: int, b: int): int {
    if a < b then a else b
  }

  /** Units beyond the included base. */
  function Over(base: int, n: int): int {
    Max(0, n - base)
  }

  /** Decimal quantisation with ROUND_HALF_UP: ties go away from zero. */
  function HalfUp(x: real): int {
    if x >= 0.0 then (x + 0.5).Floor else -((0.5 - x).Floor)
  }

  /** The charge in cents for a number of units. */
  function Cents(price: real, units: int): int {
    HalfUp(price * units as real * 100.0)
  }

  function Abs(x: real): real {
    if x < 0.0 then -x else x
  }

  /** Half-up rounding is the nearest integer, and of two nearest the one farther from zero. */
  lemma HalfUpIsNearest(x: real, n: int)
    ensures Abs(HalfUp(x) as real - x) <= Abs(n as real - x)
    ensures Abs(HalfUp(x) as real - x) == Abs(n as real - x) ==> Abs(n as real) <= Abs(HalfUp(x) as real)
  {
    var h := HalfUp(x);
    if n <= h - 1 {
      assert n as real <= h as real - 1.0;
    } else if n >= h + 1 {
      assert n as real >= h as real + 1.0;
    }
  }

  lemma ChargeWithinHalfCent(price: real, units: int)
    ensures Abs(Cents(price, units) as real - price * units as real * 100.0) <= 0.5
  {
  }

  /** At the configured price two fifths of a cent per unit are charged, so no tie can occur. */
  lemma ChargeWithinFourTenths(units: int)
    ensures Abs(Cents(OVERAGE_UNIT_PRICE, units) as real - OVERAGE_UNIT_PRICE * units as real * 100.0) <= 0.4
  {
    var q, k := units / 5, units % 5;
    assert units as real == 5.0 * q as real + k as real;
    assert OVERAGE_UNIT_PRICE * units as real * 100.0 == (2 * q) as real + 0.4 * k as real;
    if units >= 0 {
      var f := 0.4 * k as real + 0.5;
      assert OVERAGE_UNIT_PRICE * units as real * 100.0 + 0.5 == (2 * q) as real + f;
      assert ((2 * q) as real + f).Floor == 2 * q + f.Floor;
    } else {
      var f := 0.5 - 0.4 * k as real;
      assert 0.5 - OVERAGE_UNIT_PRICE * units as real * 100.0 == (-2 * q) as real + f;
      assert ((-2 * q) as real + f).Floor == -2 * q + f.Floor;
    }
    assert k == 0 || k == 1 || k == 2 || k == 3 || k == 4;
  }
}

/** One press of "calculate": validate the parsed hammer price, raise the
    out-of-range advisory, look up the buyer's fee, add the fixed charges and
    VAT, and produce the figures shown to the user. */
module Calculator {
  import opened Tariff
  import opened BandLookup

  /** The hammer price after parsing the text field: not a number, or a number. */
  datatype Parsed = NaN | Number(x: real)

  /** The figures of one completed calculation, with the range advisory. */
  datatype Breakdown = Breakdown(
    hammer: real,
    fee: real,
    fixedSum: real,
    totalVat: real,
    total: real,
    warn: bool)

  /** A calculation either stops on invalid input or completes. */
  datatype Outcome = Invalid | Computed(breakdown: Breakdown)

  /** The figures on screen and whether the range warning is visible. */
  datatype Screen = Screen(
    hammer: real,
    fee: real,
    fixedSum: real,
    vat: real,
    total: real,
    warningShown: bool)

  /** Input the calculator refuses: not a number, or negative. */
  predicate IsInvalid(p: Parsed)
  {
    p.NaN? || p.x < 0.0
  }

  /** The advisory range test on a valid price. */
  predicate OutOfRange(val: real)
  {
    val < MinSupported || val > MaxSupported
  }

  /** VAT on the buyer's fee and fixed charges, charged always. */
  function VatOnFees(fee: real, fixedSum: real): real
  {
    (fee + fixedSum) * VatRate
  }

  /** VAT on the hammer price, charged only when the toggle is on. */
  function VatOnHammer(val: real, vatOnHammer: bool): real
  {
    if vatOnHammer then val * VatRate else 0.0
  }

  /** The whole calculation for one parsed price and VAT toggle. */
  function Calculate(p: Parsed, vatOnHammer: bool): (r: Outcome)
    ensures r.Invalid? <==> p.NaN? || p.x < 0.0
    ensures r.Computed? ==> r.breakdown.hammer == p.x
    ensures r.Computed? ==> (r.breakdown.warn <==> p.x < 11.0 || p.x > 24999.0)
    ensures r.Computed? ==> r.breakdown.fee == BuyerFee(p.x) && r.breakdown.fixedSum == 82.67
    ensures r.Computed? ==>
              r.breakdown.total == r.breakdown.hammer + r.breakdown.fee + r.breakdown.fixedSum + r.breakdown.totalVat
  {
    if IsInvalid(p) then Invalid
    else
      var val := p.x;
      var fee := BuyerFee(val);
      var fixedSum := FixedSum();
      var totalVat := VatOnFees(fee, fixedSum) + VatOnHammer(val, vatOnHammer);
      Computed(Breakdown(val, fee, fixedSum, totalVat, val + fee + fixedSum + totalVat, OutOfRange(val)))
  }

  /** The calculation as the page runs it, step by step, with the fee found by
      the scan and fallback. */
  method PerformCalculation(p: Parsed, vatOnHammer: bool) returns (r: Outcome)
    ensures r == Calculate(p, vatOnHammer)
  {
    if p.NaN? || p.x < 0.0 {
      return Invalid;
    }
    var val := p.x;
    var warn := val < MinSupported || val > MaxSupported;
    var fee := LookupBuyerFee(val);
    var fixedSum := Fixed.assured + Fixed.v5 + Fixed.online;
    var vatOnFees := (fee + fixedSum) * VatRate;
    var vatOnHammerAmount := if vatOnHammer then val * VatRate else 0.0;
    var totalVat := vatOnFees + vatOnHammerAmount;
    var totalPayable := val + fee + fixedSum + totalVat;
    r := Computed(Breakdown(val, fee, fixedSum, totalVat, totalPayable, warn));
  }

  /** What the page shows after a calculation: on invalid input only the total
      changes, to 0, and the warning keeps its previous visibility; otherwise
      every figure and the warning come from the breakdown. */
  function Render(before: Screen, r: Outcome): (after: Screen)
    ensures r.Invalid? ==> after == before.(total := 0.0)
    ensures r.Computed? ==>
              after == Screen(r.breakdown.hammer, r.breakdown.fee, r.breakdown.fixedSum,
                              r.breakdown.totalVat, r.breakdown.total, r.breakdown.warn)
  {
    match r
    case Invalid => before.(total := 0.0)
    case Computed(b) => Screen(b.hammer, b.fee, b.fixedSum, b.totalVat, b.total, b.warn)
  }

  /** The grand total in closed form: the price, plus the fees grossed up by
      20% VAT, plus 20% of the price when VAT on the hammer is on. */
  lemma TotalClosedForm(val: real, vatOnHammer: bool)
    requires 0.0 <= val
    ensures Calculate(Number(val), vatOnHammer).Computed?
    ensures Calculate(Number(val), vatOnHammer).breakdown.total
         == (if vatOnHammer then val * 1.2 else val) + (BuyerFee(val) + 82.67) * 1.2
  {
  }

  /** The VAT toggle changes only the VAT and the total, each by exactly 20%
      of the hammer price. */
  lemma VatToggleDifference(val: real)
    requires 0.0 <= val
    ensures Calculate(Number(val), true).Computed? && Calculate(Number(val), false).Computed?
    ensures Calculate(Number(val), true).breakdown.totalVat
          - Calculate(Number(val), false).breakdown.totalVat == val * 0.20
    ensures Calculate(Number(val), true).breakdown.total
          - Calculate(Number(val), false).breakdown.total == val * 0.20
    ensures Calculate(Number(val), true).breakdown.fee == Calculate(Number(val), false).breakdown.fee
  {
  }

  /** VAT on fees is 20% of the fee plus the fixed charges, whatever the toggle. */
  lemma VatOnFeesAlwaysCharged(val: real, vatOnHammer: bool)
    requires 0.0 <= val
    ensures Calculate(Number(val), vatOnHammer).Computed?
    ensures Calculate(Number(val), vatOnHammer).breakdown.totalVat
          - VatOnHammer(val, vatOnHammer) == (BuyerFee(val) + 82.67) * 0.20
  {
  }

  /** Invalid input computes nothing and the page shows a total of 0, leaving
      every other figure and the warning as they were. */
  lemma InvalidShowsZeroTotal(p: Parsed, vatOnHammer: bool, before: Screen)
    requires p.NaN? || p.x < 0.0
    ensures Calculate(p, vatOnHammer) == Invalid
    ensures Render(before, Calculate(p, vatOnHammer)).total == 0.0
    ensures Render(before, Calculate(p, vatOnHammer)).warningShown == before.warningShown
    ensures Render(before, Calculate(p, vatOnHammer)).fee == before.fee
  {
  }

  /** Out-of-range prices still get a full breakdown with the advisory set:
      10 falls in the first band, 25000 matches no band and keeps a fee of 0. */
  lemma OutOfRangeStillComputes()
    ensures Calculate(Number(10.0), false) == Computed(Breakdown(10.0, 45.00, 82.67, 25.534, 163.204, true))
    ensures Calculate(Number(25000.0), false) == Computed(Breakdown(25000.0, 0.0, 82.67, 16.534, 25099.204, true))
  {
    FeeOfInterval(10.0, 0);
    FallbackNeverFires(25000.0);
  }

  /** Fee and total rise with the price across the supported range. */
  lemma TotalMonotoneInRange(v1: real, v2: real, vatOnHammer: bool)
    requires 0.0 <= v1 <= v2 <= MaxSupported
    ensures Calculate(Number(v1), vatOnHammer).Computed? && Calculate(Number(v2), vatOnHammer).Computed?
    ensures Calculate(Number(v1), vatOnHammer).breakdown.total <= Calculate(Number(v2), vatOnHammer).breakdown.total
  {
    FeeMonotoneInRange(v1, v2);
  }
}

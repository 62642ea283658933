/**
 * The solar-savings calculator shown on the home page and in the hero
 * section: a monthly bill chosen on a range slider and four figures derived
 * from it. The JavaScript number expressions are evaluated here on exact
 * rationals, in the source's own left-to-right order.
 */
module SavingsEstimator {
  import opened Wrappers
  import opened Rounding

  /** The slider starts at a bill of $142 and runs from $50 to $400 in steps of $1. */
  const InitialBill: int := 142
  const SliderMin: int := 50
  const SliderMax: int := 400

  predicate InSliderRange(bill: int) {
    SliderMin <= bill <= SliderMax
  }

  /**
   * `estimatedSavings`: 85% of a year of bills, rounded with `Math.round`.
   * The exact value is 10.2 * bill, whose fraction is a multiple of 0.2, so
   * the rounding never meets a half and the error is strictly below 0.5.
   */
  function YearlySavings(bill: int): (r: int)
    ensures -5 < 10 * r - 102 * bill < 5
  {
    MathRound(bill as real * 12.0 * 0.85)
  }

  /** `panelCount`: one panel per $12 of monthly bill, rounded, never fewer than six. */
  function PanelCount(bill: int): (r: int)
    ensures r >= 6
    ensures r == 6 || 12 * r - 6 <= bill < 12 * r + 6
  {
    var perBill := MathRound(bill as real / 12.0);
    if 6 >= perBill then 6 else perBill
  }

  /**
   * The value inside `paybackYears` before formatting:
   * bill * 12 * 6 / estimatedSavings / 12, evaluated left to right.
   */
  function PaybackRatio(bill: int): (r: real)
    requires YearlySavings(bill) != 0
    ensures r > 0.0
  {
    YearlySavingsSign(bill);
    var y := YearlySavings(bill) as real;
    var b := bill as real;
    SameSignQuotientPositive(b * 12.0 * 6.0, y);
    b * 12.0 * 6.0 / y / 12.0
  }

  /**
   * `paybackYears` as shown, `toFixed(1)`, counted in tenths. The source
   * divides without a guard: a zero saving would make it `NaN`, which is
   * `None` here. That happens for a bill of 0 and for no other bill.
   */
  function PaybackTenths(bill: int): (r: Option<int>)
    ensures r.None? <==> bill == 0
  {
    if YearlySavings(bill) == 0 then None else Some(ToFixed1(PaybackRatio(bill)))
  }

  /** The monthly figure on the home page: `(estimatedSavings / 12).toFixed(0)`. */
  function MonthlySavings(bill: int): (r: int)
    ensures bill >= 0 ==> r >= 0
    ensures bill >= 1 ==> r >= 1
  {
    ToFixed0(YearlySavings(bill) as real / 12.0)
  }

  /** The slider's `--value` fill: ((bill - 50) / 350) * 100 percent. */
  function SliderFill(bill: int): (r: real)
    ensures bill >= SliderMin ==> r >= 0.0
    ensures bill <= SliderMax ==> r <= 100.0
  {
    (bill - SliderMin) as real / 350.0 * 100.0
  }

  /** All that one slider position shows. */
  datatype Estimate = Estimate(
    yearlySavings: int,
    panelCount: int,
    paybackTenths: Option<int>,
    monthlySavings: int,
    fillPercent: real)

  function EstimateFor(bill: int): (e: Estimate)
    ensures e.panelCount >= 6
    ensures e.paybackTenths == if bill == 0 then None else Some(6)
    ensures bill > 0 ==> e.yearlySavings > 0 && e.monthlySavings > 0
  {
    YearlySavingsSign(bill);
    var e := Estimate(YearlySavings(bill), PanelCount(bill), PaybackTenths(bill),
                      MonthlySavings(bill), SliderFill(bill));
    if bill == 0 then e else PaybackAlwaysPointSix(bill); e
  }

  /** Yearly savings are round(bill * 51 / 5), which integer division computes exactly. */
  lemma YearlySavingsClosedForm(bill: int)
    ensures YearlySavings(bill) == (2 * bill * 51 + 5) / 10
  {
  }

  /** Yearly savings have the sign of the bill, so any positive bill gives a positive saving. */
  lemma YearlySavingsSign(bill: int)
    ensures bill > 0 ==> YearlySavings(bill) > 0
    ensures bill < 0 ==> YearlySavings(bill) < 0
    ensures bill == 0 ==> YearlySavings(bill) == 0
  {
  }

  /** Panel count is max(6, round-half-up(bill / 12)). */
  lemma PanelCountClosedForm(bill: int)
    ensures PanelCount(bill) == if 6 >= (bill + 6) / 12 then 6 else (bill + 6) / 12
  {
  }

  /** A larger bill never calls for fewer panels. */
  lemma PanelCountMonotone(a: int, b: int)
    requires a <= b
    ensures PanelCount(a) <= PanelCount(b)
  {
  }

  /** Left-to-right evaluation makes the payback ratio 6 * bill / savings, not a number of years. */
  lemma PaybackRatioReduces(bill: int)
    requires bill != 0
    ensures YearlySavings(bill) != 0
    ensures PaybackRatio(bill) == 6.0 * bill as real / YearlySavings(bill) as real
  {
  }

  /** A quotient whose numerator lies between 0.55 and 0.65 times its positive denominator lies in [0.55, 0.65). */
  lemma QuotientInPaybackBand(n: real, d: real)
    requires d > 0.0
    requires 0.55 * d <= n < 0.65 * d
    ensures 0.55 <= n / d < 0.65
  {
    DivideMonotone(0.55 * d, n, d);
    DivideStrictlyMonotone(n, 0.65 * d, d);
    assert (0.55 * d) / d == 0.55;
    assert (0.65 * d) / d == 0.65;
  }

  lemma SameSignQuotientPositive(n: real, d: real)
    requires (n > 0.0 && d > 0.0) || (n < 0.0 && d < 0.0)
    ensures n / d > 0.0
  {
  }

  lemma DivideMonotone(a: real, b: real, d: real)
    requires d > 0.0 && a <= b
    ensures a / d <= b / d
  {
  }

  lemma DivideStrictlyMonotone(a: real, b: real, d: real)
    requires d > 0.0 && a < b
    ensures a / d < b / d
  {
  }

  /** For every non-zero bill the payback ratio lies in [0.55, 0.65). */
  lemma PaybackRatioBounds(bill: int)
    requires bill != 0
    ensures YearlySavings(bill) != 0
    ensures 0.55 <= PaybackRatio(bill) < 0.65
  {
    PaybackRatioReduces(bill);
    YearlySavingsSign(bill);
    var y := YearlySavings(bill);
    var n := 6.0 * bill as real;
    var d := y as real;
    if bill > 0 {
      assert 55 * y <= 600 * bill < 65 * y;
      QuotientInPaybackBand(n, d);
    } else {
      assert 55 * y >= 600 * bill > 65 * y;
      QuotientInPaybackBand(-n, -d);
      NegatedQuotient(n, d);
    }
  }

  lemma NegatedQuotient(n: real, d: real)
    requires d != 0.0
    ensures n / d == (-n) / (-d)
  {
  }

  /** The payback shown is "0.6" for every bill the page can produce, and for any other non-zero bill. */
  lemma PaybackAlwaysPointSix(bill: int)
    requires bill != 0
    ensures PaybackTenths(bill) == Some(6)
  {
    PaybackRatioBounds(bill);
    var x := PaybackRatio(bill);
    var t := ToFixed1(x);
    assert 5.5 <= 10.0 * x < 6.5;
    assert t == 6;
  }

  /** The monthly figure is yearly savings over twelve, rounded: within six of a twelfth. */
  lemma MonthlySavingsNearTwelfth(bill: int)
    ensures -6 <= 12 * MonthlySavings(bill) - YearlySavings(bill) <= 6
  {
  }

  /** For a non-negative saving the monthly figure is round-half-up(yearly / 12). */
  lemma MonthlySavingsClosedForm(bill: int)
    requires bill >= 0
    ensures MonthlySavings(bill) == (YearlySavings(bill) + 6) / 12
  {
  }

  /** A bill of $78 is exactly 6.5 panels' worth, and the half goes up to 7. */
  lemma PanelHalfRoundsUp()
    ensures 78.0 / 12.0 == 6.5
    ensures PanelCount(78) == 7
  {
  }

  /** At $50 the monthly figure is exactly 510 / 12 = 42.5, shown as 43. */
  lemma MonthlyHalfRoundsUp()
    ensures YearlySavings(50) == 510
    ensures 510.0 / 12.0 == 42.5 && MonthlySavings(50) == 43
  {
    YearlySavingsClosedForm(50);
  }

  /** On the slider the fill runs from 0% at $50 to 100% at $400 and grows with the bill. */
  lemma SliderFillBounds(bill: int)
    requires InSliderRange(bill)
    ensures 0.0 <= SliderFill(bill) <= 100.0
    ensures SliderFill(bill) == 0.0 <==> bill == SliderMin
    ensures SliderFill(bill) == 100.0 <==> bill == SliderMax
  {
  }

  lemma SliderFillMonotone(a: int, b: int)
    requires a < b
    ensures SliderFill(a) < SliderFill(b)
  {
  }

  /** The figures at the initial bill of $142: $1448 a year, 12 panels, "0.6" years, $121 a month, 26% fill. */
  lemma InitialEstimate()
    ensures EstimateFor(InitialBill) == Estimate(1448, 12, Some(6), 121, 9200.0 / 350.0)
  {
  }

  /**
   * The calculator's state: the `monthlyBill` cell, replaced by the slider's
   * change handler. Home and Hero hold one each with the same yearly, panel
   * and payback formulas; only Home shows the monthly figure.
   */
  class Calculator {
    var monthlyBill: int

    ghost predicate Valid()
      reads this
    {
      InSliderRange(monthlyBill)
    }

    constructor ()
      ensures Valid() && monthlyBill == InitialBill
    {
      monthlyBill := InitialBill;
    }

    /** `handleSliderChange`: the slider reports an integer in [50, 400]. */
    method HandleSliderChange(value: int)
      requires InSliderRange(value)
      modifies this
      ensures Valid() && monthlyBill == value
    {
      monthlyBill := value;
    }

    /** What the card shows for the current bill. */
    function Shown(): (e: Estimate)
      reads this
      requires Valid()
      ensures e.yearlySavings > 0 && e.monthlySavings > 0
      ensures e.panelCount >= 6
      ensures e.paybackTenths == Some(6)
      ensures 0.0 <= e.fillPercent <= 100.0
    {
      EstimateFor(monthlyBill)
    }
  }
}

/** UK take-home pay for the 2025/26 tax year: banded income tax, National
    Insurance, student-loan repayment, net pay and the 50/30/20 budget.
    Python's `Decimal` is modelled as exact `real` arithmetic. */
module Tax {
  import opened Text

  /** The tax year's figures. The calculator only reads them. */
  datatype TaxConfig = TaxConfig(
    taxYear: string,
    personalAllowance: real,
    basicRate: real,
    higherRate: real,
    additionalRate: real,
    higherRateThreshold: real,
    additionalRateThreshold: real,
    niRateHigh: real,
    niRateLow: real,
    niThreshold: real,
    plan1Threshold: real,
    plan1Rate: real,
    plan2Threshold: real,
    plan2Rate: real)

  /** The defaults used when no configuration is given. */
  const DEFAULT_CONFIG := TaxConfig(
    "2025/26", 12750.00,
    0.20, 0.40, 0.45, 37700.00, 125140.00,
    0.08, 0.02, 50270.00,
    26065.00, 0.09, 27295.00, 0.09)

  /** A configuration whose rates and thresholds are all non-negative. */
  predicate Sensible(c: TaxConfig) {
    && c.basicRate >= 0.0 && c.higherRate >= 0.0 && c.additionalRate >= 0.0
    && c.higherRateThreshold >= 0.0 && c.additionalRateThreshold >= 0.0
    && c.niRateHigh >= 0.0 && c.niRateLow >= 0.0 && c.niThreshold >= 0.0
    && c.plan1Rate >= 0.0 && c.plan2Rate >= 0.0
  }

  lemma DefaultSensible()
    ensures Sensible(DEFAULT_CONFIG)
  {
  }

  function Max(a: real, b: real): real {
    if a >= b then a else b
  }

  function Min(a: real, b: real): real {
    if a <= b then a else b
  }

  // -------------------------------------------------------------- income tax

  /** The income tax on a taxable income and its share in each band. */
  datatype TaxBands = TaxBands(total: real, basic: real, higher: real, additional: real)

  /** Income tax in closed form: 45% above the additional-rate threshold, 40%
      between the two thresholds, 20% up to the higher-rate threshold, and
      nothing at all on a taxable income that is not positive. */
  function IncomeTaxOf(c: TaxConfig, t: real): TaxBands {
    if t <= 0.0 then TaxBands(0.0, 0.0, 0.0, 0.0)
    else
      var additional := c.additionalRate * Max(0.0, t - c.additionalRateThreshold);
      var higher := c.higherRate * Max(0.0, Min(t, c.additionalRateThreshold) - c.higherRateThreshold);
      var basic := c.basicRate * Min(Min(t, c.additionalRateThreshold), c.higherRateThreshold);
      TaxBands(basic + higher + additional, basic, higher, additional)
  }

  /** The calculator's band-by-band computation: the part above each threshold
      is taxed and the income is clamped to that threshold before the next band. */
  method CalculateIncomeTax(c: TaxConfig, taxableIncome: real) returns (r: TaxBands)
    ensures r == IncomeTaxOf(c, taxableIncome)
    ensures r.total == r.basic + r.higher + r.additional
  {
    var t := taxableIncome;
    var basicTax, higherTax, additionalTax := 0.0, 0.0, 0.0;
    if t <= 0.0 {
      return TaxBands(0.0, 0.0, 0.0, 0.0);
    }
    if t > c.additionalRateThreshold {
      additionalTax := (t - c.additionalRateThreshold) * c.additionalRate;
      t := c.additionalRateThreshold;
    }
    if t > c.higherRateThreshold {
      higherTax := (t - c.higherRateThreshold) * c.higherRate;
      t := c.higherRateThreshold;
    }
    basicTax := t * c.basicRate;
    r := TaxBands(basicTax + higherTax + additionalTax, basicTax, higherTax, additionalTax);
  }

  lemma MulMonotone(k: real, x: real, y: real)
    requires k >= 0.0 && x <= y
    ensures k * x <= k * y
  {
    assert k * y - k * x == k * (y - x);
  }

  lemma MulNonNegative(k: real, x: real)
    requires k >= 0.0 && x >= 0.0
    ensures k * x >= 0.0
  {
  }

  /** Under a sensible configuration no band is negative. */
  lemma IncomeTaxNonNegative(c: TaxConfig, t: real)
    requires Sensible(c)
    ensures var r := IncomeTaxOf(c, t); r.basic >= 0.0 && r.higher >= 0.0 && r.additional >= 0.0 && r.total >= 0.0
  {
    if t > 0.0 {
      MulNonNegative(c.additionalRate, Max(0.0, t - c.additionalRateThreshold));
      MulNonNegative(c.higherRate, Max(0.0, Min(t, c.additionalRateThreshold) - c.higherRateThreshold));
      MulNonNegative(c.basicRate, Min(Min(t, c.additionalRateThreshold), c.higherRateThreshold));
    }
  }

  /** More taxable income never means less tax, band by band. */
  lemma IncomeTaxMonotone(c: TaxConfig, t1: real, t2: real)
    requires Sensible(c) && t1 <= t2
    ensures IncomeTaxOf(c, t1).basic <= IncomeTaxOf(c, t2).basic
    ensures IncomeTaxOf(c, t1).higher <= IncomeTaxOf(c, t2).higher
    ensures IncomeTaxOf(c, t1).additional <= IncomeTaxOf(c, t2).additional
    ensures IncomeTaxOf(c, t1).total <= IncomeTaxOf(c, t2).total
  {
    if t1 <= 0.0 {
      IncomeTaxNonNegative(c, t2);
    } else {
      AdditionalBandMonotone(c, t1, t2);
      HigherBandMonotone(c, t1, t2);
      BasicBandMonotone(c, t1, t2);
    }
  }

  lemma AdditionalBandMonotone(c: TaxConfig, t1: real, t2: real)
    requires Sensible(c) && 0.0 < t1 <= t2
    ensures IncomeTaxOf(c, t1).additional <= IncomeTaxOf(c, t2).additional
  {
    var A := c.additionalRateThreshold;
    MulMonotone(c.additionalRate, Max(0.0, t1 - A), Max(0.0, t2 - A));
  }

  lemma HigherBandMonotone(c: TaxConfig, t1: real, t2: real)
    requires Sensible(c) && 0.0 < t1 <= t2
    ensures IncomeTaxOf(c, t1).higher <= IncomeTaxOf(c, t2).higher
  {
    var A, H := c.additionalRateThreshold, c.higherRateThreshold;
    MulMonotone(c.higherRate, Max(0.0, Min(t1, A) - H), Max(0.0, Min(t2, A) - H));
  }

  lemma BasicBandMonotone(c: TaxConfig, t1: real, t2: real)
    requires Sensible(c) && 0.0 < t1 <= t2
    ensures IncomeTaxOf(c, t1).basic <= IncomeTaxOf(c, t2).basic
  {
    var A, H := c.additionalRateThreshold, c.higherRateThreshold;
    MulMonotone(c.basicRate, Min(Min(t1, A), H), Min(Min(t2, A), H));
  }

  /** With the 2025/26 figures, an income inside the basic band pays 20% of it. */
  lemma BasicBandOnly(t: real)
    requires 0.0 < t <= 37700.0
    ensures IncomeTaxOf(DEFAULT_CONFIG, t) == TaxBands(0.20 * t, 0.20 * t, 0.0, 0.0)
  {
  }

  // ------------------------------------------------------ national insurance

  /** National Insurance in closed form: 8% up to the threshold and 2% above
      it, nothing on a non-positive income. */
  function NationalInsuranceOf(c: TaxConfig, income: real): real {
    if income <= 0.0 then 0.0
    else c.niRateHigh * Min(income, c.niThreshold) + c.niRateLow * Max(0.0, income - c.niThreshold)
  }

  /** The calculator's computation: the part above the threshold first, then the
      income clamped to the threshold. */
  method CalculateNationalInsurance(c: TaxConfig, income: real) returns (ni: real)
    ensures ni == NationalInsuranceOf(c, income)
  {
    var i := income;
    if i <= 0.0 {
      return 0.0;
    }
    ni := 0.0;
    if i > c.niThreshold {
      ni := ni + (i - c.niThreshold) * c.niRateLow;
      i := c.niThreshold;
    }
    ni := ni + i * c.niRateHigh;
  }

  /** National Insurance is never negative and never falls as income rises. */
  lemma NationalInsuranceMonotone(c: TaxConfig, i1: real, i2: real)
    requires Sensible(c) && i1 <= i2
    ensures 0.0 <= NationalInsuranceOf(c, i1) <= NationalInsuranceOf(c, i2)
  {
    var T := c.niThreshold;
    if i2 <= 0.0 {
      // Both incomes are at or below zero: no contribution at all.
      assert NationalInsuranceOf(c, i1) == 0.0;
      assert NationalInsuranceOf(c, i2) == 0.0;
    } else {
      var low2, high2 := Max(0.0, i2 - T), Min(i2, T);
      assert 0.0 <= high2 && 0.0 <= low2;
      assert NationalInsuranceOf(c, i2) == c.niRateHigh * high2 + c.niRateLow * low2;
      MulNonNegative(c.niRateHigh, high2);
      MulNonNegative(c.niRateLow, low2);
      if i1 <= 0.0 {
        assert NationalInsuranceOf(c, i1) == 0.0;
      } else {
        var low1, high1 := Max(0.0, i1 - T), Min(i1, T);
        assert 0.0 <= high1 <= high2 && 0.0 <= low1 <= low2;
        assert NationalInsuranceOf(c, i1) == c.niRateHigh * high1 + c.niRateLow * low1;
        MulNonNegative(c.niRateHigh, high1);
        MulNonNegative(c.niRateLow, low1);
        MulMonotone(c.niRateHigh, high1, high2);
        MulMonotone(c.niRateLow, low1, low2);
        var h1, l1, h2, l2 := c.niRateHigh * high1, c.niRateLow * low1, c.niRateHigh * high2, c.niRateLow * low2;
        assert 0.0 <= h1 <= h2 && 0.0 <= l1 <= l2;
        assert h1 + l1 <= h2 + l2;
      }
    }
  }

  // ------------------------------------------------------------ student loan

  /** The annual repayment under a plan named case-insensitively `plan1` or
      `plan2`: the plan's rate on the part of gross pay above its threshold.
      Any other plan name raises `ValueError`. */
  function StudentLoan(c: TaxConfig, gross: real, plan: string): (r: Result<real>)
    ensures r.Err? <==> Lower(plan) != "plan1" && Lower(plan) != "plan2"
    ensures r.Err? ==> r.error == "ValueError"
    ensures r.Ok? && Lower(plan) == "plan1" ==>
              r.value == (if gross <= c.plan1Threshold then 0.0 else (gross - c.plan1Threshold) * c.plan1Rate)
    ensures r.Ok? && Lower(plan) == "plan2" ==>
              r.value == (if gross <= c.plan2Threshold then 0.0 else (gross - c.plan2Threshold) * c.plan2Rate)
  {
    var p := Lower(plan);
    if p != "plan1" && p != "plan2" then Err("ValueError")
    else
      var threshold := if p == "plan1" then c.plan1Threshold else c.plan2Threshold;
      var rate := if p == "plan1" then c.plan1Rate else c.plan2Rate;
      if gross <= threshold then Ok(0.0) else Ok((gross - threshold) * rate)
  }

  /** The plan name's case does not matter. */
  lemma StudentLoanIgnoresCase(c: TaxConfig, gross: real, plan: string)
    ensures StudentLoan(c, gross, plan) == StudentLoan(c, gross, Lower(plan))
  {
    LowerIdempotent(plan);
  }

  /** Under a sensible configuration a repayment is never negative, and it is
      zero at or below the plan's threshold. */
  lemma StudentLoanNonNegative(c: TaxConfig, gross: real, plan: string)
    requires Sensible(c)
    ensures StudentLoan(c, gross, plan).Ok? ==> StudentLoan(c, gross, plan).value >= 0.0
  {
    var p := Lower(plan);
    if p == "plan1" && gross > c.plan1Threshold {
      MulNonNegative(gross - c.plan1Threshold, c.plan1Rate);
    } else if p == "plan2" && gross > c.plan2Threshold {
      MulNonNegative(gross - c.plan2Threshold, c.plan2Rate);
    }
  }

  // --------------------------------------------------------------- net pay

  /** The salary breakdown of `calculate_net_salary`, with the tax split by band. */
  datatype SalaryBreakdown = SalaryBreakdown(
    grossYearly: real,
    grossMonthly: real,
    netYearly: real,
    netMonthly: real,
    incomeTax: real,
    nationalInsurance: real,
    studentLoan: real,
    pension: real,
    effectiveTaxRate: real,
    basic: real,
    higher: real,
    additional: real)

  /** Net pay: the pension is `gross * pensionPct`; tax and National Insurance
      are both charged on gross less the personal allowance and the pension; the
      student loan on gross; the call fails only where a loan is included under
      an unknown plan. */
  function NetSalary(c: TaxConfig, gross: real, pensionPct: real, includeStudentLoan: bool, plan: string)
    : (r: Result<SalaryBreakdown>)
    ensures r.Err? <==> includeStudentLoan && StudentLoan(c, gross, plan).Err?
    ensures r.Ok? ==>
              var s := r.value;
              && s.grossYearly == gross
              && s.netYearly + s.incomeTax + s.nationalInsurance + s.studentLoan + s.pension == gross
              && s.grossMonthly * 12.0 == gross && s.netMonthly * 12.0 == s.netYearly
              && s.incomeTax == s.basic + s.higher + s.additional
              && s.studentLoan == (if includeStudentLoan then StudentLoan(c, gross, plan).value else 0.0)
  {
    var pension := gross * pensionPct;
    var loan := if includeStudentLoan then StudentLoan(c, gross, plan) else Ok(0.0);
    if loan.Err? then Err(loan.error)
    else
      var taxable := gross - c.personalAllowance - pension;
      var tax := IncomeTaxOf(c, taxable);
      var ni := NationalInsuranceOf(c, taxable);
      var deductions := tax.total + ni + loan.value + pension;
      var net := gross - deductions;
      var rate := if gross > 0.0 then deductions / gross * 100.0 else 0.0;
      Ok(SalaryBreakdown(gross, gross / 12.0, net, net / 12.0, tax.total, ni, loan.value, pension, rate,
                         tax.basic, tax.higher, tax.additional))
  }

  /** The effective rate is the share of gross taken by all deductions, in
      percent, and zero for a gross that is not positive. */
  lemma EffectiveRate(c: TaxConfig, gross: real, pensionPct: real, includeStudentLoan: bool, plan: string)
    requires NetSalary(c, gross, pensionPct, includeStudentLoan, plan).Ok?
    ensures var s := NetSalary(c, gross, pensionPct, includeStudentLoan, plan).value;
            if gross > 0.0 then s.effectiveTaxRate * gross == (gross - s.netYearly) * 100.0
            else s.effectiveTaxRate == 0.0
  {
    var s := NetSalary(c, gross, pensionPct, includeStudentLoan, plan).value;
    if gross > 0.0 {
      var d := gross - s.netYearly;
      assert s.effectiveTaxRate == d / gross * 100.0;
      assert d / gross * gross == d;
    }
  }

  /** Tax, each of its bands and National Insurance are charged on the same
      figure: gross less the personal allowance and the pension, not gross
      itself; the student loan alone is charged on gross. */
  lemma ChargedOnTaxable(c: TaxConfig, gross: real, pensionPct: real, includeStudentLoan: bool, plan: string)
    requires NetSalary(c, gross, pensionPct, includeStudentLoan, plan).Ok?
    ensures var s := NetSalary(c, gross, pensionPct, includeStudentLoan, plan).value;
            var taxable := gross - c.personalAllowance - gross * pensionPct;
            var bands := IncomeTaxOf(c, taxable);
            && s.pension == gross * pensionPct
            && s.incomeTax == bands.total
            && s.basic == bands.basic && s.higher == bands.higher && s.additional == bands.additional
            && s.nationalInsurance == NationalInsuranceOf(c, taxable)
            && s.studentLoan == (if includeStudentLoan then StudentLoan(c, gross, plan).value else 0.0)
  {
  }

  /** Pay within the personal allowance, with a non-negative pension, attracts
      neither income tax nor National Insurance. */
  lemma NoTaxWithinAllowance(c: TaxConfig, gross: real, pensionPct: real, includeStudentLoan: bool, plan: string)
    requires gross >= 0.0 && pensionPct >= 0.0 && gross <= c.personalAllowance
    requires NetSalary(c, gross, pensionPct, includeStudentLoan, plan).Ok?
    ensures NetSalary(c, gross, pensionPct, includeStudentLoan, plan).value.incomeTax == 0.0
    ensures NetSalary(c, gross, pensionPct, includeStudentLoan, plan).value.nationalInsurance == 0.0
  {
    MulNonNegative(gross, pensionPct);
  }

  // ------------------------------------------------------------------ budget

  /** One of the budget's three categories: its total, its items and, once the
      final loop has run, its percentage of income. */
  datatype BudgetCategory = BudgetCategory(
    name: string, total: real, items: seq<(string, real)>, percentage: Option<real>)

  datatype Budget = Budget(income: real, categories: seq<BudgetCategory>)

  function SumItems(items: seq<(string, real)>): real {
    if items == [] then 0.0 else items[0].1 + SumItems(items[1..])
  }

  lemma SumSix(it: seq<(string, real)>)
    requires |it| == 6
    ensures SumItems(it) == it[0].1 + it[1].1 + it[2].1 + it[3].1 + it[4].1 + it[5].1
  {
    var t1 := it[1..];
    var t2 := t1[1..];
    var t3 := t2[1..];
    var t4 := t3[1..];
    var t5 := t4[1..];
    assert t5[1..] == [];
    assert SumItems(t5) == it[5].1;
    assert SumItems(t4) == it[4].1 + it[5].1;
    assert SumItems(t3) == it[3].1 + it[4].1 + it[5].1;
    assert SumItems(t2) == it[2].1 + it[3].1 + it[4].1 + it[5].1;
  }

  /** The three categories before their percentages are added, in dictionary order. */
  function Categories(income: real): (r: seq<BudgetCategory>)
    ensures |r| == 3
  {
    [ BudgetCategory("Essentials", income * 0.50,
        [("Rent", income * 0.35), ("Bills", income * 0.05), ("Groceries", income * 0.07),
         ("Phone", income * 0.01), ("Medical Bills", income * 0.01), ("Gym", income * 0.01)], None),
      BudgetCategory("Savings", income * 0.20,
        [("Savings", income * 0.10), ("Investments", income * 0.10)], None),
      BudgetCategory("Spending", income * 0.30,
        [("Eating Out", income * 0.05), ("Pub", income * 0.05), ("Flowers", income * 0.05),
         ("Clothes", income * 0.05), ("Skincare", income * 0.05), ("Vitamins", income * 0.05)], None) ]
  }

  /** The category with its percentage of income filled in. */
  function WithPercentage(b: BudgetCategory, income: real): BudgetCategory
    requires income != 0.0
  {
    b.(percentage := Some(b.total / income * 100.0))
  }

  /** The 50/30/20 budget. `Decimal` refuses the division `0 / 0` the
      percentage loop performs on a zero income, raising `InvalidOperation`. */
  method RecommendBudget(income: real) returns (r: Result<Budget>)
    ensures income == 0.0 <==> r.Err?
    ensures r.Err? ==> r.error == "InvalidOperation"
    ensures r.Ok? ==> r.value.income == income && |r.value.categories| == 3
    ensures r.Ok? ==> forall k | 0 <= k < 3 ::
              r.value.categories[k] == WithPercentage(Categories(income)[k], income)
  {
    var cats := Categories(income);
    if income == 0.0 {
      return Err("InvalidOperation");
    }
    var k := 0;
    while k < 3
      invariant 0 <= k <= 3 && |cats| == 3
      invariant forall j | 0 <= j < k :: cats[j] == WithPercentage(Categories(income)[j], income)
      invariant forall j | k <= j < 3 :: cats[j] == Categories(income)[j]
    {
      cats := cats[k := cats[k].(percentage := Some(cats[k].total / income * 100.0))];
      k := k + 1;
    }
    r := Ok(Budget(income, cats));
  }

  /** The budget's shape: Essentials, Savings and Spending take 50%, 20% and
      30% of income and so account for all of it, each category's items add
      up to its total, and the percentages are 50, 20 and 30. */
  lemma BudgetSplit(income: real)
    requires income != 0.0
    ensures var cs := Categories(income);
            && cs[0].total + cs[1].total + cs[2].total == income
            && (forall k | 0 <= k < 3 :: SumItems(cs[k].items) == cs[k].total)
            && WithPercentage(cs[0], income).percentage == Some(50.0)
            && WithPercentage(cs[1], income).percentage == Some(20.0)
            && WithPercentage(cs[2], income).percentage == Some(30.0)
  {
    BudgetItemsAddUp(income);
    BudgetPercentages(income);
  }

  lemma BudgetItemsAddUp(income: real)
    ensures var cs := Categories(income);
            forall k | 0 <= k < 3 :: SumItems(cs[k].items) == cs[k].total
  {
    var cs := Categories(income);
    SumSix(cs[0].items);
    assert SumItems(cs[1].items) == cs[1].items[0].1 + cs[1].items[1].1 by {
      var it := cs[1].items;
      assert it[1..][1..] == [];
      assert SumItems(it[1..]) == it[1].1;
    }
    SumSix(cs[2].items);
  }

  lemma BudgetPercentages(income: real)
    requires income != 0.0
    ensures var cs := Categories(income);
            && WithPercentage(cs[0], income).percentage == Some(50.0)
            && WithPercentage(cs[1], income).percentage == Some(20.0)
            && WithPercentage(cs[2], income).percentage == Some(30.0)
  {
    assert income * 0.50 / income == 0.50;
    assert income * 0.20 / income == 0.20;
    assert income * 0.30 / income == 0.30;
  }
}

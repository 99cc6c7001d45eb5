/** The net-pay computation behind the calculator's "Calculate" button:
    gross salary normalised to a month, allowances added to give the
    taxable income, PAYE and the NSSF split deducted, net pay derived. */
module Payroll {
  import opened Deductions
  import opened Explanation

  /** The form's inputs, already parsed into numbers. `salaryType` is the
      selected period; only "annual" changes anything. */
  datatype SalaryInput = SalaryInput(
    grossSalary: real,
    salaryType: string,
    housing: real,
    transport: real,
    otherDeductions: real,
    nssfOption: NssfOption)

  /** Everything the computation derives, per month. */
  datatype PayrollResult = PayrollResult(
    gross: real,
    totalAllowances: real,
    taxableIncome: real,
    paye: real,
    nssfEmployee: real,
    nssfEmployer: real,
    totalDeductions: real,
    netPay: real)

  /** The gross salary per month: an annual figure is divided by 12, any
      other salary type is taken as monthly. */
  function MonthlyGross(input: SalaryInput): (g: real)
    ensures input.salaryType == "annual" ==> 12.0 * g == input.grossSalary
    ensures input.salaryType != "annual" ==> g == input.grossSalary
  {
    if input.salaryType == "annual" then input.grossSalary / 12.0 else input.grossSalary
  }

  /** One calculation. Net pay is what is left of the taxable income once
      PAYE, the employee's NSSF share and the other deductions are taken. */
  function CalculateNetPay(input: SalaryInput): (r: PayrollResult)
    ensures r.gross == MonthlyGross(input)
    ensures r.totalAllowances == input.housing + input.transport
    ensures r.taxableIncome == r.gross + input.housing + input.transport
    ensures r.paye == Paye(r.taxableIncome)
    ensures r.nssfEmployee == Nssf(r.gross, input.nssfOption).employee
    ensures r.nssfEmployer == Nssf(r.gross, input.nssfOption).employer
    ensures r.totalDeductions == r.paye + r.nssfEmployee + input.otherDeductions
    ensures r.netPay == r.taxableIncome - r.paye - r.nssfEmployee - input.otherDeductions
    ensures r.totalDeductions + r.netPay == r.taxableIncome
  {
    var gross := MonthlyGross(input);
    var totalAllowances := input.housing + input.transport;
    var taxableIncome := gross + totalAllowances;
    var paye := Paye(taxableIncome);
    var nssf := Nssf(gross, input.nssfOption);
    var totalDeductions := paye + nssf.employee + input.otherDeductions;
    var netPay := gross + totalAllowances - totalDeductions;
    PayrollResult(gross, totalAllowances, taxableIncome, paye, nssf.employee, nssf.employer,
                  totalDeductions, netPay)
  }

  /** An annual gross G gives exactly the result of a monthly gross G/12. */
  lemma AnnualIsMonthlyOverTwelve(input: SalaryInput)
    requires input.salaryType == "annual"
    ensures CalculateNetPay(input) ==
            CalculateNetPay(input.(grossSalary := input.grossSalary / 12.0, salaryType := "monthly"))
  {
  }

  /** Every salary type other than "annual" is treated as monthly. */
  lemma OtherSalaryTypesAreMonthly(input: SalaryInput)
    requires input.salaryType != "annual"
    ensures CalculateNetPay(input) == CalculateNetPay(input.(salaryType := "monthly"))
  {
  }

  /** The employer's NSSF share is reported but never deducted: choosing
      Both instead of Employee, or Employer instead of no option, leaves
      the deductions and the net pay unchanged. */
  lemma EmployerShareNeverAffectsNetPay(input: SalaryInput)
    ensures CalculateNetPay(input.(nssfOption := Both)).netPay ==
            CalculateNetPay(input.(nssfOption := Employee)).netPay
    ensures CalculateNetPay(input.(nssfOption := Employer)).netPay ==
            CalculateNetPay(input.(nssfOption := Other)).netPay
    ensures CalculateNetPay(input.(nssfOption := Both)).totalDeductions ==
            CalculateNetPay(input.(nssfOption := Employee)).totalDeductions
    ensures CalculateNetPay(input.(nssfOption := Employer)).totalDeductions ==
            CalculateNetPay(input.(nssfOption := Other)).totalDeductions
  {
  }

  /** A raise in gross salary never lowers net pay: at most 30% of it goes
      to PAYE and at most 5% to NSSF. */
  lemma RaiseNeverLowersNetPay(input: SalaryInput, raised: real)
    requires input.grossSalary <= raised
    ensures CalculateNetPay(input).netPay <= CalculateNetPay(input.(grossSalary := raised)).netPay
  {
    var after := input.(grossSalary := raised);
    var g, g' := MonthlyGross(input), MonthlyGross(after);
    assert g <= g';
    PayeMonotoneAndBounded(g + input.housing + input.transport, g' + input.housing + input.transport);
    NssfEmployeeMonotoneAndBounded(g, g', input.nssfOption);
  }

  /** 500,000 a month with both NSSF shares: PAYE 52,000, NSSF 12,000 and
      24,000, deductions 64,000, net pay 436,000. */
  lemma MonthlyBothExample()
    ensures var r := CalculateNetPay(SalaryInput(500000.0, "monthly", 0.0, 0.0, 0.0, Both));
      r.taxableIncome == 500000.0 && r.paye == 52000.0 && r.nssfEmployee == 12000.0 &&
      r.nssfEmployer == 24000.0 && r.totalDeductions == 64000.0 && r.netPay == 436000.0
  {
    var input := SalaryInput(500000.0, "monthly", 0.0, 0.0, 0.0, Both);
    assert input.salaryType != "annual" by { assert input.salaryType[0] != "annual"[0]; }
    assert MonthlyGross(input) == 500000.0;
    assert Paye(500000.0) == 52000.0;
    assert Nssf(500000.0, Both) == NssfSplit(12000.0, 24000.0);
  }

  /** 200,000 a month, employee NSSF only: no PAYE, NSSF 10,000, net pay 190,000. */
  lemma MonthlyEmployeeExample()
    ensures var r := CalculateNetPay(SalaryInput(200000.0, "monthly", 0.0, 0.0, 0.0, Employee));
      r.paye == 0.0 && r.nssfEmployee == 10000.0 && r.nssfEmployer == 0.0 && r.netPay == 190000.0
  {
    var input := SalaryInput(200000.0, "monthly", 0.0, 0.0, 0.0, Employee);
    assert MonthlyGross(input) == 200000.0 by { assert "monthly"[0] != "annual"[0]; }
    assert Nssf(200000.0, Employee) == NssfSplit(10000.0, 0.0);
    assert CalculateNetPay(input).paye == 0.0;
  }

  /** 6,000,000 a year gives the same result as 500,000 a month. */
  lemma AnnualBothExample()
    ensures CalculateNetPay(SalaryInput(6000000.0, "annual", 0.0, 0.0, 0.0, Both)) ==
            CalculateNetPay(SalaryInput(500000.0, "monthly", 0.0, 0.0, 0.0, Both))
  {
  }

  // ------------------------------------------- breakdown shown with the result

  /** The breakdown as the display step builds it: from the gross salary as
      entered plus the allowances, without dividing an annual salary by 12. */
  function DisplayedExplanation(input: SalaryInput): (lines: seq<Line>)
    ensures input.salaryType != "annual" ==> TotalTax(lines) == CalculateNetPay(input).paye
  {
    ExplanationAddsUpToPaye(input.grossSalary + input.housing + input.transport);
    ExplainPaye(input.grossSalary + input.housing + input.transport)
  }

  /** For an annual salary the displayed breakdown does not add up to the
      PAYE displayed beside it: 6,000,000 a year shows a breakdown totalling
      1,702,000 next to a PAYE of 52,000. */
  lemma DisplayedExplanationMismatchesAnnual()
    ensures var input := SalaryInput(6000000.0, "annual", 0.0, 0.0, 0.0, Both);
      TotalTax(DisplayedExplanation(input)) == 1702000.0 &&
      CalculateNetPay(input).paye == 52000.0
  {
    var input := SalaryInput(6000000.0, "annual", 0.0, 0.0, 0.0, Both);
    ExplanationAddsUpToPaye(6000000.0);
    assert DisplayedExplanation(input) == ExplainPaye(6000000.0);
  }

  /** The breakdown built from the taxable income the calculation used; it
      always adds up to the PAYE of the result, for every salary type. */
  function ResultExplanation(input: SalaryInput): (lines: seq<Line>)
    ensures TotalTax(lines) == CalculateNetPay(input).paye
    ensures lines == [] <==> CalculateNetPay(input).paye == 0.0
  {
    var r := CalculateNetPay(input);
    ExplanationAddsUpToPaye(r.taxableIncome);
    ExplainPaye(r.taxableIncome)
  }
}

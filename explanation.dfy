/** The PAYE breakdown shown under the result: for the bracket a taxable
    income falls into, one line for the tax fixed by the brackets below it
    and one line for the marginal tax on the remainder. The text layout is
    not modelled; each line keeps the numbers it displays. */
module Explanation {
  import opened Deductions

  /** `First(threshold, tax)`: "First <threshold>: <tax> UGX".
      `Remaining(amount, ratePercent, tax)`: "Remaining <amount> @<rate>%: UGX <tax>". */
  datatype Line =
    | First(threshold: real, tax: real)
    | Remaining(amount: real, ratePercent: nat, tax: real)

  /** The bracket the strict `>` tests of the explanation select, from the
      top down: 3 above 410,000, 2 above 335,000, 1 above 235,000, else 0. */
  function ExplainedBracket(taxableIncome: real): nat
  {
    if taxableIncome > 410000.0 then 3
    else if taxableIncome > 335000.0 then 2
    else if taxableIncome > 235000.0 then 1
    else 0
  }

  /** The breakdown lines; empty in the tax-free band. */
  function ExplainPaye(taxableIncome: real): (lines: seq<Line>)
    ensures lines == [] <==> taxableIncome <= ZeroBandTop
    ensures lines != [] ==>
      |lines| == 2 && lines[0].First? && lines[1].Remaining? &&
      lines[0].threshold < taxableIncome && lines[1].amount == taxableIncome - lines[0].threshold
  {
    var b := ExplainedBracket(taxableIncome);
    if b == 3 then
      [First(410000.0, 25000.0), Remaining(taxableIncome - 410000.0, 30, 0.3 * (taxableIncome - 410000.0))]
    else if b == 2 then
      [First(335000.0, 10000.0), Remaining(taxableIncome - 335000.0, 20, 0.2 * (taxableIncome - 335000.0))]
    else if b == 1 then
      [First(235000.0, 0.0), Remaining(taxableIncome - 235000.0, 10, 0.1 * (taxableIncome - 235000.0))]
    else
      []
  }

  /** Sum of the tax amounts the lines display. */
  function TotalTax(lines: seq<Line>): real
  {
    if lines == [] then 0.0 else lines[0].tax + TotalTax(lines[1..])
  }

  /** The strict `>` tests of the explanation pick the same bracket as the
      `<=` tests of the tax function. */
  lemma ExplainedBracketIsPayeBracket(x: real)
    ensures ExplainedBracket(x) == PayeBracket(x)
  {
  }

  /** The breakdown adds up to the tax: its first line is the tax accrued
      below the bracket's floor and its second the bracket's marginal rate
      applied to the rest, and their sum is Paye of the same income (0 when
      there are no lines). */
  lemma ExplanationAddsUpToPaye(x: real)
    ensures TotalTax(ExplainPaye(x)) == Paye(x)
    ensures ExplainPaye(x) != [] ==>
      var b := PayeBracket(x);
      ExplainPaye(x)[0] == First(BracketFloor(b), BracketBase(b)) &&
      ExplainPaye(x)[1].tax == BracketRate(b) * ExplainPaye(x)[1].amount &&
      ExplainPaye(x)[1].ratePercent as real == 100.0 * BracketRate(b)
  {
    var lines := ExplainPaye(x);
    if lines != [] {
      assert TotalTax(lines) == lines[0].tax + lines[1].tax + TotalTax(lines[2..]);
    }
  }
}

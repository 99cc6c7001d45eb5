/** The two statutory deductions of the Uganda net-pay calculator:
    PAYE (Pay As You Earn), a progressive monthly income tax, and the
    NSSF (National Social Security Fund) contribution, split between
    employee and employer. Amounts are Uganda Shillings (UGX), modelled
    as exact reals. */
module Deductions {

  // ---------------------------------------------------------------- PAYE

  /** Inclusive upper bounds of the first three PAYE brackets. */
  const ZeroBandTop: real := 235000.0
  const TenBandTop: real := 335000.0
  const TwentyBandTop: real := 410000.0

  /** Monthly PAYE on a taxable income: nothing up to 235,000, then 10%,
      20% and 30% marginal rates, each bracket closed on its upper end. */
  function Paye(taxableIncome: real): (tax: real)
    ensures tax >= 0.0
    ensures tax == 0.0 <==> taxableIncome <= ZeroBandTop
  {
    if taxableIncome <= 235000.0 then 0.0
    else if taxableIncome <= 335000.0 then 0.1 * (taxableIncome - 235000.0)
    else if taxableIncome <= 410000.0 then 10000.0 + 0.2 * (taxableIncome - 335000.0)
    else 25000.0 + 0.3 * (taxableIncome - 410000.0)
  }

  /** The bracket the `<=` tests of Paye select: 0 is the tax-free band,
      3 the top band. */
  function PayeBracket(taxableIncome: real): (b: nat)
    ensures b <= 3
  {
    if taxableIncome <= ZeroBandTop then 0
    else if taxableIncome <= TenBandTop then 1
    else if taxableIncome <= TwentyBandTop then 2
    else 3
  }

  /** Lower edge, tax accumulated below that edge, and marginal rate of
      each bracket. */
  function BracketFloor(b: nat): real
    requires b <= 3
  {
    [0.0, ZeroBandTop, TenBandTop, TwentyBandTop][b]
  }

  function BracketBase(b: nat): real
    requires b <= 3
  {
    [0.0, 0.0, 10000.0, 25000.0][b]
  }

  function BracketRate(b: nat): real
    requires b <= 3
  {
    [0.0, 0.1, 0.2, 0.3][b]
  }

  /** Within every bracket the tax is the bracket's base plus its marginal
      rate applied to the part of the income above the bracket's floor. */
  lemma PayeIsBasePlusMarginal(x: real)
    ensures var b := PayeBracket(x);
      Paye(x) == BracketBase(b) + BracketRate(b) * (if b == 0 then 0.0 else x - BracketFloor(b))
  {
  }

  /** Adjacent bracket formulas meet at every edge, so the schedule has no
      jump: the tax is 0 at 235,000, 10,000 at 335,000 and 25,000 at
      410,000, and just above each edge it is the tax at the edge plus the
      next bracket's rate on the excess. */
  lemma PayeAtBracketEdges(x: real)
    ensures Paye(ZeroBandTop) == 0.0 && Paye(TenBandTop) == 10000.0 && Paye(TwentyBandTop) == 25000.0
    ensures ZeroBandTop < x <= TenBandTop ==> Paye(x) == Paye(ZeroBandTop) + 0.1 * (x - ZeroBandTop)
    ensures TenBandTop < x <= TwentyBandTop ==> Paye(x) == Paye(TenBandTop) + 0.2 * (x - TenBandTop)
    ensures TwentyBandTop < x ==> Paye(x) == Paye(TwentyBandTop) + 0.3 * (x - TwentyBandTop)
  {
  }

  /** Earning more never lowers the tax, and never raises it by more than
      the top marginal rate of 30%; in particular Paye is non-decreasing
      and continuous everywhere, bracket edges included. */
  lemma PayeMonotoneAndBounded(x: real, y: real)
    requires x <= y
    ensures Paye(x) <= Paye(y)
    ensures Paye(y) - Paye(x) <= 0.3 * (y - x)
  {
    if y <= ZeroBandTop {
    } else if y <= TenBandTop {
      assert Paye(y) == 0.1 * (y - ZeroBandTop);
    } else if y <= TwentyBandTop {
      assert Paye(y) == 10000.0 + 0.2 * (y - TenBandTop);
    } else {
      assert Paye(y) == 25000.0 + 0.3 * (y - TwentyBandTop);
    }
  }

  // ---------------------------------------------------------------- NSSF

  /** The NSSF contribution option chosen in the form; Other stands for any
      value that is none of the three recognised ones. */
  datatype NssfOption = Employee | Employer | Both | Other

  /** Contributions withheld from the employee and paid by the employer. */
  datatype NssfSplit = NssfSplit(employee: real, employer: real)

  /** Gross salary above which NSSF is not charged. */
  const NssfCap: real := 240000.0

  function Min(a: real, b: real): (m: real)
    ensures m <= a && m <= b && (m == a || m == b)
  {
    if a <= b then a else b
  }

  /** Looks an option up in a table of contributions, falling back to 0 for
      an option the table does not list (a value of 0 falls back to 0 too). */
  function LookupOrZero(table: map<NssfOption, real>, option: NssfOption): real
  {
    if option in table && table[option] != 0.0 then table[option] else 0.0
  }

  /** NSSF on a monthly gross salary: 5% of the capped salary from the
      employee for Employee and Both, 10% from the employer for Employer
      and Both, nothing otherwise. */
  function Nssf(gross: real, option: NssfOption): (r: NssfSplit)
    ensures r.employee == if option == Employee || option == Both then 0.05 * Min(gross, NssfCap) else 0.0
    ensures r.employer == if option == Employer || option == Both then 0.10 * Min(gross, NssfCap) else 0.0
  {
    var capped := Min(gross, NssfCap);
    NssfSplit(
      LookupOrZero(map[Employee := capped * 0.05, Both := capped * 0.05], option),
      LookupOrZero(map[Employer := capped * 0.10, Both := capped * 0.10], option))
  }

  /** The cap: every gross salary from 240,000 up is charged as 240,000. */
  lemma NssfCapped(gross: real, option: NssfOption)
    requires gross >= NssfCap
    ensures Nssf(gross, option) == Nssf(NssfCap, option)
  {
  }

  /** The employee never pays more than 12,000 and the employer never more
      than 24,000; for a non-negative salary neither share is negative. */
  lemma NssfBounds(gross: real, option: NssfOption)
    ensures Nssf(gross, option).employee <= 12000.0
    ensures Nssf(gross, option).employer <= 24000.0
    ensures gross >= 0.0 ==> Nssf(gross, option).employee >= 0.0 && Nssf(gross, option).employer >= 0.0
  {
  }

  /** An unrecognised option charges nobody, whatever the salary. */
  lemma NssfOtherIsZero(gross: real)
    ensures Nssf(gross, Other) == NssfSplit(0.0, 0.0)
  {
  }

  /** A raise never lowers the employee's NSSF and never raises it by more
      than 5% of the raise. */
  lemma NssfEmployeeMonotoneAndBounded(x: real, y: real, option: NssfOption)
    requires x <= y
    ensures Nssf(x, option).employee <= Nssf(y, option).employee
    ensures Nssf(y, option).employee - Nssf(x, option).employee <= 0.05 * (y - x)
  {
  }
}

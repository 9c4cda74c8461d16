/**
 * The salary-income deduction (kyuyo shotoku kojo): a six-band,
 * piecewise-linear function of the yearly salary in yen, with a floor of
 * 550,000 yen and a cap of 1,950,000 yen. Every band's upper bound is
 * inclusive.
 *
 * Salaries are whole yen (`int`); the percentage bands make the deduction a
 * fraction of a yen in general, so it is a `real`, computed exactly.
 */
module SalaryDeduction {

  /** The smallest deduction, granted to every salary up to 1,625,000 yen. */
  const Floor: real := 550000.0
  /** The largest deduction, granted to every salary above 8,500,000 yen. */
  const Cap: real := 1950000.0

  /** The deduction for a yearly salary; the bands are tried from the lowest up. */
  function Deduction(salary: int): (d: real)
    ensures Floor <= d <= Cap
    ensures salary <= 1625000 ==> d == Floor
    ensures salary > 8500000 ==> d == Cap
  {
    var s := salary as real;
    if salary <= 1625000 then Floor
    else if salary <= 1800000 then s * 0.4 - 100000.0
    else if salary <= 3600000 then s * 0.3 + 80000.0
    else if salary <= 6600000 then s * 0.2 + 440000.0
    else if salary <= 8500000 then s * 0.1 + 1100000.0
    else Cap
  }

  /** The breakpoints where one band hands over to the next. */
  const Breakpoints: seq<int> := [1625000, 1800000, 3600000, 6600000, 8500000]

  /**
   * The formula of band `k` (0 is the floor, 5 the cap), as a function of the
   * salary, without its range condition.
   */
  function BandFormula(k: nat, salary: int): real
    requires k <= 5
  {
    var s := salary as real;
    match k
    case 0 => Floor
    case 1 => s * 0.4 - 100000.0
    case 2 => s * 0.3 + 80000.0
    case 3 => s * 0.2 + 440000.0
    case 4 => s * 0.1 + 1100000.0
    case 5 => Cap
  }

  /** Band `k` covers the salaries strictly above breakpoint k-1 and up to and including breakpoint k. */
  predicate InBand(k: nat, salary: int)
    requires k <= 5
  {
    (k == 0 || Breakpoints[k - 1] < salary) && (k == 5 || salary <= Breakpoints[k])
  }

  /**
   * A salary lies in no band but its own, and the deduction is that band's
   * formula; in particular a salary equal to a breakpoint uses the lower
   * band (inclusive upper bounds).
   */
  lemma DeductionIsBandFormula(salary: int, k: nat)
    requires k <= 5 && InBand(k, salary)
    ensures forall j: nat :: j <= 5 && j != k ==> !InBand(j, salary)
    ensures Deduction(salary) == BandFormula(k, salary)
  {
  }

  /** Every salary lies in some band. */
  lemma BandsCoverAllSalaries(salary: int)
    ensures exists k: nat :: k <= 5 && InBand(k, salary)
  {
    var k: nat := if salary <= 1625000 then 0 else if salary <= 1800000 then 1
      else if salary <= 3600000 then 2 else if salary <= 6600000 then 3
      else if salary <= 8500000 then 4 else 5;
    assert InBand(k, salary);
  }

  /**
   * The bands meet exactly: at every breakpoint the formulas of the band
   * ending there and of the band starting after it agree, so choosing either
   * side of an inclusive bound gives the same deduction.
   */
  lemma BandsMeetAtBreakpoints(k: nat)
    requires k < 5
    ensures BandFormula(k, Breakpoints[k]) == BandFormula(k + 1, Breakpoints[k])
    ensures Deduction(Breakpoints[k]) == BandFormula(k + 1, Breakpoints[k])
  {
  }

  /**
   * The deduction never falls as the salary rises, and it rises by at most
   * 40 sen per extra yen (the steepest band's slope), so it has no jumps.
   */
  lemma DeductionGrowth(s1: int, s2: int)
    requires s1 <= s2
    ensures Deduction(s1) <= Deduction(s2)
    ensures Deduction(s2) - Deduction(s1) <= (s2 - s1) as real * 0.4
  {
  }

}

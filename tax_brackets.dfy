/**
 * The income-tax quick-calculation table (sokusanhyo) and the lookup of the
 * marginal rate and the quick-calculation deduction for a taxable amount.
 *
 * Each row covers the inclusive range [lb, ub] of taxable amounts in yen.
 * The rows are laid out for amounts truncated to whole thousands of yen, so
 * some non-multiples of 1000 fall between two rows; the last row has no
 * upper limit. The tax on an amount x in a row is rate * x - deduction.
 */
module TaxBrackets {
  import opened Wrappers

  /** The upper end of a row: a largest amount, or none for the top row. */
  datatype UpperLimit = AtMost(amount: int) | Unbounded

  /** What a lookup yields: the marginal rate and the deduction to subtract. */
  datatype TaxRate = TaxRate(rate: real, deduction: int)

  /** One row of the table. */
  datatype Bracket = Bracket(lb: int, ub: UpperLimit, rate: real, deduction: int)
  {
    /** Whether the row's inclusive range holds the amount `x`. */
    predicate Contains(x: real) {
      lb as real <= x && (ub.Unbounded? || x <= ub.amount as real)
    }

    function Rate(): TaxRate {
      TaxRate(rate, deduction)
    }

    /** The quick-calculation tax of this row at amount `x`. */
    function QuickTax(x: real): real {
      rate * x - deduction as real
    }
  }

  /** The table, lowest row first. */
  const Brackets: seq<Bracket> := [
    Bracket(0, AtMost(1949000), 0.05, 0),
    Bracket(1950000, AtMost(3299000), 0.10, 97500),
    Bracket(3300000, AtMost(6949000), 0.20, 427500),
    Bracket(6950000, AtMost(8999000), 0.23, 636000),
    Bracket(9000000, AtMost(17999900), 0.33, 1536000),
    Bracket(18000000, AtMost(39999900), 0.40, 2796000),
    Bracket(40000000, Unbounded, 0.45, 4796000)
  ]

  /** Row `a` lies wholly below row `b`: `a` ends before `b` begins. */
  predicate Below(a: Bracket, b: Bracket) {
    a.ub.AtMost? && a.ub.amount < b.lb
  }

  /** No amount lies in two rows at different positions. */
  predicate PairwiseDisjoint(table: seq<Bracket>) {
    forall i, j :: 0 <= i < |table| && 0 <= j < |table| && i != j ==>
      Below(table[i], table[j]) || Below(table[j], table[i])
  }

  /** Rows are in ascending order, each wholly below the next, and rates strictly rise. */
  predicate Ascending(table: seq<Bracket>) {
    forall i, j :: 0 <= i < j < |table| ==>
      Below(table[i], table[j]) && table[i].rate < table[j].rate
  }

  /**
   * Quick-calculation continuity: at the lower bound of every row after the
   * first, the previous row's formula and this row's give the same tax.
   */
  predicate QuickTaxContinuous(table: seq<Bracket>) {
    forall i :: 0 < i < |table| ==>
      table[i - 1].QuickTax(table[i].lb as real) == table[i].QuickTax(table[i].lb as real)
  }

  /**
   * Linear search from the first row: the rate of the first row whose range
   * holds `x`, or None when no row does.
   */
  function Search(table: seq<Bracket>, x: real): (r: Option<TaxRate>)
    ensures r.None? <==> forall i :: 0 <= i < |table| ==> !table[i].Contains(x)
    ensures r.Some? ==> exists i :: 0 <= i < |table| && table[i].Contains(x) && r.value == table[i].Rate()
                                    && forall j :: 0 <= j < i ==> !table[j].Contains(x)
  {
    if table == [] then None
    else if table[0].Contains(x) then Some(table[0].Rate())
    else
      var r := Search(table[1..], x);
      assert forall i :: 0 < i < |table| ==> table[i] == table[1..][i - 1];
      r
  }

  /** `determine_tax_rate` in src/utils.py: the search over the quick-calculation table. */
  function DetermineTaxRate(taxable: real): (r: Option<TaxRate>)
    ensures forall i :: 0 <= i < |Brackets| && Brackets[i].Contains(taxable) ==> r == Some(Brackets[i].Rate())
    ensures r.None? <==> forall i :: 0 <= i < |Brackets| ==> !Brackets[i].Contains(taxable)
  {
    BracketsAscending();
    AscendingIsPairwiseDisjoint(Brackets);
    var r := Search(Brackets, taxable);
    assert forall i :: 0 <= i < |Brackets| && Brackets[i].Contains(taxable) ==> r == Some(Brackets[i].Rate()) by {
      forall i | 0 <= i < |Brackets| && Brackets[i].Contains(taxable)
        ensures r == Some(Brackets[i].Rate())
      {
        SearchFindsTheContainingRow(Brackets, taxable, i);
      }
    }
    r
  }

  /** The table is sorted by lower bound, its rows do not overlap, and rates strictly increase. */
  lemma BracketsAscending()
    ensures Ascending(Brackets)
    ensures forall i :: 0 <= i < |Brackets| - 1 ==> Brackets[i].ub.AtMost?
    ensures Brackets[|Brackets| - 1].ub.Unbounded?
  {
  }

  /** The table satisfies quick-calculation continuity. */
  lemma BracketsQuickTaxContinuous()
    ensures QuickTaxContinuous(Brackets)
  {
  }

  lemma AscendingIsPairwiseDisjoint(table: seq<Bracket>)
    requires Ascending(table)
    ensures PairwiseDisjoint(table)
  {
  }

  /**
   * In a table without overlaps, the search returns the one row holding the
   * amount, wherever that row stands.
   */
  lemma SearchFindsTheContainingRow(table: seq<Bracket>, x: real, i: int)
    requires PairwiseDisjoint(table)
    requires 0 <= i < |table| && table[i].Contains(x)
    ensures Search(table, x) == Some(table[i].Rate())
  {
    // The first row holding x is the only one, by disjointness.
  }

  /**
   * The order of the rows does not matter: two tables without overlaps that
   * hold the same rows give the same lookup for every amount.
   */
  lemma SearchOrderIrrelevant(t1: seq<Bracket>, t2: seq<Bracket>, x: real)
    requires PairwiseDisjoint(t1) && PairwiseDisjoint(t2)
    requires multiset(t1) == multiset(t2)
    ensures Search(t1, x) == Search(t2, x)
  {
    var r := Search(t1, x);
    if r.Some? {
      var i :| 0 <= i < |t1| && t1[i].Contains(x) && r.value == t1[i].Rate();
      assert t1[i] in multiset(t2);
      var j :| 0 <= j < |t2| && t2[j] == t1[i];
      SearchFindsTheContainingRow(t2, x, j);
    } else {
      forall j | 0 <= j < |t2| ensures !t2[j].Contains(x) {
        assert t2[j] in multiset(t1);
      }
    }
  }

  /**
   * Exactly when the lookup finds nothing: negative amounts and the amounts
   * strictly between one row's upper bound and the next row's lower bound.
   */
  lemma NoRateExactlyOutsideTable(x: real)
    ensures DetermineTaxRate(x).None? <==>
      x < 0.0
      || 1949000.0 < x < 1950000.0
      || 3299000.0 < x < 3300000.0
      || 6949000.0 < x < 6950000.0
      || 8999000.0 < x < 9000000.0
      || 17999900.0 < x < 18000000.0
      || 39999900.0 < x < 40000000.0
  {
    var b := Brackets;
    if DetermineTaxRate(x).None? {
      assert !b[0].Contains(x) && !b[1].Contains(x) && !b[2].Contains(x) && !b[3].Contains(x);
      assert !b[4].Contains(x) && !b[5].Contains(x) && !b[6].Contains(x);
    }
  }

  /** Every amount from 40,000,000 yen up, however large, is taxed at 45% less 4,796,000 yen. */
  lemma TopBracketUnbounded(x: real)
    requires x >= 40000000.0
    ensures DetermineTaxRate(x) == Some(TaxRate(0.45, 4796000))
  {
    assert Brackets[6].Contains(x);
  }

  /**
   * Every non-negative multiple of 1000 yen lies in exactly one row, so the
   * lookup never fails for amounts truncated to whole thousands.
   */
  lemma ThousandsCovered(k: nat)
    ensures exists i :: 0 <= i < |Brackets| && Brackets[i].Contains((1000 * k) as real)
    ensures forall i, j ::
      (0 <= i < |Brackets| && 0 <= j < |Brackets|
       && Brackets[i].Contains((1000 * k) as real) && Brackets[j].Contains((1000 * k) as real)) ==> i == j
    ensures DetermineTaxRate((1000 * k) as real).Some?
  {
    var x := (1000 * k) as real;
    var i := if k <= 1949 then 0 else if k <= 3299 then 1 else if k <= 6949 then 2
      else if k <= 8999 then 3 else if k <= 17999 then 4 else if k <= 39999 then 5 else 6;
    assert Brackets[i].Contains(x);
    BracketsAscending();
    AscendingIsPairwiseDisjoint(Brackets);
  }

}

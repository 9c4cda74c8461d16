# Japanese income-tax helpers, modelled in Dafny

This project models the three income-tax helpers of the Tax_calculator
repository (`src/utils.py`) and proves what they promise:

- `calc_salary_deduction`: the salary-income deduction (kyuyo shotoku kojo).
  It is a six-band piecewise-linear function of the yearly salary, with a
  550,000 yen floor, a 1,950,000 yen cap and inclusive upper bounds on each
  band. Module `SalaryDeduction`, file `salary_deduction.dfy`.
- `brackets` and `determine_tax_rate`: the income-tax quick-calculation
  table (sokusanhyo) and the linear search that returns the rate and the
  deduction of the first row whose inclusive range holds the taxable amount,
  or nothing when no row does. Module `TaxBrackets`, file `tax_brackets.dfy`.
- `format_num`: an integer written in decimal with a comma every three
  digits. Module `NumberFormat`, file `number_format.dfy`.

`wrappers.dfy` holds the `Option` type that stands for the `(None, None)`
result of the lookup.

Representation choices:
- Salaries are whole yen (`int`).
- Rates and the deduction's percentage bands are exact rationals (`real`):
  `salary * 0.4` is `salary as real * 0.4`, so the deduction is a `real`.
- Taxable amounts are `real`. This is a generalisation chosen for the
  model: the source compares whatever number it is given, so the lookup is
  stated for fractional amounts too, and the gaps between rows include
  non-whole amounts. Whole-yen amounts are the special case.
- The last row's `float('inf')` upper bound is the constructor `Unbounded`.
- The lookup returns `Option<TaxRate>`. `None` stands for `(None, None)`.
  `Some(TaxRate(rate, deduction))` stands for the pair `(rate, deduction)`.

All three helpers are pure, so the model is made of functions and lemmas.
The lookup's `for` loop only reads a constant list and returns early, so it
is modelled as the recursive function `TaxBrackets.Search`.

## Model

| member | source | states |
|---|---|---|
| `SalaryDeduction.Deduction` | src/utils.py:2-14 | The deduction always lies between 550,000 and 1,950,000 yen. It is exactly 550,000 for every salary up to 1,625,000 and exactly 1,950,000 for every salary above 8,500,000. |
| `SalaryDeduction.DeductionIsBandFormula` | src/utils.py:3-14 | A salary in a band lies in no other band, and its deduction is that band's formula. A salary equal to a breakpoint uses the lower band, so the upper bounds are inclusive. For example, 1,800,000 uses 0.4·s − 100,000. The inclusive bound only decides which branch runs, never the value, since adjacent formulas agree at every breakpoint (`BandsMeetAtBreakpoints`). |
| `SalaryDeduction.BandsCoverAllSalaries` | src/utils.py:3-14 | Every salary lies in one of the six bands. |
| `SalaryDeduction.BandsMeetAtBreakpoints` | src/utils.py:5-12 | At each breakpoint (1,625,000; 1,800,000; 3,600,000; 6,600,000; 8,500,000) the formula of the band ending there and that of the next band agree, and both equal the deduction. |
| `SalaryDeduction.DeductionGrowth` | src/utils.py:2-14 | The deduction is non-decreasing in the salary. Between two salaries it grows by at most 0.4 times their difference, so it has no jumps. |
| `TaxBrackets.Search` | src/utils.py:29-32 | The search finds nothing exactly when no row's inclusive range holds the amount. Otherwise it returns the rate and deduction of a row that holds it, and no earlier row holds it. |
| `TaxBrackets.DetermineTaxRate` | src/utils.py:28-32 | The lookup over the table returns the rate and deduction of whichever row holds the amount. It returns nothing exactly when no row does. |
| `TaxBrackets.BracketsAscending` | src/utils.py:18-26 | `Brackets` is the source's `brackets` list, row for row. Its rows are sorted by lower bound. Each row ends below the next row's start. Rates strictly increase. Only the last row has no upper limit. |
| `TaxBrackets.BracketsQuickTaxContinuous` | src/utils.py:16-26 | For every row after the first, rate·lb − deduction computed with the previous row equals the same value computed with this row, at this row's lower bound. |
| `TaxBrackets.SearchFindsTheContainingRow` | src/utils.py:28-32 | In any table whose rows do not overlap, the search returns the row that holds the amount, wherever that row stands. |
| `TaxBrackets.SearchOrderIrrelevant` | src/utils.py:28-32 | Two tables without overlaps that hold the same rows in any order give the same result for every amount. |
| `TaxBrackets.NoRateExactlyOutsideTable` | src/utils.py:18-32 | The lookup returns nothing exactly for negative amounts and for amounts strictly inside one of the six gaps between rows, such as 1,949,000–1,950,000 or 17,999,900–18,000,000. |
| `TaxBrackets.TopBracketUnbounded` | src/utils.py:25-31 | Every amount of 40,000,000 yen or more yields rate 0.45 and deduction 4,796,000. |
| `TaxBrackets.ThousandsCovered` | src/utils.py:18-26 | Every non-negative multiple of 1000 lies in exactly one row, and the lookup finds a rate for it. |
| `NumberFormat.Digits` | src/utils.py:34-36 | The digit string is non-empty and made only of decimal digits. It starts with '0' exactly when the number is zero, and zero is the single digit "0", so it has no leading zeros. |
| `NumberFormat.DigitsValue` | src/utils.py:34-36 | The digits denote the number, so `Digits` is its decimal representation. |
| `NumberFormat.StripCommasGroup` | src/utils.py:35-36 | Grouping only inserts commas: removing them gives back the digits. |
| `NumberFormat.GroupLayout` | src/utils.py:35-36 | Grouping n digits adds (n−1)/3 commas. A character is a comma exactly when a multiple of four characters, counting itself, runs from it to the end. |
| `NumberFormat.FormatNum` | src/utils.py:34-36 | With its commas removed, the formatted number is its plain decimal representation, with a minus sign when it is negative. After the optional sign, the first group has one to three digits and every later group has exactly three, each after a comma. A comma appears exactly when the magnitude is 1000 or more. |

## Left out

- `app.py` is not part of this model. It holds the Streamlit page (widgets, markdown output, 3D plotting), result caching, parsing of the initial state from text, and a floating-point RK4 integrator for the Lorenz system. These are I/O and presentation, or IEEE-754 numerics that exact arithmetic cannot represent faithfully.
- SalaryDeduction.Deduction: computes in exact rationals. The source computes `salary * 0.4 - 100000` and the other bands in IEEE-754 doubles, so its results can differ in the last bits, and the bound and continuity facts hold there only up to rounding.
- SalaryDeduction.Deduction: takes whole-yen salaries. The source would also accept floats, and it gives no special meaning to NaN or infinity.
- TaxBrackets.DetermineTaxRate: takes exact real amounts. It does not model infinite or NaN inputs, which the source compares with its `float('inf')` upper bound.
- NumberFormat.FormatNum: does not model the limit on integer-to-decimal conversion in Python 3.11 and later (and in the 3.7.14, 3.8.14, 3.9.14 and 3.10.7 patch releases). Beyond `sys.get_int_max_str_digits()` digits (4300 by default) the source raises `ValueError`, while the model returns a string for every integer. Yen amounts never come near that size.
- NumberFormat.FormatNum: covers only integers. Python's general format mini-language for floats and other types is not modelled, because the source annotates its argument as `int`.

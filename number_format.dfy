/**
 * Thousands-separated decimal formatting of an integer, as the format
 * specification "," does for integers: an optional minus sign, then the
 * decimal digits with a comma inserted every three digits counted from the
 * right.
 */
module NumberFormat {

  predicate IsDigit(c: char) {
    '0' <= c <= '9'
  }

  function DigitChar(d: nat): (c: char)
    requires d < 10
    ensures IsDigit(c) && DigitValue(c) == d
  {
    ('0' as int + d) as char
  }

  function DigitValue(c: char): nat
    requires IsDigit(c)
  {
    c as int - '0' as int
  }

  /** The number a string of decimal digits denotes, most significant first. */
  function Value(ds: string): nat
    requires forall i :: 0 <= i < |ds| ==> IsDigit(ds[i])
  {
    if ds == [] then 0 else Value(ds[..|ds| - 1]) * 10 + DigitValue(ds[|ds| - 1])
  }

  /**
   * The decimal digits of a natural number, most significant first: at least
   * one digit, and no leading zero except for zero itself.
   */
  function Digits(n: nat): (ds: string)
    ensures |ds| >= 1
    ensures forall i :: 0 <= i < |ds| ==> IsDigit(ds[i])
    ensures ds[0] == '0' <==> n == 0
    ensures n == 0 ==> ds == "0"
  {
    if n < 10 then [DigitChar(n)] else Digits(n / 10) + [DigitChar(n % 10)]
  }

  /** The plain decimal representation of an integer, with a minus sign when negative. */
  function Decimal(n: int): string {
    (if n < 0 then "-" else "") + Digits(if n < 0 then -n else n)
  }

  /** A string of digits with a comma inserted before every third digit from the right. */
  function Group(ds: string): string {
    if |ds| <= 3 then ds else Group(ds[..|ds| - 3]) + "," + ds[|ds| - 3..]
  }

  /**
   * `format_num` in src/utils.py. With its commas removed it is the plain
   * decimal representation. After the optional sign, it has a first group of
   * one to three digits and then groups of exactly three, each preceded by a
   * comma. It holds a comma exactly when the magnitude is 1000 or more.
   */
  function FormatNum(n: int): (s: string)
    ensures StripCommas(s) == Decimal(n)
    ensures var sign := if n < 0 then "-" else "";
      s[..|sign|] == sign && CommaEveryThreeDigits(s[|sign|..])
    ensures (',' in s) <==> (n <= -1000 || 1000 <= n)
  {
    var sign := if n < 0 then "-" else "";
    var m: nat := if n < 0 then -n else n;
    var ds := Digits(m);
    DigitsHaveNoComma(ds);
    StripCommasGroup(ds);
    StripCommasAppend(sign, Group(ds));
    StripCommasNoComma(sign);
    GroupLayout(ds);
    GroupHasComma(ds);
    DigitsLength(m);
    assert (sign + Group(ds))[|sign|..] == Group(ds);
    sign + Group(ds)
  }

  /** The string with every comma taken out. */
  function StripCommas(s: string): string {
    if s == [] then [] else StripCommas(s[..|s| - 1]) + (if s[|s| - 1] == ',' then "" else [s[|s| - 1]])
  }

  /**
   * The comma layout of a grouped digit string `g`: a character is a comma
   * exactly when a multiple of four characters, counting itself, lies from it
   * to the end; so every comma is followed by exactly three digits, and the
   * length rules out a leading comma, leaving one to three digits in front.
   */
  predicate CommaEveryThreeDigits(g: string) {
    |g| % 4 != 0
    && forall i :: 0 <= i < |g| ==> (g[i] == ',' <==> (|g| - i) % 4 == 0)
  }

  /** Digits(n) is the decimal representation: its digits denote n. */
  lemma {:induction false} DigitsValue(n: nat)
    ensures Value(Digits(n)) == n
  {
    var ds := Digits(n);
    if n >= 10 {
      DigitsValue(n / 10);
      assert ds[..|ds| - 1] == Digits(n / 10);
    }
  }

  lemma {:induction false} StripCommasAppend(a: string, b: string)
    ensures StripCommas(a + b) == StripCommas(a) + StripCommas(b)
    decreases |b|
  {
    if b == [] {
      assert a + b == a;
    } else {
      assert (a + b)[..|a + b| - 1] == a + b[..|b| - 1];
      StripCommasAppend(a, b[..|b| - 1]);
    }
  }

  lemma {:induction false} StripCommasNoComma(s: string)
    requires ',' !in s
    ensures StripCommas(s) == s
  {
    if s != [] {
      StripCommasNoComma(s[..|s| - 1]);
    }
  }

  /** Taking the commas out of two strings joined by a comma drops the joining comma. */
  lemma StripCommasAroundComma(a: string, b: string)
    ensures StripCommas(a + "," + b) == StripCommas(a) + StripCommas(b)
  {
    var comma: string := [','];
    assert StripCommas(comma) == [] by {
      assert comma[..0] == [];
    }
    StripCommasAppend(a, comma);
    StripCommasAppend(a + comma, b);
  }

  /** Grouping only inserts commas: taking them out gives the digits back. */
  lemma {:induction false} StripCommasGroup(ds: string)
    requires ',' !in ds
    ensures StripCommas(Group(ds)) == ds
    decreases |ds|
  {
    if |ds| <= 3 {
      StripCommasNoComma(ds);
    } else {
      var hi, lo := ds[..|ds| - 3], ds[|ds| - 3..];
      assert ',' !in hi && ',' !in lo by {
        assert forall c :: c in hi ==> c in ds;
        assert forall c :: c in lo ==> c in ds;
      }
      StripCommasGroup(hi);
      StripCommasAroundComma(Group(hi), lo);
      StripCommasNoComma(lo);
      assert Group(ds) == Group(hi) + "," + lo;
      assert hi + lo == ds;
    }
  }

  /** Appending a comma and three more digits to a well-grouped string keeps it well grouped. */
  lemma CommaLayoutExtend(p: string, lo: string)
    requires CommaEveryThreeDigits(p)
    requires |lo| == 3 && ',' !in lo
    ensures CommaEveryThreeDigits(p + "," + lo)
  {
  }

  /** Grouping a non-empty run of digits lays out its commas every three digits from the right. */
  lemma {:induction false} GroupLayout(ds: string)
    requires |ds| >= 1 && ',' !in ds
    ensures |Group(ds)| == |ds| + (|ds| - 1) / 3
    ensures CommaEveryThreeDigits(Group(ds))
    decreases |ds|
  {
    if |ds| > 3 {
      var hi, lo := ds[..|ds| - 3], ds[|ds| - 3..];
      assert ',' !in hi && ',' !in lo by {
        assert forall c :: c in hi ==> c in ds;
        assert forall c :: c in lo ==> c in ds;
      }
      GroupLayout(hi);
      CommaLayoutExtend(Group(hi), lo);
    } else {
      assert Group(ds) == ds;
      forall i | 0 <= i < |ds| ensures ds[i] != ',' {
        assert ds[i] in ds;
      }
    }
  }

  lemma DigitsHaveNoComma(ds: string)
    requires forall i :: 0 <= i < |ds| ==> IsDigit(ds[i])
    ensures ',' !in ds
  {
    forall i | 0 <= i < |ds| ensures ds[i] != ',' {
      assert IsDigit(ds[i]);
    }
  }

  /** A grouped digit string holds a comma exactly when there are more than three digits. */
  lemma GroupHasComma(ds: string)
    requires |ds| >= 1 && ',' !in ds
    ensures (',' in Group(ds)) <==> |ds| >= 4
  {
    GroupLayout(ds);
    var g := Group(ds);
    if |ds| >= 4 {
      assert g[|g| - 4] == ',';
    } else {
      assert g == ds;
    }
  }

  /** A magnitude below 1000 has at most three digits and one from 1000 up at least four. */
  lemma {:induction false} DigitsLength(n: nat)
    ensures |Digits(n)| <= 3 <==> n < 1000
  {
    if n >= 10 {
      DigitsLength(n / 10);
    }
  }

}

/** Amounts of money as exact reals: the subset of `parseFloat` the forms use,
    the `parseFloat(x) || 0` idiom, `parseAmount` (calculator.js) and the
    Canadian-dollar display format produced by `Intl.NumberFormat('en-CA',
    { style: 'currency', currency: 'CAD' })`. */
module Money {
  import opened Text

  /** What `parseFloat` returns: a number, or NaN. */
  datatype Number = NaN | Num(value: real)

  /** `parseFloat` on decimal notation: leading whitespace is skipped, then an
      optional sign, digits, an optional '.' and more digits; parsing stops at
      the first character that does not fit. */
  function ParseFloat(s: string): Number {
    var k := SkipSpaces(s, 0);
    var signed := k < |s| && (s[k] == '-' || s[k] == '+');
    var d := ParseDecimalAt(s, if signed then k + 1 else k);
    if signed && s[k] == '-' then Negate(d) else d
  }

  function Negate(n: Number): Number {
    if n.Num? then Num(-n.value) else NaN
  }

  /** The index just past the run of digits that starts at `i`. */
  function DigitsEnd(s: string, i: nat): (j: nat)
    requires i <= |s|
    ensures i <= j <= |s|
    decreases |s| - i
  {
    if i < |s| && IsDigit(s[i]) then DigitsEnd(s, i + 1) else i
  }

  /** The unsigned number starting at `i`: digits, then optionally '.' and
      digits, at least one digit in all. */
  function ParseDecimalAt(s: string, i: nat): Number
    requires i <= |s|
  {
    var e := DigitsEnd(s, i);
    var point := e < |s| && s[e] == '.';
    var fs := if point then e + 1 else e;
    var f := if point then DigitsEnd(s, e + 1) else e;
    if e == i && f == fs then NaN else Num(DigitsIn(s, i, e) as real + FractionIn(s, fs, f))
  }

  /** The integer the digits `s[i..j]` spell. */
  function DigitsIn(s: string, i: nat, j: nat): int
    requires i <= j <= |s|
    decreases j - i
  {
    if j == i then 0 else 10 * DigitsIn(s, i, j - 1) + DigitValue(s[j - 1])
  }

  /** The value of the digits `s[i..j]` read after a decimal point: "05" is 5/100. */
  function FractionIn(s: string, i: nat, j: nat): real
    requires i <= j <= |s|
    decreases j - i
  {
    if i == j then 0.0 else (DigitValue(s[i]) as real + FractionIn(s, i + 1, j)) / 10.0
  }

  /** `parseFloat(s) || 0`: NaN (and zero) become 0. */
  function NumberOrZero(s: string): real {
    var p := ParseFloat(s);
    if p.Num? then p.value else 0.0
  }

  /** The characters `parseAmount` keeps: `[0-9.-]`. */
  predicate IsAmountChar(c: char) {
    IsDigit(c) || c == '.' || c == '-'
  }

  /** `s.replace(/[^0-9.-]/g, '')`. */
  function AmountChars(s: string): string {
    if s == [] then []
    else AmountChars(s[..|s| - 1]) + (if IsAmountChar(s[|s| - 1]) then [s[|s| - 1]] else [])
  }

  /** `parseAmount(currencyString)`. */
  function ParseAmount(s: string): real {
    NumberOrZero(AmountChars(s))
  }

  /** The filter keeps exactly the amount characters, in order: it
      distributes over concatenation, ... */
  lemma {:induction false} AmountCharsConcat(a: string, b: string)
    ensures AmountChars(a + b) == AmountChars(a) + AmountChars(b)
  {
    if b == [] {
      assert a + b == a;
    } else {
      assert (a + b)[..|a + b| - 1] == a + b[..|b| - 1];
      AmountCharsConcat(a, b[..|b| - 1]);
    }
  }

  /** ... keeps a string of amount characters whole ... */
  lemma {:induction false} AmountCharsKeepsAll(s: string)
    requires forall i :: 0 <= i < |s| ==> IsAmountChar(s[i])
    ensures AmountChars(s) == s
  {
    if s != [] {
      AmountCharsKeepsAll(s[..|s| - 1]);
    }
  }

  /** ... and leaves nothing but amount characters. */
  lemma {:induction false} AmountCharsOnly(s: string)
    ensures |AmountChars(s)| <= |s|
    ensures forall i :: 0 <= i < |AmountChars(s)| ==> IsAmountChar(AmountChars(s)[i])
  {
    if s != [] {
      AmountCharsOnly(s[..|s| - 1]);
    }
  }

  /** JavaScript `*` on two amounts. A function of its own so that equal
      factors are seen to give equal products. */
  function Times(x: real, y: real): real {
    x * y
  }

  function Abs(c: int): nat {
    if c < 0 then -c else c
  }

  /** Rounding to whole cents, halves away from zero (the format's default):
      the nearest whole number of cents, and on a tie the one farther from 0. */
  function RoundCents(x: real): (c: int)
    ensures x >= 0.0 ==> c >= 0
    ensures x < 0.0 ==> c <= 0
    ensures x >= 0.0 ==> -0.5 <= 100.0 * x - c as real < 0.5
    ensures x < 0.0 ==> -0.5 < 100.0 * x - c as real <= 0.5
  {
    if x >= 0.0 then (100.0 * x + 0.5).Floor else -((-100.0 * x + 0.5).Floor)
  }

  /** `n` in decimal with a ',' before every group of three digits from the right. */
  function Grouped(n: nat): string {
    if n < 1000 then NatToString(n) else Grouped(n / 1000) + "," + ThreeDigits(n % 1000)
  }

  function ThreeDigits(r: nat): (s: string)
    requires r < 1000
    ensures |s| == 3 && AllDigits(s)
  {
    [DigitChar(r / 100), DigitChar(r / 10 % 10), DigitChar(r % 10)]
  }

  function TwoDigits(r: nat): (s: string)
    requires r < 100
    ensures |s| == 2
  {
    [DigitChar(r / 10), DigitChar(r % 10)]
  }

  lemma {:induction false} TwoDigitsValue(r: nat)
    requires r < 100
    ensures AllDigits(TwoDigits(r)) && DigitsValue(TwoDigits(r)) == r
  {
    var s := TwoDigits(r);
    assert s[..1] == [DigitChar(r / 10)] && s[..1][..0] == [];
    assert DigitValue(s[0]) == r / 10 && DigitValue(s[1]) == r % 10;
    assert DigitsValue(s[..1]) == r / 10;
  }

  /** The en-CA display of an amount of `c` cents, e.g. "$1,234.56" or "-$5.00". */
  function FormatCents(c: int): string {
    (if c < 0 then "-" else "") + "$" + Grouped(Abs(c) / 100) + "." + TwoDigits(Abs(c) % 100)
  }

  /** The display of `c` cents for an amount on the negative side when
      `negative` holds: the format keeps the '-' of a negative amount even
      when it rounds to zero cents. */
  function SignedCents(negative: bool, c: int): string {
    if negative && c == 0 then "-" + FormatCents(0) else FormatCents(c)
  }

  /** `formatCurrency(amount)`: the amount rounded to the cent, signed as the amount is. */
  function FormatCurrency(x: real): string {
    SignedCents(x < 0.0, RoundCents(x))
  }

  /** A negative amount above -0.005 shows as "-$0.00" and reads back as 0. */
  lemma {:induction false} NegativeZeroShown(x: real)
    requires -0.005 < x < 0.0
    ensures FormatCurrency(x) == "-$0.00" && ParseAmount(FormatCurrency(x)) == 0.0
  {
    assert RoundCents(x) == 0;
    assert FormatCents(0) == "$0.00" by {
      assert NatToString(0) == "0";
      assert Grouped(0) == "0";
      assert TwoDigits(0) == "00";
      assert FormatCents(0) == "" + "$" + "0" + "." + "00";
    }
    ParseFormatCurrency(x);
  }

  /** Equal amounts display alike (stated for the solver, which does not
      always carry arithmetic equalities into function arguments). */
  lemma {:induction false} FormatCurrencyOfEqual(x: real, y: real)
    requires x == y
    ensures FormatCurrency(x) == FormatCurrency(y)
  {
  }

  /** An amount that is a whole number of cents is its own rounding. */
  lemma {:induction false} RoundCentsOfCents(c: int)
    ensures RoundCents(c as real / 100.0) == c
  {
  }

  /** Adding whole cents on the same side of zero commutes with rounding. */
  lemma {:induction false} RoundCentsShift(x: real, k: int)
    requires (x >= 0.0 && x + k as real / 100.0 >= 0.0) || (x < 0.0 && x + k as real / 100.0 < 0.0)
    ensures RoundCents(x + k as real / 100.0) == RoundCents(x) + k
  {
    if x >= 0.0 {
      assert 100.0 * (x + k as real / 100.0) + 0.5 == (100.0 * x + 0.5) + k as real;
    } else {
      assert -100.0 * (x + k as real / 100.0) + 0.5 == (-100.0 * x + 0.5) - k as real;
    }
  }

  /** The last three decimal digits of a number of four digits or more. */
  lemma {:induction false} NatToStringSplit(n: nat)
    requires n >= 1000
    ensures NatToString(n) == NatToString(n / 1000) + ThreeDigits(n % 1000)
  {
    var q, r := n / 1000, n % 1000;
    ThousandDigits(n);
    assert NatToString(n / 100) == NatToString(q) + [DigitChar(n / 100 % 10)];
    assert NatToString(n / 10) == NatToString(n / 100) + [DigitChar(n / 10 % 10)];
  }

  /** The decimal digits of `n % 1000` are the last three digits of `n`. */
  lemma {:induction false} ThousandDigits(n: nat)
    ensures n / 10 / 10 == n / 100 && n / 100 / 10 == n / 1000
    ensures n % 1000 / 100 == n / 100 % 10 && n % 1000 / 10 % 10 == n / 10 % 10 && n % 1000 % 10 == n % 10
  {
  }

  /** Removing the separators of a grouped number gives its plain digits. */
  lemma {:induction false} AmountCharsOfGrouped(n: nat)
    ensures AmountChars(Grouped(n)) == NatToString(n)
  {
    if n < 1000 {
      NatToStringDigits(n);
      AmountCharsKeepsAll(NatToString(n));
    } else {
      var lo := ThreeDigits(n % 1000);
      AmountCharsConcat(Grouped(n / 1000) + ",", lo);
      AmountCharsConcat(Grouped(n / 1000), ",");
      AmountCharsOfGrouped(n / 1000);
      AmountCharsKeepsAll(lo);
      assert AmountChars(",") == "";
      NatToStringSplit(n);
    }
  }

  /** The characters of a display string that `parseAmount` keeps. */
  lemma {:induction false} AmountCharsOfFormat(c: int)
    ensures AmountChars(FormatCents(c))
         == (if c < 0 then "-" else "") + NatToString(Abs(c) / 100) + "." + TwoDigits(Abs(c) % 100)
  {
    var sign: string := if c < 0 then "-" else "";
    var prefix := sign + "$" + Grouped(Abs(c) / 100);
    var dd := TwoDigits(Abs(c) % 100);
    AmountCharsConcat(prefix + ".", dd);
    AmountCharsConcat(prefix, ".");
    AmountCharsOfSigned(sign, Abs(c) / 100);
    TwoDigitsValue(Abs(c) % 100);
    AmountCharsKeepsAll(dd);
    assert AmountChars(".") == ".";
  }

  /** The sign and the digits of the whole dollars survive; '$' and ',' do not. */
  lemma {:induction false} AmountCharsOfSigned(sign: string, n: nat)
    requires sign == "" || sign == "-"
    ensures AmountChars(sign + "$" + Grouped(n)) == sign + NatToString(n)
  {
    AmountCharsConcat(sign + "$", Grouped(n));
    AmountCharsConcat(sign, "$");
    AmountCharsKeepsAll(sign);
    AmountCharsOfGrouped(n);
    assert AmountChars("$") == "";
  }

  /** The digit scan stops exactly where the digits end. */
  lemma {:induction false} DigitsEndOver(s: string, i: nat, j: nat)
    requires i <= j <= |s|
    requires forall k :: i <= k < j ==> IsDigit(s[k])
    requires j == |s| || !IsDigit(s[j])
    ensures DigitsEnd(s, i) == j
    decreases j - i
  {
    if i < j {
      DigitsEndOver(s, i + 1, j);
    }
  }

  /** `DigitsIn` is the value of the slice. */
  lemma {:induction false} DigitsInValue(s: string, i: nat, j: nat)
    requires i <= j <= |s|
    ensures DigitsIn(s, i, j) == DigitsValue(s[i..j])
    decreases j - i
  {
    if i < j {
      DigitsInValue(s, i, j - 1);
      assert s[i..j][..j - i - 1] == s[i..j - 1];
    }
  }

  /** Two digits after the point are a number of hundredths. */
  lemma {:induction false} FractionOfTwo(s: string, i: nat)
    requires i + 2 <= |s|
    ensures FractionIn(s, i, i + 2) == DigitsValue(s[i..i + 2]) as real / 100.0
  {
    var t := s[i..i + 2];
    assert FractionIn(s, i + 1, i + 2) == DigitValue(s[i + 1]) as real / 10.0;
    assert t[..1][..0] == [] && t[..1][0] == s[i] && t[1] == s[i + 1];
    assert DigitsValue(t[..1]) == DigitValue(s[i]);
  }

  /** A run of digits `t` found at `i` in `f` and not followed by a digit is
      scanned whole and read as the value of `t`. */
  lemma {:induction false} DigitRunAt(f: string, i: nat, t: string)
    requires AllDigits(t) && i + |t| <= |f| && f[i..i + |t|] == t
    requires i + |t| == |f| || !IsDigit(f[i + |t|])
    ensures DigitsEnd(f, i) == i + |t| && DigitsIn(f, i, i + |t|) == DigitsValue(t)
  {
    forall k | i <= k < i + |t| ensures IsDigit(f[k]) {
      assert f[k] == t[k - i];
    }
    DigitsEndOver(f, i, i + |t|);
    DigitsInValue(f, i, i + |t|);
  }

  /** digits "." two-digits, starting at `i`, reads back as the amount it spells. */
  lemma {:induction false} ParseDecimalCents(f: string, i: nat, ds: string, dd: string)
    requires |ds| >= 1 && AllDigits(ds) && |dd| == 2 && AllDigits(dd)
    requires i <= |f| && f[i..] == ds + "." + dd
    ensures ParseDecimalAt(f, i) == Num(DigitsValue(ds) as real + DigitsValue(dd) as real / 100.0)
  {
    var e := i + |ds|;
    assert f[i..e] == ds && f[e] == '.' && f[e + 1..] == dd && |f| == e + 3;
    DigitRunAt(f, i, ds);
    DigitRunAt(f, e + 1, dd);
    FractionOfTwo(f, e + 1);
  }

  /** A signed display amount, once filtered, parses to the signed value it spells. */
  lemma {:induction false} ParseSignedCents(negative: bool, ds: string, dd: string)
    requires |ds| >= 1 && AllDigits(ds) && |dd| == 2 && AllDigits(dd)
    ensures var v := DigitsValue(ds) as real + DigitsValue(dd) as real / 100.0;
            ParseFloat((if negative then "-" else "") + ds + "." + dd) == Num(if negative then -v else v)
  {
    var sign: string := if negative then "-" else "";
    var f := sign + ds + "." + dd;
    assert f[|sign|..] == ds + "." + dd;
    ParseDecimalCents(f, |sign|, ds, dd);
    assert f[0] == if negative then '-' else ds[0];
    assert SkipSpaces(f, 0) == 0;
  }

  /** `parseAmount` reads back every displayed amount exactly. */
  lemma {:induction false} ParseFormatCents(c: int)
    ensures ParseAmount(FormatCents(c)) == c as real / 100.0
  {
    var q, r := Abs(c) / 100, Abs(c) % 100;
    AmountCharsOfFormat(c);
    NatToStringDigits(q);
    TwoDigitsValue(r);
    NatToStringValue(q);
    ParseSignedCents(c < 0, NatToString(q), TwoDigits(r));
    assert Abs(c) == 100 * q + r;
  }

  /** `parseAmount(formatCurrency(x))` is `x` rounded to the cent. */
  lemma {:induction false} ParseFormatCurrency(x: real)
    ensures ParseAmount(FormatCurrency(x)) == RoundCents(x) as real / 100.0
  {
    ParseSignedDisplay(x < 0.0, RoundCents(x));
  }

  /** Either sign of a display of `c` cents reads back as `c` cents. */
  lemma {:induction false} ParseSignedDisplay(negative: bool, c: int)
    ensures ParseAmount(SignedCents(negative, c)) == c as real / 100.0
  {
    if negative && c == 0 {
      AmountCharsConcat("-", FormatCents(0));
      AmountCharsOfFormat(0);
      assert AmountChars("-") == "-";
      NatToStringDigits(0);
      TwoDigitsValue(0);
      NatToStringValue(0);
      ParseSignedCents(true, NatToString(0), TwoDigits(0));
      assert "-" + ("" + NatToString(0) + "." + TwoDigits(0)) == "-" + NatToString(0) + "." + TwoDigits(0);
    } else {
      ParseFormatCents(c);
    }
  }
}

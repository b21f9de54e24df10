/**
 * The pieces of Go's `strings` and `strconv` packages the provider relies on:
 * `strings.Split` with a one-character separator, `strconv.Atoi` (its error
 * ignored, as every call site does) and `strconv.Itoa` / `%d` formatting.
 */
module Text {
  import opened Outcomes

  const MinInt: int := -0x8000_0000_0000_0000
  const MaxInt: int := 0x7FFF_FFFF_FFFF_FFFF

  /** Go's `int` on a 64-bit platform. */
  type GoInt = x: int | MinInt <= x <= MaxInt

  /** Number of occurrences of `c` in `s`. */
  function Count(s: string, c: char): nat
  {
    if |s| == 0 then 0 else (if s[0] == c then 1 else 0) + Count(s[1..], c)
  }

  /** `strings.Split(s, string(sep))`: the pieces between separators, never empty. */
  function Split(s: string, sep: char): (parts: seq<string>)
    ensures |parts| >= 1
  {
    if |s| == 0 then [""]
    else
      var rest := Split(s[1..], sep);
      if s[0] == sep then [""] + rest
      else [[s[0]] + rest[0]] + rest[1..]
  }

  /** Split yields one more piece than there are separators, and no piece holds one. */
  lemma {:induction false} SplitShape(s: string, sep: char)
    ensures |Split(s, sep)| == Count(s, sep) + 1
    ensures forall i :: 0 <= i < |Split(s, sep)| ==> sep !in Split(s, sep)[i]
  {
    if |s| > 0 {
      SplitShape(s[1..], sep);
      var rest := Split(s[1..], sep);
      if s[0] != sep {
        assert forall x :: x in [s[0]] + rest[0] ==> x == s[0] || x in rest[0];
      }
    }
  }

  /** A string without the separator splits into itself. */
  lemma {:induction false} SplitWithoutSeparator(s: string, sep: char)
    requires sep !in s
    ensures Split(s, sep) == [s]
  {
    if |s| > 0 {
      assert s[0] in s;
      assert forall x :: x in s[1..] ==> x in s;
      SplitWithoutSeparator(s[1..], sep);
      assert [s[0]] + s[1..] == s;
    }
  }

  /** Joining two separator-free strings with the separator is undone by Split. */
  lemma {:induction false} SplitJoined(a: string, b: string, sep: char)
    requires sep !in a && sep !in b
    ensures Split(a + [sep] + b, sep) == [a, b]
  {
    var s := a + [sep] + b;
    if |a| == 0 {
      assert s == [sep] + b;
      assert s[1..] == b;
      SplitWithoutSeparator(b, sep);
    } else {
      assert a[0] in a;
      assert forall x :: x in a[1..] ==> x in a;
      assert s[1..] == a[1..] + [sep] + b;
      SplitJoined(a[1..], b, sep);
      assert [a[0]] + a[1..] == a;
    }
  }

  /** A separator-free first piece is split off, and the rest splits on its own. */
  lemma {:induction false} SplitAfter(a: string, rest: string, sep: char)
    requires sep !in a
    ensures Split(a + [sep] + rest, sep) == [a] + Split(rest, sep)
  {
    var s := a + [sep] + rest;
    if |a| == 0 {
      assert s == [sep] + rest;
      assert s[1..] == rest;
    } else {
      assert a[0] in a;
      assert forall x :: x in a[1..] ==> x in a;
      assert s[1..] == a[1..] + [sep] + rest;
      SplitAfter(a[1..], rest, sep);
      assert [a[0]] + a[1..] == a;
    }
  }

  /** Two pieces are the text on either side of the one separator. */
  lemma {:induction false} SplitInTwo(s: string, sep: char)
    requires |Split(s, sep)| == 2
    ensures s == Split(s, sep)[0] + [sep] + Split(s, sep)[1]
  {
    var rest := Split(s[1..], sep);
    if s[0] == sep {
      assert rest == [Split(s, sep)[1]];
      SplitShape(s[1..], sep);
      SplitOneIsItself(s[1..], sep);
      assert s == [s[0]] + s[1..];
    } else {
      SplitInTwo(s[1..], sep);
      assert s == [s[0]] + s[1..];
    }
  }

  /** The first piece is the text before the first separator. */
  lemma {:induction false} SplitHead(a: string, r: string, sep: char)
    requires sep !in a && |r| > 0 && r[0] == sep
    ensures Split(a + r, sep)[0] == a
  {
    if |a| == 0 {
      assert a + r == r;
    } else {
      assert a[0] in a;
      assert forall x :: x in a[1..] ==> x in a;
      assert (a + r)[1..] == a[1..] + r;
      SplitHead(a[1..], r, sep);
      assert [a[0]] + a[1..] == a;
    }
  }

  lemma {:induction false} SplitOneIsItself(s: string, sep: char)
    requires |Split(s, sep)| == 1
    ensures Split(s, sep) == [s]
  {
    if |s| > 0 {
      if s[0] != sep {
        SplitOneIsItself(s[1..], sep);
        assert s == [s[0]] + s[1..];
      }
    }
  }

  // ----- decimal digits -----

  predicate IsDigit(c: char)
  {
    '0' <= c <= '9'
  }

  predicate AllDigits(s: string)
  {
    forall i :: 0 <= i < |s| ==> IsDigit(s[i])
  }

  function DigitChar(d: nat): (c: char)
    requires d < 10
    ensures IsDigit(c)
  {
    (48 + d) as char
  }

  /** The value of a non-empty run of decimal digits, most significant first. */
  function DecimalValue(s: string): nat
    requires AllDigits(s)
  {
    if |s| == 0 then 0
    else DecimalValue(s[..|s| - 1]) * 10 + (s[|s| - 1] as int - 48)
  }

  /** The shortest decimal representation of `n`. */
  function Digits(n: nat): (s: string)
    ensures |s| >= 1 && AllDigits(s)
  {
    if n < 10 then [DigitChar(n)] else Digits(n / 10) + [DigitChar(n % 10)]
  }

  lemma {:induction false} DigitsValue(n: nat)
    ensures DecimalValue(Digits(n)) == n
  {
    if n >= 10 {
      DigitsValue(n / 10);
      var s := Digits(n);
      assert s[..|s| - 1] == Digits(n / 10);
    }
  }

  /** `strconv.Itoa(n)`, also what `fmt.Sprintf("%d", n)` prints. */
  function Itoa(n: int): (s: string)
    ensures |s| >= 1 && '/' !in s
  {
    if n < 0 then "-" + Digits(-n) else Digits(n)
  }

  const MaxUint64: int := 0xFFFF_FFFF_FFFF_FFFF

  /** `s` without one leading `+` or `-`. */
  function Unsigned(s: string): string
  {
    if |s| > 0 && (s[0] == '-' || s[0] == '+') then s[1..] else s
  }

  /**
   * The syntax `strconv.ParseInt(s, 10, 0)` accepts: an optional `+` or `-`
   * followed by at least one decimal digit; its unbounded value.
   */
  function ParseDecimal(s: string): Option<int>
  {
    var body := Unsigned(s);
    if |body| == 0 || !AllDigits(body) then None
    else
      var magnitude: int := DecimalValue(body);
      Some(if s[0] == '-' then -magnitude else magnitude)
  }

  /** The length of the run of digits `s` starts with. */
  function DigitRun(s: string): (k: nat)
    ensures k <= |s| && AllDigits(s[..k])
    ensures k < |s| ==> !IsDigit(s[k])
  {
    if |s| == 0 || !IsDigit(s[0]) then 0
    else
      var k := 1 + DigitRun(s[1..]);
      assert forall i :: 1 <= i < k ==> s[..k][i] == s[1..][..k - 1][i - 1];
      k
  }

  /**
   * The digits after the sign, up to the first non-digit, already exceed
   * 2^64 - 1: `ParseUint` reads them in order and stops with a range error
   * before it reaches any character that is not a digit.
   */
  predicate OverflowsFirst(s: string)
  {
    var body := Unsigned(s);
    DecimalValue(body[..DigitRun(body)]) > MaxUint64
  }

  /** Out-of-range values saturate at the nearest bound, as ParseInt reports them. */
  function Clamp(v: int): GoInt
  {
    if v < MinInt then MinInt else if v > MaxInt then MaxInt else v
  }

  /** `n, _ := strconv.Atoi(s)`; what it yields is stated in full by `AtoiSpec`. */
  function Atoi(s: string): (n: GoInt)
    ensures |s| == 0 || !(s[0] == '-' || s[0] == '+' || IsDigit(s[0])) ==> n == 0
  {
    match ParseDecimal(s)
    case Some(v) => Clamp(v)
    case None => if OverflowsFirst(s) then (if s[0] == '-' then MinInt else MaxInt) else 0
  }

  /**
   * A decimal integer gives its value, saturated at the bounds of a signed
   * 64-bit integer. A string whose leading digit run (after the sign) is above
   * 2^64 - 1 saturates by its sign, whatever follows the run. Any other string
   * gives 0.
   */
  lemma AtoiSpec(s: string)
    ensures ParseDecimal(s).None? && !OverflowsFirst(s) ==> Atoi(s) == 0
    ensures ParseDecimal(s).Some? && MinInt <= ParseDecimal(s).value <= MaxInt ==>
      Atoi(s) == ParseDecimal(s).value
    ensures ParseDecimal(s).Some? && ParseDecimal(s).value > MaxInt ==> Atoi(s) == MaxInt
    ensures ParseDecimal(s).Some? && ParseDecimal(s).value < MinInt ==> Atoi(s) == MinInt
    ensures OverflowsFirst(s) ==> Atoi(s) == if |s| > 0 && s[0] == '-' then MinInt else MaxInt
  {
    if ParseDecimal(s).Some? {
      assert Unsigned(s)[..|Unsigned(s)|] == Unsigned(s);
    }
  }

  /**
   * A digit run above 2^64 - 1 followed by anything that is not a digit
   * saturates instead of failing: the range error comes before the bad character is read.
   */
  lemma AtoiOverflowBeforeBadCharacter(run: string, rest: string)
    requires AllDigits(run) && DecimalValue(run) > MaxUint64
    requires |rest| > 0 && !IsDigit(rest[0])
    ensures Atoi(run + rest) == MaxInt
    ensures Atoi("-" + run + rest) == MinInt
  {
    UnsignedOfDigitLed(run, rest);
    SaturatedBySign(run + rest, run, rest);
    UnsignedOfNegative(run + rest);
    assert "-" + run + rest == "-" + (run + rest);
    SaturatedBySign("-" + (run + rest), run, rest);
  }

  lemma UnsignedOfDigitLed(run: string, rest: string)
    requires AllDigits(run) && |run| > 0
    ensures Unsigned(run + rest) == run + rest && (run + rest)[0] != '-'
  {
    assert (run + rest)[0] == run[0];
  }

  lemma UnsignedOfNegative(body: string)
    ensures Unsigned("-" + body) == body && ("-" + body)[0] == '-'
  {
    assert ("-" + body)[1..] == body;
  }

  /** A string whose digits after the sign pass 2^64 - 1 before a non-digit saturates by its sign. */
  lemma SaturatedBySign(s: string, run: string, rest: string)
    requires Unsigned(s) == run + rest
    requires AllDigits(run) && DecimalValue(run) > MaxUint64
    requires |rest| > 0 && !IsDigit(rest[0])
    ensures |s| > 0 && Atoi(s) == if s[0] == '-' then MinInt else MaxInt
  {
    OverflowingBody(run, rest);
    assert ParseDecimal(s).None? && OverflowsFirst(s);
    AtoiSpec(s);
  }

  /** A digit run above 2^64 - 1, then a non-digit: not a decimal, and the run is out of range first. */
  lemma OverflowingBody(run: string, rest: string)
    requires AllDigits(run) && DecimalValue(run) > MaxUint64
    requires |rest| > 0 && !IsDigit(rest[0])
    ensures |run| > 0 && !AllDigits(run + rest)
    ensures DecimalValue((run + rest)[..DigitRun(run + rest)]) > MaxUint64
  {
    DigitRunStops(run, rest);
    assert (run + rest)[|run|] == rest[0];
    assert (run + rest)[..|run|] == run;
  }

  /** Twenty nines then `x`: 9223372036854775807, where a short run such as `12x` gives 0. */
  lemma AtoiTwentyNinesThenLetter()
    ensures Atoi(seq(20, _ => '9') + "x") == MaxInt
  {
    var run := seq(20, _ => '9');
    NinesValue(run);
    assert Pow10(20) == 100_000_000_000_000_000_000 by {
      assert Pow10(5) == 100_000;
      Pow10Add(5, 5);
      Pow10Add(10, 10);
    }
    AtoiOverflowBeforeBadCharacter(run, "x");
  }

  /** A short digit run followed by a letter is a syntax error: 0. */
  lemma AtoiShortRunThenLetter()
    ensures Atoi("12x") == 0
  {
    assert !IsDigit("12x"[2]);
    assert "12" + "x" == "12x";
    DigitRunStops("12", "x");
    assert "12x"[..2] == "12";
    assert DecimalValue("12") == 12 by {
      assert "12"[..1] == "1";
    }
  }

  function Pow10(k: nat): nat
  {
    if k == 0 then 1 else 10 * Pow10(k - 1)
  }

  lemma {:induction false} Pow10Add(a: nat, b: nat)
    ensures Pow10(a + b) == Pow10(a) * Pow10(b)
  {
    if a > 0 {
      Pow10Add(a - 1, b);
    }
  }

  lemma {:induction false} NinesValue(s: string)
    requires forall i :: 0 <= i < |s| ==> s[i] == '9'
    ensures AllDigits(s) && DecimalValue(s) == Pow10(|s|) - 1
  {
    if |s| > 0 {
      NinesValue(s[..|s| - 1]);
    }
  }

  lemma {:induction false} DigitRunStops(run: string, rest: string)
    requires AllDigits(run) && |rest| > 0 && !IsDigit(rest[0])
    ensures DigitRun(run + rest) == |run|
  {
    if |run| > 0 {
      assert (run + rest)[1..] == run[1..] + rest;
      DigitRunStops(run[1..], rest);
    } else {
      assert run + rest == rest;
    }
  }

  /** Formatting and parsing back gives the same integer. */
  lemma AtoiItoa(n: GoInt)
    ensures Atoi(Itoa(n)) == n
  {
    ParseItoa(n);
  }

  lemma ParseItoa(n: int)
    ensures ParseDecimal(Itoa(n)) == Some(n)
  {
    var s := Itoa(n);
    if n < 0 {
      var d := Digits(-n);
      assert s == ['-'] + d;
      assert s[0] == '-' && s[1..] == d;
      DigitsValue(-n);
    } else {
      var d := Digits(n);
      assert s == d && IsDigit(s[0]);
      DigitsValue(n);
    }
  }

  /** Distinct integers print differently. */
  lemma ItoaInjective(m: GoInt, n: GoInt)
    requires Itoa(m) == Itoa(n)
    ensures m == n
  {
    AtoiItoa(m);
    AtoiItoa(n);
  }
}

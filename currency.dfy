/** `parseCurrency`: strip every character but digits, ',', '.' and '-',
    turn the first ',' into '.', read the longest decimal prefix as
    `parseFloat` does, and fall back to 0 when there is none. */
module Currency {
  import opened Types
  import opened Seqs

  predicate IsDigit(c: char) {
    '0' <= c <= '9'
  }

  /** The characters the class `[\d,.-]` matches. */
  predicate Kept(c: char) {
    IsDigit(c) || c == ',' || c == '.' || c == '-'
  }

  function KeptChar(): char -> bool {
    (c: char) => Kept(c)
  }

  /** `value.replace(/[^\d,.-]/g, '')`. */
  function Clean(s: string): string {
    Filter(KeptChar(), s)
  }

  /** Cleaning keeps every digit, ',', '.' and '-' of the input, as often as
      it occurs and in the input's order, and drops everything else;
      cleaned text is left alone by a second cleaning. */
  lemma {:induction false} CleanProperties(s: string, t: string, c: char)
    ensures c in Clean(s) <==> c in s && Kept(c)
    ensures multiset(Clean(s))[c] == if Kept(c) then multiset(s)[c] else 0
    ensures Clean(s + t) == Clean(s) + Clean(t)
    ensures Clean(Clean(s)) == Clean(s)
    ensures Clean(s) == s <==> forall i :: 0 <= i < |s| ==> Kept(s[i])
  {
    FilterCount(KeptChar(), s, c);
    FilterConcat(KeptChar(), s, t);
    var r := Clean(s);
    assert forall i :: 0 <= i < |r| ==> Kept(r[i]) by {
      forall i | 0 <= i < |r| ensures Kept(r[i]) {
        assert r[i] in r;
      }
    }
    FilterKeepsAll(KeptChar(), r);
    if forall i :: 0 <= i < |s| ==> Kept(s[i]) {
      FilterKeepsAll(KeptChar(), s);
    }
  }

  /** The position of the first ',' or -1. */
  function FirstComma(s: string): (k: int)
    ensures -1 <= k < |s|
    ensures k >= 0 ==> s[k] == ',' && ',' !in s[..k]
    ensures k == -1 <==> ',' !in s
  {
    if s == [] then -1
    else if s[0] == ',' then 0
    else
      var k := FirstComma(s[1..]);
      assert k >= 0 ==> s[..k + 1] == [s[0]] + s[1..][..k];
      assert s == [s[0]] + s[1..];
      if k < 0 then -1 else k + 1
  }

  /** `cleaned.replace(',', '.')`: a string pattern replaces its first
      occurrence only. */
  function Normalize(s: string): (r: string)
    ensures |r| == |s|
    ensures ',' !in s ==> r == s
    ensures ',' in s ==> r == s[FirstComma(s) := '.']
  {
    var k := FirstComma(s);
    if k < 0 then s else s[..k] + "." + s[k + 1..]
  }

  /** Only the first comma becomes a point: every later comma remains, and
      no other character changes. */
  lemma LaterCommasRemain(s: string)
    requires ',' in s
    ensures var k := FirstComma(s);
      && Normalize(s)[..k] == s[..k] && Normalize(s)[k] == '.' && Normalize(s)[k + 1..] == s[k + 1..]
  {
  }

  /** Normalising removes exactly one comma. */
  lemma OneCommaReplaced(s: string)
    requires ',' in s
    ensures multiset(Normalize(s))[','] + 1 == multiset(s)[',']
  {
    var k := FirstComma(s);
    assert s == s[..k] + [','] + s[k + 1..];
    assert Normalize(s) == s[..k] + ['.'] + s[k + 1..];
  }

  // ---------------------------------------------------------------------
  // parseFloat on the cleaned alphabet

  /** The length of the run of digits that starts the string. */
  function LeadingDigits(s: string): (n: nat)
    ensures n <= |s|
    ensures forall i :: 0 <= i < n ==> IsDigit(s[i])
    ensures n < |s| ==> !IsDigit(s[n])
  {
    if s == [] || !IsDigit(s[0]) then 0 else 1 + LeadingDigits(s[1..])
  }

  /** The value of a string of decimal digits, most significant first. */
  function DigitValue(s: string): nat
    requires forall i :: 0 <= i < |s| ==> IsDigit(s[i])
  {
    if s == [] then 0
    else
      assert IsDigit(s[|s| - 1]);
      DigitValue(s[..|s| - 1]) * 10 + (s[|s| - 1] as int - '0' as int)
  }

  function Pow10(n: nat): (p: nat)
    ensures p >= 1
  {
    if n == 0 then 1 else 10 * Pow10(n - 1)
  }

  /** A decimal number as `parseFloat` reads it: `mantissa` divided by ten
      to the power `scale`, the scale being the number of fraction digits. */
  datatype Decimal = Decimal(mantissa: int, scale: nat)

  function Value(d: Decimal): real {
    d.mantissa as real / Pow10(d.scale) as real
  }

  /** The integer digits `parseFloat` reads: the leading run of digits. */
  function IntDigits(t: string): (d: string)
    ensures forall i :: 0 <= i < |d| ==> IsDigit(d[i])
    ensures |d| <= |t| && d == t[..|d|]
  {
    t[..LeadingDigits(t)]
  }

  /** The fraction digits `parseFloat` reads: the run of digits after a
      point that directly follows the integer digits, if there is one. */
  function FracDigits(t: string): (d: string)
    ensures forall i :: 0 <= i < |d| ==> IsDigit(d[i])
    ensures |d| > 0 ==> |IntDigits(t)| + 1 + |d| <= |t| && d == t[|IntDigits(t)| + 1..][..|d|]
  {
    var n := LeadingDigits(t);
    if n < |t| && t[n] == '.' then t[n + 1..][..LeadingDigits(t[n + 1..])] else ""
  }

  /** The unsigned part `parseFloat` reads: the integer digits, then an
      optional '.' followed by fraction digits; None when neither part has a
      digit. Whatever follows is ignored. */
  function ParseUnsigned(t: string): (r: Option<Decimal>)
    ensures r.Some? ==> exists i :: 0 <= i < |t| && IsDigit(t[i])
  {
    var whole, frac := IntDigits(t), FracDigits(t);
    if whole == "" && frac == "" then None
    else
      assert whole != "" ==> t[0] == whole[0];
      assert whole == "" ==> t[1] == frac[0];
      assert forall i :: 0 <= i < |whole + frac| ==> IsDigit((whole + frac)[i]);
      Some(Decimal(DigitValue(whole + frac), |frac|))
  }

  /** `parseFloat` on text that holds no blanks, '+', exponent or
      'Infinity': an optional '-' before the unsigned part. */
  function ParseDecimal(s: string): (r: Option<Decimal>)
    ensures r.Some? ==> exists i :: 0 <= i < |s| && IsDigit(s[i])
  {
    if |s| > 0 && s[0] == '-' then
      var u := ParseUnsigned(s[1..]);
      if u.None? then None
      else
        assert exists i :: 1 <= i < |s| && IsDigit(s[i]) by {
          var i :| 0 <= i < |s[1..]| && IsDigit(s[1..][i]);
          assert s[i + 1] == s[1..][i];
        }
        Some(Decimal(-u.value.mantissa, u.value.scale))
    else ParseUnsigned(s)
  }

  /** `parseFloat(normalized) || 0`: NaN (and -0) become 0. */
  function ParseCurrency(value: string): (r: real)
    ensures (forall i :: 0 <= i < |value| ==> !IsDigit(value[i])) ==> r == 0.0
  {
    var parsed := ParseDecimal(Normalize(Clean(value)));
    if parsed.None? then 0.0
    else
      NoDigitsParseToZero(value);
      Value(parsed.value)
  }

  /** Cleaning and normalising add no digit: a digit of the normalised text
      is a digit of the input. */
  lemma NoDigitsParseToZero(value: string)
    ensures (exists i :: 0 <= i < |Normalize(Clean(value))| && IsDigit(Normalize(Clean(value))[i])) ==>
      exists i :: 0 <= i < |value| && IsDigit(value[i])
  {
    var c := Clean(value);
    var r := Normalize(c);
    if i :| 0 <= i < |r| && IsDigit(r[i]) {
      assert r[i] == c[i];
      assert c[i] in c;
      assert c[i] in value;
    }
  }

  /** A run of digits reads as its whole-number value. */
  lemma WholeNumber(d: string)
    requires |d| > 0 && forall i :: 0 <= i < |d| ==> IsDigit(d[i])
    ensures ParseDecimal(d) == Some(Decimal(DigitValue(d), 0))
  {
    assert LeadingDigits(d) == |d|;
    assert d[0] != '-';
    assert IntDigits(d) == d;
    assert FracDigits(d) == "";
    assert d + "" == d;
  }

  /** Integer digits, a point and fraction digits read as the digits'
      value scaled by the fraction's length; anything after the fraction
      that is not a digit is ignored. */
  lemma PointFraction(a: string, b: string, tail: string)
    requires |a| > 0 && forall i :: 0 <= i < |a| ==> IsDigit(a[i])
    requires forall i :: 0 <= i < |b| ==> IsDigit(b[i])
    requires tail == [] || !IsDigit(tail[0])
    ensures ParseDecimal(a + "." + b + tail) == Some(Decimal(DigitValue(a + b), |b|))
  {
    var t := a + "." + b + tail;
    PointFractionParts(a, b, tail);
    assert ParseDecimal(t) == ParseUnsigned(t);
  }

  /** Where the integer and the fraction digits of such a text lie. */
  lemma PointFractionParts(a: string, b: string, tail: string)
    requires |a| > 0 && forall i :: 0 <= i < |a| ==> IsDigit(a[i])
    requires forall i :: 0 <= i < |b| ==> IsDigit(b[i])
    requires tail == [] || !IsDigit(tail[0])
    ensures var t := a + "." + b + tail; IntDigits(t) == a && FracDigits(t) == b && t[0] != '-'
  {
    var t := a + "." + b + tail;
    var u := b + tail;
    assert t == a + (['.'] + u);
    LeadingRun(a, ['.'] + u);
    LeadingRun(b, tail);
    assert IntDigits(t) == a;
    assert t[|a| + 1..] == u;
    assert u[..|b|] == b;
  }

  /** A run of digits followed by a non-digit is the leading run. */
  lemma {:induction false} LeadingRun(a: string, tail: string)
    requires forall i :: 0 <= i < |a| ==> IsDigit(a[i])
    requires tail == [] || !IsDigit(tail[0])
    ensures LeadingDigits(a + tail) == |a|
  {
    if a != [] {
      assert (a + tail)[1..] == a[1..] + tail;
      LeadingRun(a[1..], tail);
    } else {
      assert a + tail == tail;
    }
  }

  /** An amount with a decimal comma: "12,50" is 12.5. */
  lemma DecimalComma()
    ensures ParseCurrency("12,50") == 12.5
  {
    ExampleSteps();
    ParsedAs("12,50", "12,50", "12.50", Decimal(1250, 2));
    ExampleValues();
  }

  /** The point is read as the decimal separator, so a thousands point
      followed by a decimal comma ends the number at the comma: "1.234,56"
      reads as 1.234. */
  lemma ThousandsPointEndsNumber()
    ensures ParseCurrency("1.234,56") == 1.234
  {
    ExampleSteps();
    ParsedAs("1.234,56", "1.234,56", "1.234.56", Decimal(1234, 3));
    ExampleValues();
  }

  lemma ExampleValues()
    ensures Value(Decimal(1250, 2)) == 12.5 && Value(Decimal(1234, 3)) == 1.234
  {
    assert Pow10(2) == 100 && Pow10(3) == 1000;
  }

  /** The intermediate texts and numbers of the two examples. */
  lemma ExampleSteps()
    ensures Clean("12,50") == "12,50" && Normalize("12,50") == "12.50"
    ensures ParseDecimal("12.50") == Some(Decimal(1250, 2))
    ensures Clean("1.234,56") == "1.234,56" && Normalize("1.234,56") == "1.234.56"
    ensures ParseDecimal("1.234.56") == Some(Decimal(1234, 3))
  {
    ExampleTexts();
    ExampleNumbers();
  }

  lemma ExampleTexts()
    ensures Clean("12,50") == "12,50" && Normalize("12,50") == "12.50"
    ensures Clean("1.234,56") == "1.234,56" && Normalize("1.234,56") == "1.234.56"
  {
    CleanKeepsKept("12,50");
    CleanThousands();
    NormalizeExamples();
  }

  lemma CleanThousands()
    ensures Clean("1.234,56") == "1.234,56"
  {
    CleanKeepsKept("1.234,56");
  }

  lemma NormalizeExamples()
    ensures Normalize("12,50") == "12.50" && Normalize("1.234,56") == "1.234.56"
  {
    NormalizeCents();
    NormalizeThousands();
  }

  lemma NormalizeCents()
    ensures Normalize("12,50") == "12.50"
  {
    CommaAt("12", "50");
    assert "12" + "," + "50" == "12,50";
    assert "12" + "." + "50" == "12.50";
  }

  lemma NormalizeThousands()
    ensures Normalize("1.234,56") == "1.234.56"
  {
    CommaAt("1.234", "56");
    assert "1.234" + "," + "56" == "1.234,56";
    assert "1.234" + "." + "56" == "1.234.56";
  }

  lemma CleanKeepsKept(s: string)
    requires forall i :: 0 <= i < |s| ==> Kept(s[i])
    ensures Clean(s) == s
  {
    FilterKeepsAll(KeptChar(), s);
  }

  /** The first comma is the one after a comma-free prefix. */
  lemma CommaAt(a: string, b: string)
    requires ',' !in a
    ensures Normalize(a + "," + b) == a + "." + b
  {
    var s := a + "," + b;
    var k := FirstComma(s);
    assert s[|a|] == ',';
    assert s[..|a|] == a && s[|a| + 1..] == b;
  }

  lemma ExampleNumbers()
    ensures ParseDecimal("12.50") == Some(Decimal(1250, 2))
    ensures ParseDecimal("1.234.56") == Some(Decimal(1234, 3))
  {
    DigitsExample();
    PointFraction("12", "50", "");
    assert "12" + "." + "50" + "" == "12.50";
    PointFraction("1", "234", ".56");
    assert "1" + "." + "234" + ".56" == "1.234.56";
  }

  /** The three steps of `parseCurrency` in a row. */
  lemma ParsedAs(value: string, cleaned: string, normalized: string, d: Decimal)
    requires Clean(value) == cleaned && Normalize(cleaned) == normalized
    requires ParseDecimal(normalized) == Some(d)
    ensures ParseCurrency(value) == Value(d)
  {
  }

  lemma DigitsExample()
    ensures DigitValue("12" + "50") == 1250 && DigitValue("1" + "234") == 1234
  {
    assert "12" + "50" == "1250" && "1" + "234" == "1234";
    assert "1250"[..3] == "125" && "125"[..2] == "12" && "12"[..1] == "1";
    assert "1234"[..3] == "123" && "123"[..2] == "12";
  }
}

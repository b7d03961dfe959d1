/**
 * JavaScript's global `parseInt(string, radix)`, as laid down in the
 * ECMAScript Language Specification (ECMA-262, the `parseInt` function of the
 * global object), for the two ways the registration form calls it: with radix
 * 10 (the age rule) and with the radix omitted (the insert mapping). The result
 * is the exact mathematical integer; see the README for the rounding to a
 * double that is not modelled.
 */
module JsParseInt {
  import opened JsString

  /** A `parseInt` result: `NaN`, or an integral number (`-0` is folded into 0). */
  datatype ParsedInt = NaN | Num(value: int)

  /** The radix argument: the literal 10, or omitted (`undefined`). */
  datatype RadixArg = Radix10 | Omitted

  /**
   * The value of a digit in radices up to 36, or 36 for a character that is a
   * digit in no radix.
   */
  function DigitValue(c: char): (d: nat)
    ensures d <= 36
    ensures d < 10 <==> '0' <= c <= '9'
    ensures d == 0 <==> c == '0'
  {
    if '0' <= c <= '9' then c as int - '0' as int
    else if 'a' <= c <= 'z' then c as int - 'a' as int + 10
    else if 'A' <= c <= 'Z' then c as int - 'A' as int + 10
    else 36
  }

  predicate IsDigit(c: char, radix: nat)
  {
    DigitValue(c) < radix
  }

  /** The longest prefix of `s` made of digits of the given radix. */
  function LeadingDigits(s: string, radix: nat): (z: string)
    ensures |z| <= |s| && z == s[..|z|]
    ensures forall i :: 0 <= i < |z| ==> IsDigit(z[i], radix)
    ensures |z| < |s| ==> !IsDigit(s[|z|], radix)
  {
    if s != [] && IsDigit(s[0], radix) then [s[0]] + LeadingDigits(s[1..], radix) else []
  }

  /** The value of a digit string read most significant digit first. */
  function DigitsValue(ds: string, radix: nat): nat
  {
    if ds == [] then 0 else DigitsValue(ds[..|ds| - 1], radix) * radix + DigitValue(ds[|ds| - 1])
  }

  /** True when the (trimmed) input carries a leading minus sign. */
  predicate IsNegative(t: string)
  {
    t != [] && t[0] == '-'
  }

  /** The trimmed input with one leading sign character removed. */
  function Unsigned(t: string): string
  {
    if t != [] && (t[0] == '+' || t[0] == '-') then t[1..] else t
  }

  /** With the radix omitted, a "0x" or "0X" prefix selects radix 16. */
  predicate HasHexPrefix(u: string)
  {
    |u| >= 2 && u[0] == '0' && (u[1] == 'x' || u[1] == 'X')
  }

  /**
   * `parseInt(s, radix)`. A number is read only from a digit at the start of
   * the input once white space and one sign are skipped; a negative number
   * needs the minus sign and a positive one its absence.
   */
  function ParseInt(s: string, radix: RadixArg): (r: ParsedInt)
    ensures r.Num? ==> LeadingDigits(Unsigned(TrimStart(s)), 10) != []
    ensures r.Num? && r.value < 0 ==> IsNegative(TrimStart(s))
    ensures r.Num? && r.value > 0 ==> !IsNegative(TrimStart(s))
    ensures radix == Radix10 || !HasHexPrefix(Unsigned(TrimStart(s))) ==>
      (r.NaN? <==> LeadingDigits(Unsigned(TrimStart(s)), 10) == [])
  {
    var t := TrimStart(s);
    var u := Unsigned(t);
    var hex := radix == Omitted && HasHexPrefix(u);
    var r := if hex then 16 else 10;
    var z := LeadingDigits(if hex then u[2..] else u, r);
    if z == [] then NaN
    else
      var v: int := DigitsValue(z, r);
      if IsNegative(t) then Num(-v) else Num(v)
  }

  /** The refinement in the age rule: `!isNaN(parseInt(val, 10)) && parseInt(val, 10) > 0`. */
  predicate IsPositiveInteger(s: string)
  {
    var p := ParseInt(s, Radix10);
    p.Num? && p.value > 0
  }

  /** A digit string has a positive value exactly when one of its digits is not zero. */
  lemma {:induction false} DigitsValuePositive(ds: string, radix: nat)
    requires radix > 0
    ensures DigitsValue(ds, radix) > 0 <==> exists i :: 0 <= i < |ds| && DigitValue(ds[i]) != 0
  {
    if ds != [] {
      var init := ds[..|ds| - 1];
      DigitsValuePositive(init, radix);
      if DigitsValue(init, radix) > 0 {
        var i :| 0 <= i < |init| && DigitValue(init[i]) != 0;
        assert ds[i] == init[i];
      } else if DigitValue(ds[|ds| - 1]) == 0 {
        forall i | 0 <= i < |ds| ensures DigitValue(ds[i]) == 0 {
          if i < |ds| - 1 {
            assert ds[i] == init[i];
          }
        }
      }
    }
  }

  /**
   * The age rule, told without `parseInt`: after leading white space the input
   * has no minus sign, and after an optional sign it starts with a run of decimal
   * digits that is not all zeros. Whatever follows that run is ignored.
   */
  lemma PositiveIntegerIff(s: string)
    ensures IsPositiveInteger(s) <==>
      var t := TrimStart(s);
      var z := LeadingDigits(Unsigned(t), 10);
      !IsNegative(t) && exists i :: 0 <= i < |z| && z[i] != '0'
  {
    var t := TrimStart(s);
    var z := LeadingDigits(Unsigned(t), 10);
    var v: int := DigitsValue(z, 10);
    assert ParseInt(s, Radix10) == if z == [] then NaN else if IsNegative(t) then Num(-v) else Num(v);
    DigitsValuePositive(z, 10);
    if exists i :: 0 <= i < |z| && z[i] != '0' {
      var i :| 0 <= i < |z| && z[i] != '0';
      assert DigitValue(z[i]) != 0;
    }
    if exists i :: 0 <= i < |z| && DigitValue(z[i]) != 0 {
      var i :| 0 <= i < |z| && DigitValue(z[i]) != 0;
      assert z[i] != '0';
    }
  }

  /**
   * On every input the age rule accepts, `parseInt` without a radix (which would
   * read "0x…" as hexadecimal) gives the same number as `parseInt` with radix 10:
   * an input with a hexadecimal prefix reads as 0 in radix 10 and is rejected.
   */
  lemma OmittedRadixAgreesOnPositive(s: string)
    requires IsPositiveInteger(s)
    ensures ParseInt(s, Omitted) == ParseInt(s, Radix10)
  {
    HexPrefixReadsZero(Unsigned(TrimStart(s)));
    assert DigitsValue("0", 10) == 0;
  }

  /** In radix 10 a "0x" prefix reads as the single digit 0. */
  lemma HexPrefixReadsZero(u: string)
    ensures HasHexPrefix(u) ==> LeadingDigits(u, 10) == "0"
  {
    if HasHexPrefix(u) {
      assert LeadingDigits(u[1..], 10) == [];
      assert "0"[..0] == [];
    }
  }

  /** So the age rule rejects every input whose digits, after white space and sign, start with "0x". */
  lemma HexPrefixRejected(s: string)
    ensures HasHexPrefix(Unsigned(TrimStart(s))) ==> !IsPositiveInteger(s)
  {
    HexPrefixReadsZero(Unsigned(TrimStart(s)));
    PositiveIntegerIff(s);
  }

  /** The decimal numeral of a natural number, most significant digit first. */
  function Decimal(n: nat): (s: string)
    ensures |s| >= 1 && (|s| == 1 <==> n < 10)
    ensures forall i :: 0 <= i < |s| ==> '0' <= s[i] <= '9'
    ensures n > 0 ==> s[0] != '0'
  {
    if n < 10 then ['0' + n as char] else Decimal(n / 10) + ['0' + (n % 10) as char]
  }

  lemma {:induction false} DecimalValue(n: nat)
    ensures DigitsValue(Decimal(n), 10) == n
  {
    var s := Decimal(n);
    if n >= 10 {
      DecimalValue(n / 10);
      assert s[..|s| - 1] == Decimal(n / 10);
    } else {
      assert s[..|s| - 1] == [];
    }
  }

  lemma {:induction false} LeadingDigitsOfDigits(s: string)
    requires forall i :: 0 <= i < |s| ==> '0' <= s[i] <= '9'
    ensures LeadingDigits(s, 10) == s
  {
    if s != [] {
      LeadingDigitsOfDigits(s[1..]);
    }
  }

  /**
   * Round trip with the numeral printer: the decimal numeral of every natural
   * number parses back to that number under both radix arguments, and the age
   * rule accepts it exactly when the number is positive.
   */
  lemma DecimalRoundTrip(n: nat)
    ensures ParseInt(Decimal(n), Radix10) == Num(n)
    ensures ParseInt(Decimal(n), Omitted) == Num(n)
    ensures IsPositiveInteger(Decimal(n)) <==> n > 0
  {
    var s := Decimal(n);
    assert !HasHexPrefix(s);
    DecimalValue(n);
    ParseDigitString(s, Radix10);
    ParseDigitString(s, Omitted);
  }

  /** A non-empty string of decimal digits without a hexadecimal prefix reads as its value. */
  lemma ParseDigitString(s: string, radix: RadixArg)
    requires s != [] && forall i :: 0 <= i < |s| ==> '0' <= s[i] <= '9'
    ensures ParseInt(s, radix) == Num(DigitsValue(s, 10))
  {
    assert !IsJsWhiteSpace(s[0]);
    assert !HasHexPrefix(s) by {
      if |s| >= 2 {
        assert '0' <= s[1] <= '9';
      }
    }
    assert TrimStart(s) == s;
    assert Unsigned(s) == s;
    LeadingDigitsOfDigits(s);
  }
}

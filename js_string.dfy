/**
 * The two facts about JavaScript strings that the registration form depends on:
 * `length` counts UTF-16 code units, and `parseInt` skips a fixed set of
 * white-space characters. A JavaScript string is modelled as a Dafny `string`
 * (a sequence of Unicode scalar values).
 */
module JsString {

  /** Number of UTF-16 code units needed for one scalar value. */
  function CodeUnits(c: char): (n: nat)
    ensures n == 1 || n == 2
    ensures n == 2 <==> c as int >= 0x1_0000
  {
    if c as int >= 0x1_0000 then 2 else 1
  }

  /** The value of JavaScript's `s.length`: the number of UTF-16 code units of `s`. */
  function Utf16Length(s: string): (n: nat)
    ensures n == 0 <==> s == []
    ensures s != [] ==> n >= CodeUnits(s[0])
  {
    if s == [] then 0 else CodeUnits(s[0]) + Utf16Length(s[1..])
  }

  /** True when every character of `s` lies in the Basic Multilingual Plane. */
  predicate IsBmp(s: string)
  {
    forall i :: 0 <= i < |s| ==> s[i] as int < 0x1_0000
  }

  /** A UTF-16 length is between one and two code units per character. */
  lemma {:induction false} Utf16LengthBounds(s: string)
    ensures |s| <= Utf16Length(s) <= 2 * |s|
    ensures IsBmp(s) <==> Utf16Length(s) == |s|
  {
    if s != [] {
      Utf16LengthBounds(s[1..]);
      if IsBmp(s) {
        assert IsBmp(s[1..]) by {
          forall i | 0 <= i < |s[1..]| ensures s[1..][i] as int < 0x1_0000 {
            assert s[1..][i] == s[i + 1];
          }
        }
      }
      if Utf16Length(s) == |s| {
        assert CodeUnits(s[0]) == 1 && Utf16Length(s[1..]) == |s[1..]|;
        forall i | 0 <= i < |s| ensures s[i] as int < 0x1_0000 {
          if i > 0 {
            assert s[i] == s[1..][i - 1];
          }
        }
      }
    }
  }

  /**
   * `s.length >= 2` in characters: either two characters, or a single character
   * outside the Basic Multilingual Plane (an emoji, say), which JavaScript counts twice.
   */
  lemma AtLeastTwoCodeUnits(s: string)
    ensures Utf16Length(s) >= 2 <==> |s| >= 2 || (|s| == 1 && s[0] as int >= 0x1_0000)
  {
    Utf16LengthBounds(s);
    if |s| == 1 {
      assert Utf16Length(s) == CodeUnits(s[0]) + Utf16Length(s[1..]);
      assert s[1..] == [];
    }
  }

  /**
   * `StrWhiteSpaceChar` of the ECMAScript Language Specification (ECMA-262):
   * WhiteSpace (tab, vertical tab, form feed, zero-width no-break space and every
   * character of Unicode category Zs) or LineTerminator (line feed, carriage
   * return, line separator, paragraph separator).
   */
  predicate IsJsWhiteSpace(c: char)
  {
    || c == '\t' || c == '\U{000B}' || c == '\U{000C}' || c == '\U{FEFF}'
    || c == ' ' || c == '\U{00A0}' || c == '\U{1680}'
    || ('\U{2000}' <= c <= '\U{200A}')
    || c == '\U{202F}' || c == '\U{205F}' || c == '\U{3000}'
    || c == '\n' || c == '\r' || c == '\U{2028}' || c == '\U{2029}'
  }

  /** `s` with its leading white space removed (the first step of `parseInt`). */
  function TrimStart(s: string): (r: string)
    ensures |r| <= |s| && r == s[|s| - |r|..]
    ensures r == [] || !IsJsWhiteSpace(r[0])
    ensures forall i :: 0 <= i < |s| - |r| ==> IsJsWhiteSpace(s[i])
  {
    if s != [] && IsJsWhiteSpace(s[0]) then TrimStart(s[1..]) else s
  }
}

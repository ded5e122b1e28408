/**
 * The two string operations of the core that Foundation and the Swift standard library
 * perform: `trimmingCharacters(in: .whitespacesAndNewlines)`, applied to a candidate
 * preset name, and `Int(_:)`, applied to the typed peak-flow value. Characters are
 * Unicode scalar values; `Decimal` is the `"\(value)"` rendering the history list uses.
 */
module Text {
  import opened Wrappers

  /** Members of `CharacterSet.whitespacesAndNewlines`: tab, U+000A..U+000D, U+0085 and the Unicode Z* categories. */
  const WHITESPACE: set<char> := {
    '\t', '\n', '\U{B}', '\U{C}', '\r', ' ', '\U{85}', '\U{A0}', '\U{1680}',
    '\U{2000}', '\U{2001}', '\U{2002}', '\U{2003}', '\U{2004}', '\U{2005}', '\U{2006}',
    '\U{2007}', '\U{2008}', '\U{2009}', '\U{200A}', '\U{2028}', '\U{2029}', '\U{202F}',
    '\U{205F}', '\U{3000}'
  }

  predicate IsWhitespace(c: char) {
    c in WHITESPACE
  }

  /** `s` without its leading characters of the class `drop`. */
  function TrimStart(s: string, drop: char -> bool): (r: string)
    ensures |r| <= |s| && r == s[|s| - |r|..]
    ensures forall i :: 0 <= i < |s| - |r| ==> drop(s[i])
    ensures r != [] ==> !drop(r[0])
  {
    if s != [] && drop(s[0]) then
      var r := TrimStart(s[1..], drop);
      assert s[1..][|s| - 1 - |r|..] == s[|s| - |r|..];
      r
    else s
  }

  /** `s` without its trailing characters of the class `drop`. */
  function TrimEnd(s: string, drop: char -> bool): (r: string)
    ensures |r| <= |s| && r == s[..|r|]
    ensures forall i :: |r| <= i < |s| ==> drop(s[i])
    ensures r != [] ==> !drop(r[|r| - 1])
  {
    if s != [] && drop(s[|s| - 1]) then
      var r := TrimEnd(s[..|s| - 1], drop);
      assert s[..|s| - 1][..|r|] == s[..|r|];
      r
    else s
  }

  /** `trimmingCharacters(in:)` for the character class `drop`. */
  function TrimBy(s: string, drop: char -> bool): (r: string)
    ensures |r| <= |s|
    ensures r != [] ==> !drop(r[0]) && !drop(r[|r| - 1])
  {
    TrimEnd(TrimStart(s, drop), drop)
  }

  /** `trimmingCharacters(in: .whitespacesAndNewlines)`. */
  function Trim(s: string): (r: string) {
    TrimBy(s, IsWhitespace)
  }

  /**
   * `r` is the run of `s` that starts at `lead`, and every character of `s` either side
   * of it is in the class `drop`.
   */
  predicate InfixCut(s: string, lead: int, r: string, drop: char -> bool) {
    && 0 <= lead && lead + |r| <= |s|
    && r == s[lead..lead + |r|]
    && (forall i :: 0 <= i < lead ==> drop(s[i]))
    && (forall i :: lead + |r| <= i < |s| ==> drop(s[i]))
  }

  /** Cutting a suffix `t` of `s` down to its prefix `r` leaves an infix of `s`. */
  lemma CutBothEnds(s: string, t: string, r: string, drop: char -> bool)
    requires |t| <= |s| && t == s[|s| - |t|..]
    requires forall i :: 0 <= i < |s| - |t| ==> drop(s[i])
    requires |r| <= |t| && r == t[..|r|]
    requires forall i :: |r| <= i < |t| ==> drop(t[i])
    ensures InfixCut(s, |s| - |t|, r, drop)
  {
    var lead := |s| - |t|;
    assert s[lead..][..|r|] == s[lead..lead + |r|];
    forall i | lead + |r| <= i < |s| ensures drop(s[i]) {
      assert s[i] == t[i - lead];
    }
  }

  /**
   * What trimming keeps: a contiguous run of `s`, with nothing but characters of the
   * class cut off either side of it.
   */
  lemma TrimIsInfix(s: string, drop: char -> bool)
    ensures InfixCut(s, |s| - |TrimStart(s, drop)|, TrimBy(s, drop), drop)
  {
    var t := TrimStart(s, drop);
    var r := TrimEnd(t, drop);
    CutBothEnds(s, t, r, drop);
  }

  /** A candidate trims to nothing exactly when all of it is in the class. */
  lemma TrimEmptyIffBlank(s: string, drop: char -> bool)
    ensures TrimBy(s, drop) == [] <==> forall i :: 0 <= i < |s| ==> drop(s[i])
  {
    var t := TrimStart(s, drop);
    if TrimBy(s, drop) == [] {
      assert t == [];
    } else {
      assert t != [];
      assert t[0] == s[|s| - |t|];
    }
  }

  /** A name with no character of the class at either end is left as it is. */
  lemma TrimKeepsTrimmed(s: string, drop: char -> bool)
    requires s != [] ==> !drop(s[0]) && !drop(s[|s| - 1])
    ensures TrimBy(s, drop) == s
  {
    if s != [] {
      assert TrimStart(s, drop) == s;
      assert TrimEnd(s, drop) == s;
    }
  }

  /** Trimming a trimmed candidate changes nothing. */
  lemma TrimIdempotent(s: string, drop: char -> bool)
    ensures TrimBy(TrimBy(s, drop), drop) == TrimBy(s, drop)
  {
    TrimKeepsTrimmed(TrimBy(s, drop), drop);
  }

  const INT_MIN: int := -0x8000_0000_0000_0000
  const INT_MAX: int := 0x7FFF_FFFF_FFFF_FFFF

  predicate IsDigit(c: char) {
    '0' <= c <= '9'
  }

  predicate AllDigits(s: string) {
    forall i :: 0 <= i < |s| ==> IsDigit(s[i])
  }

  function DigitValue(c: char): (r: nat)
    requires IsDigit(c)
  {
    c as int - '0' as int
  }

  /** The value of a run of decimal digits, most significant first. */
  function DigitsValue(s: string): (r: nat)
    requires AllDigits(s)
  {
    if s == [] then 0 else DigitsValue(s[..|s| - 1]) * 10 + DigitValue(s[|s| - 1])
  }

  /**
   * Swift's `Int(_ description: String)`: an optional `+` or `-`, then one or more
   * ASCII digits and nothing else, denoting a value that fits a 64-bit `Int`.
   */
  function ParseInt(s: string): (r: Option<int>)
    ensures r.Some? ==> INT_MIN <= r.value <= INT_MAX
  {
    var signed := s != [] && (s[0] == '+' || s[0] == '-');
    var digits := if signed then s[1..] else s;
    if digits == [] || !AllDigits(digits) then None
    else
      var magnitude: int := DigitsValue(digits);
      var v: int := if signed && s[0] == '-' then -magnitude else magnitude;
      if INT_MIN <= v <= INT_MAX then Some(v) else None
  }

  /**
   * `Int(_:)` does not trim: a field with a space or newline anywhere in it is rejected,
   * and only a sign in front of the digits is allowed.
   */
  lemma ParseIntAccepts(s: string)
    requires ParseInt(s).Some?
    ensures s[0] == '+' || s[0] == '-' || IsDigit(s[0])
    ensures forall i :: 1 <= i < |s| ==> IsDigit(s[i])
    ensures IsDigit(s[|s| - 1])
    ensures forall i :: 0 <= i < |s| ==> !IsWhitespace(s[i])
  {
    var signed := s[0] == '+' || s[0] == '-';
    var digits := if signed then s[1..] else s;
    assert forall i :: 0 <= i < |s| ==> (i == 0 && signed) || s[i] == digits[if signed then i - 1 else i];
    assert digits[|digits| - 1] == s[|s| - 1];
  }

  /**
   * The converse of `ParseIntAccepts`: every field made of an optional sign and one or
   * more digits is accepted with its value (leading zeros and a `+` allowed) exactly
   * when that value fits a 64-bit `Int`.
   */
  lemma ParseIntWellFormed(sign: string, d: string)
    requires sign == "" || sign == "+" || sign == "-"
    requires d != [] && AllDigits(d)
    ensures ParseInt(sign + d) ==
      var v: int := if sign == "-" then -(DigitsValue(d) as int) else DigitsValue(d);
      if INT_MIN <= v <= INT_MAX then Some(v) else None
  {
    var s := sign + d;
    if sign == "" {
      assert s == d && IsDigit(s[0]);
    } else {
      assert s[0] == sign[0] && s[1..] == d;
    }
  }

  /** A leading `+` and a leading zero are accepted: "+5" and "05" are both read as 5. */
  lemma ParseIntExamples()
    ensures ParseInt("+5") == Some(5) && ParseInt("05") == Some(5)
  {
    assert "05"[..1] == "0";
    assert "+" + "5" == "+5" && "" + "05" == "05";
    ParseIntWellFormed("+", "5");
    ParseIntWellFormed("", "05");
  }

  /** An inner space, an empty field and a lone sign are all rejected. */
  lemma ParseIntRejectsExamples()
    ensures ParseInt("35 0") == None && ParseInt("") == None
    ensures ParseInt("+") == None && ParseInt("-") == None
  {
    assert "+"[1..] == [] && "-"[1..] == [];
    assert !IsDigit("35 0"[2]);
  }

  function DigitChar(d: nat): (c: char)
    requires d < 10
    ensures IsDigit(c) && DigitValue(c) == d
  {
    ('0' as int + d) as char
  }

  /** The decimal rendering of a natural number, without leading zeros. */
  function DecimalNat(n: nat): (s: string)
    ensures s != [] && AllDigits(s)
  {
    if n < 10 then [DigitChar(n)] else DecimalNat(n / 10) + [DigitChar(n % 10)]
  }

  /** `"\(n)"`: the decimal rendering of an integer, with a leading `-` when negative. */
  function Decimal(n: int): (r: string) {
    if n < 0 then "-" + DecimalNat(-n) else DecimalNat(n)
  }

  lemma {:induction false} DecimalNatValue(n: nat)
    ensures DigitsValue(DecimalNat(n)) == n
  {
    if n >= 10 {
      DecimalNatValue(n / 10);
      var s := DecimalNat(n);
      assert s[..|s| - 1] == DecimalNat(n / 10);
    }
  }

  /** Every value a peak-flow field can hold parses back from its own rendering. */
  lemma ParseDecimal(n: int)
    requires INT_MIN <= n <= INT_MAX
    ensures ParseInt(Decimal(n)) == Some(n)
  {
    var s := Decimal(n);
    if n < 0 {
      DecimalNatValue(-n);
      assert s[0] == '-' && s[1..] == DecimalNat(-n);
    } else {
      DecimalNatValue(n);
      assert IsDigit(s[0]);
    }
  }

  /** A number too large for a 64-bit `Int` is rejected even though it is well formed. */
  lemma ParseDecimalOverflow(n: int)
    requires n > INT_MAX || n < INT_MIN
    ensures ParseInt(Decimal(n)) == None
  {
    var s := Decimal(n);
    if n < 0 {
      DecimalNatValue(-n);
      assert s[0] == '-' && s[1..] == DecimalNat(-n);
    } else {
      DecimalNatValue(n);
      assert IsDigit(s[0]);
    }
  }
}

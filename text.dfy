/** Character classes and the JavaScript string operations the routes use. */
module Text {
  import opened Wrappers

  predicate IsDigit(c: char)
  {
    '0' <= c <= '9'
  }

  predicate IsHexDigit(c: char)
  {
    IsDigit(c) || 'a' <= c <= 'f' || 'A' <= c <= 'F'
  }

  /** The characters `String.prototype.trim` removes (the ASCII ones). */
  predicate IsSpace(c: char)
  {
    c == ' ' || c == '\t' || c == '\n' || c == '\r' || c == '\U{000B}' || c == '\U{000C}'
  }

  /** `s.trim()`: `s` without its leading and trailing white space. */
  function Trim(s: string): string
  {
    TrimEnd(TrimStart(s))
  }

  /**
   * What `trim()` leaves: no white space at either end, a prefix of the
   * text once its leading white space is gone, and nothing at all exactly
   * when the text is all white space.
   */
  lemma TrimSpec(s: string)
    ensures var r := Trim(s);
      && (r != [] ==> !IsSpace(r[0]) && !IsSpace(r[|r| - 1]))
      && |r| <= |TrimStart(s)| && r == TrimStart(s)[..|r|]
      && (r == [] <==> forall k :: 0 <= k < |s| ==> IsSpace(s[k]))
  {
    var t := TrimStart(s);
    assert t != [] ==> !IsSpace(t[0]);
  }

  /** `s` without its leading white space. */
  function TrimStart(s: string): (r: string)
    ensures r != [] ==> !IsSpace(r[0])
    ensures |r| <= |s| && r == s[|s| - |r|..]
    ensures forall k :: 0 <= k < |s| - |r| ==> IsSpace(s[k])
  {
    if s != [] && IsSpace(s[0]) then TrimStart(s[1..]) else s
  }

  /** `s` without its trailing white space. */
  function TrimEnd(s: string): (r: string)
    ensures r != [] ==> !IsSpace(r[|r| - 1])
    ensures |r| <= |s| && r == s[..|r|]
    ensures forall k :: |r| <= k < |s| ==> IsSpace(s[k])
  {
    if s != [] && IsSpace(s[|s| - 1]) then TrimEnd(s[..|s| - 1]) else s
  }

  /** A string with no white space at either end is left as it is. */
  lemma TrimOfTrimmed(s: string)
    requires s != [] ==> !IsSpace(s[0]) && !IsSpace(s[|s| - 1])
    ensures Trim(s) == s
  {
  }

  /** Trimming removes a single trailing space after a trimmed string. */
  lemma TrimDropsTrailingSpace(s: string)
    requires s != [] ==> !IsSpace(s[0]) && !IsSpace(s[|s| - 1])
    ensures Trim(s + " ") == s
  {
    var t := s + " ";
    if s == [] {
      assert TrimStart(t) == TrimStart(t[1..]);
      assert t[1..] == [];
    } else {
      assert TrimStart(t) == t;
      assert t[..|t| - 1] == s;
      assert TrimEnd(t) == TrimEnd(s);
    }
  }

  /** A digit of base 16 when `hex`, of base 10 otherwise. */
  predicate IsDigitIn(c: char, hex: bool)
  {
    if hex then IsHexDigit(c) else IsDigit(c)
  }

  /** What a (hexadecimal or decimal) digit is worth. */
  function DigitValue(c: char): (v: nat)
    requires IsHexDigit(c)
    ensures v < 16
    ensures IsDigit(c) ==> v < 10
  {
    if IsDigit(c) then c as int - '0' as int
    else if 'a' <= c <= 'f' then c as int - 'a' as int + 10
    else c as int - 'A' as int + 10
  }

  /** The longest prefix of `s` made of digits of the base. */
  function DigitPrefix(s: string, hex: bool): (r: string)
    ensures |r| <= |s| && r == s[..|r|]
    ensures forall k :: 0 <= k < |r| ==> IsDigitIn(r[k], hex)
    ensures |r| < |s| ==> !IsDigitIn(s[|r|], hex)
  {
    if s != [] && IsDigitIn(s[0], hex) then [s[0]] + DigitPrefix(s[1..], hex) else []
  }

  /** The number a string of digits denotes in base 16 when `hex`, in base 10 otherwise. */
  function DigitsValue(d: string, hex: bool): nat
    requires forall k :: 0 <= k < |d| ==> IsDigitIn(d[k], hex)
  {
    if d == [] then 0
    else
      assert IsDigitIn(d[|d| - 1], hex);
      DigitsValue(d[..|d| - 1], hex) * (if hex then 16 else 10) + DigitValue(d[|d| - 1])
  }

  /** The decimal digits of `n`, as `String(n)` writes them. */
  function DecimalString(n: nat): (r: string)
    ensures r != []
    ensures forall k :: 0 <= k < |r| ==> IsDigit(r[k])
  {
    if n < 10 then [('0' as int + n) as char]
    else DecimalString(n / 10) + [('0' as int + n % 10) as char]
  }

  /** `0x` or `0X` at the front, which switches `parseInt` without a radix to base 16. */
  predicate HexMarked(u: string)
  {
    |u| >= 2 && u[0] == '0' && (u[1] == 'x' || u[1] == 'X')
  }

  /** What `parseInt` reads its digits from: the unsigned text after any `0x` marker. */
  function Digits(u: string): string
  {
    if HexMarked(u) then u[2..] else u
  }

  /**
   * `parseInt(s)` without a radix: leading white space skipped, an
   * optional sign, then base 16 after a `0x`/`0X` marker and base 10
   * otherwise, reading as many digits as there are; `None` stands for
   * `NaN`, when no digit of the base comes first.
   */
  function ParseInt(s: string): (r: Option<int>)
    ensures var u := Unsigned(TrimStart(s));
      r.None? <==> Digits(u) == [] || !IsDigitIn(Digits(u)[0], HexMarked(u))
  {
    var t := TrimStart(s);
    var u := Unsigned(t);
    var digits := DigitPrefix(Digits(u), HexMarked(u));
    if digits == [] then None
    else
      var v: int := DigitsValue(digits, HexMarked(u));
      if t != [] && t[0] == '-' then Some(-v) else Some(v)
  }

  /** `t` without a leading sign. */
  function Unsigned(t: string): (r: string)
    ensures |r| <= |t|
  {
    if t != [] && (t[0] == '-' || t[0] == '+') then t[1..] else t
  }

  /** The `0x` marker reads hexadecimal: `parseInt("0x1A")` is 26. */
  lemma ParseIntHexMarker()
    ensures ParseInt("0x1A") == Some(26)
  {
    var s := "0x1A";
    assert TrimStart(s) == s by {
      assert !IsSpace(s[0]);
    }
    assert Unsigned(s) == s;
    assert HexMarked(s);
    var d := s[2..];
    assert d == "1A";
    assert DigitPrefix(d, true) == d by {
      assert DigitPrefix(d[1..], true) == d[1..] by {
        assert DigitPrefix(d[2..], true) == [];
      }
    }
    assert d[..1] == "1";
    assert DigitsValue(d[..1], true) == 1;
  }

  /** A bare `0x` marker leaves no digit: `parseInt("0x")` is `NaN`. */
  lemma ParseIntBareMarker()
    ensures ParseInt("0x") == None
  {
    var s := "0x";
    assert TrimStart(s) == s by {
      assert !IsSpace(s[0]);
    }
    assert Unsigned(s) == s;
    assert HexMarked(s) && Digits(s) == [];
  }

  /** `parseInt` reads back what `String` writes for a natural number. */
  lemma {:induction false} ParseIntOfDecimal(n: nat)
    ensures ParseInt(DecimalString(n)) == Some(n)
  {
    var s := DecimalString(n);
    assert TrimStart(s) == s;
    assert Unsigned(s) == s;
    assert !HexMarked(s) by {
      if |s| >= 2 {
        assert IsDigit(s[1]);
      }
    }
    assert DigitPrefix(s, false) == s;
    DecimalValue(n);
  }

  /** The digits `DecimalString` writes denote the number. */
  lemma {:induction false} DecimalValue(n: nat)
    ensures DigitsValue(DecimalString(n), false) == n
  {
    if n >= 10 {
      DecimalValue(n / 10);
      var s := DecimalString(n);
      assert s[..|s| - 1] == DecimalString(n / 10);
    }
  }
}

/** JavaScript's `parseInt(text)` with no radix argument, on exact integers:
    leading white space is skipped, one sign is read, a `0x`/`0X` prefix
    switches to base 16, and the longest run of digits that follows is the
    value; with no digit the result is NaN (`None` here). */
module NumberParsing {
  import opened Types

  /** The white space and line terminators that `parseInt` skips. */
  predicate IsWhiteSpace(c: char) {
    c == ' ' || c == '\t' || c == '\n' || c == '\r' || c == '\U{000B}' || c == '\U{000C}'
    || c == '\U{00A0}' || c == '\U{FEFF}' || c == '\U{1680}' || ('\U{2000}' <= c <= '\U{200A}')
    || c == '\U{2028}' || c == '\U{2029}' || c == '\U{202F}' || c == '\U{205F}' || c == '\U{3000}'
  }

  function TrimStart(s: string): (r: string)
    ensures |r| <= |s| && r == s[|s| - |r|..]
    ensures forall i :: 0 <= i < |s| - |r| ==> IsWhiteSpace(s[i])
    ensures r != [] ==> !IsWhiteSpace(r[0])
  {
    if s != [] && IsWhiteSpace(s[0]) then TrimStart(s[1..]) else s
  }

  /** The value of a digit character, or -1 for a character that is no digit
      in any base up to 16. */
  function DigitValue(c: char): int {
    if '0' <= c <= '9' then c as int - '0' as int
    else if 'a' <= c <= 'f' then c as int - 'a' as int + 10
    else if 'A' <= c <= 'F' then c as int - 'A' as int + 10
    else -1
  }

  predicate IsDigit(c: char, radix: nat) {
    0 <= DigitValue(c) < radix
  }

  /** The longest prefix made of digits of the given base. */
  function DigitPrefix(s: string, radix: nat): (r: string)
    ensures r <= s
    ensures forall i :: 0 <= i < |r| ==> IsDigit(r[i], radix)
    ensures |r| < |s| ==> !IsDigit(s[|r|], radix)
  {
    if s != [] && IsDigit(s[0], radix) then [s[0]] + DigitPrefix(s[1..], radix) else []
  }

  /** The value of a run of digits, most significant first. */
  function ValueOf(digits: string, radix: nat): nat
    requires forall i :: 0 <= i < |digits| ==> IsDigit(digits[i], radix)
  {
    if digits == [] then 0
    else
      var init := digits[..|digits| - 1];
      assert IsDigit(digits[|digits| - 1], radix);
      assert forall i :: 0 <= i < |init| ==> init[i] == digits[i];
      var high := ValueOf(init, radix);
      ProductNonNegative(high, radix);
      high * radix + DigitValue(digits[|digits| - 1])
  }

  lemma ProductNonNegative(a: nat, b: nat)
    ensures a * b >= 0
  {
  }

  function ParseInt(text: string): (r: Option<int>)
    ensures TrimStart(text) == [] ==> r.None?
    ensures r.Some? && r.value < 0 ==> TrimStart(text)[0] == '-'
  {
    ParseTrimmed(TrimStart(text))
  }

  /** The sign, the base prefix and the digits, after the white space. */
  function ParseTrimmed(s: string): (r: Option<int>)
    ensures s == [] ==> r.None?
    ensures r.Some? && r.value < 0 ==> s[0] == '-'
  {
    var sign := if s != [] && s[0] == '-' then -1 else 1;
    var rest := if s != [] && (s[0] == '-' || s[0] == '+') then s[1..] else s;
    var hex := |rest| >= 2 && rest[0] == '0' && (rest[1] == 'x' || rest[1] == 'X');
    var radix := if hex then 16 else 10;
    var body := if hex then rest[2..] else rest;
    var digits := DigitPrefix(body, radix);
    if digits == [] then None else Some(sign * ValueOf(digits, radix))
  }

  /** The decimal numeral of a natural number, as `toString` writes it. */
  function Decimal(n: nat): (s: string)
    ensures s != [] && forall i :: 0 <= i < |s| ==> IsDigit(s[i], 10)
    ensures s[0] == '0' ==> n == 0 && |s| == 1
  {
    if n < 10 then ['0' + n as char] else Decimal(n / 10) + ['0' + (n % 10) as char]
  }

  /** Reading back the decimal numeral of a number gives the number. */
  lemma {:induction false} ValueOfDecimal(n: nat)
    ensures ValueOf(Decimal(n), 10) == n
  {
    if n >= 10 {
      var s := Decimal(n);
      assert s[..|s| - 1] == Decimal(n / 10);
      ValueOfDecimal(n / 10);
    }
  }

  /** A run made only of digits is its own longest digit prefix. */
  lemma {:induction false} DigitPrefixAll(s: string, radix: nat)
    requires forall i :: 0 <= i < |s| ==> IsDigit(s[i], radix)
    ensures DigitPrefix(s, radix) == s
  {
    if s != [] {
      DigitPrefixAll(s[1..], radix);
    }
  }

  /** `parseInt(n.toString()) == n` for every natural number. */
  lemma ParseDecimal(n: nat)
    ensures ParseInt(Decimal(n)) == Some(n)
  {
    var s := Decimal(n);
    assert !IsWhiteSpace(s[0]) by {
      assert IsDigit(s[0], 10);
    }
    assert TrimStart(s) == s;
    assert s[0] != '-' && s[0] != '+' by {
      assert IsDigit(s[0], 10);
    }
    DigitPrefixAll(s, 10);
    ValueOfDecimal(n);
  }

  /** The digit run ends where the first non-digit starts. */
  lemma {:induction false} DigitPrefixStops(s: string, rest: string, radix: nat)
    requires forall i :: 0 <= i < |s| ==> IsDigit(s[i], radix)
    requires rest == [] || !IsDigit(rest[0], radix)
    ensures DigitPrefix(s + rest, radix) == s
  {
    if s == [] {
      assert s + rest == rest;
    } else {
      assert (s + rest)[1..] == s[1..] + rest;
      DigitPrefixStops(s[1..], rest, radix);
    }
  }

  /** Reading stops at the first character that is no digit: a number
      followed by other text reads as the number, unless the text turns a
      lone 0 into a `0x` prefix. */
  lemma ParseStopsAtNonDigit(n: nat, rest: string)
    requires rest == [] || !IsDigit(rest[0], 10)
    requires n == 0 && rest != [] ==> rest[0] != 'x' && rest[0] != 'X'
    ensures ParseInt(Decimal(n) + rest) == Some(n)
  {
    var d := Decimal(n);
    var s := d + rest;
    assert s[0] == d[0];
    assert !IsWhiteSpace(s[0]) && s[0] != '-' && s[0] != '+' by {
      assert IsDigit(d[0], 10);
    }
    assert TrimStart(s) == s;
    assert !(|s| >= 2 && s[0] == '0' && (s[1] == 'x' || s[1] == 'X')) by {
      if |s| >= 2 && s[0] == '0' {
        assert n == 0 && |d| == 1;
        assert s[1] == rest[0];
      }
    }
    DigitPrefixStops(d, rest, 10);
    ValueOfDecimal(n);
  }

  /** Text that starts with no white space is read as it stands. */
  lemma NothingToTrim(s: string)
    requires s == [] || !IsWhiteSpace(s[0])
    ensures ParseInt(s) == ParseTrimmed(s)
  {
  }

  /** Unsigned text with a `0x` or `0X` prefix is read in base 16. */
  lemma HexTrimmed(s: string)
    requires |s| >= 2 && s[0] == '0' && (s[1] == 'x' || s[1] == 'X')
    ensures var digits := DigitPrefix(s[2..], 16);
      ParseTrimmed(s) == if digits == [] then None else Some(ValueOf(digits, 16))
  {
  }

  /** Text with a leading minus and no base prefix is the negated decimal
      value of the digits after the minus. */
  lemma NegativeTrimmed(s: string)
    requires s != [] && s[0] == '-'
    requires !(|s| >= 3 && s[1] == '0' && (s[2] == 'x' || s[2] == 'X'))
    ensures var digits := DigitPrefix(s[1..], 10);
      ParseTrimmed(s) == if digits == [] then None else Some(-(ValueOf(digits, 10) as int))
  {
  }

  /** `0x` followed by no hex digit is NaN, not 0. */
  lemma ParseBareHexPrefix(x: char, rest: string)
    requires x == 'x' || x == 'X'
    requires rest == [] || !IsDigit(rest[0], 16)
    ensures ParseInt(['0', x] + rest) == None
  {
    var s := ['0', x] + rest;
    assert s[0] == '0' && s[1] == x && s[2..] == rest;
    NothingToTrim(s);
    HexTrimmed(s);
    assert DigitPrefix(rest, 16) == [];
  }

  /** A leading minus negates the value. */
  lemma ParseNegative(n: nat)
    ensures ParseInt(['-'] + Decimal(n)) == Some(-(n as int))
  {
    var d := Decimal(n);
    var s := ['-'] + d;
    assert s[0] == '-' && s[1..] == d;
    NothingToTrim(s);
    assert !(|d| >= 2 && d[0] == '0');
    NegativeTrimmed(s);
    DigitPrefixAll(d, 10);
    ValueOfDecimal(n);
  }

  /** A `0x` or `0X` prefix switches to base 16: the hex digits that follow
      are the value, up to the first character that is no hex digit. */
  lemma ParseHex(x: char, digits: string, rest: string)
    requires x == 'x' || x == 'X'
    requires digits != [] && forall i :: 0 <= i < |digits| ==> IsDigit(digits[i], 16)
    requires rest == [] || !IsDigit(rest[0], 16)
    ensures ParseInt(['0', x] + digits + rest) == Some(ValueOf(digits, 16))
  {
    var tail := digits + rest;
    var s := ['0', x] + digits + rest;
    assert s == ['0', x] + tail;
    assert s[0] == '0' && s[1] == x && s[2..] == tail;
    NothingToTrim(s);
    HexTrimmed(s);
    DigitPrefixStops(digits, rest, 16);
    assert DigitPrefix(s[2..], 16) == digits;
  }

  /** For instance, "0x1A" reads as 26. */
  lemma ParseHexExample()
    ensures ParseInt("0x1A") == Some(26)
  {
    ParseHex('x', "1A", "");
    assert ['0', 'x'] + "1A" + "" == "0x1A";
    assert ValueOf("1A", 16) == 26 by {
      assert "1A"[..1] == "1";
    }
  }

  /** Text that starts with neither white space, a sign nor a digit, and
      empty text, are NaN. */
  lemma ParseNoDigits(s: string)
    requires s == [] || (!IsWhiteSpace(s[0]) && s[0] != '+' && s[0] != '-' && !IsDigit(s[0], 10))
    ensures ParseInt(s) == None
  {
    NothingToTrim(s);
    assert DigitPrefix(s, 10) == [];
  }

  /** White space in front of the number changes nothing. */
  lemma LeadingWhiteSpaceIgnored(c: char, text: string)
    requires IsWhiteSpace(c)
    ensures ParseInt([c] + text) == ParseInt(text)
  {
    var s := [c] + text;
    assert s[0] == c && s[1..] == text;
    assert TrimStart(s) == TrimStart(text);
  }
}

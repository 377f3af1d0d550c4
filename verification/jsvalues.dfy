/** The pieces of JavaScript value semantics the relays rely on: truthiness of optional strings,
    `a || b` on strings, `Number.prototype.toString()` on integers, `parseInt` without a radix,
    and the white space `String.prototype.trim` removes. */
module JsValues {
  import opened Types

  /** A present, non-empty string is truthy; `undefined`, `null` and `""` are not. */
  predicate Truthy(s: Option<string>) {
    s.Some? && s.value != ""
  }

  /** `a || b` where `a` is an optional string. */
  function OrElse(a: Option<string>, b: string): (r: string)
    ensures Truthy(a) ==> r == a.value
    ensures !Truthy(a) ==> r == b
  {
    if Truthy(a) then a.value else b
  }

  /** The white space and line terminators that `trim` and `parseInt` skip. */
  predicate IsJsSpace(c: char) {
    var n := c as int;
    n == 0x09 || n == 0x0A || n == 0x0B || n == 0x0C || n == 0x0D || n == 0x20
    || n == 0xA0 || n == 0x1680 || (0x2000 <= n <= 0x200A) || n == 0x2028 || n == 0x2029
    || n == 0x202F || n == 0x205F || n == 0x3000 || n == 0xFEFF
  }

  /** What a successful `trim()` leaves: no white space at either end. */
  predicate Trimmed(s: string) {
    |s| == 0 || (!IsJsSpace(s[0]) && !IsJsSpace(s[|s| - 1]))
  }

  // ---------------------------------------------------------------- integers to text

  predicate IsDigit(c: char) {
    '0' <= c <= '9'
  }

  function DigitChar(d: nat): (c: char)
    requires d < 10
    ensures IsDigit(c) && DigitValue(c) == d
  {
    ('0' as int + d) as char
  }

  function DigitValue(c: char): nat
    requires IsDigit(c)
  {
    c as int - '0' as int
  }

  /** Decimal digits of `n`, most significant first, without leading zeros. */
  function NatToString(n: nat): (s: string)
    ensures |s| > 0 && forall i :: 0 <= i < |s| ==> IsDigit(s[i])
    ensures s[0] == '0' ==> s == "0"
  {
    if n < 10 then [DigitChar(n)] else NatToString(n / 10) + [DigitChar(n % 10)]
  }

  /** `n.toString()` for an integral number. */
  function IntToString(n: int): string {
    if n < 0 then "-" + NatToString(-n) else NatToString(n)
  }

  // ---------------------------------------------------------------- parseInt

  function SkipSpace(s: string): (r: string)
    ensures |r| <= |s|
    ensures |r| > 0 ==> !IsJsSpace(r[0])
  {
    if |s| > 0 && IsJsSpace(s[0]) then SkipSpace(s[1..]) else s
  }

  /** The longest prefix of `s` made of characters satisfying `ok`. */
  function TakeWhile(s: string, ok: char -> bool): (r: string)
    ensures |r| <= |s| && r == s[..|r|]
    ensures forall i :: 0 <= i < |r| ==> ok(r[i])
    ensures |r| < |s| ==> !ok(s[|r|])
  {
    if |s| > 0 && ok(s[0]) then [s[0]] + TakeWhile(s[1..], ok) else []
  }

  predicate IsHexDigit(c: char) {
    IsDigit(c) || 'a' <= c <= 'f' || 'A' <= c <= 'F'
  }

  function HexDigitValue(c: char): nat
    requires IsHexDigit(c)
  {
    if IsDigit(c) then DigitValue(c)
    else if 'a' <= c <= 'f' then c as int - 'a' as int + 10
    else c as int - 'A' as int + 10
  }

  /** The value of a digit string read most significant first. */
  function DecimalValue(ds: string): nat
    requires forall i :: 0 <= i < |ds| ==> IsDigit(ds[i])
  {
    if |ds| == 0 then 0 else 10 * DecimalValue(ds[..|ds| - 1]) + DigitValue(ds[|ds| - 1])
  }

  function HexValue(ds: string): nat
    requires forall i :: 0 <= i < |ds| ==> IsHexDigit(ds[i])
  {
    if |ds| == 0 then 0 else 16 * HexValue(ds[..|ds| - 1]) + HexDigitValue(ds[|ds| - 1])
  }

  /** `parseInt(s)` with no radix; `None` stands for NaN. Leading white space and one sign are
      skipped, a "0x"/"0X" prefix selects base 16, and the longest run of digits that follows is
      read, ignoring whatever comes after it ("12ab" reads as 12). */
  function ParseInt(s: string): Option<int> {
    var t := SkipSpace(s);
    var negative := |t| > 0 && t[0] == '-';
    var body := if |t| > 0 && (t[0] == '-' || t[0] == '+') then t[1..] else t;
    var sign := if negative then -1 else 1;
    if |body| >= 2 && body[0] == '0' && (body[1] == 'x' || body[1] == 'X') then
      var ds := TakeWhile(body[2..], IsHexDigit);
      if |ds| == 0 then None else Some(sign * HexValue(ds))
    else
      var ds := TakeWhile(body, IsDigit);
      if |ds| == 0 then None else Some(sign * DecimalValue(ds))
  }

  lemma {:induction false} DecimalValueOfNatToString(n: nat)
    ensures DecimalValue(NatToString(n)) == n
  {
    var s := NatToString(n);
    if n >= 10 {
      DecimalValueOfNatToString(n / 10);
      assert s[..|s| - 1] == NatToString(n / 10);
    }
  }

  lemma TakeDigitsOfDigits(s: string)
    requires forall i :: 0 <= i < |s| ==> IsDigit(s[i])
    ensures TakeWhile(s, IsDigit) == s
  {
    var r := TakeWhile(s, IsDigit);
    assert r == s[..|r|];
  }

  /** Reading back a printed integer gives the integer: a chat key produced by
      `chat.id.toString()` always parses to the chat id. */
  lemma {:induction false} ParseIntOfIntToString(n: int)
    ensures ParseInt(IntToString(n)) == Some(n)
  {
    var digits := NatToString(if n < 0 then -n else n);
    TakeDigitsOfDigits(digits);
    DecimalValueOfNatToString(if n < 0 then -n else n);
    var s := IntToString(n);
    assert SkipSpace(s) == s by {
      assert !IsJsSpace(s[0]);
    }
    if n < 0 {
      assert s[1..] == digits;
    }
    assert !(|digits| >= 2 && digits[0] == '0');
  }

  /** `parseInt` reads a leading number and ignores what follows it: "12ab" and "12x" read as 12.
      Only after a lone "0" does an "x" or "X" start a hexadecimal number instead. */
  lemma ParseIntIgnoresTail(n: nat, rest: string)
    requires |rest| == 0 || !IsDigit(rest[0])
    requires n == 0 && |rest| > 0 ==> rest[0] != 'x' && rest[0] != 'X'
    ensures ParseInt(NatToString(n) + rest) == Some(n)
  {
    var digits := NatToString(n);
    var s := digits + rest;
    DecimalValueOfNatToString(n);
    TakeDigitsPrefix(digits, rest);
    assert s[0] == digits[0];
    assert |s| >= 2 && s[0] == '0' ==> s[1] == rest[0] by {
      if |s| >= 2 && s[0] == '0' {
        assert digits == "0";
        DecimalValueOfNatToString(n);
        assert n == DecimalValue("0") == 0;
      }
    }
    ParseIntDecimal(s);
  }

  /** A string that starts with a digit, and not with "0x" or "0X", reads as its leading digits. */
  lemma ParseIntDecimal(s: string)
    requires |s| > 0 && IsDigit(s[0])
    requires !(|s| >= 2 && s[0] == '0' && (s[1] == 'x' || s[1] == 'X'))
    ensures ParseInt(s) == Some(DecimalValue(TakeWhile(s, IsDigit)))
  {
    assert SkipSpace(s) == s by {
      assert !IsJsSpace(s[0]);
    }
  }

  lemma {:induction false} TakeDigitsPrefix(digits: string, rest: string)
    requires forall i :: 0 <= i < |digits| ==> IsDigit(digits[i])
    requires |rest| == 0 || !IsDigit(rest[0])
    ensures TakeWhile(digits + rest, IsDigit) == digits
  {
    if |digits| > 0 {
      assert (digits + rest)[1..] == digits[1..] + rest;
      TakeDigitsPrefix(digits[1..], rest);
    } else {
      assert digits + rest == rest;
    }
  }
}

/** Text conversions the engine relies on: the decimal rendering of an
    integer (`to_string`), the parse of a cell into an `i32`, and the UTF-8
    byte length that Rust's `str::len` reports. */
module Decimal {
  import opened Values

  predicate IsDigit(c: char)
  {
    '0' <= c <= '9'
  }

  predicate AllDigits(s: string)
  {
    forall i :: 0 <= i < |s| ==> IsDigit(s[i])
  }

  function DigitChar(d: nat): (c: char)
    requires d < 10
    ensures IsDigit(c)
  {
    ('0' as int + d) as char
  }

  function DigitValue(c: char): (d: nat)
    requires IsDigit(c)
    ensures d < 10
  {
    c as int - '0' as int
  }

  /** Decimal digits of `n`, most significant first, without leading zeros. */
  function ShowNat(n: nat): (s: string)
    ensures 1 <= |s| && AllDigits(s)
    ensures |s| > 1 ==> s[0] != '0'
    decreases n
  {
    if n < 10 then [DigitChar(n)] else ShowNat(n / 10) + [DigitChar(n % 10)]
  }

  /** Rust's `Display` of an integer: a minus sign for negative numbers. */
  function ShowInt(n: int): (s: string)
    ensures |s| >= 1 && (s[0] == '-' <==> n < 0)
  {
    if n < 0 then "-" + ShowNat(-n) else ShowNat(n)
  }

  /** The number a string of decimal digits denotes. */
  function DigitsValue(s: string): nat
    requires AllDigits(s)
  {
    if |s| == 0 then 0 else DigitsValue(s[..|s| - 1]) * 10 + DigitValue(s[|s| - 1])
  }

  /** `str::parse::<i32>`, as far as it is modelled: an optional `+` or `-`,
      then one or more ASCII digits, whose value must fit in an `i32`. */
  function ParseI32(s: string): (r: Option<Int32>)
  {
    var signed := |s| > 0 && (s[0] == '-' || s[0] == '+');
    var body := if signed then s[1..] else s;
    if |body| == 0 || !AllDigits(body) then None
    else
      var m: int := if signed && s[0] == '-' then 0 - DigitsValue(body) as int else DigitsValue(body) as int;
      if MinI32 <= m <= MaxI32 then Some(m) else None
  }

  /** Reading back the digits of `n` gives `n`. */
  lemma {:induction false} DigitsOfShowNat(n: nat)
    ensures DigitsValue(ShowNat(n)) == n
    decreases n
  {
    if n >= 10 {
      var s := ShowNat(n);
      assert s[..|s| - 1] == ShowNat(n / 10);
      DigitsOfShowNat(n / 10);
    }
  }

  /** Every `i32` survives rendering and parsing back. */
  lemma ParseShowInt(n: Int32)
    ensures ParseI32(ShowInt(n)) == Some(n)
  {
    var s := ShowInt(n);
    var m: int := n;
    if m < 0 {
      var digits := ShowNat(-m);
      assert s == "-" + digits;
      assert s[1..] == digits;
      DigitsOfShowNat(-m);
    } else {
      var digits := ShowNat(n);
      assert s == digits;
      assert IsDigit(s[0]);
      DigitsOfShowNat(n);
    }
  }

  /** A successful parse means the text is a sign and digits, nothing else. */
  lemma ParseI32Accepts(s: string)
    requires ParseI32(s).Some?
    ensures |s| >= 1
    ensures forall i :: 0 <= i < |s| ==> IsDigit(s[i]) || (i == 0 && (s[i] == '-' || s[i] == '+'))
  {
  }

  /** Bytes in the UTF-8 encoding of one character. */
  function Utf8Width(c: char): (w: nat)
    ensures 1 <= w <= 4
  {
    if c as int < 0x80 then 1
    else if c as int < 0x800 then 2
    else if c as int < 0x1_0000 then 3
    else 4
  }

  /** Rust's `str::len`: the length of the UTF-8 encoding in bytes. */
  function Utf8Len(s: string): (n: nat)
    ensures |s| <= n <= 4 * |s|
  {
    if |s| == 0 then 0 else Utf8Width(s[0]) + Utf8Len(s[1..])
  }

  /** For ASCII text the byte length is the number of characters. */
  lemma {:induction false} Utf8LenAscii(s: string)
    requires forall i :: 0 <= i < |s| ==> s[i] as int < 0x80
    ensures Utf8Len(s) == |s|
  {
    if |s| > 0 {
      Utf8LenAscii(s[1..]);
    }
  }

  /** The rendering of an integer is ASCII, so its byte length is its
      number of characters. */
  lemma ShowIntLen(n: int)
    ensures Utf8Len(ShowInt(n)) == |ShowInt(n)|
  {
    var s := ShowInt(n);
    forall i | 0 <= i < |s|
      ensures s[i] as int < 0x80
    {
      if n < 0 && i > 0 {
        assert s[i] == ShowNat(-n)[i - 1];
      }
    }
    Utf8LenAscii(s);
  }
}

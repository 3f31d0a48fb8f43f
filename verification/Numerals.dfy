/** Decimal and hexadecimal numerals, as the standard formatting of integers prints them. */
module Numerals {
  import opened Wrappers

  const I64_MIN: int := -0x8000_0000_0000_0000
  const I64_MAX: int := 0x7fff_ffff_ffff_ffff
  const U64_SIZE: int := 0x1_0000_0000_0000_0000

  type i64 = i: int | I64_MIN <= i <= I64_MAX
  type u64 = n: int | 0 <= n < U64_SIZE

  predicate IsDigit(c: char) {
    '0' <= c <= '9'
  }

  /** The digit of value `d`, lower case. */
  function DigitChar(d: nat): char
    requires d < 16
  {
    if d < 10 then '0' + d as char else 'a' + (d - 10) as char
  }

  /** The value of a digit in the given base; both cases are accepted. */
  function DigitValue(c: char, base: nat): Option<nat> {
    var d := if IsDigit(c) then (c - '0') as nat
             else if 'a' <= c <= 'f' then (c - 'a') as nat + 10
             else if 'A' <= c <= 'F' then (c - 'A') as nat + 10
             else base;
    if d < base then Some(d) else None
  }

  function Digits(n: nat, base: nat): string
    requires base == 10 || base == 16
    decreases n
  {
    if n < base then [DigitChar(n)] else Digits(n / base, base) + [DigitChar(n % base)]
  }

  /** `format!("{}", i)`. */
  function Decimal(i: int): string {
    if i < 0 then "-" + Digits(-i, 10) else Digits(i, 10)
  }

  /** `format!("{:x}", n)`. */
  function Hex(n: nat): string {
    Digits(n, 16)
  }

  function Horner(high: nat, base: nat, low: nat): nat {
    high * base + low
  }

  /** Horner's rule, failing on a character that is not a digit. */
  function ReadDigits(s: string, base: nat): Option<nat> {
    if s == [] then Some(0) else
    var high, low := ReadDigits(s[..|s| - 1], base), DigitValue(s[|s| - 1], base);
    if high.Some? && low.Some? then Some(Horner(high.value, base, low.value)) else None
  }

  /** `u64::from_str_radix(s, 16)`: an optional plus sign, at least one digit, no overflow. */
  function FromHex(s: string): Option<nat> {
    var digits := if |s| > 1 && s[0] == '+' then s[1..] else s;
    var n := ReadDigits(digits, 16);
    if digits != [] && n.Some? && n.value < U64_SIZE then n else None
  }

  lemma {:induction false} DigitReads(d: nat, base: nat)
    requires d < base <= 16
    ensures DigitValue(DigitChar(d), base) == Some(d)
    ensures DigitChar(d) != '+' && DigitChar(d) != '-'
    ensures base <= 10 ==> IsDigit(DigitChar(d))
  {
  }

  lemma {:induction false} DigitsRead(n: nat, base: nat)
    requires base == 10 || base == 16
    ensures Digits(n, base) != [] && Digits(n, base)[0] != '+' && Digits(n, base)[0] != '-'
    ensures ReadDigits(Digits(n, base), base) == Some(n)
    ensures base == 10 ==> forall i :: 0 <= i < |Digits(n, base)| ==> IsDigit(Digits(n, base)[i])
    decreases n
  {
    hide *;
    DigitsStep(n, base);
    if n < base {
      DigitReads(n, base);
      ReadOne(DigitChar(n), base);
    } else {
      var q, r := n / base, n % base;
      DivMod(n, base);
      DigitsRead(q, base);
      DigitReads(r, base);
      ReadSnoc(Digits(q, base), DigitChar(r), base);
    }
  }

  lemma {:induction false} DigitsStep(n: nat, base: nat)
    requires base == 10 || base == 16
    ensures n < base ==> Digits(n, base) == [DigitChar(n)]
    ensures n >= base ==> Digits(n, base) == Digits(n / base, base) + [DigitChar(n % base)]
  {
  }

  lemma {:induction false} ReadOne(c: char, base: nat)
    requires DigitValue(c, base).Some?
    ensures ReadDigits([c], base) == DigitValue(c, base)
  {
    assert [c][..0] == [];
    assert ReadDigits([], base) == Some(0);
  }

  lemma {:induction false} ReadSnoc(s: string, c: char, base: nat)
    requires ReadDigits(s, base).Some? && DigitValue(c, base).Some?
    ensures ReadDigits(s + [c], base) == Some(Horner(ReadDigits(s, base).value, base, DigitValue(c, base).value))
  {
    assert (s + [c])[..|s|] == s;
  }

  lemma {:induction false} DivMod(n: nat, base: nat)
    requires base == 10 || base == 16
    ensures n % base < base && (n >= base ==> n / base < n)
    ensures Horner(n / base, base, n % base) == n
  {
  }

  /** Every 64-bit value survives the hexadecimal text; nothing longer is read. */
  lemma {:induction false} HexRoundTrip(n: nat)
    ensures FromHex(Hex(n)) == if n < U64_SIZE then Some(n) else None
  {
    DigitsRead(n, 16);
  }

  /** An optional minus sign and at least one digit. */
  function ReadDecimal(s: string): Option<int> {
    var neg := |s| > 0 && s[0] == '-';
    var digits := if neg then s[1..] else s;
    var n := ReadDigits(digits, 10);
    if digits == [] || n.None? then None else
    var i: int := if neg then -(n.value as int) else n.value;
    Some(i)
  }

  lemma {:induction false} DecimalRoundTrip(i: int)
    ensures ReadDecimal(Decimal(i)) == Some(i)
  {
    DigitsRead(if i < 0 then -i else i, 10);
  }
}

/**
 * The textual forms the bot gives to its values: `{:?}` of an `H160`/`H256`
 * (lower-case hex after "0x"), `Display` of integers, and the parsers
 * `H160::from_str` and `str::parse` used when reading the CSV caches.
 */
module Text {
  import opened Eth
  import opened Wrappers

  const HEX_DIGITS: string := "0123456789abcdef"
  const DEC_DIGITS: string := "0123456789"

  function HexDigit(n: nat): char
    requires n < 16
  {
    HEX_DIGITS[n]
  }

  /** Lower-case hex of a byte string, two digits per byte. */
  function Hex(bs: Bytes): (r: string)
    ensures |r| == 2 * |bs|
  {
    if bs == [] then [] else [HexDigit(bs[0] / 16), HexDigit(bs[0] % 16)] + Hex(bs[1..])
  }

  lemma {:induction false} HexAppend(a: Bytes, b: Bytes)
    ensures Hex(a + b) == Hex(a) + Hex(b)
  {
    if a != [] {
      assert (a + b)[0] == a[0] && (a + b)[1..] == a[1..] + b;
      HexAppend(a[1..], b);
    } else {
      assert a + b == b;
    }
  }

  /** `format!("{:?}", x)` for a fixed-size hash type: "0x" and every byte in hex. */
  function DebugHex(bs: Bytes): (r: string)
    ensures |r| == 2 + 2 * |bs| && r[..2] == "0x"
  {
    "0x" + Hex(bs)
  }

  /** The value of one hex digit; both cases are accepted, as by `rustc_hex`. */
  function HexValue(c: char): (r: Option<nat>)
    ensures r.Some? ==> r.value < 16
  {
    if '0' <= c <= '9' then Some(c as int - '0' as int)
    else if 'a' <= c <= 'f' then Some(c as int - 'a' as int + 10)
    else if 'A' <= c <= 'F' then Some(c as int - 'A' as int + 10)
    else None
  }

  /** Hex digits, two per byte, back to bytes; `None` on an odd length or a non-hex character. */
  function ParseHex(s: string): (r: Option<Bytes>)
    ensures r.Some? ==> 2 * |r.value| == |s|
  {
    if s == [] then Some([])
    else if |s| == 1 then None
    else
      var hi, lo, rest := HexValue(s[0]), HexValue(s[1]), ParseHex(s[2..]);
      if hi.Some? && lo.Some? && rest.Some? then Some([hi.value * 16 + lo.value] + rest.value)
      else None
  }

  lemma HexDigitValue(n: nat)
    requires n < 16
    ensures HexValue(HexDigit(n)) == Some(n)
  {
  }

  lemma ParseHexStep(s: string, hi: nat, lo: nat, rest: Bytes)
    requires |s| >= 2 && hi < 16 && lo < 16
    requires HexValue(s[0]) == Some(hi) && HexValue(s[1]) == Some(lo) && ParseHex(s[2..]) == Some(rest)
    ensures ParseHex(s) == Some([hi * 16 + lo] + rest)
  {
  }

  /** Parsing the hex of a byte string gives back the bytes. */
  lemma {:induction false} ParseHexOfHex(bs: Bytes)
    ensures ParseHex(Hex(bs)) == Some(bs)
  {
    if bs != [] {
      var h, b, rest := Hex(bs), bs[0], bs[1..];
      assert h == [HexDigit(b / 16), HexDigit(b % 16)] + Hex(rest);
      assert h[2..] == Hex(rest);
      HexDigitValue(b / 16);
      HexDigitValue(b % 16);
      ParseHexOfHex(rest);
      ParseHexStep(h, b / 16, b % 16, rest);
      assert [b / 16 * 16 + b % 16] + rest == bs;
    }
  }

  /** `H160::from_str`: an optional "0x" prefix, then exactly 40 hex digits. */
  function ParseAddress(s: string): (r: Option<Address>)
    ensures r.Some? ==> |s| == 40 || (|s| == 42 && s[..2] == "0x")
  {
    var digits := if |s| >= 2 && s[..2] == "0x" then s[2..] else s;
    if |digits| != 40 then None
    else
      match ParseHex(digits)
      case Some(bs) => Some(bs)
      case None => None
  }

  /** Distinct byte strings have distinct hex forms. */
  lemma HexInjective(a: Bytes, b: Bytes)
    requires Hex(a) == Hex(b)
    ensures a == b
  {
    ParseHexOfHex(a);
    ParseHexOfHex(b);
  }

  /** An address printed with `{:?}` parses back to itself. */
  lemma ParseAddressOfDebug(a: Address)
    ensures ParseAddress(DebugHex(a)) == Some(a)
  {
    var s := DebugHex(a);
    assert s[2..] == Hex(a);
    ParseHexOfHex(a);
  }

  function DigitChar(d: nat): char
    requires d < 10
  {
    DEC_DIGITS[d]
  }

  /** `Display` of a natural number: decimal digits without leading zeros. */
  function Digits(n: nat): (r: string)
    ensures |r| >= 1
    decreases n
  {
    if n < 10 then [DigitChar(n)] else Digits(n / 10) + [DigitChar(n % 10)]
  }

  /** `Display` of an integer: a minus sign before the digits of a negative value. */
  function FormatInt(n: int): string {
    if n < 0 then "-" + Digits(-n) else Digits(n)
  }

  function DigitValue(c: char): (r: Option<nat>)
    ensures r.Some? ==> r.value < 10
  {
    if '0' <= c <= '9' then Some(c as int - '0' as int) else None
  }

  /** One or more decimal digits, read most significant first. */
  function ParseDigits(s: string): Option<nat> {
    if |s| == 0 then None
    else if |s| == 1 then DigitValue(s[0])
    else
      match (ParseDigits(s[..|s| - 1]), DigitValue(s[|s| - 1]))
      case (Some(hi), Some(d)) => Some(hi * 10 + d)
      case _ => None
  }

  /**
   * `str::parse` into an integer type whose values are `lo..=hi`: an optional
   * sign ('-' only for a signed type), at least one digit, and no overflow.
   */
  function ParseInteger(s: string, lo: int, hi: int): (r: Option<int>)
    ensures r.Some? ==> lo <= r.value <= hi
  {
    if |s| > 0 && s[0] == '-' && lo < 0 then
      match ParseDigits(s[1..])
      case Some(m) =>
        var v: int := -(m as int);
        if lo <= v <= hi then Some(v) else None
      case None => None
    else
      var body := if |s| > 0 && s[0] == '+' then s[1..] else s;
      match ParseDigits(body)
      case Some(m) => if lo <= m <= hi then Some(m) else None
      case None => None
  }

  lemma {:induction false} ParseDigitsOfDigits(n: nat)
    ensures ParseDigits(Digits(n)) == Some(n)
    ensures DigitValue(Digits(n)[0]).Some?
    decreases n
  {
    if n >= 10 {
      var s := Digits(n);
      assert s[..|s| - 1] == Digits(n / 10);
      ParseDigitsOfDigits(n / 10);
      assert s[0] == Digits(n / 10)[0];
    }
  }

  /** An integer printed with `Display` parses back to itself at any type that holds it. */
  lemma ParseFormatInt(n: int, lo: int, hi: int)
    requires lo <= n <= hi
    ensures ParseInteger(FormatInt(n), lo, hi) == Some(n)
  {
    var s := FormatInt(n);
    if n < 0 {
      assert s[0] == '-' && s[1..] == Digits(-n);
      ParseDigitsOfDigits(-n);
    } else {
      ParseDigitsOfDigits(n);
      assert s[0] != '-' && s[0] != '+';
    }
  }

  /** `join(sep)`: the parts with `sep` between consecutive ones. */
  function Join(parts: seq<string>, sep: string): string {
    if |parts| == 0 then "" else if |parts| == 1 then parts[0] else parts[0] + sep + Join(parts[1..], sep)
  }
}

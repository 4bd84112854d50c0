/**
 * Integer formatting as Go's fmt package does it for non-negative ints:
 * `%x` (lower-case hexadecimal, no prefix, no leading zeros) and `%d`.
 */
module Format {
  import opened Wrappers

  const HexDigits := "0123456789abcdef"
  const DecimalDigits := "0123456789"

  /** `fmt.Sprintf("%x", n)` for n >= 0. */
  function Hex(n: nat): (s: string)
    ensures 1 <= |s|
    decreases n
  {
    if n < 16 then [HexDigits[n]] else Hex(n / 16) + [HexDigits[n % 16]]
  }

  /** The value of one lower-case hexadecimal digit. */
  function HexValue(c: char): (r: Option<nat>)
    ensures r.Some? ==> r.value < 16 && HexDigits[r.value] == c
    ensures (exists d :: 0 <= d < 16 && HexDigits[d] == c) ==> r.Some?
  {
    if '0' <= c <= '9' then Some(c as int - '0' as int)
    else if 'a' <= c <= 'f' then Some(c as int - 'a' as int + 10)
    else None
  }

  /** Reads back a string written by Hex; None for anything that is not hexadecimal. */
  function ParseHex(s: string): Option<nat>
    decreases |s|
  {
    if |s| == 0 then None
    else if |s| == 1 then HexValue(s[0])
    else
      match (ParseHex(s[..|s| - 1]), HexValue(s[|s| - 1]))
      case (Some(high), Some(low)) => Some(high * 16 + low)
      case _ => None
  }

  lemma HexDigitValue(d: nat)
    requires d < 16
    ensures HexValue(HexDigits[d]) == Some(d)
  {
  }

  /** Hex is undone by ParseHex. */
  lemma {:induction false} ParseHexOfHex(n: nat)
    ensures ParseHex(Hex(n)) == Some(n)
    decreases n
  {
    if n < 16 {
      HexDigitValue(n);
    } else {
      var s := Hex(n);
      assert s == Hex(n / 16) + [HexDigits[n % 16]];
      assert s[..|s| - 1] == Hex(n / 16);
      assert s[|s| - 1] == HexDigits[n % 16];
      ParseHexOfHex(n / 16);
      HexDigitValue(n % 16);
    }
  }

  /** Distinct numbers are written differently. */
  lemma HexInjective(m: nat, n: nat)
    requires Hex(m) == Hex(n)
    ensures m == n
  {
    ParseHexOfHex(m);
    ParseHexOfHex(n);
  }

  /** `fmt.Sprintf("%d", n)` for n >= 0. */
  function Decimal(n: nat): (s: string)
    ensures 1 <= |s|
    decreases n
  {
    if n < 10 then [DecimalDigits[n]] else Decimal(n / 10) + [DecimalDigits[n % 10]]
  }

  /** The value of one decimal digit. */
  function DecimalValue(c: char): (r: Option<nat>)
    ensures r.Some? ==> r.value < 10 && DecimalDigits[r.value] == c
  {
    if '0' <= c <= '9' then Some(c as int - '0' as int) else None
  }

  /** Reads back a string written by Decimal; None for anything that is not decimal. */
  function ParseDecimal(s: string): Option<nat>
    decreases |s|
  {
    if |s| == 0 then None
    else if |s| == 1 then DecimalValue(s[0])
    else
      match (ParseDecimal(s[..|s| - 1]), DecimalValue(s[|s| - 1]))
      case (Some(high), Some(low)) => Some(high * 10 + low)
      case _ => None
  }

  lemma DecimalDigitValue(d: nat)
    requires d < 10
    ensures DecimalValue(DecimalDigits[d]) == Some(d)
  {
  }

  /** Decimal is undone by ParseDecimal, so the counts in an error message can be read back. */
  lemma {:induction false} ParseDecimalOfDecimal(n: nat)
    ensures ParseDecimal(Decimal(n)) == Some(n)
    decreases n
  {
    if n < 10 {
      DecimalDigitValue(n);
    } else {
      var s := Decimal(n);
      assert s == Decimal(n / 10) + [DecimalDigits[n % 10]];
      assert s[..|s| - 1] == Decimal(n / 10);
      assert s[|s| - 1] == DecimalDigits[n % 10];
      ParseDecimalOfDecimal(n / 10);
      DecimalDigitValue(n % 10);
    }
  }
}

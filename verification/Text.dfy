/** Numbers as text: signed decimal, fixed-width hexadecimal and UUIDs. */
module Text {
  import opened Prelude

  // ---- Signed 64-bit decimal, as Rust prints and parses `i64` ----

  const I64_MIN := -0x8000_0000_0000_0000
  const I64_MAX := 0x7fff_ffff_ffff_ffff

  predicate IsDigit(c: char) { '0' <= c <= '9' }

  function DigitChar(d: nat): (c: char)
    requires d < 10
    ensures IsDigit(c) && c as int - '0' as int == d
  {
    '0' + d as char
  }

  function PrintNat(n: nat): (s: string)
    ensures |s| > 0
  {
    (if n < 10 then [] else PrintNat(n / 10)) + [DigitChar(n % 10)]
  }

  function PrintInt(n: int): string {
    if n < 0 then "-" + PrintNat(-n) else PrintNat(n)
  }

  function ReadNat(s: string): Option<nat> {
    if s == "" then Some(0)
    else if !IsDigit(s[|s| - 1]) then None
    else
      match ReadNat(s[..|s| - 1])
      case None => None
      case Some(n) => Some(n * 10 + (s[|s| - 1] as int - '0' as int))
  }

  /** An optional sign, at least one digit, and a value that fits 64 bits. */
  function ParseI64(s: string): Option<int> {
    var negative := |s| > 0 && s[0] == '-';
    var digits := if |s| > 0 && (s[0] == '-' || s[0] == '+') then s[1..] else s;
    if digits == "" then None
    else
      match ReadNat(digits)
      case None => None
      case Some(n) =>
        var v := if negative then -(n as int) else n as int;
        if I64_MIN <= v <= I64_MAX then Some(v) else None
  }

  lemma ReadOneMore(s: string, d: nat)
    requires ReadNat(s).Some? && d < 10
    ensures ReadNat(s + [DigitChar(d)]) == Some(ReadNat(s).value * 10 + d)
  {
    var t := s + [DigitChar(d)];
    assert t[..|t| - 1] == s && t[|t| - 1] == DigitChar(d);
  }

  lemma {:induction false} ReadOfPrintNat(n: nat)
    ensures ReadNat(PrintNat(n)) == Some(n)
    ensures forall i :: 0 <= i < |PrintNat(n)| ==> IsDigit(PrintNat(n)[i])
  {
    if n < 10 {
      ReadOneMore("", n);
    } else {
      ReadOfPrintNat(n / 10);
      ReadOneMore(PrintNat(n / 10), n % 10);
    }
  }

  lemma ParseOfPrintI64(n: int)
    requires I64_MIN <= n <= I64_MAX
    ensures ParseI64(PrintInt(n)) == Some(n)
    ensures forall i :: 0 <= i < |PrintInt(n)| ==> IsDigit(PrintInt(n)[i]) || PrintInt(n)[i] == '-'
  {
    var magnitude: nat := if n < 0 then -n else n;
    var digits, text := PrintNat(magnitude), PrintInt(n);
    ReadOfPrintNat(magnitude);
    assert IsDigit(digits[0]);
    if n < 0 {
      assert text[0] == '-' && text[1..] == digits;
      forall i | 0 <= i < |text| ensures IsDigit(text[i]) || text[i] == '-' {
        if i > 0 { assert text[i] == digits[i - 1]; }
      }
    } else {
      assert text == digits;
    }
  }

  lemma ParseDigits(sign: string, m: nat)
    requires sign == "" || sign == "+" || sign == "-"
    ensures ParseI64(sign + PrintNat(m)) ==
            var v := if sign == "-" then -(m as int) else m as int;
            if I64_MIN <= v <= I64_MAX then Some(v) else None
  {
    hide ReadNat, PrintNat;
    var digits, text := PrintNat(m), sign + PrintNat(m);
    ReadOfPrintNat(m);
    assert IsDigit(digits[0]);
    if sign == "" {
      assert text == digits;
    } else {
      assert text[0] == sign[0] && text[1..] == digits;
    }
  }

  /** A sign is optional, a value must fit 64 bits, and a digit must be there. */
  lemma ParseIsExact(m: nat)
    ensures ParseI64(PrintNat(m)) == ParseI64("+" + PrintNat(m)) == if m < 0x8000_0000_0000_0000 then Some(m) else None
    ensures ParseI64("-" + PrintNat(m)) == if m <= 0x8000_0000_0000_0000 then Some(-(m as int)) else None
    ensures ParseI64("") == ParseI64("+") == ParseI64("-") == None
  {
    ParseDigits("", m);
    ParseDigits("+", m);
    ParseDigits("-", m);
    assert "" + PrintNat(m) == PrintNat(m);
  }

  // ---- Fixed-width hexadecimal ----

  function Pow16(k: nat): (p: nat)
    ensures p > 0
  {
    if k == 0 then 1 else 16 * Pow16(k - 1)
  }

  function HexDigit(d: nat): char
    requires d < 16
  {
    if d < 10 then '0' + d as char else 'a' + (d - 10) as char
  }

  function HexValue(c: char): Option<nat> {
    if '0' <= c <= '9' then Some(c as int - '0' as int)
    else if 'a' <= c <= 'f' then Some(c as int - 'a' as int + 10)
    else if 'A' <= c <= 'F' then Some(c as int - 'A' as int + 10)
    else None
  }

  /** The `width` low hexadecimal digits of `n`, most significant first, zero-padded. */
  function Hex(n: nat, width: nat): (s: string)
    ensures |s| == width
  {
    if width == 0 then "" else Hex(n / 16, width - 1) + [HexDigit(n % 16)]
  }

  function ReadHex(s: string): (r: Option<nat>)
    ensures r.Some? ==> r.value < Pow16(|s|)
  {
    if s == "" then Some(0)
    else
      match (ReadHex(s[..|s| - 1]), HexValue(s[|s| - 1]))
      case (Some(n), Some(d)) => Some(16 * n + d)
      case _ => None
  }

  lemma {:induction false} ReadOfHex(n: nat, width: nat)
    requires n < Pow16(width)
    ensures ReadHex(Hex(n, width)) == Some(n)
  {
    if width == 0 {
    } else {
      ReadOfHex(n / 16, width - 1);
      var s := Hex(n, width);
      assert s[..|s| - 1] == Hex(n / 16, width - 1);
    }
  }

  // ---- UUID text (RFC 9562, section 4) ----

  type Uuid = n: nat | n < 0x1_0000_0000_0000_0000_0000_0000_0000_0000 witness 0

  lemma UuidWidth()
    ensures Pow16(32) == 0x1_0000_0000_0000_0000_0000_0000_0000_0000
  {
    assert Pow16(8) == 0x1_0000_0000;
    assert Pow16(16) == 0x1_0000_0000_0000_0000;
    assert Pow16(24) == 0x1_0000_0000_0000_0000_0000_0000;
  }

  function PrintUuid(id: Uuid): (s: string)
    ensures |s| == 36
  {
    var h := Hex(id, 32);
    h[..8] + "-" + h[8..12] + "-" + h[12..16] + "-" + h[16..20] + "-" + h[20..]
  }

  function ParseHyphenated(s: string): Option<nat>
    requires |s| == 36
  {
    if s[8] == s[13] == s[18] == s[23] == '-' then
      ReadHex(s[..8] + s[9..13] + s[14..18] + s[19..23] + s[24..])
    else None
  }

  /** The spellings the `uuid` crate accepts: simple, hyphenated, braced and URN. */
  function ParseUuid(s: string): (r: Option<nat>) {
    if |s| == 32 then ReadHex(s)
    else if |s| == 36 then ParseHyphenated(s)
    else if |s| == 38 && s[0] == '{' && s[37] == '}' then ParseHyphenated(s[1..37])
    else if |s| == 45 && s[..9] == "urn:uuid:" then ParseHyphenated(s[9..])
    else None
  }

  lemma ParsedUuidFits(s: string)
    requires ParseUuid(s).Some?
    ensures ParseUuid(s).value < 0x1_0000_0000_0000_0000_0000_0000_0000_0000
  {
    UuidWidth();
  }

  lemma ParseOfPrintUuid(id: Uuid)
    ensures ParseUuid(PrintUuid(id)) == Some(id)
  {
    var s, h := PrintUuid(id), Hex(id, 32);
    assert s[..8] == h[..8] && s[9..13] == h[8..12] && s[14..18] == h[12..16];
    assert s[19..23] == h[16..20] && s[24..] == h[20..];
    assert h[..8] + h[8..12] + h[12..16] + h[16..20] + h[20..] == h;
    UuidWidth();
    ReadOfHex(id, 32);
  }

  /** The other spellings read as the same UUID: plain digits, braces and URN. */
  lemma UuidSpellings(id: Uuid)
    ensures ParseUuid(Hex(id, 32)) == Some(id)
    ensures ParseUuid("{" + PrintUuid(id) + "}") == Some(id)
    ensures ParseUuid("urn:uuid:" + PrintUuid(id)) == Some(id)
  {
    hide ReadHex, Hex, PrintUuid, ParseHyphenated;
    UuidWidth();
    ReadOfHex(id, 32);
    ParseOfPrintUuid(id);
    var s := PrintUuid(id);
    assert ("{" + s + "}")[1..37] == s && ("{" + s + "}")[37] == '}';
    assert ("urn:uuid:" + s)[9..] == s && ("urn:uuid:" + s)[..9] == "urn:uuid:";
  }
}

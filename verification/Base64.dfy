/** Base64 as the `base64` crate's strict engines read and write it (RFC 4648,
    sections 3.2, 4 and 5). Everything hard happens on sextets, before an
    alphabet is chosen, so the two alphabets share one proof. */
module Base64 {
  import opened Prelude

  type Byte = b: int | 0 <= b < 256
  type Sextet = d: int | 0 <= d < 64

  // Three octets are cut across four sextets at 6|2, 4|4 and 2|6 bits.
  function Top6(b0: int): int { b0 / 4 }
  function Low2Top4(b0: int, b1: int): int { b0 % 4 * 16 + b1 / 16 }
  function Low4Top2(b1: int, b2: int): int { b1 % 16 * 4 + b2 / 64 }
  function Low6(b2: int): int { b2 % 64 }

  function Join6And2(d0: int, d1: int): int { d0 * 4 + d1 / 16 }
  function Join4And4(d1: int, d2: int): int { d1 % 16 * 16 + d2 / 4 }
  function Join2And6(d2: int, d3: int): int { d2 % 4 * 64 + d3 }

  /** Regroup octets into sextets, without padding. */
  function Sextets(bytes: seq<Byte>): (ds: seq<Sextet>) {
    if bytes == [] then []
    else if |bytes| == 1 then [Top6(bytes[0]), Low2Top4(bytes[0], 0)]
    else if |bytes| == 2 then [Top6(bytes[0]), Low2Top4(bytes[0], bytes[1]), Low4Top2(bytes[1], 0)]
    else
      [Top6(bytes[0]), Low2Top4(bytes[0], bytes[1]), Low4Top2(bytes[1], bytes[2]), Low6(bytes[2])] +
      Sextets(bytes[3..])
  }

  /** Strict inverse: one leftover sextet, or leftover bits that are not zero, are errors. */
  function Octets(ds: seq<Sextet>): (r: Option<seq<Byte>>) {
    if ds == [] then Some([])
    else if |ds| == 1 then None
    else if |ds| == 2 then
      if Join4And4(ds[1], 0) == 0 then Some([Join6And2(ds[0], ds[1])]) else None
    else if |ds| == 3 then
      if Join2And6(ds[2], 0) == 0 then Some([Join6And2(ds[0], ds[1]), Join4And4(ds[1], ds[2])]) else None
    else
      match Octets(ds[4..])
      case None => None
      case Some(rest) =>
        Some([Join6And2(ds[0], ds[1]), Join4And4(ds[1], ds[2]), Join2And6(ds[2], ds[3])] + rest)
  }

  lemma CutThenJoin(b0: Byte, b1: Byte, b2: Byte)
    ensures Join6And2(Top6(b0), Low2Top4(b0, b1)) == b0
    ensures Join4And4(Low2Top4(b0, b1), Low4Top2(b1, b2)) == b1
    ensures Join2And6(Low4Top2(b1, b2), Low6(b2)) == b2
  {
  }

  lemma CutTail(b: Byte)
    ensures Join4And4(Low2Top4(b, 0), 0) == 0
    ensures Join2And6(Low4Top2(b, 0), 0) == 0
  {
  }

  lemma JoinThenCut(d0: Sextet, d1: Sextet, d2: Sextet, d3: Sextet)
    ensures Top6(Join6And2(d0, d1)) == d0
    ensures Low2Top4(Join6And2(d0, d1), Join4And4(d1, d2)) == d1
    ensures Low4Top2(Join4And4(d1, d2), Join2And6(d2, d3)) == d2
    ensures Low6(Join2And6(d2, d3)) == d3
  {
  }

  lemma JoinTail(d0: Sextet, d1: Sextet, d2: Sextet)
    ensures Join4And4(d1, 0) == 0 ==> Low2Top4(Join6And2(d0, d1), 0) == d1
    ensures Join2And6(d2, 0) == 0 ==> Low4Top2(Join4And4(d1, d2), 0) == d2
  {
    assert (d0 * 4 + d1 / 16) % 4 == d1 / 16;
    assert (d1 % 16 * 16 + d2 / 4) % 16 == d2 / 4;
    assert d1 == d1 / 16 * 16 + d1 % 16;
    assert d2 == d2 / 4 * 4 + d2 % 4;
  }

  lemma OctetsOfTwo(x: Sextet, y: Sextet)
    ensures Octets([x, y]) == if Join4And4(y, 0) == 0 then Some([Join6And2(x, y)]) else None
  {
  }

  lemma OctetsOfThree(x: Sextet, y: Sextet, z: Sextet)
    ensures Octets([x, y, z]) == if Join2And6(z, 0) == 0 then Some([Join6And2(x, y), Join4And4(y, z)]) else None
  {
  }

  lemma OctetsOfQuantum(d0: Sextet, d1: Sextet, d2: Sextet, d3: Sextet, rest: seq<Sextet>)
    requires Octets(rest).Some?
    ensures Octets([d0, d1, d2, d3] + rest) ==
            Some([Join6And2(d0, d1), Join4And4(d1, d2), Join2And6(d2, d3)] + Octets(rest).value)
  {
    assert ([d0, d1, d2, d3] + rest)[4..] == rest;
  }

  lemma RoundTripOne(b: Byte)
    ensures Octets(Sextets([b])) == Some([b])
  {
    assert Sextets([b]) == [Top6(b), Low2Top4(b, 0)];
    OctetsOfTwo(Top6(b), Low2Top4(b, 0));
    CutTail(b);
    CutThenJoin(b, 0, 0);
  }

  lemma RoundTripTwo(b0: Byte, b1: Byte)
    ensures Octets(Sextets([b0, b1])) == Some([b0, b1])
  {
    assert Sextets([b0, b1]) == [Top6(b0), Low2Top4(b0, b1), Low4Top2(b1, 0)];
    OctetsOfThree(Top6(b0), Low2Top4(b0, b1), Low4Top2(b1, 0));
    CutTail(b1);
    CutThenJoin(b0, b1, 0);
  }

  lemma RoundTripQuantum(b0: Byte, b1: Byte, b2: Byte, rest: seq<Byte>)
    requires Octets(Sextets(rest)) == Some(rest)
    ensures Octets(Sextets([b0, b1, b2] + rest)) == Some([b0, b1, b2] + rest)
  {
    var bytes := [b0, b1, b2] + rest;
    assert bytes[3..] == rest;
    assert Sextets(bytes) == [Top6(b0), Low2Top4(b0, b1), Low4Top2(b1, b2), Low6(b2)] + Sextets(rest);
    OctetsOfQuantum(Top6(b0), Low2Top4(b0, b1), Low4Top2(b1, b2), Low6(b2), Sextets(rest));
    CutThenJoin(b0, b1, b2);
  }

  lemma {:induction false} OctetsOfSextets(bytes: seq<Byte>)
    ensures Octets(Sextets(bytes)) == Some(bytes)
  {
    if |bytes| >= 3 {
      OctetsOfSextets(bytes[3..]);
      RoundTripQuantum(bytes[0], bytes[1], bytes[2], bytes[3..]);
      assert bytes == [bytes[0], bytes[1], bytes[2]] + bytes[3..];
    } else if |bytes| == 2 {
      RoundTripTwo(bytes[0], bytes[1]);
      assert bytes == [bytes[0], bytes[1]];
    } else if |bytes| == 1 {
      RoundTripOne(bytes[0]);
      assert bytes == [bytes[0]];
    }
  }

  lemma SextetsOfQuantum(b0: Byte, b1: Byte, b2: Byte, rest: seq<Byte>)
    ensures Sextets([b0, b1, b2] + rest) ==
            [Top6(b0), Low2Top4(b0, b1), Low4Top2(b1, b2), Low6(b2)] + Sextets(rest)
  {
    assert ([b0, b1, b2] + rest)[3..] == rest;
  }

  lemma SextetsOfTail(b0: Byte, b1: Byte)
    ensures Sextets([b0]) == [Top6(b0), Low2Top4(b0, 0)]
    ensures Sextets([b0, b1]) == [Top6(b0), Low2Top4(b0, b1), Low4Top2(b1, 0)]
  {
  }

  /** The strict reader accepts one spelling only: whatever it accepts re-encodes to itself. */
  lemma {:induction false} SextetsOfOctets(ds: seq<Sextet>)
    requires Octets(ds).Some?
    ensures Sextets(Octets(ds).value) == ds
  {
    if |ds| == 2 {
      OctetsOfTwo(ds[0], ds[1]);
      assert ds == [ds[0], ds[1]];
      SextetsOfTail(Join6And2(ds[0], ds[1]), 0);
      JoinTail(ds[0], ds[1], 0);
      JoinThenCut(ds[0], ds[1], 0, 0);
    } else if |ds| == 3 {
      OctetsOfThree(ds[0], ds[1], ds[2]);
      assert ds == [ds[0], ds[1], ds[2]];
      SextetsOfTail(Join6And2(ds[0], ds[1]), Join4And4(ds[1], ds[2]));
      JoinTail(ds[0], ds[1], ds[2]);
      JoinThenCut(ds[0], ds[1], ds[2], 0);
    } else if |ds| >= 4 {
      SextetsOfOctets(ds[4..]);
      var d0, d1, d2, d3 := ds[0], ds[1], ds[2], ds[3];
      SextetsOfQuantum(Join6And2(d0, d1), Join4And4(d1, d2), Join2And6(d2, d3), Octets(ds[4..]).value);
      JoinThenCut(d0, d1, d2, d3);
      assert ds == [d0, d1, d2, d3] + ds[4..];
    }
  }

  lemma {:induction false} SextetCount(bytes: seq<Byte>)
    ensures |Sextets(bytes)| == (4 * |bytes| + 2) / 3
  {
    if |bytes| >= 3 {
      SextetCount(bytes[3..]);
    }
  }

  // ---- Alphabets ----

  /** The two alphabets differ only in their last two characters. */
  datatype Alphabet = Standard | UrlSafe

  function Digit(a: Alphabet, d: Sextet): (c: char) {
    if d < 26 then 'A' + d as char
    else if d < 52 then 'a' + (d - 26) as char
    else if d < 62 then '0' + (d - 52) as char
    else if d == 62 then (if a == Standard then '+' else '-')
    else (if a == Standard then '/' else '_')
  }

  function Value(a: Alphabet, c: char): (d: Option<Sextet>) {
    if 'A' <= c <= 'Z' then Some(c as int - 'A' as int)
    else if 'a' <= c <= 'z' then Some(c as int - 'a' as int + 26)
    else if '0' <= c <= '9' then Some(c as int - '0' as int + 52)
    else if c == (if a == Standard then '+' else '-') then Some(62)
    else if c == (if a == Standard then '/' else '_') then Some(63)
    else None
  }

  lemma ValueOfDigit(a: Alphabet, d: Sextet)
    ensures Value(a, Digit(a, d)) == Some(d)
  {
  }

  lemma DigitOfValue(a: Alphabet, c: char)
    requires Value(a, c).Some?
    ensures Digit(a, Value(a, c).value) == c
  {
  }

  function Spell(a: Alphabet, ds: seq<Sextet>): (s: string)
    ensures |s| == |ds|
  {
    if ds == [] then [] else [Digit(a, ds[0])] + Spell(a, ds[1..])
  }

  function Read(a: Alphabet, s: string): (r: Option<seq<Sextet>>)
  {
    if s == [] then Some([])
    else
      match Value(a, s[0])
      case None => None
      case Some(d) =>
        match Read(a, s[1..])
        case None => None
        case Some(rest) => Some([d] + rest)
  }

  lemma ReadCons(a: Alphabet, c: char, s: string)
    requires Value(a, c).Some? && Read(a, s).Some?
    ensures Read(a, [c] + s) == Some([Value(a, c).value] + Read(a, s).value)
  {
    assert ([c] + s)[1..] == s;
  }

  lemma {:induction false} ReadOfSpell(a: Alphabet, ds: seq<Sextet>)
    ensures Read(a, Spell(a, ds)) == Some(ds)
  {
    if ds == [] {
    } else {
      ReadOfSpell(a, ds[1..]);
      ValueOfDigit(a, ds[0]);
      ReadCons(a, Digit(a, ds[0]), Spell(a, ds[1..]));
      assert ds == [ds[0]] + ds[1..];
    }
  }

  lemma {:induction false} SpellOfRead(a: Alphabet, s: string)
    requires Read(a, s).Some?
    ensures Spell(a, Read(a, s).value) == s
  {
    if s == [] {
    } else {
      SpellOfRead(a, s[1..]);
      DigitOfValue(a, s[0]);
      assert Read(a, s).value[1..] == Read(a, s[1..]).value;
    }
  }

  // ---- The code itself (RFC 4648, tables 1 and 2) ----

  lemma AlphabetTable(d: Sextet)
    ensures d < 26 ==> Digit(Standard, d) == Digit(UrlSafe, d) == "ABCDEFGHIJKLMNOPQRSTUVWXYZ"[d]
    ensures 26 <= d < 52 ==> Digit(Standard, d) == Digit(UrlSafe, d) == "abcdefghijklmnopqrstuvwxyz"[d - 26]
    ensures 52 <= d < 62 ==> Digit(Standard, d) == Digit(UrlSafe, d) == "0123456789"[d - 52]
    ensures Digit(Standard, 62) == '+' && Digit(Standard, 63) == '/'
    ensures Digit(UrlSafe, 62) == '-' && Digit(UrlSafe, 63) == '_'
  {
  }

  function OctetNumber(b0: int, b1: int, b2: int): int { b0 * 65536 + b1 * 256 + b2 }
  function SextetNumber(d0: int, d1: int, d2: int, d3: int): int { d0 * 262144 + d1 * 4096 + d2 * 64 + d3 }

  lemma SameNumber(b0: Byte, b1: Byte, b2: Byte)
    ensures OctetNumber(b0, b1, b2) == SextetNumber(Top6(b0), Low2Top4(b0, b1), Low4Top2(b1, b2), Low6(b2))
  {
  }

  /** Three octets and their four sextets are the same 24-bit number, most significant
      first; a tail of one or two octets is padded with zero bits on the right. */
  lemma SextetsAreBits(bytes: seq<Byte>)
    requires bytes != []
    ensures var ds := Sextets(bytes);
      && (|bytes| == 1 ==> |ds| == 2 && SextetNumber(ds[0], ds[1], 0, 0) == OctetNumber(bytes[0], 0, 0))
      && (|bytes| == 2 ==> |ds| == 3 && SextetNumber(ds[0], ds[1], ds[2], 0) == OctetNumber(bytes[0], bytes[1], 0))
      && (|bytes| >= 3 ==>
            |ds| >= 4 && ds[4..] == Sextets(bytes[3..]) &&
            SextetNumber(ds[0], ds[1], ds[2], ds[3]) == OctetNumber(bytes[0], bytes[1], bytes[2]))
  {
    if |bytes| == 1 {
      SameNumber(bytes[0], 0, 0);
    } else if |bytes| == 2 {
      SameNumber(bytes[0], bytes[1], 0);
    } else {
      SameNumber(bytes[0], bytes[1], bytes[2]);
    }
  }

  // ---- base64url without padding (live-search cursors) ----

  function EncodeUrl(bytes: seq<Byte>): string {
    Spell(UrlSafe, Sextets(bytes))
  }

  /** `=` is in neither alphabet, so padded input is refused here. */
  function DecodeUrl(s: string): Option<seq<Byte>> {
    match Read(UrlSafe, s)
    case None => None
    case Some(ds) => Octets(ds)
  }

  lemma DecodeOfEncodeUrl(bytes: seq<Byte>)
    ensures DecodeUrl(EncodeUrl(bytes)) == Some(bytes)
  {
    ReadOfSpell(UrlSafe, Sextets(bytes));
    OctetsOfSextets(bytes);
  }

  /** Decoding is injective: distinct accepted strings carry distinct bytes. */
  lemma EncodeOfDecodeUrl(s: string)
    requires DecodeUrl(s).Some?
    ensures EncodeUrl(DecodeUrl(s).value) == s
  {
    SextetsOfOctets(Read(UrlSafe, s).value);
    SpellOfRead(UrlSafe, s);
  }

  // ---- Standard base64 with padding (gateway PEM) ----

  function Padding(n: nat): string {
    if n % 3 == 0 then "" else if n % 3 == 1 then "==" else "="
  }

  function EncodeStandard(bytes: seq<Byte>): string {
    Spell(Standard, Sextets(bytes)) + Padding(|bytes|)
  }

  function StripPadding(s: string): string {
    if |s| >= 2 && s[|s| - 2..] == "==" then s[..|s| - 2]
    else if |s| >= 1 && s[|s| - 1] == '=' then s[..|s| - 1]
    else s
  }

  /** Strict reader: whole quanta only, with exactly the padding they need. */
  function DecodeStandard(s: string): Option<seq<Byte>> {
    if |s| % 4 != 0 then None
    else
      match Read(Standard, StripPadding(s))
      case None => None
      case Some(ds) => Octets(ds)
  }

  lemma {:induction false} SpellIsAlphabetic(a: Alphabet, ds: seq<Sextet>, i: nat)
    requires i < |ds|
    ensures Spell(a, ds)[i] == Digit(a, ds[i])
  {
    if i == 0 {
    } else {
      SpellIsAlphabetic(a, ds[1..], i - 1);
    }
  }

  lemma ThirdsOf(q: nat, r: nat)
    requires r < 3
    ensures (4 * (3 * q + r) + 2) / 3 == 4 * q + if r == 0 then 0 else r + 1
    ensures (3 * q + r + 2) / 3 == q + if r == 0 then 0 else 1
  {
  }

  lemma EncodeStandardLength(bytes: seq<Byte>)
    ensures |EncodeStandard(bytes)| == (|bytes| + 2) / 3 * 4
  {
    var n := |bytes|;
    SextetCount(bytes);
    ThirdsOf(n / 3, n % 3);
    assert n == 3 * (n / 3) + n % 3;
  }

  /** Every character of the padded text is a base64 digit or `=`. */
  lemma EncodeStandardAlphabet(bytes: seq<Byte>)
    ensures forall i :: 0 <= i < |EncodeStandard(bytes)| ==>
              EncodeStandard(bytes)[i] == '=' || Value(Standard, EncodeStandard(bytes)[i]).Some?
  {
    var ds := Sextets(bytes);
    forall i | 0 <= i < |ds| ensures Value(Standard, Spell(Standard, ds)[i]).Some? {
      SpellIsAlphabetic(Standard, ds, i);
      ValueOfDigit(Standard, ds[i]);
    }
  }

  lemma StripOfPadded(text: string, n: nat)
    requires forall i :: 0 <= i < |text| ==> text[i] != '='
    ensures StripPadding(text + Padding(n)) == text
  {
    var s := text + Padding(n);
    if n % 3 == 1 {
      assert s[|s| - 2..] == "==" && s[..|s| - 2] == text;
    } else if n % 3 == 2 {
      if |s| >= 2 {
        assert s[|s| - 2..][0] == text[|text| - 1];
      }
      assert s[..|s| - 1] == text;
    } else {
      assert s == text;
      if |s| >= 2 {
        assert s[|s| - 2..][1] == text[|text| - 1];
      }
    }
  }

  lemma DecodeOfEncodeStandard(bytes: seq<Byte>)
    ensures DecodeStandard(EncodeStandard(bytes)) == Some(bytes)
  {
    var ds, text := Sextets(bytes), EncodeStandard(bytes);
    assert |text| % 4 == 0 by {
      EncodeStandardLength(bytes);
    }
    assert StripPadding(text) == Spell(Standard, ds) by {
      forall i | 0 <= i < |ds| ensures Spell(Standard, ds)[i] != '=' {
        SpellIsAlphabetic(Standard, ds, i);
      }
      StripOfPadded(Spell(Standard, ds), |bytes|);
    }
    assert Read(Standard, Spell(Standard, ds)) == Some(ds) by {
      ReadOfSpell(Standard, ds);
    }
    OctetsOfSextets(bytes);
  }
}

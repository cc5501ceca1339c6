/** DER encodings of Ed25519 keys (RFC 8410) and PEM armor (RFC 7468). */
module Pem {
  import opened Prelude
  import opened Base64

  // ---- Armor ----

  const LINE: nat := 64

  function Header(name: string): string { "-----BEGIN " + name + "-----\n" }
  function Footer(name: string): string { "-----END " + name + "-----\n" }

  /** `text` cut into full lines and a shorter last one, each ended by a newline. */
  function Lines(text: string): string {
    if text == "" then ""
    else if |text| <= LINE then text + "\n"
    else text[..LINE] + "\n" + Lines(text[LINE..])
  }

  function Armor(name: string, der: seq<Byte>): string {
    Header(name) + Lines(EncodeStandard(der)) + Footer(name)
  }

  lemma {:induction false} LinesExtend(text: string, pos: nat)
    requires pos <= |text| && pos % LINE == 0
    ensures Lines(text) == Lines(text[..pos]) + Lines(text[pos..])
  {
    if pos == 0 {
      assert text[0..] == text;
    } else if pos == |text| {
      assert text[..pos] == text;
    } else if pos == LINE {
      assert text[..LINE] + "\n" == Lines(text[..LINE]);
    } else {
      assert text[LINE..][..pos - LINE] == text[..pos][LINE..];
      assert text[LINE..][pos - LINE..] == text[pos..];
      assert text[..pos][..LINE] == text[..LINE];
      LinesExtend(text[LINE..], pos - LINE);
    }
  }

  lemma OneMoreLine(text: string, pos: nat, end: nat)
    requires pos < |text| && pos % LINE == 0 && end == Min(pos + LINE, |text|)
    ensures Lines(text[..end]) == Lines(text[..pos]) + text[pos..end] + "\n"
  {
    LinesExtend(text[..end], pos);
    assert text[..end][..pos] == text[..pos] && text[..end][pos..] == text[pos..end];
    assert Lines(text[pos..end]) == text[pos..end] + "\n";
  }

  method PemEncode(name: string, der: seq<Byte>) returns (pem: string)
    ensures pem == Armor(name, der)
    ensures pem == "-----BEGIN " + name + "-----\n" + Lines(EncodeStandard(der)) + "-----END " + name + "-----\n"
  {
    var b64 := EncodeStandard(der);
    pem := "-----BEGIN " + name + "-----\n";
    ghost var header := pem;
    var pos := 0;
    while pos < |b64|
      invariant 0 <= pos <= |b64| && (pos % LINE == 0 || pos == |b64|)
      invariant pem == header + Lines(b64[..pos])
    {
      var end := Min(pos + LINE, |b64|);
      OneMoreLine(b64, pos, end);
      ghost var before := pem;
      pem := pem + b64[pos..end];
      pem := pem + "\n";
      assert pem == before + (b64[pos..end] + "\n");
      pos := end;
    }
    assert b64[..pos] == b64;
    pem := pem + ("-----END " + name + "-----\n");
  }

  /** Body line `i` of a longer text is its `i`th run of 64 characters, then a newline. */
  lemma {:induction false} LineAt(text: string, i: nat)
    requires 64 * (i + 1) <= |text|
    ensures |Lines(text)| >= 65 * (i + 1)
    ensures Lines(text)[65 * i..65 * i + 64] == text[64 * i..64 * i + 64] && Lines(text)[65 * i + 64] == '\n'
    decreases i
  {
    if i == 0 {
      if |text| == 64 {
        assert text[..64] == text;
      }
    } else {
      var rest := text[64..];
      LineAt(rest, i - 1);
      assert Lines(text) == text[..64] + "\n" + Lines(rest);
      assert rest[64 * (i - 1)..64 * (i - 1) + 64] == text[64 * i..64 * i + 64];
      assert Lines(text)[65..] == Lines(rest);
      assert Lines(rest)[65 * (i - 1)..65 * (i - 1) + 64] == Lines(text)[65 * i..65 * i + 64];
    }
  }

  // ---- A strict reader, written from RFC 7468 alone ----

  function FirstNewline(s: string): (i: nat)
    ensures i <= |s|
    ensures forall k :: 0 <= k < i ==> s[k] != '\n'
    ensures i < |s| ==> s[i] == '\n'
  {
    if s == "" || s[0] == '\n' then 0 else 1 + FirstNewline(s[1..])
  }

  /** Every line but the last holds exactly 64 characters, and the last at least one. */
  function Unwrap(body: string, footer: string): Option<string> {
    if body == footer then Some("")
    else
      var end := FirstNewline(body);
      if end == |body| || end == 0 || end > LINE then None
      else
        var rest := body[end + 1..];
        if end < LINE && rest != footer then None
        else
          match Unwrap(rest, footer)
          case None => None
          case Some(text) => Some(body[..end] + text)
  }

  function ReadPem(name: string, pem: string): Option<seq<Byte>> {
    if !(Header(name) <= pem) then None
    else
      match Unwrap(pem[|Header(name)|..], Footer(name))
      case None => None
      case Some(text) => DecodeStandard(text)
  }

  predicate IsBody(text: string) {
    forall i :: 0 <= i < |text| ==> text[i] != '\n' && text[i] != '-'
  }

  lemma FirstNewlineIs(s: string, i: nat)
    requires i < |s| && s[i] == '\n' && forall k :: 0 <= k < i ==> s[k] != '\n'
    ensures FirstNewline(s) == i
  {
  }

  lemma {:induction false} UnwrapOfLines(text: string, name: string)
    requires IsBody(text)
    ensures Unwrap(Lines(text) + Footer(name), Footer(name)) == Some(text)
  {
    var footer := Footer(name);
    var body := Lines(text) + footer;
    if text == "" {
      assert body == footer;
    } else {
      var end := Min(LINE, |text|);
      var rest := body[end + 1..];
      assert body[..end] == text[..end] && body[end] == '\n';
      assert rest == Lines(text[end..]) + footer by {
        if |text| <= LINE {
          assert text[end..] == "";
        }
      }
      assert body[0] == text[0] && footer[0] == '-';
      FirstNewlineIs(body, end);
      UnwrapOfLines(text[end..], name);
      if end < LINE {
        assert text[end..] == "" && rest == footer;
      }
      assert text == text[..end] + text[end..];
    }
  }

  /** A strict reader of the armor recovers the bytes, whatever the name. */
  lemma ReadOfArmor(name: string, der: seq<Byte>)
    ensures ReadPem(name, Armor(name, der)) == Some(der)
  {
    var text := EncodeStandard(der);
    EncodeStandardAlphabet(der);
    assert IsBody(text);
    assert Armor(name, der)[|Header(name)|..] == Lines(text) + Footer(name);
    UnwrapOfLines(text, name);
    DecodeOfEncodeStandard(der);
  }

  // ---- DER ----

  const ED25519_OID: seq<Byte> := [0x06, 0x03, 0x2b, 0x65, 0x70]

  /** One definite short-form element. */
  function Tlv(tag: Byte, contents: seq<Byte>): seq<Byte>
    requires |contents| < 128
  {
    [tag, |contents|] + contents
  }

  function Algorithm(): seq<Byte> {
    Tlv(0x30, ED25519_OID)
  }

  /** OneAsymmetricKey, version 1 (RFC 8410, section 7). */
  function PrivateKeyInfo(seed: seq<Byte>): seq<Byte>
    requires |seed| == 32
  {
    Tlv(0x30, Tlv(0x02, [0]) + Algorithm() + Tlv(0x04, Tlv(0x04, seed)))
  }

  /** SubjectPublicKeyInfo (RFC 8410, section 4): a bit string with no unused bits. */
  function PublicKeyInfo(key: seq<Byte>): seq<Byte>
    requires |key| == 32
  {
    Tlv(0x30, Algorithm() + Tlv(0x03, [0] + key))
  }

  /** Reads one definite short-form element with the given tag: its contents and what follows. */
  function Element(tag: Byte, s: seq<Byte>): Option<(seq<Byte>, seq<Byte>)> {
    if |s| < 2 || s[0] != tag || s[1] >= 128 || |s| < 2 + s[1] then None
    else Some((s[2..2 + s[1]], s[2 + s[1]..]))
  }

  /** Reads an element that must fill `s` exactly. */
  function Whole(tag: Byte, s: seq<Byte>): Option<seq<Byte>> {
    match Element(tag, s)
    case Some((contents, rest)) => if rest == [] then Some(contents) else None
    case None => None
  }

  function AfterAlgorithm(s: seq<Byte>): Option<seq<Byte>> {
    match Element(0x30, s)
    case Some((algorithm, rest)) => if algorithm == ED25519_OID then Some(rest) else None
    case None => None
  }

  function ReadPkcs8(der: seq<Byte>): Option<seq<Byte>> {
    match Whole(0x30, der)
    case None => None
    case Some(key) =>
      match Element(0x02, key)
      case None => None
      case Some((version, rest)) =>
        if version != [0] then None
        else
          match AfterAlgorithm(rest)
          case None => None
          case Some(outer) =>
            match Whole(0x04, outer)
            case None => None
            case Some(inner) => Whole(0x04, inner)
  }

  function ReadSpki(der: seq<Byte>): Option<seq<Byte>> {
    match Whole(0x30, der)
    case None => None
    case Some(info) =>
      match AfterAlgorithm(info)
      case None => None
      case Some(bits) =>
        match Whole(0x03, bits)
        case None => None
        case Some(contents) =>
          if contents != [] && contents[0] == 0 then Some(contents[1..]) else None
  }

  lemma ElementAt(tag: Byte, contents: seq<Byte>, rest: seq<Byte>)
    requires |contents| < 128
    ensures Element(tag, Tlv(tag, contents) + rest) == Some((contents, rest))
  {
    var s := Tlv(tag, contents) + rest;
    assert s[2..2 + |contents|] == contents && s[2 + |contents|..] == rest;
  }

  lemma WholeAt(tag: Byte, contents: seq<Byte>)
    requires |contents| < 128
    ensures Whole(tag, Tlv(tag, contents)) == Some(contents)
  {
    ElementAt(tag, contents, []);
    assert Tlv(tag, contents) + [] == Tlv(tag, contents);
  }

  lemma AlgorithmAt(rest: seq<Byte>)
    ensures AfterAlgorithm(Algorithm() + rest) == Some(rest)
  {
    ElementAt(0x30, ED25519_OID, rest);
  }

  /** A reader of the private key information gets the seed back. */
  lemma ReadOfPkcs8(seed: seq<Byte>)
    requires |seed| == 32
    ensures ReadPkcs8(PrivateKeyInfo(seed)) == Some(seed)
  {
    hide Element, Whole, AfterAlgorithm, Tlv;
    TlvLength(0x04, seed);
    TlvLength(0x04, Tlv(0x04, seed));
    TlvLength(0x02, [0]);
    TlvLength(0x30, ED25519_OID);
    var outer := Tlv(0x04, Tlv(0x04, seed));
    var tail := Algorithm() + outer;
    assert Tlv(0x02, [0]) + Algorithm() + outer == Tlv(0x02, [0]) + tail;
    WholeAt(0x30, Tlv(0x02, [0]) + tail);
    ElementAt(0x02, [0], tail);
    AlgorithmAt(outer);
    WholeAt(0x04, Tlv(0x04, seed));
    WholeAt(0x04, seed);
  }

  lemma TlvLength(tag: Byte, contents: seq<Byte>)
    requires |contents| < 128
    ensures |Tlv(tag, contents)| == 2 + |contents|
  {
  }

  /** A reader of the public key information gets the key back. */
  lemma ReadOfSpki(key: seq<Byte>)
    requires |key| == 32
    ensures ReadSpki(PublicKeyInfo(key)) == Some(key)
  {
    var bits := Tlv(0x03, [0] + key);
    WholeAt(0x30, Algorithm() + bits);
    AlgorithmAt(bits);
    WholeAt(0x03, [0] + key);
    assert ([0] + key)[1..] == key;
  }

  /** A length octet that does not match is refused. */
  lemma WrongLength(tag: Byte, der: seq<Byte>)
    requires |der| >= 2 && |der| - 2 != der[1]
    ensures Whole(tag, der) == None
  {
  }

  // ---- The encoders ----

  /** The encoding has matching length octets exactly when the seed has 32 bytes:
      then it is the private key information, and a reader gets the seed back. */
  method Pkcs8Der(seed: seq<Byte>) returns (der: seq<Byte>)
    ensures ReadPkcs8(der) == if |seed| == 32 then Some(seed) else None
    ensures |seed| == 32 ==> der == PrivateKeyInfo(seed)
    ensures der == PrivateKeyInfo(seq(32, i => 0))[..16] + seed
  {
    der := [];
    der := der + [0x30, 0x2e, 0x02, 0x01, 0x00, 0x30, 0x05];
    der := der + [0x06, 0x03, 0x2b, 0x65, 0x70];
    der := der + [0x04, 0x22, 0x04, 0x20];
    PrivateKeyHeader(seq(32, i => 0));
    assert der == PrivateKeyInfo(seq(32, i => 0))[..16];
    der := der + seed;
    if |seed| == 32 {
      PrivateKeyHeader(seed);
      ReadOfPkcs8(seed);
    } else {
      WrongLength(0x30, der);
    }
  }

  lemma PrivateKeyHeader(seed: seq<Byte>)
    requires |seed| == 32
    ensures PrivateKeyInfo(seed) ==
            [0x30, 0x2e, 0x02, 0x01, 0x00, 0x30, 0x05, 0x06, 0x03, 0x2b, 0x65, 0x70, 0x04, 0x22, 0x04, 0x20] + seed
  {
  }

  /** The same for the public key. */
  method SpkiDer(key: seq<Byte>) returns (der: seq<Byte>)
    ensures ReadSpki(der) == if |key| == 32 then Some(key) else None
    ensures |key| == 32 ==> der == PublicKeyInfo(key)
    ensures der == PublicKeyInfo(seq(32, i => 0))[..12] + key
  {
    der := [];
    der := der + [0x30, 0x2a, 0x30, 0x05];
    der := der + [0x06, 0x03, 0x2b, 0x65, 0x70];
    der := der + [0x03, 0x21, 0x00];
    PublicKeyHeader(seq(32, i => 0));
    assert der == PublicKeyInfo(seq(32, i => 0))[..12];
    der := der + key;
    if |key| == 32 {
      PublicKeyHeader(key);
      ReadOfSpki(key);
    } else {
      WrongLength(0x30, der);
    }
  }

  lemma PublicKeyHeader(key: seq<Byte>)
    requires |key| == 32
    ensures PublicKeyInfo(key) ==
            [0x30, 0x2a, 0x30, 0x05, 0x06, 0x03, 0x2b, 0x65, 0x70, 0x03, 0x21, 0x00] + key
  {
  }
}

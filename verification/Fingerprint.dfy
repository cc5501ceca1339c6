/** `short_fingerprint`: 64-bit FNV-1a, printed as sixteen hexadecimal digits. */
module Fingerprint {
  import opened Text

  const TWO64: nat := 0x1_0000_0000_0000_0000
  const OFFSET: nat := 0xcbf2_9ce4_8422_2325
  const PRIME: nat := 0x0100_0000_01b3
  /** The inverse of PRIME modulo 2^64: their product is INVERSE_QUOTIENT * 2^64 + 1. */
  const INVERSE: nat := 14886173955864302971
  const INVERSE_QUOTIENT: nat := 887285111055

  type Byte = b: int | 0 <= b < 256
  type Word = h: nat | h < TWO64

  /** Bitwise exclusive or, bit by bit from the lowest. */
  function Xor(a: nat, b: nat): nat {
    if a == 0 && b == 0 then 0 else (a + b) % 2 + 2 * Xor(a / 2, b / 2)
  }

  function Power2(k: nat): (p: nat) {
    if k == 0 then 1 else 2 * Power2(k - 1)
  }

  lemma {:induction false} XorFits(a: nat, b: nat, k: nat)
    requires a < Power2(k) && b < Power2(k)
    ensures Xor(a, b) < Power2(k)
  {
    if k > 0 && !(a == 0 && b == 0) {
      XorFits(a / 2, b / 2, k - 1);
    }
  }

  lemma WordWidth()
    ensures Power2(64) == TWO64
  {
    assert Power2(8) == 0x100;
    assert Power2(16) == 0x1_0000;
    assert Power2(24) == 0x100_0000;
    assert Power2(32) == 0x1_0000_0000;
    assert Power2(40) == 0x100_0000_0000;
    assert Power2(48) == 0x1_0000_0000_0000;
    assert Power2(56) == 0x100_0000_0000_0000;
  }

  lemma Halve(bit: nat, rest: nat)
    requires bit < 2
    ensures (bit + 2 * rest) / 2 == rest && (bit + 2 * rest) % 2 == bit
  {
  }

  lemma XorUnfolds(a: nat, b: nat)
    ensures Xor(a, b) == (a + b) % 2 + 2 * Xor(a / 2, b / 2)
  {
  }

  lemma ParityUndone(a: nat, b: nat, x: nat)
    requires x % 2 == (a + b) % 2
    ensures (x + b) % 2 == a % 2
  {
  }

  /** Exclusive or with a fixed word is its own inverse, hence a bijection. */
  lemma {:induction false} XorUndoesXor(a: nat, b: nat)
    ensures Xor(Xor(a, b), b) == a
    decreases a + b
  {
    if a != 0 || b != 0 {
      XorUndoesXor(a / 2, b / 2);
      var x := Xor(a, b);
      XorUnfolds(a, b);
      Halve((a + b) % 2, Xor(a / 2, b / 2));
      XorUnfolds(x, b);
      ParityUndone(a, b, x);
    }
  }

  lemma {:induction false} XorCommutes(a: nat, b: nat)
    ensures Xor(a, b) == Xor(b, a)
    decreases a + b
  {
    if a != 0 || b != 0 {
      XorCommutes(a / 2, b / 2);
    }
  }

  function Mix(h: Word, b: Byte): Word {
    Xor(h, b) * PRIME % TWO64
  }

  /** Multiplication by the odd PRIME loses nothing modulo 2^64. */
  lemma TimesPrimeIsInjective(x: Word, y: Word)
    requires x * PRIME % TWO64 == y * PRIME % TWO64
    ensures x == y
  {
    var q := x * PRIME / TWO64 - y * PRIME / TWO64;
    assert (x - y) * PRIME == q * TWO64;
    assert (x - y) * PRIME * INVERSE == q * TWO64 * INVERSE;
    assert (x - y) == TWO64 * (q * INVERSE - INVERSE_QUOTIENT * (x - y));
  }

  /** For a fixed byte one round is a bijection on states, and for a fixed state
      it separates bytes. */
  lemma MixIsInjective(h: Word, b: Byte, h': Word, b': Byte)
    ensures Mix(h, b) == Mix(h', b) <==> h == h'
    ensures Mix(h, b) == Mix(h, b') <==> b == b'
  {
    WordWidth();
    XorFits(h, b, 64);
    XorFits(h', b, 64);
    XorFits(h, b', 64);
    if Mix(h, b) == Mix(h', b) {
      TimesPrimeIsInjective(Xor(h, b), Xor(h', b));
      XorUndoesXor(h, b);
      XorUndoesXor(h', b);
    }
    if Mix(h, b) == Mix(h, b') {
      TimesPrimeIsInjective(Xor(h, b), Xor(h, b'));
      XorCommutes(h, b);
      XorCommutes(h, b');
      XorUndoesXor(b, h);
      XorUndoesXor(b', h);
    }
  }

  function Fnv1a(bytes: seq<Byte>): Word {
    if bytes == [] then OFFSET else Mix(Fnv1a(bytes[..|bytes| - 1]), bytes[|bytes| - 1])
  }

  method ShortFingerprint(bytes: seq<Byte>) returns (text: string)
    ensures text == Hex(Fnv1a(bytes), 16)
  {
    var h: nat := OFFSET;
    for i := 0 to |bytes|
      invariant h == Fnv1a(bytes[..i])
    {
      assert bytes[..i + 1][..i] == bytes[..i];
      WordWidth();
      XorFits(h, bytes[i], 64);
      h := Xor(h, bytes[i]);
      h := h * PRIME % TWO64;
    }
    assert bytes[..|bytes|] == bytes;
    text := Hex(h, 16);
  }

  lemma {:induction false} HashSeparates(a: seq<Byte>, b: seq<Byte>, at: nat)
    requires |a| == |b| && at < |a| && a[at] != b[at]
    requires forall i :: 0 <= i < |a| && i != at ==> a[i] == b[i]
    ensures Fnv1a(a) != Fnv1a(b)
  {
    var n := |a| - 1;
    if at == n {
      assert a[..n] == b[..n];
      MixIsInjective(Fnv1a(a[..n]), a[n], Fnv1a(b[..n]), b[n]);
    } else {
      HashSeparates(a[..n], b[..n], at);
      MixIsInjective(Fnv1a(a[..n]), a[n], Fnv1a(b[..n]), b[n]);
    }
  }

  lemma DoubleParts(m: nat, r: nat, b: nat)
    ensures (2 * m + r) / 2 == m + r / 2 && (2 * m + r + b) % 2 == (r + b) % 2
  {
  }

  lemma DoublePower(k: nat, q: nat)
    requires k > 0
    ensures Power2(k) * q == 2 * (Power2(k - 1) * q)
  {
  }

  lemma {:induction false} XorHigh(q: nat, r: nat, b: nat, k: nat)
    requires r < Power2(k) && b < Power2(k)
    ensures Xor(Power2(k) * q + r, b) == Power2(k) * q + Xor(r, b)
  {
    hide Xor;
    if k == 0 {
      XorZero(q);
      XorUnfolds(0, 0);
    } else {
      var m := Power2(k - 1) * q;
      DoublePower(k, q);
      XorHigh(q, r / 2, b / 2, k - 1);
      XorUnfolds(2 * m + r, b);
      XorUnfolds(r, b);
      DoubleParts(m, r, b);
    }
  }

  lemma {:induction false} XorZero(q: nat)
    ensures Xor(q, 0) == q
  {
    if q == 0 {
    } else {
      XorZero(q / 2);
    }
  }

  lemma MixByte(h: Word, b: Byte, low: nat)
    requires low == Xor(h % 256, b)
    ensures Mix(h, b) == (h - h % 256 + low) * PRIME % TWO64
  {
    assert Power2(8) == 256;
    XorHigh(h / 256, h % 256, b, 8);
  }

  lemma FnvByte(s: seq<Byte>, n: nat, h: Word, low: nat, next: nat)
    requires n < |s| && Fnv1a(s[..n]) == h && low == Xor(h % 256, s[n])
    requires (h - h % 256 + low) * PRIME % TWO64 == next
    ensures Fnv1a(s[..n + 1]) == next
  {
    assert s[..n + 1][..n] == s[..n];
    MixByte(h, s[n], low);
  }

  lemma XorOfFirst()
    ensures Xor(0x25, 0x61) == 0x44
  {
    hide Xor;
    XorUnfolds(0x25, 0x61);
    XorUnfolds(0x12, 0x30);
    XorUnfolds(0x09, 0x18);
    XorUnfolds(0x04, 0x0c);
    XorUnfolds(0x02, 0x06);
    XorUnfolds(0x01, 0x03);
    XorUnfolds(0x00, 0x01);
    XorZero(0);
  }

  /** The published 64-bit FNV-1a hashes of the empty string and of "a". */
  lemma KnownHashes(empty: seq<Byte>, a: seq<Byte>)
    requires |empty| == 0 && |a| == 1 && a[0] == 0x61
    ensures Fnv1a(empty) == 0xcbf2_9ce4_8422_2325 && Fnv1a(a) == 0xaf63_dc4c_8601_ec8c
  {
    hide Xor, Mix;
    XorOfFirst();
    assert a[..0] == [] && a[..1] == a;
    FnvByte(a, 0, OFFSET, 0x44, 0xaf63_dc4c_8601_ec8c);
  }

  /** Inputs of one length that differ in exactly one byte never share a fingerprint. */
  lemma FingerprintSeparates(a: seq<Byte>, b: seq<Byte>, at: nat)
    requires |a| == |b| && at < |a| && a[at] != b[at]
    requires forall i :: 0 <= i < |a| && i != at ==> a[i] == b[i]
    ensures Hex(Fnv1a(a), 16) != Hex(Fnv1a(b), 16)
  {
    HashSeparates(a, b, at);
    assert Pow16(8) == 0x1_0000_0000;
    assert Pow16(16) == TWO64;
    ReadOfHex(Fnv1a(a), 16);
    ReadOfHex(Fnv1a(b), 16);
  }
}

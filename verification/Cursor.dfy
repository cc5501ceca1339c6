/** The opaque pagination cursor of live-search: base64url of
    `{timestamp_micros}|{uuid}`. */
module Cursor {
  import opened Prelude
  import opened Text
  import Base64

  /** A UTC instant: whole seconds since 1970 and nanoseconds within the second.
      The bounds are those of chrono's calendar. */
  const MIN_SECS := -8_334_601_228_800
  const MAX_SECS := 8_210_266_876_799

  datatype RawInstant = Instant(secs: int, nanos: int)
  type Instant = t: RawInstant | MIN_SECS <= t.secs <= MAX_SECS && 0 <= t.nanos < 1_000_000_000
    witness Instant(0, 0)

  function Micros(t: Instant): int {
    t.secs * 1_000_000 + t.nanos / 1000
  }

  /** `None` when the value lies outside the calendar. */
  function FromMicros(micros: int): Option<Instant> {
    var secs := micros / 1_000_000;
    if MIN_SECS <= secs <= MAX_SECS then Some(Instant(secs, micros % 1_000_000 * 1000)) else None
  }

  function FloorToMicros(t: Instant): Instant {
    Instant(t.secs, t.nanos - t.nanos % 1000)
  }

  function Ascii(s: string): (bytes: seq<Base64.Byte>)
    requires forall i :: 0 <= i < |s| ==> s[i] < 128 as char
    ensures |bytes| == |s|
  {
    seq(|s|, i requires 0 <= i < |s| => s[i] as int)
  }

  /** Octets above 127 become characters no field of a cursor may contain. */
  function Characters(bytes: seq<Base64.Byte>): (s: string)
    ensures |s| == |bytes|
  {
    seq(|bytes|, i requires 0 <= i < |bytes| => bytes[i] as char)
  }

  function RawCursor(t: Instant, id: Uuid): string {
    PrintInt(Micros(t)) + "|" + PrintUuid(id)
  }

  /** The position of the first bar, or the length of the text. */
  function FirstBar(s: string): (i: nat)
    ensures i <= |s|
    ensures forall k :: 0 <= k < i ==> s[k] != '|'
    ensures i < |s| ==> s[i] == '|'
  {
    if s == "" || s[0] == '|' then 0 else 1 + FirstBar(s[1..])
  }

  lemma {:induction false} HexIsAscii(n: nat, width: nat)
    ensures forall i :: 0 <= i < width ==> Hex(n, width)[i] < 128 as char
  {
    if width == 0 {
    } else {
      HexIsAscii(n / 16, width - 1);
    }
  }

  lemma RawCursorIsAscii(t: Instant, id: Uuid)
    ensures forall i :: 0 <= i < |RawCursor(t, id)| ==> RawCursor(t, id)[i] < 128 as char
  {
    ParseOfPrintI64(Micros(t));
    HexIsAscii(id, 32);
  }

  function Encode(t: Instant, id: Uuid): string {
    RawCursorIsAscii(t, id);
    Base64.EncodeUrl(Ascii(RawCursor(t, id)))
  }

  function Decode(s: string): (r: Option<(Instant, Uuid)>) {
    match Base64.DecodeUrl(s)
    case None => None
    case Some(bytes) => ParseRaw(Characters(bytes))
  }

  function ParseRaw(raw: string): Option<(Instant, Uuid)> {
    var bar := FirstBar(raw);
    if bar == |raw| then None
    else
      match ParseI64(raw[..bar])
      case None => None
      case Some(micros) =>
        match FromMicros(micros)
        case None => None
        case Some(t) =>
          match ParseUuid(raw[bar + 1..])
          case None => None
          case Some(id) =>
            ParsedUuidFits(raw[bar + 1..]);
            Some((t, id))
  }

  lemma FromMicrosOfMicros(t: Instant)
    ensures I64_MIN <= Micros(t) <= I64_MAX
    ensures FromMicros(Micros(t)) == Some(FloorToMicros(t))
  {
    assert Micros(t) / 1_000_000 == t.secs;
  }

  lemma TimesThousand(m: int)
    ensures m * 1000 / 1000 == m && m * 1000 % 1000 == 0
  {
  }

  /** An instant read from whole microseconds loses nothing on the way back. */
  lemma MicrosOfFromMicros(micros: int)
    requires FromMicros(micros).Some?
    ensures FloorToMicros(FromMicros(micros).value) == FromMicros(micros).value
    ensures Micros(FromMicros(micros).value) == micros
  {
    TimesThousand(micros % 1_000_000);
  }

  /** For every instant and UUID the cursor decodes to the instant floored to
      microseconds and to the same UUID. */
  lemma DecodeOfEncode(t: Instant, id: Uuid)
    ensures Decode(Encode(t, id)) == Some((FloorToMicros(t), id))
  {
    var raw := RawCursor(t, id);
    RawCursorIsAscii(t, id);
    Base64.DecodeOfEncodeUrl(Ascii(raw));
    assert Characters(Ascii(raw)) == raw;
    FromMicrosOfMicros(t);
    ParseOfPrintI64(Micros(t));
    var stamp := PrintInt(Micros(t));
    var bar := FirstBar(raw);
    assert raw[|stamp|] == '|';
    assert forall k :: 0 <= k < |stamp| ==> raw[k] == stamp[k] && stamp[k] != '|';
    assert bar == |stamp|;
    assert raw[..bar] == stamp && raw[bar + 1..] == PrintUuid(id);
    ParseOfPrintUuid(id);
  }

  /** Stored timestamps are whole microseconds, and their cursors lose nothing. */
  lemma DecodeOfStored(micros: int, id: Uuid)
    requires FromMicros(micros).Some?
    ensures Decode(Encode(FromMicros(micros).value, id)) == Some((FromMicros(micros).value, id))
    ensures Micros(FromMicros(micros).value) == micros
  {
    DecodeOfEncode(FromMicros(micros).value, id);
    MicrosOfFromMicros(micros);
  }

  /** No two rows share a cursor once their timestamps differ by a microsecond. */
  lemma EncodeIsInjective(t: Instant, id: Uuid, t': Instant, id': Uuid)
    ensures Encode(t, id) == Encode(t', id') <==> FloorToMicros(t) == FloorToMicros(t') && id == id'
  {
    DecodeOfEncode(t, id);
    DecodeOfEncode(t', id');
    if FloorToMicros(t) == FloorToMicros(t') {
      FromMicrosOfMicros(t);
      assert Micros(t) == Micros(t');
    }
  }

  // ---- The text itself ----

  /** The text is `{timestamp_micros}|{uuid}`: digits of the microseconds, a bar, and the
      UUID in groups of 8, 4, 4, 4 and 12 lower-case hexadecimal digits. */
  lemma RawCursorShape(t: Instant, id: Uuid)
    ensures var raw, n := RawCursor(t, id), |PrintInt(t.secs * 1_000_000 + t.nanos / 1000)|;
      && |raw| == n + 37 && raw[..n] == PrintInt(t.secs * 1_000_000 + t.nanos / 1000) && raw[n] == '|'
      && var s := raw[n + 1..];
         && s[8] == s[13] == s[18] == s[23] == '-'
         && s[..8] + s[9..13] + s[14..18] + s[19..23] + s[24..] == Hex(id, 32)
  {
    UuidShape(id);
    var stamp := PrintInt(Micros(t));
    assert (stamp + "|" + PrintUuid(id))[|stamp| + 1..] == PrintUuid(id);
  }

  lemma UuidShape(id: Uuid)
    ensures var s := PrintUuid(id);
      && s[8] == s[13] == s[18] == s[23] == '-'
      && s[..8] + s[9..13] + s[14..18] + s[19..23] + s[24..] == Hex(id, 32)
  {
    var s, h := PrintUuid(id), Hex(id, 32);
    assert s[..8] == h[..8] && s[9..13] == h[8..12] && s[14..18] == h[12..16];
    assert s[19..23] == h[16..20] && s[24..] == h[20..];
    assert h[..8] + h[8..12] + h[12..16] + h[16..20] + h[20..] == h;
  }

  lemma KnownDigits()
    ensures PrintInt(-7) == "-7" && PrintInt(40) == "40" && Hex(0xab, 2) == "ab" && Hex(0x9f, 3) == "09f"
  {
  }

  // ---- The calendar ----

  /** Days from the start of 1970 to the start of year `y` of the Gregorian calendar. */
  function DaysTo(y: int): int {
    365 * (y - 1970) + LeapYearsBefore(y) - LeapYearsBefore(1970)
  }

  function LeapYearsBefore(y: int): int {
    (y - 1) / 4 - (y - 1) / 100 + (y - 1) / 400
  }

  /** The calendar runs from the start of year -262143 to the end of year 262142. */
  lemma CalendarBounds()
    ensures MIN_SECS == DaysTo(-262143) * 86400 && MAX_SECS == DaysTo(262143) * 86400 - 1
  {
  }

  /** A count of microseconds is an instant exactly when it lies in the calendar. */
  lemma FromMicrosExactly(micros: int)
    ensures FromMicros(micros).Some? <==>
              DaysTo(-262143) * 86_400_000_000 <= micros < DaysTo(262143) * 86_400_000_000
  {
    CalendarBounds();
  }
}

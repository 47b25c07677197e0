/** What single-frame decoding guarantees: it consumes whole frames, reads back what a well-formed
    frame encodes whatever follows it, keeps identities apart and notices corrupted frames. */
module Gt06FrameProofs {
  import opened Options
  import opened Gt06Crc
  import opened Gt06CrcValues
  import opened Gt06Frame

  // ----- Boundaries -----

  /** Every decoded frame takes at least four bytes, all of them received, up to a stop marker. */
  lemma OkConsumesAFrame(data: seq<Byte>)
    requires Parsed(data).Ok?
    ensures 4 <= Parsed(data).consumed <= |data|
    ensures IsStop(data, Parsed(data).consumed - 2)
  {
    if !DeclaredChecksOut(data) {
      var e := StopEnd(data, 0).value;
      assert IsStop(data, e - 2);
    }
  }

  /** Only a wrong header makes a buffer invalid. An impossible length or a missing stop marker does not:
      as long as there is no stop marker anywhere, the decoder waits. */
  lemma InvalidExactly(data: seq<Byte>)
    ensures Parsed(data).Invalid? <==> |data| >= 2 && !Headed(data)
    ensures Parsed(data) == Incomplete <==>
      |data| < 2 || (Headed(data) && (|data| < 2 + LengthWidth(data) || forall k :: 0 <= k ==> !IsStop(data, k)))
  {
    if Headed(data) && |data| >= 2 + LengthWidth(data) {
      if DeclaredChecksOut(data) {
        assert IsStop(data, DeclaredSize(data) - 2);
      } else if StopEnd(data, 0).Some? {
        assert IsStop(data, StopEnd(data, 0).value - 2);
      }
    }
  }

  /** All ten bytes of a heartbeat, but zeros where its stop marker should be: not invalid, awaited. */
  lemma MissingStopWaits()
    ensures var f: seq<Byte> := [0x78, 0x78, 5, 0x23, 0, 1, 0x67, 0x0E, 0, 0];
      Headed(f) && LengthValue(f) >= 5 && DeclaredSize(f) == |f| && Parsed(f) == Incomplete
  {
    var f: seq<Byte> := [0x78, 0x78, 5, 0x23, 0, 1, 0x67, 0x0E, 0, 0];
    assert forall k :: 0 <= k ==> !IsStop(f, k) by {
      assert forall k :: 0 <= k < |f| ==> f[k] != STOP_1;
    }
    hide Parsed;
    InvalidExactly(f);
  }

  /** If the length field leaves no room for type, serial number and checksum, or points past the end, the
      frame is still consumed up to its stop marker, as a packet of unknown kind. */
  lemma UnreadableFields(data: seq<Byte>)
    requires Parsed(data).Ok?
    requires LengthValue(data) < 5 || 2 + LengthWidth(data) + LengthValue(data) > |data|
    ensures Parsed(data).packet == Packet(Unsupported, 0, None, None) && !Parsed(data).mismatch
    ensures IsStop(data, Parsed(data).consumed - 2) && forall k :: 0 <= k < Parsed(data).consumed - 2 ==> !IsStop(data, k)
  {
  }

  /** A frame whose length field is right: header, a length of at least 5, and the stop marker where
      the length says. */
  predicate WellDeclared(f: seq<Byte>) {
    && Headed(f)
    && |f| >= 2 + LengthWidth(f)
    && DeclaredChecksOut(f)
    && DeclaredSize(f) == |f|
  }

  /** A well-declared frame whose first stop marker is its own. */
  predicate Clean(f: seq<Byte>) {
    && WellDeclared(f)
    && StopEnd(f, 0) == Some(|f|)
  }

  lemma CleanHasNoInnerStop(f: seq<Byte>)
    requires WellDeclared(f)
    ensures Clean(f) <==> forall k :: 0 <= k < |f| - 2 ==> !IsStop(f, k)
  {
    var e := StopEnd(f, 0);
    assert IsStop(f, |f| - 2);
    if forall k :: 0 <= k < |f| - 2 ==> !IsStop(f, k) {
      assert e.value - 2 >= |f| - 2;
    }
  }

  /** What follows a well-declared frame has no influence on how it is decoded. */
  lemma FrameLocal(f: seq<Byte>, rest: seq<Byte>)
    requires WellDeclared(f)
    ensures Parsed(f + rest) == Parsed(f)
    ensures Parsed(f).Ok? && Parsed(f).consumed == |f|
  {
    hide Judged;
    var d := f + rest;
    assert forall i :: 0 <= i < |f| ==> d[i] == f[i];
    assert LengthValue(d) == LengthValue(f);
    assert DeclaredChecksOut(d);
    var typeAt := 2 + LengthWidth(f);
    var serialAt := typeAt + 1 + LengthValue(f) - 5;
    assert d[typeAt + 1..serialAt] == f[typeAt + 1..serialAt];
    assert d[2..serialAt + 2] == f[2..serialAt + 2];
  }

  /** No part of a clean frame is taken for a frame: the decoder waits for the rest. */
  lemma PrefixWaits(f: seq<Byte>, n: nat)
    requires Clean(f) && n < |f|
    ensures Parsed(f[..n]) == Incomplete
  {
    var d := f[..n];
    CleanHasNoInnerStop(f);
    forall k | 0 <= k ensures !IsStop(d, k) {
      if IsStop(d, k) { assert IsStop(f, k); }
    }
    if n >= 2 + LengthWidth(f) {
      assert LengthValue(d) == LengthValue(f);
      assert StopEnd(d, 0) == None;
    }
  }

  /** A stop marker inside a well-declared frame cuts the frame short as soon as it is received. */
  lemma InnerStopCuts(f: seq<Byte>) returns (e: nat)
    requires WellDeclared(f) && !Clean(f)
    ensures 4 <= e < |f|
    ensures Parsed(f[..e]).Ok? && Parsed(f[..e]).consumed == e
    ensures forall n :: 0 <= n < e ==> Parsed(f[..n]) == Incomplete
  {
    CleanHasNoInnerStop(f);
    e := StopEnd(f, 0).value;
    var d := f[..e];
    assert IsStop(d, e - 2);
    assert LengthValue(d) == LengthValue(f);
    forall k | 0 <= k < e - 2 ensures !IsStop(d, k) {
      assert !IsStop(f, k);
    }
    assert StopEnd(d, 0) == Some(e);
    forall n | 0 <= n < e ensures Parsed(f[..n]) == Incomplete {
      var p := f[..n];
      if n >= 2 + LengthWidth(f) {
        assert LengthValue(p) == LengthValue(f);
        forall k | 0 <= k ensures !IsStop(p, k) {
          if IsStop(p, k) { assert IsStop(f, k); }
        }
        assert StopEnd(p, 0) == None;
      }
    }
  }

  // ----- Round trips -----

  lemma SealedLayout<T>(header: seq<T>, length: seq<T>, kind: seq<T>, content: seq<T>, serial: seq<T>,
                        checksum: seq<T>, stop: seq<T>, body: seq<T>, f: seq<T>)
    requires |header| == 2 && |length| <= 2 && |kind| == 1 && |serial| == |checksum| == |stop| == 2
    requires body == length + kind + content + serial
    requires f == header + body + checksum + stop
    ensures var at := 2 + |length|;
            var n := at + 1 + |content|;
            && |f| == n + 6
            && f[0] == header[0] && f[1] == header[1] && f[2..at] == length && f[at] == kind[0]
            && f[at + 1..n] == content
            && f[n] == serial[0] && f[n + 1] == serial[1]
            && f[n + 2] == checksum[0] && f[n + 3] == checksum[1]
            && f[n + 4] == stop[0] && f[n + 5] == stop[1]
            && f[2..n + 2] == body
  {
  }

  /** Decoding a frame gives back the fields it was built from, both headers, any trailing bytes.
      The checksum is compared only when the content could be decoded. */
  lemma SealedParses(extended: bool, kind: Byte, content: seq<Byte>, serial: Word, checksum: Word,
                     rest: seq<Byte>)
    requires Encodable(extended, content)
    ensures var body := Body(extended, kind, content, serial);
            var f := Sealed(extended, body, checksum);
            && WellDeclared(f)
            && Parsed(f + rest) == Judged(|f|, kind, content, serial, body, checksum)
  {
    var f := Sealed(extended, Body(extended, kind, content, serial), checksum);
    hide Parsed, Decoded, Judged, Body, Sealed, WellDeclared;
    SealedDecodes(extended, kind, content, serial, checksum);
    FrameLocal(f, rest);
    WholeIsDecoded(f);
  }

  lemma WholeIsDecoded(f: seq<Byte>)
    requires WellDeclared(f)
    ensures Parsed(f) == Decoded(f, |f|)
  {
    hide Decoded;
  }

  lemma SealedDecodes(extended: bool, kind: Byte, content: seq<Byte>, serial: Word, checksum: Word)
    requires Encodable(extended, content)
    ensures var body := Body(extended, kind, content, serial);
            var f := Sealed(extended, body, checksum);
            WellDeclared(f) && Decoded(f, |f|) == Judged(|f|, kind, content, serial, body, checksum)
  {
    hide Judged;
    var length := |content| + 5;
    var body := Body(extended, kind, content, serial);
    var f := Sealed(extended, body, checksum);
    var field: seq<Byte> := if extended then [length / 0x100, length % 0x100] else [length];
    assert body == field + [kind] + content + [serial / 0x100, serial % 0x100];
    var header: seq<Byte> := if extended then [0x79, 0x79] else [0x78, 0x78];
    SealedLayout(header, field, [kind], content,
                 [serial / 0x100, serial % 0x100], [checksum / 0x100, checksum % 0x100], [STOP_1, STOP_2], body, f);
    assert LengthValue(f) == length;
  }

  lemma {:induction false} EncodeParses(extended: bool, kind: Byte, content: seq<Byte>, serial: Word, rest: seq<Byte>)
    requires Encodable(extended, content)
    ensures var f := Encode(extended, kind, content, serial);
            && WellDeclared(f)
            && Parsed(f + rest) ==
               match Content(kind, content, serial)
               case None => Ok(|f|, Packet(Unsupported, serial, None, None), false)
               case Some(packet) => Ok(|f|, packet, false)
  {
    SealedParses(extended, kind, content, serial, Checksum(Body(extended, kind, content, serial)), rest);
  }

  lemma AckParses(kind: Byte, serial: Word, rest: seq<Byte>)
    requires kind == TYPE_HEARTBEAT || kind == TYPE_LOGIN
    ensures Parsed(Encode(false, kind, [], serial) + rest)
         == Ok(10, Packet(if kind == TYPE_HEARTBEAT then Heartbeat else Unsupported, serial, None, None), false)
  {
    hide Checksum, Parsed, Encode;
    var covered: seq<Byte> := [5, kind, serial / 0x100, serial % 0x100];
    AckBytes(kind, serial, covered, Checksum(covered));
    EncodeParses(false, kind, [], serial, rest);
  }

  /** The acknowledgement of a heartbeat is itself a heartbeat frame with the same serial number; the
      acknowledgement of a login frames and keeps its serial number but has no login content. */
  lemma AcksParse(serial: Word, rest: seq<Byte>)
    ensures Parsed(Ack(Heartbeat, serial) + rest) == Ok(10, Packet(Heartbeat, serial, None, None), false)
    ensures Parsed(Ack(Login, serial) + rest) == Ok(10, Packet(Unsupported, serial, None, None), false)
    ensures Ack(Location, serial) == [] && Ack(Unsupported, serial) == []
  {
    AckParses(TYPE_HEARTBEAT, serial, rest);
    AckParses(TYPE_LOGIN, serial, rest);
  }

  /** The bytes on the wire that answer the login with serial number one. */
  lemma LoginAckBytes()
    ensures Ack(Login, 1) == [0x78, 0x78, 0x05, 0x01, 0x00, 0x01, 0xD9, 0xDC, 0x0D, 0x0A]
  {
    LoginAnswer();
    hide Checksum;
    AckBytes(TYPE_LOGIN, 1, [5, 1, 0, 1], 0xD9DC);
  }

  /** An error burst of up to sixteen bits in the covered bytes after the length field is always flagged,
      except that a packet whose content cannot be decoded is never flagged at all. */
  lemma CorruptionFlagged(extended: bool, kind: Byte, content: seq<Byte>, serial: Word,
                          kind': Byte, content': seq<Byte>, serial': Word, p: nat, rest: seq<Byte>)
    requires Encodable(extended, content) && |content'| == |content|
    requires var body, body' := Body(extended, kind, content, serial), Body(extended, kind', content', serial');
             body != body' && DifferWithinBurst(Bits(body), Bits(body'), p)
    ensures var received := Sealed(extended, Body(extended, kind', content', serial'),
                                   Checksum(Body(extended, kind, content, serial)));
            && Parsed(received + rest).Ok?
            && Parsed(received + rest).consumed == |received|
            && (Parsed(received + rest).mismatch <==> Content(kind', content', serial').Some?)
  {
    var body, body' := Body(extended, kind, content, serial), Body(extended, kind', content', serial');
    BurstDetected(body, body', p);
    SealedParses(extended, kind', content', serial', Checksum(body), rest);
  }

  /** What kind of packet comes of a decodable content, by the type bytes of the protocol; only logins carry
      an identity and only positions a fix. */
  lemma KindsExactly(kind: Byte, content: seq<Byte>, serial: Word)
    requires Content(kind, content, serial).Some?
    ensures var p := Content(kind, content, serial).value;
      && p.serial == serial
      && (p.kind == Login <==> kind == 0x01) && (p.imei.Some? <==> kind == 0x01)
      && (p.kind == Location <==> kind == 0x10) && (p.fix.Some? <==> kind == 0x10)
      && (p.kind == Heartbeat <==> kind == 0x23)
  {
  }

  // ----- Identities -----

  predicate IsDigit(c: char) { '0' <= c <= '9' }

  function DigitValue(c: char): nat
    requires IsDigit(c)
  {
    c as int - '0' as int
  }

  /** Two decimal digits to the byte. */
  function Packed(digits: string): (bytes: seq<Byte>)
    requires |digits| % 2 == 0 && forall c :: c in digits ==> IsDigit(c)
    ensures |bytes| == |digits| / 2
  {
    if digits == "" then []
    else [16 * DigitValue(digits[0]) + DigitValue(digits[1])] + Packed(digits[2..])
  }

  lemma {:induction false} PackedDigits(digits: string)
    requires |digits| % 2 == 0 && forall c :: c in digits ==> IsDigit(c)
    ensures ImeiDigits(Packed(digits)) == digits
  {
    if digits != "" {
      PackedDigits(digits[2..]);
      assert Packed(digits)[1..] == Packed(digits[2..]);
      var high, low := DigitValue(digits[0]), DigitValue(digits[1]);
      assert Packed(digits)[0] / 16 == high && Packed(digits)[0] % 16 == low;
      assert Digit(high) == digits[0] && Digit(low) == digits[1];
      assert digits == [digits[0], digits[1]] + digits[2..];
    }
  }

  /** Every fifteen-digit identity survives packing behind a padding zero. */
  lemma ImeiRoundTrip(digits: string)
    requires |digits| == 15 && forall c :: c in digits ==> IsDigit(c)
    ensures Imei(Packed("0" + digits)) == digits
  {
    PackedDigits("0" + digits);
  }

  lemma {:induction false} ImeiDigitsInjective(a: seq<Byte>, b: seq<Byte>)
    requires ImeiDigits(a) == ImeiDigits(b)
    ensures a == b
  {
    if a != [] && b != [] {
      var x, y := ImeiDigits(a), ImeiDigits(b);
      assert x[0] == Digit(a[0] / 16) && x[1] == Digit(a[0] % 16) && x[2..] == ImeiDigits(a[1..]);
      assert y[0] == Digit(b[0] / 16) && y[1] == Digit(b[0] % 16) && y[2..] == ImeiDigits(b[1..]);
      DigitInjective(a[0] / 16, b[0] / 16);
      DigitInjective(a[0] % 16, b[0] % 16);
      ImeiDigitsInjective(a[1..], b[1..]);
      assert a == [a[0]] + a[1..] && b == [b[0]] + b[1..];
    }
  }

  lemma DigitInjective(m: nat, n: nat)
    requires m < 16 && n < 16 && Digit(m) == Digit(n)
    ensures m == n
  {
    assert Digit(m) as int == '0' as int + m && Digit(n) as int == '0' as int + n;
  }

  /** Different identity fields never decode to the same identity, padding or not. */
  lemma ImeiInjective(a: seq<Byte>, b: seq<Byte>)
    requires |a| == |b| == 8
    requires Imei(a) == Imei(b)
    ensures a == b
  {
    var x, y := ImeiDigits(a), ImeiDigits(b);
    if x[0] == '0' && y[0] == '0' {
      assert x == "0" + x[1..] && y == "0" + y[1..];
    }
    ImeiDigitsInjective(a, b);
  }

  // ----- Positions -----

  function Bytes32(n: nat): (bytes: seq<Byte>)
    requires n < 0x1_0000_0000
    ensures |bytes| == 4
  {
    var high, low := n / 0x1_0000, n % 0x1_0000;
    [high / 0x100, high % 0x100, low / 0x100, low % 0x100]
  }

  /** The base location layout: calendar, validity, satellites, latitude, longitude, speed, flags. */
  function LocationContent(calendar: seq<Byte>, validity: Byte, satellites: nat, latitude: nat, longitude: nat,
                           speed: Byte, valid: bool, west: bool, north: bool, course: nat): (c: seq<Byte>)
    requires |calendar| == 6 && satellites < 16 && course < 0x400
    requires latitude < 0x1_0000_0000 && longitude < 0x1_0000_0000
    ensures |c| == LOCATION_LENGTH
  {
    var flags := Flags(valid, west, north, course);
    calendar + [validity, 0xC0 + satellites] + Bytes32(latitude) + Bytes32(longitude)
    + [speed, flags / 0x100, flags % 0x100]
  }

  lemma Bytes32RoundTrip(n: nat)
    requires n < 0x1_0000_0000
    ensures Big32(Bytes32(n)) == n
  {
  }

  function Flags(valid: bool, west: bool, north: bool, course: nat): Word
    requires course < 0x400
  {
    (if valid then 0x1000 else 0) + (if west then 0x800 else 0) + (if north then 0x400 else 0) + course
  }

  lemma FlagsRead(valid: bool, west: bool, north: bool, course: nat)
    requires course < 0x400
    ensures var flags := Flags(valid, west, north, course);
            Flag(flags, 0x1000) == valid && Flag(flags, 0x800) == west && Flag(flags, 0x400) == north
  {
  }

  /** So many thirty-thousandths of a minute, in degrees; south and west are negative. */
  function Signed(reading: nat, negative: bool): real {
    var degrees := reading as real / 1_800_000.0;
    if negative then -degrees else degrees
  }

  /** A valid location packet decodes to its own readings, with the hemisphere signs it states. */
  lemma LocationRoundTrip(calendar: seq<Byte>, validity: Byte, satellites: nat, latitude: nat, longitude: nat,
                          speed: Byte, valid: bool, west: bool, north: bool, course: nat, serial: Word)
    requires |calendar| == 6 && satellites < 16 && course < 0x400
    requires latitude < 0x1_0000_0000 && longitude < 0x1_0000_0000
    requires validity != 0
    ensures Content(TYPE_LOCATION,
                    LocationContent(calendar, validity, satellites, latitude, longitude, speed, valid, west, north, course),
                    serial)
         == Some(Packet(Location, serial, None,
                        Some(Fix(calendar, Signed(latitude, !north), Signed(longitude, west), valid, satellites))))
  {
    var c := LocationContent(calendar, validity, satellites, latitude, longitude, speed, valid, west, north, course);
    var flags := Flags(valid, west, north, course);
    LocationFields(calendar, [validity, 0xC0 + satellites], Bytes32(latitude), Bytes32(longitude),
                   [speed, flags / 0x100, flags % 0x100], c);
    FlagsRead(valid, west, north, course);
    Bytes32RoundTrip(latitude);
    Bytes32RoundTrip(longitude);
  }

  lemma LocationFields(a: seq<Byte>, b: seq<Byte>, x: seq<Byte>, y: seq<Byte>, z: seq<Byte>, c: seq<Byte>)
    requires |a| == 6 && |b| == 2 && |x| == |y| == 4 && |z| == 3
    requires c == a + b + x + y + z
    ensures c[..6] == a && c[6] == b[0] && c[7] == b[1] && c[8..12] == x && c[12..16] == y
    ensures c[17] == z[1] && c[18] == z[2]
  {
  }
}

/** Framing and decoding of single GT06 frames. `Parsed` and its helpers say what the decoder
    answers for a buffer; the methods are the decoder's own loops, proved to give that answer. */
module Gt06Frame {
  import opened Options
  import opened Gt06Crc

  const STOP_1: Byte := 0x0D
  const STOP_2: Byte := 0x0A
  const TYPE_LOGIN: Byte := 0x01
  const TYPE_LOCATION: Byte := 0x10
  const TYPE_HEARTBEAT: Byte := 0x23
  const LOCATION_LENGTH := 19

  datatype PacketType = Login | Location | Heartbeat | Unsupported

  /** A decoded position. The six calendar fields are kept as received: turning them into epoch
      milliseconds is the C library's work. */
  datatype Fix = Fix(calendar: seq<Byte>, latitude: real, longitude: real, gpsValid: bool, satellites: nat)

  datatype Packet = Packet(kind: PacketType, serial: Word, imei: Option<string>, fix: Option<Fix>)

  datatype ParseResult =
    | Incomplete
    | Invalid
    | Ok(consumed: nat, packet: Packet, mismatch: bool)

  // ----- Content -----

  function Digit(n: nat): char
    requires n < 16
  {
    ('0' as int + n) as char
  }

  function ImeiDigits(bytes: seq<Byte>): (s: string)
    ensures |s| == 2 * |bytes|
  {
    if bytes == [] then "" else [Digit(bytes[0] / 16), Digit(bytes[0] % 16)] + ImeiDigits(bytes[1..])
  }

  /** One padding zero in front of fifteen digits is not part of the identity. */
  function StripPadding(digits: string): string {
    if |digits| == 16 && digits[0] == '0' then digits[1..] else digits
  }

  function Imei(bytes: seq<Byte>): string {
    StripPadding(ImeiDigits(bytes))
  }

  lemma {:induction false} ImeiDigitsSnoc(bytes: seq<Byte>, b: Byte)
    ensures ImeiDigits(bytes + [b]) == ImeiDigits(bytes) + [Digit(b / 16), Digit(b % 16)]
  {
    if bytes == [] {
      assert bytes + [b] == [b];
      assert ImeiDigits([b][1..]) == "";
    } else {
      assert (bytes + [b])[1..] == bytes[1..] + [b];
      ImeiDigitsSnoc(bytes[1..], b);
    }
  }

  method DecodeImei(bytes: seq<Byte>) returns (imei: string)
    ensures imei == Imei(bytes)
  {
    imei := "";
    for i := 0 to |bytes|
      invariant imei == ImeiDigits(bytes[..i])
    {
      var high := bytes[i] / 16;
      var low := bytes[i] % 16;
      ImeiDigitsSnoc(bytes[..i], bytes[i]);
      assert bytes[..i] + [bytes[i]] == bytes[..i + 1];
      imei := imei + [Digit(high)];
      imei := imei + [Digit(low)];
    }
    assert bytes[..|bytes|] == bytes;
    if |imei| == 16 && imei[0] == '0' {
      imei := imei[1..];
    }
  }

  function Big16(high: Byte, low: Byte): Word {
    high * 0x100 + low
  }

  function Big32(b: seq<Byte>): nat
    requires |b| == 4
  {
    var high: int, low: int := Big16(b[0], b[1]), Big16(b[2], b[3]);
    high * 0x1_0000 + low
  }

  predicate Flag(flags: Word, weight: nat)
    requires weight > 0
  {
    flags / weight % 2 == 1
  }

  /** Degrees from an unsigned reading in thirty-thousandths of a minute. */
  function Degrees(reading: nat, positive: bool): real {
    var d := reading as real / 60.0 / 30000.0;
    if positive then d else -d
  }

  function FixOf(content: seq<Byte>): Fix
    requires |content| >= LOCATION_LENGTH
  {
    var flags := Big16(content[17], content[18]);
    Fix(content[..6],
        Degrees(Big32(content[8..12]), Flag(flags, 0x400)),
        Degrees(Big32(content[12..16]), !Flag(flags, 0x800)),
        Flag(flags, 0x1000),
        content[7] % 16)
  }

  function Content(kind: Byte, content: seq<Byte>, serial: Word): Option<Packet> {
    if kind == TYPE_LOGIN then
      if |content| < 8 then None else Some(Packet(Login, serial, Some(Imei(content[..8])), None))
    else if kind == TYPE_LOCATION then
      if |content| < LOCATION_LENGTH || content[6] == 0 then None
      else Some(Packet(Location, serial, None, Some(FixOf(content))))
    else if kind == TYPE_HEARTBEAT then Some(Packet(Heartbeat, serial, None, None))
    else Some(Packet(Unsupported, serial, None, None))
  }

  // ----- Framing -----

  predicate IsStop(data: seq<Byte>, i: nat) {
    i + 1 < |data| && data[i] == STOP_1 && data[i + 1] == STOP_2
  }

  /** Where the first stop marker at or after position i ends. */
  function StopEnd(data: seq<Byte>, i: nat): (e: Option<nat>)
    ensures e.Some? ==> i + 2 <= e.value && IsStop(data, e.value - 2)
    ensures e.Some? ==> forall k :: i <= k < e.value - 2 ==> !IsStop(data, k)
    ensures e.None? ==> forall k :: i <= k ==> !IsStop(data, k)
    decreases |data| - i
  {
    if i + 1 >= |data| then None
    else if IsStop(data, i) then Some(i + 2)
    else StopEnd(data, i + 1)
  }

  predicate Extended(data: seq<Byte>) {
    |data| >= 2 && data[0] == 0x79 && data[1] == 0x79
  }

  predicate Headed(data: seq<Byte>) {
    Extended(data) || (|data| >= 2 && data[0] == 0x78 && data[1] == 0x78)
  }

  function LengthWidth(data: seq<Byte>): nat {
    if Extended(data) then 2 else 1
  }

  function LengthValue(data: seq<Byte>): nat
    requires |data| >= 2 + LengthWidth(data)
  {
    if Extended(data) then Big16(data[2], data[3]) else data[2]
  }

  function DeclaredSize(data: seq<Byte>): nat
    requires |data| >= 2 + LengthWidth(data)
  {
    2 + LengthWidth(data) + LengthValue(data) + 2
  }

  predicate DeclaredChecksOut(data: seq<Byte>)
    requires |data| >= 2 + LengthWidth(data)
  {
    LengthValue(data) >= 5 && DeclaredSize(data) <= |data| && IsStop(data, DeclaredSize(data) - 2)
  }

  function FrameEnd(data: seq<Byte>): Option<nat>
    requires |data| >= 2 + LengthWidth(data)
  {
    if DeclaredChecksOut(data) then Some(DeclaredSize(data)) else StopEnd(data, 0)
  }

  /** The answer for a frame whose fields were found. A packet that cannot be decoded is reported as
      unsupported and its checksum is not compared. */
  function Judged(end: nat, kind: Byte, content: seq<Byte>, serial: Word, covered: seq<Byte>, received: Word): ParseResult {
    match Content(kind, content, serial)
    case None => Ok(end, Packet(Unsupported, serial, None, None), false)
    case Some(packet) => Ok(end, packet, Checksum(covered) != received)
  }

  /** The fields are located from the declared length and bounded by the whole buffer. */
  function Decoded(data: seq<Byte>, end: nat): (r: ParseResult)
    requires |data| >= 2 + LengthWidth(data)
    ensures r.Ok? && r.consumed == end
  {
    var length := LengthValue(data);
    var typeAt := 2 + LengthWidth(data);
    var serialAt := typeAt + 1 + (if length < 5 then 0 else length - 5);
    var checksumAt := serialAt + 2;
    if length < 5 || checksumAt + 2 > |data| then Ok(end, Packet(Unsupported, 0, None, None), false)
    else
      Judged(end, data[typeAt], data[typeAt + 1..serialAt], Big16(data[serialAt], data[serialAt + 1]),
             data[2..checksumAt], Big16(data[checksumAt], data[checksumAt + 1]))
  }

  function Parsed(data: seq<Byte>): ParseResult {
    if |data| < 2 then Incomplete
    else if !Headed(data) then Invalid
    else if |data| < 2 + LengthWidth(data) then Incomplete
    else
      match FrameEnd(data)
      case None => Incomplete
      case Some(end) => Decoded(data, end)
  }

  /** The fallback scan for a literal stop marker. */
  method ScanForStop(data: seq<Byte>) returns (stopEnd: Option<nat>)
    ensures stopEnd == StopEnd(data, 0)
  {
    var i := 0;
    while i + 1 < |data|
      invariant 0 <= i
      invariant StopEnd(data, 0) == StopEnd(data, i)
    {
      if data[i] == STOP_1 && data[i + 1] == STOP_2 {
        return Some(i + 2);
      }
      i := i + 1;
    }
    return None;
  }

  method ParseFrame(data: seq<Byte>) returns (result: ParseResult)
    ensures result == Parsed(data)
  {
    if |data| < 2 {
      return Incomplete;
    }
    var extended;
    if data[0] == 0x78 && data[1] == 0x78 {
      extended := false;
    } else if data[0] == 0x79 && data[1] == 0x79 {
      extended := true;
    } else {
      return Invalid;
    }
    var width := if extended then 2 else 1;
    if |data| < 2 + width {
      return Incomplete;
    }
    var length: nat := if extended then Big16(data[2], data[3]) else data[2];
    var total: nat := 2 + width + length + 2;
    if !(length >= 5 && |data| >= total && data[total - 2] == STOP_1 && data[total - 1] == STOP_2) {
      var stopEnd := ScanForStop(data);
      if stopEnd == None {
        return Incomplete;
      }
      total := stopEnd.value;
    }
    result := DecodeFields(data, width, length, total);
  }

  method DecodeFields(data: seq<Byte>, width: nat, length: nat, total: nat) returns (result: ParseResult)
    requires |data| >= 2 + LengthWidth(data)
    requires width == LengthWidth(data) && length == LengthValue(data)
    ensures result == Decoded(data, total)
  {
    var contentLength := if length < 5 then 0 else length - 5;
    var typeAt := 2 + width;
    var contentAt := typeAt + 1;
    var serialAt := contentAt + contentLength;
    var checksumAt := serialAt + 2;
    if !(length >= 5 && checksumAt + 2 <= |data|) {
      return Ok(total, Packet(Unsupported, 0, None, None), false);
    }
    var serial := Big16(data[serialAt], data[serialAt + 1]);
    var received := Big16(data[checksumAt], data[checksumAt + 1]);
    var computed := ComputeChecksum(data[2..checksumAt]);
    var packet := ParseContent(data[typeAt], data[contentAt..contentAt + contentLength], serial);
    match packet
    case None =>
      result := Ok(total, Packet(Unsupported, serial, None, None), false);
    case Some(decoded) =>
      result := Ok(total, decoded, computed != received);
  }

  method ReadU32(content: seq<Byte>, offset: nat) returns (reading: nat)
    requires offset + 4 <= |content|
    ensures reading == Big32(content[offset..offset + 4])
  {
    var b0: int, b1: int, b2: int, b3: int := content[offset], content[offset + 1], content[offset + 2], content[offset + 3];
    reading := b0 * 0x100_0000 + b1 * 0x1_0000 + b2 * 0x100 + b3;
  }

  /** Nothing comes of a login without a whole identity, or of a position that is short or marked void. */
  method ParseContent(kind: Byte, content: seq<Byte>, serial: Word) returns (packet: Option<Packet>)
    ensures packet == Content(kind, content, serial)
    ensures packet.None? <==>
      || (kind == TYPE_LOGIN && |content| < 8)
      || (kind == TYPE_LOCATION && (|content| < LOCATION_LENGTH || content[6] == 0))
  {
    if kind == TYPE_LOGIN {
      if |content| < 8 {
        return None;
      }
      var imei := DecodeImei(content[..8]);
      return Some(Packet(Login, serial, Some(imei), None));
    }
    if kind == TYPE_LOCATION {
      if |content| < LOCATION_LENGTH {
        return None;
      }
      if content[6] == 0 {
        return None;
      }
      var satellites := content[7] % 16;
      var reading := ReadU32(content, 8);
      var latitude := reading as real / 60.0 / 30000.0;
      reading := ReadU32(content, 12);
      var longitude := reading as real / 60.0 / 30000.0;
      var high: int, low: int := content[17], content[18];
      var flags := high * 0x100 + low;
      var gpsValid := flags / 0x1000 % 2 == 1;
      var north := flags / 0x400 % 2 == 1;
      var west := flags / 0x800 % 2 == 1;
      if !north {
        latitude := -latitude;
      }
      if west {
        longitude := -longitude;
      }
      return Some(Packet(Location, serial, None, Some(Fix(content[..6], latitude, longitude, gpsValid, satellites))));
    }
    if kind == TYPE_HEARTBEAT {
      return Some(Packet(Heartbeat, serial, None, None));
    }
    return Some(Packet(Unsupported, serial, None, None));
  }

  // ----- Acknowledgements -----

  function Ack(kind: PacketType, serial: Word): seq<Byte> {
    if kind == Login then Encode(false, TYPE_LOGIN, [], serial)
    else if kind == Heartbeat then Encode(false, TYPE_HEARTBEAT, [], serial)
    else []
  }

  method BuildAck(kind: PacketType, serial: Word) returns (frame: seq<Byte>)
    ensures frame == Ack(kind, serial)
  {
    var typeByte: Byte := 0;
    match kind {
      case Unsupported => return [];
      case Login => typeByte := TYPE_LOGIN;
      case Location => return [];
      case Heartbeat => typeByte := TYPE_HEARTBEAT;
    }
    frame := [0x78, 0x78, 5, typeByte, serial / 0x100, serial % 0x100];
    var covered := frame[2..];
    assert covered == [5, typeByte, serial / 0x100, serial % 0x100];
    var checksum := ComputeChecksum(covered);
    AckBytes(typeByte, serial, covered, checksum);
    frame := frame + [checksum / 0x100] + [checksum % 0x100] + [STOP_1] + [STOP_2];
  }

  lemma AckBytes(kind: Byte, serial: Word, covered: seq<Byte>, checksum: Word)
    requires covered == [5, kind, serial / 0x100, serial % 0x100] && checksum == Checksum(covered)
    ensures Encode(false, kind, [], serial)
         == [0x78, 0x78, 5, kind, serial / 0x100, serial % 0x100]
            + [checksum / 0x100] + [checksum % 0x100] + [STOP_1] + [STOP_2]
  {
    hide Checksum;
    EmptyBody(kind, serial);
    assert [0x78, 0x78] + covered == [0x78, 0x78, 5, kind, serial / 0x100, serial % 0x100];
    assert [checksum / 0x100, checksum % 0x100] == [checksum / 0x100] + [checksum % 0x100];
    assert [STOP_1, STOP_2] == [STOP_1] + [STOP_2];
  }

  lemma EmptyBody(kind: Byte, serial: Word)
    ensures Body(false, kind, [], serial) == [5, kind, serial / 0x100, serial % 0x100]
  {
  }

  // ----- Encoding: what a well-formed frame looks like -----

  predicate Encodable(extended: bool, content: seq<Byte>) {
    |content| + 5 < if extended then 0x1_0000 else 0x100
  }

  /** Length field, type, content and serial number: the bytes the checksum covers. */
  function Body(extended: bool, kind: Byte, content: seq<Byte>, serial: Word): seq<Byte>
    requires Encodable(extended, content)
  {
    var length := |content| + 5;
    (if extended then [length / 0x100, length % 0x100] else [length])
    + [kind] + content + [serial / 0x100, serial % 0x100]
  }

  /** A frame built around a body, carrying some checksum or other. */
  function Sealed(extended: bool, body: seq<Byte>, checksum: Word): seq<Byte> {
    (if extended then [0x79, 0x79] else [0x78, 0x78])
    + body + [checksum / 0x100, checksum % 0x100] + [STOP_1, STOP_2]
  }

  function Encode(extended: bool, kind: Byte, content: seq<Byte>, serial: Word): seq<Byte>
    requires Encodable(extended, content)
  {
    var body := Body(extended, kind, content, serial);
    Sealed(extended, body, Checksum(body))
  }
}

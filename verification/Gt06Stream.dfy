/** One GT06 connection: bytes arrive in arbitrary pieces, whole frames leave. `Session` records
    what a connection has done so far; `Receive` says what one read does to it. */
module Gt06Stream {
  import opened Options
  import opened Gt06Crc
  import opened Gt06Frame
  import opened Gt06FrameProofs

  const RECV_CHUNK := 1024
  const MAX_FRAME_BUFFER := 32 * 1024

  /** frames, packets: every frame consumed so far and what it decoded to.
      ingested, acks: positions handed on and acknowledgements sent, in order. */
  datatype Session = Session(
    buffer: seq<Byte>,
    open: bool,
    imei: Option<string>,
    frames: seq<seq<Byte>>,
    packets: seq<Packet>,
    ingested: seq<(string, Fix)>,
    acks: seq<seq<Byte>>)

  const START := Session([], true, None, [], [], [], [])

  // ----- What one frame and one read do -----

  function Handled(s: Session, n: nat, p: Packet): Session
    requires n <= |s.buffer|
  {
    var imei := if p.kind == Login && p.imei.Some? then p.imei else s.imei;
    var fixes := if p.kind == Location && p.fix.Some? && s.imei.Some? then [(s.imei.value, p.fix.value)] else [];
    var ack := Ack(p.kind, p.serial);
    Session(s.buffer[n..], s.open, imei, s.frames + [s.buffer[..n]], s.packets + [p],
            s.ingested + fixes, s.acks + if ack == [] then [] else [ack])
  }

  function Drained(s: Session): Session
    decreases |s.buffer|
  {
    match Parsed(s.buffer)
    case Incomplete => if |s.buffer| > MAX_FRAME_BUFFER then s.(open := false) else s
    case Invalid => s.(open := false)
    case Ok(n, p, _) =>
      OkConsumesAFrame(s.buffer);
      Drained(Handled(s, n, p))
  }

  function Receive(s: Session, chunk: seq<Byte>): Session {
    if s.open then Drained(s.(buffer := s.buffer + chunk)) else s
  }

  function ReceiveAll(s: Session, chunks: seq<seq<Byte>>): Session
    decreases chunks
  {
    if chunks == [] then s else ReceiveAll(Receive(s, chunks[0]), chunks[1..])
  }

  /** What recv can return while the connection lives. */
  predicate Chunked(chunks: seq<seq<Byte>>) {
    forall c :: c in chunks ==> 1 <= |c| <= RECV_CHUNK
  }

  // ----- The connection handler -----

  class Connection {
    var buffer: seq<Byte>
    var desync: bool
    var imei: Option<string>
    var ingested: seq<(string, Fix)>
    var acks: seq<seq<Byte>>
    ghost var frames: seq<seq<Byte>>
    ghost var packets: seq<Packet>

    ghost function View(): Session
      reads this
    {
      Session(buffer, !desync, imei, frames, packets, ingested, acks)
    }

    constructor ()
      ensures View() == START
    {
      buffer, desync, imei, ingested, acks := [], false, None, [], [];
      frames, packets := [], [];
    }

    method HandlePacket(n: nat, packet: Packet)
      requires n <= |buffer|
      modifies this
      ensures View() == Handled(old(View()), n, packet)
    {
      match packet.kind {
        case Login =>
          if packet.imei.Some? {
            imei := packet.imei;
          }
        case Location =>
          if packet.fix.Some? && imei.Some? {
            ingested := ingested + [(imei.value, packet.fix.value)];
          }
        case Heartbeat =>
        case Unsupported =>
      }
      var ack := BuildAck(packet.kind, packet.serial);
      if ack != [] {
        acks := acks + [ack];
      }
      frames, packets := frames + [buffer[..n]], packets + [packet];
      buffer := buffer[n..];
    }

    method OnRecv(chunk: seq<Byte>)
      requires !desync
      modifies this
      ensures View() == Receive(old(View()), chunk)
    {
      buffer := buffer + chunk;
      ghost var filled := View();
      while true
        invariant !desync && Drained(View()) == Drained(filled)
        decreases |buffer|
      {
        var result := ParseFrame(buffer);
        match result {
          case Incomplete =>
            if |buffer| > MAX_FRAME_BUFFER {
              desync := true;
            }
            return;
          case Invalid =>
            desync := true;
            return;
          case Ok(n, packet, _) =>
            OkConsumesAFrame(buffer);
            HandlePacket(n, packet);
        }
      }
    }

    /** The outer loop over everything the socket delivers before it closes. */
    method Run(chunks: seq<seq<Byte>>)
      requires View() == START
      modifies this
      ensures View() == ReceiveAll(START, chunks)
    {
      var i := 0;
      while i < |chunks| && !desync
        invariant 0 <= i <= |chunks|
        invariant ReceiveAll(START, chunks) == ReceiveAll(View(), chunks[i..])
      {
        OnRecv(chunks[i]);
        i := i + 1;
      }
      ClosedStaysClosed(View(), chunks[i..]);
    }
  }

  lemma {:induction false} ClosedStaysClosed(s: Session, chunks: seq<seq<Byte>>)
    requires chunks == [] || !s.open
    ensures ReceiveAll(s, chunks) == s
    decreases chunks
  {
    if chunks != [] { ClosedStaysClosed(s, chunks[1..]); }
  }
}

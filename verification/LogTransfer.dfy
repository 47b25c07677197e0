/** A flight log on its way from the gateway: acknowledged with its size, then sent in numbered chunks.
    `Sent` says what the gateway puts on the wire; ExecuteDownload is the loop that does it. */
module LogTransfer {
  import opened Options
  import opened Collections
  import opened Console

  const LOG_CHUNK_BYTES := 896 * 1024
  const UINT32_VALUES := 0x1_0000_0000

  datatype Message =
    | AckMessage(accepted: bool, total: nat, count: nat, text: string)
    | ChunkMessage(good: bool, index: nat, data: Bytes, text: string)

  /** What comes of fetching a log from the vehicle to a local file. */
  datatype Fetched =
    | NoListing(reason: string)
    | UnknownLog(log: string)
    | NotFetched(reason: string)
    | Unreadable(reason: string)
    | Local(file: Bytes)

  function Min(a: nat, b: nat): nat {
    if a <= b then a else b
  }

  function ChunksNeeded(size: nat): nat {
    (size + LOG_CHUNK_BYTES - 1) / LOG_CHUNK_BYTES
  }

  /** The number of chunks announced and sent: 32 bits are kept of it. */
  function ChunkCount(size: nat): nat {
    ChunksNeeded(size) % UINT32_VALUES
  }

  function PieceAt(file: Bytes, i: nat): Bytes {
    var start := Min(i * LOG_CHUNK_BYTES, |file|);
    file[start..Min(start + LOG_CHUNK_BYTES, |file|)]
  }

  function Pieces(file: Bytes, count: nat): (pieces: seq<Bytes>)
    ensures |pieces| == count
  {
    seq(count, i requires 0 <= i < count => PieceAt(file, i))
  }

  /** stop: the chunk before which a shutdown is noticed. fault: the chunk whose read fails. */
  function Chunks(file: Bytes, i: nat, count: nat, stop: Option<nat>, fault: Option<nat>): seq<Message>
    decreases count - i
  {
    if i >= count || stop == Some(i) then []
    else if fault == Some(i) || i * LOG_CHUNK_BYTES >= |file| then
      [ChunkMessage(false, 0, [], "reading downloaded file failed")]
    else [ChunkMessage(true, i, PieceAt(file, i), "")] + Chunks(file, i + 1, count, stop, fault)
  }

  function Refusal(reason: string): Message {
    AckMessage(false, 0, 0, reason)
  }

  function Sent(fetched: Fetched, stop: Option<nat>, fault: Option<nat>): seq<Message> {
    match fetched
    case NoListing(reason) => [Refusal("could not list log entries: " + reason)]
    case UnknownLog(log) => [Refusal("unknown log_id " + log)]
    case NotFetched(reason) => [Refusal("download failed: " + reason)]
    case Unreadable(reason) => [Refusal("could not read downloaded file: " + reason)]
    case Local(file) =>
      [AckMessage(true, |file| % UINT32_VALUES, ChunkCount(|file|), "")] + Chunks(file, 0, ChunkCount(|file|), stop, fault)
  }

  method ExecuteDownload(fetched: Fetched, stop: Option<nat>, fault: Option<nat>) returns (sent: seq<Message>)
    ensures sent == Sent(fetched, stop, fault)
  {
    match fetched
    case NoListing(reason) => sent := [Refusal("could not list log entries: " + reason)];
    case UnknownLog(log) => sent := [Refusal("unknown log_id " + log)];
    case NotFetched(reason) => sent := [Refusal("download failed: " + reason)];
    case Unreadable(reason) => sent := [Refusal("could not read downloaded file: " + reason)];
    case Local(file) => sent := StreamFile(file, stop, fault);
  }

  method StreamFile(file: Bytes, stop: Option<nat>, fault: Option<nat>) returns (sent: seq<Message>)
    ensures sent == Sent(Local(file), stop, fault)
  {
    var count := if |file| == 0 then 0 else ((|file| + LOG_CHUNK_BYTES - 1) / LOG_CHUNK_BYTES) % UINT32_VALUES;
    sent := [AckMessage(true, |file| % UINT32_VALUES, count, "")];
    ghost var ack := sent;
    var position := 0;
    var index := 0;
    while index < count
      invariant 0 <= index <= count
      invariant position == Min(index * LOG_CHUNK_BYTES, |file|)
      invariant sent + Chunks(file, index, count, stop, fault) == ack + Chunks(file, 0, count, stop, fault)
    {
      if stop == Some(index) {
        break;
      }
      var buffer := file[position..Min(position + LOG_CHUNK_BYTES, |file|)];
      if |buffer| == 0 || fault == Some(index) {
        sent := sent + [ChunkMessage(false, 0, [], "reading downloaded file failed")];
        return;
      }
      sent := sent + [ChunkMessage(true, index, buffer, "")];
      position := position + |buffer|;
      index := index + 1;
    }
  }

  // ----- The chunks of a file -----

  /** However many chunks are cut from a file, put end to end they are its beginning. */
  lemma {:induction false} PiecesArePrefix(file: Bytes, count: nat)
    ensures Flat(Pieces(file, count)) == file[..Min(count * LOG_CHUNK_BYTES, |file|)]
  {
    if count > 0 {
      PiecesArePrefix(file, count - 1);
      assert Pieces(file, count) == Pieces(file, count - 1) + [PieceAt(file, count - 1)];
      FlatSnoc(Pieces(file, count - 1), PieceAt(file, count - 1));
    }
  }

  /** As many chunks as are needed hold the whole file; one fewer does not. */
  lemma NeededExactly(size: nat, count: nat)
    ensures count * LOG_CHUNK_BYTES >= size <==> count >= ChunksNeeded(size)
  {
    var n := ChunksNeeded(size);
    assert n * LOG_CHUNK_BYTES <= size + LOG_CHUNK_BYTES - 1 < (n + 1) * LOG_CHUNK_BYTES;
  }

  /** All chunks are full but the last, which is not empty. */
  lemma ChunksAreFull(file: Bytes, i: nat)
    requires i < ChunksNeeded(|file|)
    ensures |PieceAt(file, i)| == if i < ChunksNeeded(|file|) - 1 then 917_504 else |file| - 917_504 * i
    ensures 0 < |PieceAt(file, i)| <= 917_504
  {
    NeededExactly(|file|, i);
    NeededExactly(|file|, i + 1);
  }

  /** Without a shutdown or a read failure every announced chunk is sent, numbered in order. */
  lemma {:induction false} AllChunksSent(file: Bytes, i: nat, count: nat)
    requires i <= count <= ChunksNeeded(|file|)
    ensures Chunks(file, i, count, None, None)
         == seq(count - i, j requires 0 <= j < count - i => ChunkMessage(true, i + j, PieceAt(file, i + j), ""))
    decreases count - i
  {
    if i < count {
      NeededExactly(|file|, i);
      AllChunksSent(file, i + 1, count);
    }
  }

  // ----- The demo engine's logs -----

  const DEMO_LOG_CHUNK_BYTES := 4096

  function Filler(size: nat): Bytes {
    seq(size, i => i % 256)
  }

  function Numbered(pieces: seq<Bytes>): seq<Message> {
    seq(|pieces|, i requires 0 <= i < |pieces| => ChunkMessage(true, i, pieces[i], ""))
  }

  /** The same protocol with filler for a log: acknowledged, then sent in chunks that make it up. */
  method StreamDemoLog(size: nat) returns (sent: seq<Message>, pieces: seq<Bytes>)
    ensures sent == [AckMessage(true, size, |pieces|, "")] + Numbered(pieces)
    ensures Flat(pieces) == Filler(size) && |Flat(pieces)| == size
    ensures forall i :: 0 <= i < size ==> Flat(pieces)[i] == i % 256
    ensures |pieces| == (size + 4095) / 4096
  {
    var count := if size == 0 then 0 else (size + DEMO_LOG_CHUNK_BYTES - 1) / DEMO_LOG_CHUNK_BYTES;
    sent, pieces := [AckMessage(true, size, count, "")], [];
    for index := 0 to count
      invariant |pieces| == index
      invariant Flat(pieces) == Filler(Min(index * DEMO_LOG_CHUNK_BYTES, size))
      invariant sent == [AckMessage(true, size, count, "")] + Numbered(pieces)
    {
      var start := index * DEMO_LOG_CHUNK_BYTES;
      var end := Min(start + DEMO_LOG_CHUNK_BYTES, size);
      var data := new int[end - start];
      for i := 0 to data.Length
        invariant forall j :: 0 <= j < i ==> data[j] == (start + j) % 256
      {
        data[i] := (start + i) % 256;
      }
      assert Filler(end) == Filler(start) + data[..];
      FlatSnoc(pieces, data[..]);
      assert Numbered(pieces + [data[..]]) == Numbered(pieces) + [ChunkMessage(true, index, data[..], "")];
      sent := sent + [ChunkMessage(true, index, data[..], "")];
      pieces := pieces + [data[..]];
    }
  }
}

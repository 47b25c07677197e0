/** What a GT06 connection guarantees over its whole life, however the bytes were split. */
module Gt06StreamProofs {
  import opened Options
  import opened Collections
  import opened Gt06Crc
  import opened Gt06Frame
  import opened Gt06FrameProofs
  import opened Gt06Stream

  // ----- Pieces -----

  lemma {:induction false} ReceiveAllConcat(s: Session, a: seq<seq<Byte>>, b: seq<seq<Byte>>)
    ensures ReceiveAll(s, a + b) == ReceiveAll(ReceiveAll(s, a), b)
    decreases a
  {
    if a == [] {
      assert a + b == b;
    } else {
      assert (a + b)[1..] == a[1..] + b;
      ReceiveAllConcat(Receive(s, a[0]), a[1..], b);
    }
  }

  lemma ReceiveSnoc(s: Session, init: seq<seq<Byte>>, last: seq<Byte>)
    ensures ReceiveAll(s, init + [last]) == Receive(ReceiveAll(s, init), last)
  {
    ReceiveAllConcat(s, init, [last]);
    hide Receive;
    var t := ReceiveAll(s, init);
    assert ReceiveAll(t, [last]) == ReceiveAll(Receive(t, last), []);
  }

  // ----- Records kept by a connection -----

  /** The identity given by the latest login among some packets. */
  function LastLogin(packets: seq<Packet>): Option<string> {
    if packets == [] then None
    else
      var last := packets[|packets| - 1];
      if last.kind == Login && last.imei.Some? then last.imei else LastLogin(packets[..|packets| - 1])
  }

  /** Each decoded position, under the identity of the latest login before it; none before a login. */
  function Attributed(packets: seq<Packet>): seq<(string, Fix)> {
    if packets == [] then []
    else
      var earlier, last := packets[..|packets| - 1], packets[|packets| - 1];
      var login := LastLogin(earlier);
      Attributed(earlier)
      + if last.kind == Location && last.fix.Some? && login.Some? then [(login.value, last.fix.value)] else []
  }

  /** One acknowledgement per login and heartbeat, in order of arrival. */
  function Acknowledged(packets: seq<Packet>): seq<seq<Byte>> {
    if packets == [] then []
    else
      var last := packets[|packets| - 1];
      Acknowledged(packets[..|packets| - 1])
      + if last.kind == Login || last.kind == Heartbeat then [Ack(last.kind, last.serial)] else []
  }

  ghost predicate Consistent(s: Session, received: seq<Byte>) {
    && Flat(s.frames) + s.buffer == received
    && |s.frames| == |s.packets|
    && (forall i :: 0 <= i < |s.frames| ==> 4 <= |s.frames[i]| && IsStop(s.frames[i], |s.frames[i]| - 2))
    && s.imei == LastLogin(s.packets)
    && s.ingested == Attributed(s.packets)
    && s.acks == Acknowledged(s.packets)
  }

  lemma AckEmpty(kind: PacketType, serial: Word)
    ensures Ack(kind, serial) == [] <==> kind == Location || kind == Unsupported
  {
    var covered: seq<Byte> := [5, if kind == Login then TYPE_LOGIN else TYPE_HEARTBEAT, serial / 0x100, serial % 0x100];
    AckBytes(covered[1], serial, covered, Checksum(covered));
  }

  lemma HandledConsistent(s: Session, received: seq<Byte>, n: nat, p: Packet)
    requires Consistent(s, received)
    requires 4 <= n <= |s.buffer| && IsStop(s.buffer, n - 2)
    ensures Consistent(Handled(s, n, p), received)
  {
    hide Ack;
    var t := Handled(s, n, p);
    assert Flat(t.frames) + t.buffer == received by {
      hide LastLogin, Attributed, Acknowledged;
      FlatSnoc(s.frames, s.buffer[..n]);
      assert Flat(t.frames) + t.buffer == Flat(s.frames) + (s.buffer[..n] + s.buffer[n..]);
      assert s.buffer[..n] + s.buffer[n..] == s.buffer;
    }
    assert t.imei == LastLogin(t.packets) && t.ingested == Attributed(t.packets) && t.acks == Acknowledged(t.packets) by {
      hide Flat;
      assert t.packets[..|t.packets| - 1] == s.packets;
      AckEmpty(p.kind, p.serial);
    }
    hide Flat, LastLogin, Attributed, Acknowledged;
    forall i | 0 <= i < |t.frames| ensures 4 <= |t.frames[i]| && IsStop(t.frames[i], |t.frames[i]| - 2) {
      if i < |s.frames| { assert t.frames[i] == s.frames[i]; } else { assert t.frames[i] == s.buffer[..n]; }
    }
  }

  lemma {:induction false} DrainedConsistent(s: Session, received: seq<Byte>)
    requires Consistent(s, received)
    ensures Consistent(Drained(s), received)
    ensures s.frames <= Drained(s).frames
    ensures Drained(s).open ==> s.open && Parsed(Drained(s).buffer) == Incomplete && |Drained(s).buffer| <= MAX_FRAME_BUFFER
    ensures |Drained(s).buffer| <= |s.buffer|
    decreases |s.buffer|
  {
    hide Ack, Attributed, Acknowledged, LastLogin;
    assert Consistent(s.(open := false), received);
    hide Consistent;
    match Parsed(s.buffer)
    case Incomplete =>
    case Invalid =>
    case Ok(n, p, _) =>
      OkConsumesAFrame(s.buffer);
      HandledConsistent(s, received, n, p);
      DrainedConsistent(Handled(s, n, p), received);
      assert s.frames <= Handled(s, n, p).frames;
  }

  lemma ReceiveConsistent(s: Session, received: seq<Byte>, chunk: seq<Byte>)
    requires Consistent(s, received) && s.open
    ensures var t := Receive(s, chunk);
            && Consistent(t, received + chunk)
            && (t.open ==> |t.buffer| <= MAX_FRAME_BUFFER && Parsed(t.buffer) == Incomplete)
            && |t.buffer| <= |s.buffer| + |chunk|
  {
    hide Parsed, Attributed, Acknowledged, LastLogin;
    var filled := s.(buffer := s.buffer + chunk);
    assert Flat(filled.frames) + filled.buffer == Flat(s.frames) + s.buffer + chunk;
    DrainedConsistent(filled, received + chunk);
  }

  /** While a connection is open, what it has received is exactly the frames it consumed followed by
      what it still buffers. When it closes, the same holds for some prefix of what was sent. */
  lemma {:induction false} NothingLost(chunks: seq<seq<Byte>>) returns (read: nat)
    requires Chunked(chunks)
    ensures read <= |chunks|
    ensures var s := ReceiveAll(START, chunks);
            && Consistent(s, Flat(chunks[..read]))
            && (s.open ==> read == |chunks| && |s.buffer| <= 32768 && Parsed(s.buffer) == Incomplete)
            && |s.buffer| <= 32768 + 1024
    decreases |chunks|
  {
    if chunks == [] {
      read := 0;
    } else {
      hide Parsed, Consistent, Receive, ReceiveAll, Flat;
      var init, last := chunks[..|chunks| - 1], chunks[|chunks| - 1];
      assert chunks == init + [last];
      read := NothingLost(init);
      var s := ReceiveAll(START, init);
      ReceiveSnoc(START, init, last);
      if s.open {
        assert init[..|init|] == init;
        ReceiveConsistent(s, Flat(init), last);
        FlatSnoc(init, last);
        read := |chunks|;
        assert chunks[..read] == init + [last];
      } else {
        assert init[..read] == chunks[..read];
        FramesOnlyGrow(s, [last]);
      }
    }
  }

  // ----- Streaming equals batch -----

  function PacketOf(f: seq<Byte>): Packet {
    match Parsed(f)
    case Ok(_, p, _) => p
    case _ => Packet(Unsupported, 0, None, None)
  }

  function PacketsOf(fs: seq<seq<Byte>>): seq<Packet> {
    if fs == [] then [] else [PacketOf(fs[0])] + PacketsOf(fs[1..])
  }

  /** Frames handed over one at a time, each in one piece. */
  function Batch(s: Session, fs: seq<seq<Byte>>): Session
    decreases fs
  {
    if fs == [] then s else Batch(Handled(s.(buffer := fs[0]), |fs[0]|, PacketOf(fs[0])), fs[1..])
  }

  /** The largest frame that is never given up on: one byte past the limit on an incomplete buffer. */
  const MAX_FRAME := 32769

  predicate Streamable(f: seq<Byte>) {
    Clean(f) && |f| <= MAX_FRAME
  }

  predicate AllStreamable(fs: seq<seq<Byte>>) {
    forall f :: f in fs ==> Streamable(f)
  }

  lemma {:induction false} BatchConcat(s: Session, a: seq<seq<Byte>>, b: seq<seq<Byte>>)
    ensures Batch(s, a + b) == Batch(Batch(s, a), b)
    decreases a
  {
    hide Handled, PacketOf;
    if a == [] {
      assert a + b == b;
    } else {
      assert (a + b)[1..] == a[1..] + b;
      BatchConcat(Handled(s.(buffer := a[0]), |a[0]|, PacketOf(a[0])), a[1..], b);
    }
  }

  lemma {:induction false} BatchRecords(s: Session, fs: seq<seq<Byte>>)
    requires s.buffer == []
    ensures Batch(s, fs).frames == s.frames + fs
    ensures Batch(s, fs).packets == s.packets + PacketsOf(fs)
    ensures Batch(s, fs).open == s.open && Batch(s, fs).buffer == []
    decreases fs
  {
    hide Handled, PacketOf;
    if fs != [] {
      var t := Handled(s.(buffer := fs[0]), |fs[0]|, PacketOf(fs[0]));
      HandledRecords(s.(buffer := fs[0]), fs[0]);
      BatchRecords(t, fs[1..]);
      AddedInFront(s.frames, fs[0], fs[1..]);
      assert [fs[0]] + fs[1..] == fs;
      AddedInFront(s.packets, PacketOf(fs[0]), PacketsOf(fs[1..]));
    }
  }

  lemma AddedInFront<T>(a: seq<T>, x: T, b: seq<T>)
    ensures a + [x] + b == a + ([x] + b)
  {
  }

  lemma HandledRecords(s: Session, f: seq<Byte>)
    requires s.buffer == f
    ensures var t := Handled(s, |f|, PacketOf(f));
      t.frames == s.frames + [f] && t.packets == s.packets + [PacketOf(f)] && t.open == s.open && t.buffer == []
  {
    hide Ack, PacketOf;
    assert f[..|f|] == f;
  }

  /** The frame at the front of a buffer is handled as if it had arrived alone. */
  lemma DrainOneFrame(s: Session, f: seq<Byte>, rest: seq<Byte>)
    requires WellDeclared(f)
    requires s.buffer == f + rest
    ensures Drained(s) == Drained(Handled(s, |f|, PacketOf(f)))
    ensures Handled(s, |f|, PacketOf(f)) == Handled(s.(buffer := f), |f|, PacketOf(f)).(buffer := rest)
  {
    hide Ack;
    FrameLocal(f, rest);
    assert s.buffer[..|f|] == f == f[..|f|] && s.buffer[|f|..] == rest && f[|f|..] == [];
  }

  /** A buffer of whole frames followed by part of another is drained down to that part. */
  lemma {:induction false} DrainWholeFrames(s: Session, fs: seq<seq<Byte>>, tail: seq<Byte>)
    requires AllStreamable(fs)
    requires s.buffer == Flat(fs) + tail
    requires Parsed(tail) == Incomplete && |tail| <= MAX_FRAME_BUFFER
    ensures Drained(s) == Batch(s.(buffer := []), fs).(buffer := tail)
    decreases fs
  {
    if fs == [] {
      assert s.buffer == tail;
    } else {
      var f, rest := fs[0], Flat(fs[1..]) + tail;
      assert s.buffer == f + rest;
      assert f in fs && Streamable(f);
      hide Handled, PacketOf, Parsed, Clean, WellDeclared;
      DrainOneFrame(s, f, rest);
      var t := Handled(s, |f|, PacketOf(f));
      var u := Handled(s.(buffer := f), |f|, PacketOf(f));
      HandledWhole(s.(buffer := f), f);
      assert t.(buffer := []) == u && t.buffer == rest;
      assert s.(buffer := []).(buffer := f) == s.(buffer := f);
      DrainWholeFrames(t, fs[1..], tail);
    }
  }

  lemma HandledWhole(s: Session, f: seq<Byte>)
    requires s.buffer == f
    ensures Handled(s, |f|, PacketOf(f)).buffer == []
  {
  }

  /** What has arrived of the frame after the first k. */
  function Part(fs: seq<seq<Byte>>, k: nat, r: nat): seq<Byte>
    requires k < |fs| ==> r <= |fs[k]|
  {
    if k < |fs| then fs[k][..r] else []
  }

  predicate Position(fs: seq<seq<Byte>>, k: nat, r: nat) {
    k <= |fs| && (k == |fs| ==> r == 0) && (k < |fs| ==> r < |fs[k]|)
  }

  /** Any prefix of a stream of frames is some whole frames and a proper part of the next. */
  lemma {:induction false} CutStream(fs: seq<seq<Byte>>, n: nat) returns (k: nat, r: nat)
    requires n <= |Flat(fs)|
    requires forall f :: f in fs ==> |f| > 0
    ensures Position(fs, k, r)
    ensures Flat(fs)[..n] == Flat(fs[..k]) + Part(fs, k, r)
    decreases fs
  {
    if fs == [] {
      k, r := 0, 0;
    } else if n < |fs[0]| {
      k, r := 0, n;
      assert Flat(fs)[..n] == fs[0][..n];
    } else {
      k, r := CutStream(fs[1..], n - |fs[0]|);
      k := k + 1;
      assert fs[..k] == [fs[0]] + fs[1..][..k - 1];
      assert Flat(fs)[..n] == fs[0] + Flat(fs[1..])[..n - |fs[0]|];
    }
  }

  lemma PartWaits(fs: seq<seq<Byte>>, k: nat, r: nat)
    requires AllStreamable(fs) && Position(fs, k, r)
    ensures Parsed(Part(fs, k, r)) == Incomplete && |Part(fs, k, r)| <= MAX_FRAME_BUFFER
  {
    if k < |fs| {
      assert Streamable(fs[k]);
      PrefixWaits(fs[k], r);
    }
  }

  lemma DrainAdvances(good: seq<seq<Byte>>, whole: seq<seq<Byte>>, arrived: seq<Byte>, tail: seq<Byte>)
    requires AllStreamable(whole)
    requires arrived == Flat(whole) + tail
    requires Parsed(tail) == Incomplete && |tail| <= MAX_FRAME_BUFFER
    ensures Batch(START, good).open && Batch(START, good).buffer == []
    ensures Drained(Batch(START, good).(buffer := arrived)) == Batch(START, good + whole).(buffer := tail)
    ensures Flat(good + whole) == Flat(good) + Flat(whole)
  {
    hide Parsed, Streamable, Handled;
    var b := Batch(START, good);
    BatchRecords(START, good);
    assert b == b.(buffer := arrived).(buffer := []);
    DrainWholeFrames(b.(buffer := arrived), whole, tail);
    BatchConcat(START, good, whole);
    FlatConcat(good, whole);
  }

  lemma StepInStream(fs: seq<seq<Byte>>, k0: nat, r0: nat, last: seq<Byte>) returns (k: nat, r: nat)
    requires AllStreamable(fs) && Position(fs, k0, r0)
    requires Flat(fs[..k0]) + Part(fs, k0, r0) + last <= Flat(fs)
    ensures Position(fs, k, r)
    ensures Flat(fs[..k0]) + Part(fs, k0, r0) + last == Flat(fs[..k]) + Part(fs, k, r)
    ensures Receive(Batch(START, fs[..k0]).(buffer := Part(fs, k0, r0)), last)
         == Batch(START, fs[..k]).(buffer := Part(fs, k, r))
  {
    hide Parsed, Handled, Drained, Flat, Batch;
    assert forall f :: f in fs ==> |f| > 0 by { assert forall f :: f in fs ==> Streamable(f); }
    hide Streamable;
    var part := Part(fs, k0, r0);
    k, r := StepOverChunk(fs, k0, part, last);
    PartWaits(fs, k, r);
    DrainAdvances(fs[..k0], fs[k0..k], part + last, Part(fs, k, r));
    assert fs[..k] == fs[..k0] + fs[k0..k];
    assert Flat(fs[..k0]) + part + last == Flat(fs[..k0]) + (part + last);
    assert Flat(fs[..k0]) + (Flat(fs[k0..k]) + Part(fs, k, r)) == Flat(fs[..k]) + Part(fs, k, r);
  }

  /** After any pieces of a stream of clean frames, the connection is where frame-by-frame delivery
      would be, holding the received part of the next frame. */
  lemma {:induction false} StreamingInStep(fs: seq<seq<Byte>>, chunks: seq<seq<Byte>>) returns (k: nat, r: nat)
    requires AllStreamable(fs)
    requires Flat(chunks) <= Flat(fs)
    ensures Position(fs, k, r)
    ensures Flat(chunks) == Flat(fs[..k]) + Part(fs, k, r)
    ensures ReceiveAll(START, chunks) == Batch(START, fs[..k]).(buffer := Part(fs, k, r))
    decreases |chunks|
  {
    hide Receive, Handled, Streamable;
    if chunks == [] {
      k, r := 0, 0;
      if fs != [] { assert |fs[0]| > 0 by { assert fs[0] in fs; NotEmpty(fs[0]); } }
    } else {
      var init, last := chunks[..|chunks| - 1], chunks[|chunks| - 1];
      assert chunks == init + [last];
      FlatSnoc(init, last);
      var k0, r0 := StreamingInStep(fs, init);
      ReceiveSnoc(START, init, last);
      k, r := StepInStream(fs, k0, r0, last);
    }
  }

  lemma NotEmpty(f: seq<Byte>)
    requires Streamable(f)
    ensures |f| > 0
  {
  }

  lemma StepOverChunk(fs: seq<seq<Byte>>, k0: nat, tail0: seq<Byte>, last: seq<Byte>) returns (k: nat, r: nat)
    requires forall f :: f in fs ==> |f| > 0
    requires k0 <= |fs|
    requires Flat(fs[..k0]) + tail0 + last <= Flat(fs)
    ensures k0 <= k && Position(fs, k, r)
    ensures tail0 + last == Flat(fs[k0..k]) + Part(fs, k, r)
  {
    assert fs == fs[..k0] + fs[k0..];
    FlatConcat(fs[..k0], fs[k0..]);
    var n := |tail0 + last|;
    var m := |Flat(fs[..k0])|;
    assert Flat(fs)[m..m + n] == tail0 + last;
    assert Flat(fs[k0..])[..n] == tail0 + last;
    var j, r' := CutStream(fs[k0..], n);
    k, r := k0 + j, r';
    assert fs[k0..][..j] == fs[k0..k];
  }

  lemma {:induction false} BatchConsistent(s: Session, received: seq<Byte>, fs: seq<seq<Byte>>)
    requires Consistent(s, received) && s.buffer == []
    requires AllStreamable(fs)
    ensures Consistent(Batch(s, fs), received + Flat(fs))
    decreases fs
  {
    hide Consistent, Handled, PacketOf, Streamable;
    if fs == [] {
      assert received + Flat(fs) == received;
    } else {
      var f := fs[0];
      FrameArrives(s, received, f);
      HandledConsistent(s.(buffer := f), received + f, |f|, PacketOf(f));
      HandledWhole(s.(buffer := f), f);
      BatchConsistent(Handled(s.(buffer := f), |f|, PacketOf(f)), received + f, fs[1..]);
      assert received + f + Flat(fs[1..]) == received + (f + Flat(fs[1..]));
    }
  }

  lemma FrameArrives(s: Session, received: seq<Byte>, f: seq<Byte>)
    requires Consistent(s, received) && s.buffer == []
    requires Streamable(f)
    ensures Consistent(s.(buffer := f), received + f)
    ensures 4 <= |f| && IsStop(f, |f| - 2)
  {
    hide LastLogin, Attributed, Acknowledged, Flat;
  }

  /** What is handed on and acknowledged depends on the packets alone. */
  lemma BatchLogs(fs: seq<seq<Byte>>)
    requires AllStreamable(fs)
    ensures Batch(START, fs).open && Batch(START, fs).buffer == [] && Batch(START, fs).frames == fs
    ensures Batch(START, fs).packets == PacketsOf(fs)
    ensures Batch(START, fs).ingested == Attributed(PacketsOf(fs))
    ensures Batch(START, fs).acks == Acknowledged(PacketsOf(fs))
  {
    hide Streamable, Attributed, Acknowledged, LastLogin;
    assert Consistent(START, []) by { StartConsistent(); }
    BatchConsistent(START, [], fs);
    hide Batch, Flat;
    BatchRecords(START, fs);
    assert [] + fs == fs && [] + PacketsOf(fs) == PacketsOf(fs);
  }

  lemma StartConsistent()
    ensures Consistent(START, [])
  {
  }

  /** However clean frames are split into pieces, exactly those frames come out, in order, and the
      same positions are handed on and the same acknowledgements sent. */
  lemma {:induction false} StreamingEqualsBatch(fs: seq<seq<Byte>>, chunks: seq<seq<Byte>>)
    requires AllStreamable(fs)
    requires Flat(chunks) == Flat(fs)
    ensures var s := ReceiveAll(START, chunks);
            && s == Batch(START, fs)
            && s.open && s.frames == fs && s.packets == PacketsOf(fs)
            && s.ingested == Attributed(s.packets) && s.acks == Acknowledged(s.packets)
  {
    hide Streamable, ReceiveAll, Batch, Attributed, Acknowledged;
    var k, r := StreamingInStep(fs, chunks);
    FlatAtLeast(fs, k);
    assert k == |fs| && fs[..k] == fs;
    BatchLogs(fs);
  }

  lemma FlatAtLeast(fs: seq<seq<Byte>>, k: nat)
    requires k <= |fs|
    ensures k < |fs| ==> |Flat(fs)| >= |Flat(fs[..k])| + |fs[k]|
  {
    assert fs == fs[..k] + fs[k..];
    FlatConcat(fs[..k], fs[k..]);
  }

  // ----- ... and only for such frames -----

  function Singles(data: seq<Byte>): (chunks: seq<seq<Byte>>)
    ensures Chunked(chunks)
  {
    if data == [] then [] else [[data[0]]] + Singles(data[1..])
  }

  lemma {:induction false} SinglesFlat(data: seq<Byte>)
    ensures Flat(Singles(data)) == data
  {
    if data != [] {
      var rest := Singles(data[1..]);
      SinglesFlat(data[1..]);
      assert Singles(data) == [[data[0]]] + rest;
      hide Singles;
      assert ([[data[0]]] + rest)[1..] == rest;
      assert Flat([[data[0]]] + rest) == [data[0]] + data[1..];
    }
  }

  lemma {:induction false} SinglesConcat(a: seq<Byte>, b: seq<Byte>)
    ensures Singles(a + b) == Singles(a) + Singles(b)
    decreases a
  {
    if a == [] {
      assert a + b == b;
    } else {
      assert (a + b)[1..] == a[1..] + b;
      SinglesConcat(a[1..], b);
    }
  }

  /** Bytes that do not complete a frame pile up. */
  lemma {:induction false} SinglesPileUp(s: Session, data: seq<Byte>)
    requires s.open && s.buffer == []
    requires forall n :: 0 <= n <= |data| ==> Parsed(data[..n]) == Incomplete
    requires |data| <= MAX_FRAME_BUFFER
    ensures ReceiveAll(s, Singles(data)) == s.(buffer := data)
  {
    if data == [] {
      assert s == s.(buffer := data);
    } else {
      var init, b := data[..|data| - 1], data[|data| - 1];
      assert data == init + [b];
      forall n | 0 <= n <= |init| ensures Parsed(init[..n]) == Incomplete { assert init[..n] == data[..n]; }
      SinglesPileUp(s, init);
      AddByte(s, init, b);
      assert data[..|data|] == data;
    }
  }

  lemma AddByte(s: Session, init: seq<Byte>, b: Byte)
    requires s.open
    requires ReceiveAll(s, Singles(init)) == s.(buffer := init)
    ensures ReceiveAll(s, Singles(init + [b])) == Drained(s.(buffer := init + [b]))
  {
    hide Parsed;
    SinglesConcat(init, [b]);
    assert Singles([b]) == [[b]] + Singles([]);
    ReceiveAllConcat(s, Singles(init), Singles([b]));
    var t := s.(buffer := init);
    assert ReceiveAll(t, [[b]]) == ReceiveAll(Receive(t, [b]), []);
  }

  lemma {:induction false} FramesOnlyGrow(s: Session, chunks: seq<seq<Byte>>)
    ensures s.frames <= ReceiveAll(s, chunks).frames
    ensures !s.open ==> ReceiveAll(s, chunks) == s
    decreases chunks
  {
    if chunks != [] {
      if s.open { DrainedGrows(s.(buffer := s.buffer + chunks[0])); }
      FramesOnlyGrow(Receive(s, chunks[0]), chunks[1..]);
    }
  }

  lemma {:induction false} DrainedGrows(s: Session)
    ensures s.frames <= Drained(s).frames
    decreases |s.buffer|
  {
    match Parsed(s.buffer)
    case Incomplete =>
    case Invalid =>
    case Ok(n, p, _) =>
      OkConsumesAFrame(s.buffer);
      DrainedGrows(Handled(s, n, p));
      assert s.frames <= Handled(s, n, p).frames;
  }

  /** Sent byte by byte, a frame with an inner stop marker is cut there. */
  lemma CutShort(s: Session, f: seq<Byte>, e: nat)
    requires s.open && s.buffer == []
    requires 0 < e <= MAX_FRAME_BUFFER + 1 && e < |f|
    requires Parsed(f[..e]).Ok? && Parsed(f[..e]).consumed == e
    requires forall n :: 0 <= n < e ==> Parsed(f[..n]) == Incomplete
    ensures s.frames + [f[..e]] <= ReceiveAll(s, Singles(f)).frames
  {
    hide Ack, Decoded, StopEnd, DeclaredChecksOut;
    var init := f[..e - 1];
    assert f[..e] == init + [f[e - 1]];
    assert f == f[..e] + f[e..];
    forall n | 0 <= n <= |init| ensures Parsed(init[..n]) == Incomplete { assert init[..n] == f[..n]; }
    SinglesPileUp(s, init);
    AddByte(s, init, f[e - 1]);
    var h := Handled(s.(buffer := f[..e]), e, Parsed(f[..e]).packet);
    assert f[..e][..e] == f[..e];
    DrainedGrows(h);
    assert h.frames == s.frames + [f[..e]];
    hide Parsed, Handled;
    SinglesConcat(f[..e], f[e..]);
    ReceiveAllConcat(s, Singles(f[..e]), Singles(f[e..]));
    FramesOnlyGrow(ReceiveAll(s, Singles(f[..e])), Singles(f[e..]));
  }

  /** Sent byte by byte, a frame that is not streamable is cut or given up on. */
  lemma ByteByByteFails(s: Session, f: seq<Byte>)
    requires s.open && s.buffer == []
    requires WellDeclared(f) && !Streamable(f)
    ensures var t := ReceiveAll(s, Singles(f));
            (!t.open && t.frames == s.frames) || (exists e :: 0 <= e < |f| && s.frames + [f[..e]] <= t.frames)
  {
    hide Parsed, WellDeclared;
    if !Clean(f) {
      var e := InnerStopCuts(f);
      if e > MAX_FRAME_BUFFER + 1 { GivenUp(s, f, e); } else { CutShort(s, f, e); }
    } else {
      forall n | 0 <= n < |f| ensures Parsed(f[..n]) == Incomplete { PrefixWaits(f, n); }
      GivenUp(s, f, |f|);
    }
  }

  /** One incomplete byte past the limit closes the connection. */
  lemma GivenUp(s: Session, f: seq<Byte>, e: nat)
    requires s.open && s.buffer == []
    requires MAX_FRAME_BUFFER + 1 < e <= |f|
    requires forall n :: 0 <= n < e ==> Parsed(f[..n]) == Incomplete
    ensures var t := ReceiveAll(s, Singles(f));
            !t.open && t.frames == s.frames
  {
    var m := MAX_FRAME_BUFFER;
    var init := f[..m];
    forall n | 0 <= n <= |init| ensures Parsed(init[..n]) == Incomplete { assert init[..n] == f[..n]; }
    SinglesPileUp(s, init);
    assert f[..m + 1] == init + [f[m]];
    AddByte(s, init, f[m]);
    assert f == f[..m + 1] + f[m + 1..];
    SinglesConcat(f[..m + 1], f[m + 1..]);
    ReceiveAllConcat(s, Singles(f[..m + 1]), Singles(f[m + 1..]));
    FramesOnlyGrow(ReceiveAll(s, Singles(f[..m + 1])), Singles(f[m + 1..]));
  }

  /** The stream of fs is decoded as fs, whatever the pieces. */
  ghost predicate SplitInsensitive(fs: seq<seq<Byte>>) {
    forall chunks: seq<seq<Byte>> :: Chunked(chunks) && Flat(chunks) == Flat(fs) ==>
      ReceiveAll(START, chunks).open && ReceiveAll(START, chunks).frames == fs
  }

  /** Exactly the streams of clean frames within the limit do not depend on how they are split. */
  lemma SplitInsensitiveExactly(fs: seq<seq<Byte>>)
    requires forall f :: f in fs ==> WellDeclared(f)
    ensures SplitInsensitive(fs) <==> AllStreamable(fs)
  {
    hide Parsed, Ack, WellDeclared, Clean;
    hide Streamable, ReceiveAll;
    if AllStreamable(fs) {
      forall chunks: seq<seq<Byte>> | Chunked(chunks) && Flat(chunks) == Flat(fs)
        ensures ReceiveAll(START, chunks).open && ReceiveAll(START, chunks).frames == fs
      {
        StreamingEqualsBatch(fs, chunks);
      }
    } else {
      var chunks := SomeSplitFails(fs);
    }
  }

  lemma SomeSplitFails(fs: seq<seq<Byte>>) returns (chunks: seq<seq<Byte>>)
    requires forall f :: f in fs ==> WellDeclared(f)
    requires !AllStreamable(fs)
    ensures Chunked(chunks) && Flat(chunks) == Flat(fs)
    ensures !ReceiveAll(START, chunks).open || ReceiveAll(START, chunks).frames != fs
  {
    var i := FirstUnstreamable(fs);
    hide *;
    chunks := Singles(Flat(fs[..i])) + (Singles(fs[i]) + Singles(Flat(fs[i + 1..])));
    assert fs[i] in fs;
    SinglesOfParts(fs, i);
    FirstBadFails(fs[..i], fs[i], Flat(fs[i + 1..]), fs);
  }

  lemma SinglesOfParts(fs: seq<seq<Byte>>, i: nat)
    requires i < |fs|
    ensures var chunks := Singles(Flat(fs[..i])) + (Singles(fs[i]) + Singles(Flat(fs[i + 1..])));
      Chunked(chunks) && Flat(chunks) == Flat(fs)
  {
    hide Singles;
    var (good, f, after) := (fs[..i], fs[i], Flat(fs[i + 1..]));
    assert fs == good + ([f] + fs[i + 1..]);
    FlatConcat(good, [f] + fs[i + 1..]);
    assert ([f] + fs[i + 1..])[1..] == fs[i + 1..];
    FlatConcat(Singles(Flat(good)), Singles(f) + Singles(after));
    FlatConcat(Singles(f), Singles(after));
    SinglesFlat(Flat(good));
    SinglesFlat(f);
    SinglesFlat(after);
  }

  /** Streamable frames, then one that is not, byte by byte: it is lost or cut, whatever comes after it. */
  lemma FirstBadFails(good: seq<seq<Byte>>, f: seq<Byte>, after: seq<Byte>, fs: seq<seq<Byte>>)
    requires AllStreamable(good) && WellDeclared(f) && !Streamable(f)
    requires |good| < |fs| && fs[|good|] == f
    ensures var t := ReceiveAll(START, Singles(Flat(good)) + (Singles(f) + Singles(after)));
      !t.open || t.frames != fs
  {
    assert START.buffer == [] && START.frames == [];
    hide *;
    var first := Singles(Flat(good));
    SinglesFlat(Flat(good));
    StreamingEqualsBatch(good, first);
    BatchRecords(START, good);
    var s := ReceiveAll(START, first);
    ReceiveAllConcat(START, first, Singles(f) + Singles(after));
    ReceiveAllConcat(s, Singles(f), Singles(after));
    ByteByByteFails(s, f);
    var t := ReceiveAll(s, Singles(f));
    FramesOnlyGrow(t, Singles(after));
    if t.open {
      var e :| 0 <= e < |f| && good + [f[..e]] <= t.frames;
      CutFrameStays(good, f, e, t.frames, ReceiveAll(t, Singles(after)).frames);
    }
  }

  lemma CutFrameStays(good: seq<seq<Byte>>, f: seq<Byte>, e: nat, frames: seq<seq<Byte>>, later: seq<seq<Byte>>)
    requires e < |f| && good + [f[..e]] <= frames && frames <= later
    ensures |good| < |later| && later[|good|] != f
  {
    assert (good + [f[..e]])[|good|] == f[..e];
    assert |f[..e]| < |f|;
  }

  lemma FirstUnstreamable(fs: seq<seq<Byte>>) returns (i: nat)
    requires !AllStreamable(fs)
    ensures i < |fs| && !Streamable(fs[i])
    ensures AllStreamable(fs[..i])
  {
    i := 0;
    while Streamable(fs[i])
      invariant i < |fs|
      invariant forall j :: 0 <= j < i ==> Streamable(fs[j])
      invariant exists j :: i <= j < |fs| && !Streamable(fs[j])
      decreases |fs| - i
    {
      i := i + 1;
    }
  }
}

/** A log gets across whole, once, and exactly when its last chunk is in, whatever else the console is
    doing meanwhile. */
module LogTransferProofs {
  import opened Options
  import opened Collections
  import opened Console
  import opened ConsoleProofs
  import opened ConsoleOutcomes
  import opened LogTransfer

  // ----- A download that is over saves nothing more -----

  lemma TransferSaves(s: State, e: Event, id: Id)
    requires e.DownloadAck? || e.Chunk?
    requires id in s.downloads ==> Ended(s.downloads[id].phase) || e.id != id
    ensures Saves(Step(s, e).saved, id) == Saves(s.saved, id)
  {
    forall bytes, i | i != id ensures Saves(s.saved + [SavedFile(i, bytes)], id) == Saves(s.saved, id) {
      SavesPlus(s.saved, SavedFile(i, bytes), id);
    }
    hide Clear, Arm, Received, Joined, Full, EmptyTable, Saves;
  }

  lemma OthersSave(s: State, e: Event)
    requires !e.DownloadAck? && !e.Chunk?
    ensures Step(s, e).saved == s.saved
  {
    if e.Ask? || e.Ack? || e.SendFailed? {
      RequestsOnly(s, e);
    } else if e.AskRun? || e.Progress? || e.RunSendFailed? || e.LeaveRun? {
      RunsOnly(s, e);
    } else if e.Timeout? {
      TimeoutSaves(s, e.handle);
      hide AfterTimeout;
    } else {
      hide Clear, ClearAll, Arm;
    }
  }

  lemma TimeoutSaves(s: State, h: Handle)
    ensures AfterTimeout(s, h).saved == s.saved
  {
    hide Over, Clear;
  }

  predicate Closed(s: State, id: Id) {
    id < s.nextId && (id in s.downloads ==> Ended(s.downloads[id].phase))
  }

  lemma ClosedStays(s: State, e: Event, id: Id)
    requires Closed(s, id)
    ensures Closed(Step(s, e), id) && Saves(Step(s, e).saved, id) == Saves(s.saved, id)
  {
    StepStays(s, e);
    assert Closed(Step(s, e), id) by {
      hide Step, RequestsStay, RunsStay;
    }
    hide Step, Saves;
    if e.DownloadAck? || e.Chunk? {
      TransferSaves(s, e, id);
    } else {
      OthersSave(s, e);
    }
  }

  lemma {:induction false} ClosedForGood(s: State, events: seq<Event>, id: Id)
    requires Closed(s, id)
    ensures Closed(Steps(s, events), id) && Saves(Steps(s, events).saved, id) == Saves(s.saved, id)
    decreases events
  {
    hide Step, Saves, Closed;
    if events != [] {
      ClosedStays(s, events[0], id);
      ClosedForGood(Step(s, events[0]), events[1..], id);
    }
  }

  // ----- What may happen while a log is under way -----

  /** Anything but: a chunk of this download that is not a chunk of the log, its own timeout, a failed
      send, or the loss of the link it comes over. */
  predicate Harmless(s: State, e: Event, id: Id, pieces: seq<Bytes>) {
    match e
    case Chunk(i, good, index, data, _) => i == id ==> good && index < |pieces| && data == pieces[index]
    case DownloadSendFailed(i, _) => i != id
    case Timeout(h) => h in s.timers.armed ==> Owner(s.timers.armed[h]) != id
    case LinkDown(gateway) => id in s.downloads && !Ended(s.downloads[id].phase) ==> s.downloads[id].ward !in gateway
    case _ => true
  }

  predicate AllHarmless(s: State, events: seq<Event>, id: Id, pieces: seq<Bytes>)
    decreases events
  {
    events == [] || (Harmless(s, events[0], id, pieces) && AllHarmless(Step(s, events[0]), events[1..], id, pieces))
  }

  function Delivered(e: Event, id: Id): set<nat> {
    if e.Chunk? && e.id == id then {e.index} else {}
  }

  /** The chunks of this download among the events. */
  function Got(events: seq<Event>, id: Id): set<nat> {
    if events == [] then {} else Delivered(events[0], id) + Got(events[1..], id)
  }

  predicate Everything(pieces: seq<Bytes>, got: set<nat>) {
    forall i :: 0 <= i < |pieces| ==> i in got
  }

  function Partial(pieces: seq<Bytes>, got: set<nat>): (table: Table)
    ensures |table| == |pieces|
    ensures forall i :: 0 <= i < |table| ==> table[i] == if i in got then Some(pieces[i]) else None
  {
    seq(|pieces|, i requires 0 <= i < |pieces| => if i in got then Some(pieces[i]) else None)
  }

  ghost predicate UnderWay(s: State, id: Id, table: Table) {
    && id in s.downloads && s.downloads[id].phase == Downloading
    && id in s.tables && s.tables[id] == table
  }

  /** How far a transfer is, once these chunks have arrived. */
  ghost predicate Progressed(s: State, id: Id, pieces: seq<Bytes>, got: set<nat>) {
    if Everything(pieces, got) then Closed(s, id) && Saves(s.saved, id) == [Flat(pieces)]
    else UnderWay(s, id, Partial(pieces, got)) && Saves(s.saved, id) == []
  }

  lemma {:induction false} JoinedIsFlat(pieces: seq<Bytes>, table: Table)
    requires |table| == |pieces| && forall i :: 0 <= i < |table| ==> table[i] == Some(pieces[i])
    ensures Joined(table) == Flat(pieces)
  {
    if pieces != [] {
      JoinedIsFlat(pieces[1..], table[1..]);
    }
  }

  // ----- Other events leave an open download alone -----

  lemma OtherTransfersLeaveIt(s: State, e: Event, id: Id, table: Table)
    requires Inv(s) && UnderWay(s, id, table)
    requires e.DownloadAck? || (e.Chunk? && e.id != id)
    ensures UnderWay(Step(s, e), id, table)
  {
    hide Inv, Clear, Arm, Received, Joined, Full, EmptyTable;
  }

  lemma TimeoutLeavesIt(s: State, h: Handle, id: Id, table: Table)
    requires UnderWay(s, id, table)
    requires h in s.timers.armed ==> Owner(s.timers.armed[h]) != id
    ensures UnderWay(AfterTimeout(s, h), id, table)
  {
    hide Over, Clear;
  }

  lemma LinkDownLeavesIt(s: State, gateway: set<Id>, id: Id, table: Table)
    requires UnderWay(s, id, table) && s.downloads[id].ward !in gateway
    ensures UnderWay(AfterLinkDown(s, gateway), id, table)
  {
    hide ClearAll;
  }

  lemma LingerLeavesIt(s: State, linger: Linger, id: Id, table: Table)
    requires Inv(s) && UnderWay(s, id, table)
    ensures UnderWay(AfterLinger(s, linger), id, table)
  {
    hide TimersOk, IdsOk, RequestsWatched, DownloadsWatched, RunsWatched, TablesOk, SavedOk, RequestLingersOk, RunLingersOk;
  }

  lemma OtherDownloadsLeaveIt(s: State, e: Event, id: Id, table: Table)
    requires Inv(s) && UnderWay(s, id, table)
    requires e.AskDownload? || (e.DownloadSendFailed? && e.id != id)
    ensures UnderWay(Step(s, e), id, table)
  {
    assert id < s.nextId by {
      hide TimersOk, RequestsWatched, DownloadsWatched, RunsWatched, TablesOk, SavedOk, LingersOk;
    }
    hide Inv, Clear, Arm;
  }

  lemma OthersLeaveIt(s: State, e: Event, id: Id, table: Table, pieces: seq<Bytes>)
    requires Inv(s) && UnderWay(s, id, table) && Harmless(s, e, id, pieces)
    requires !(e.Chunk? && e.id == id)
    ensures UnderWay(Step(s, e), id, table) && Saves(Step(s, e).saved, id) == Saves(s.saved, id)
  {
    if e.DownloadAck? && e.id == id {
      assert Step(s, e) == s;
    } else if e.Chunk? || e.DownloadAck? {
      hide Inv, Step, Saves;
      TransferSaves(s, e, id);
      OtherTransfersLeaveIt(s, e, id, table);
    } else {
      OthersSave(s, e);
      hide Inv, Saves, AfterTimeout, AfterLinkDown, AfterLinger;
      match e
      case Timeout(h) => TimeoutLeavesIt(s, h, id, table);
      case LinkDown(gateway) => LinkDownLeavesIt(s, gateway, id, table);
      case Lingered(linger) => LingerLeavesIt(s, linger, id, table);
      case _ =>
        hide Step;
        if e.AskDownload? || e.DownloadSendFailed? {
          OtherDownloadsLeaveIt(s, e, id, table);
        } else if e.Ask? || e.Ack? || e.SendFailed? {
          RequestsOnly(s, e);
        } else {
          RunsOnly(s, e);
        }
    }
  }

  // ----- One chunk -----

  lemma ChunkArrives(s: State, id: Id, pieces: seq<Bytes>, got: set<nat>, index: nat, text: string)
    requires Inv(s) && index < |pieces| && !Everything(pieces, got) && Progressed(s, id, pieces, got)
    ensures Progressed(AfterChunk(s, id, true, index, pieces[index], text), id, pieces, got + {index})
  {
    var t := AfterChunk(s, id, true, index, pieces[index], text);
    assert id < s.nextId by {
      hide TimersOk, RequestsWatched, DownloadsWatched, RunsWatched, TablesOk, SavedOk, LingersOk;
    }
    var before := Partial(pieces, got);
    var table := Partial(pieces, got + {index});
    hide Inv, Clear, Arm, Received;
    if index in got {
      assert before[index].Some?;
      assert got + {index} == got;
      assert t == s;
    } else {
      assert table == before[index := Some(pieces[index])];
      assert Full(table) <==> Everything(pieces, got + {index}) by {
        hide Partial, Saves;
        assert forall i :: 0 <= i < |pieces| ==> (table[i].Some? <==> i in got + {index});
      }
      if Full(table) {
        JoinedIsFlat(pieces, table);
        SavesPlus(s.saved, SavedFile(id, Flat(pieces)), id);
      }
      hide Full, Joined, Everything, Partial, Saves;
    }
  }

  /** One event that does the transfer no harm moves it on by the chunk it delivers, if any. */
  lemma EventAdvances(s: State, e: Event, id: Id, pieces: seq<Bytes>, got: set<nat>)
    requires Inv(s) && Progressed(s, id, pieces, got) && Harmless(s, e, id, pieces)
    ensures Progressed(Step(s, e), id, pieces, got + Delivered(e, id))
  {
    hide Inv, Saves, Partial;
    if Everything(pieces, got) {
      hide Step;
      ClosedStays(s, e, id);
    } else if e.Chunk? && e.id == id {
      ChunkArrives(s, id, pieces, got, e.index, e.text);
    } else {
      hide Step;
      assert got + Delivered(e, id) == got;
      OthersLeaveIt(s, e, id, Partial(pieces, got), pieces);
    }
  }

  lemma {:induction false} EventsAdvance(s: State, events: seq<Event>, id: Id, pieces: seq<Bytes>, got: set<nat>)
    requires Inv(s) && Progressed(s, id, pieces, got) && AllHarmless(s, events, id, pieces)
    ensures Progressed(Steps(s, events), id, pieces, got + Got(events, id))
    decreases events
  {
    hide Inv, Step, Progressed, Harmless;
    if events == [] {
      assert got + Got(events, id) == got;
    } else {
      StepKeeps(s, events[0]);
      EventAdvances(s, events[0], id, pieces, got);
      EventsAdvance(Step(s, events[0]), events[1..], id, pieces, got + Delivered(events[0], id));
      assert got + Delivered(events[0], id) + Got(events[1..], id) == got + Got(events, id);
    }
  }

  lemma AckStarts(s: State, id: Id, total: nat, pieces: seq<Bytes>, text: string)
    requires Inv(s) && id in s.downloads && s.downloads[id].phase == Pending
    ensures Progressed(AfterDownloadAck(s, id, true, total, |pieces|, text), id, pieces, {})
  {
    assert id < s.nextId && Saves(s.saved, id) == [] by {
      hide TimersOk, RequestsWatched, DownloadsWatched, RunsWatched, TablesOk, LingersOk;
    }
    SavesPlus(s.saved, SavedFile(id, []), id);
    assert EmptyTable(|pieces|) == Partial(pieces, {});
    var none: set<nat> := {};
    assert Everything(pieces, none) <==> |pieces| == 0 by {
      assert 0 !in none;
    }
    hide Inv, Clear, Arm, EmptyTable, Partial, Everything, Saves;
  }

  /** After the acknowledgement the chunks may come in any order, repeated, and mixed with anything else
      the console does: the log is saved once, whole, and exactly when its last missing chunk is in. */
  lemma DeliveredInAnyOrder(s: State, id: Id, total: nat, pieces: seq<Bytes>, text: string, events: seq<Event>)
    requires Inv(s) && id in s.downloads && s.downloads[id].phase == Pending
    requires AllHarmless(AfterDownloadAck(s, id, true, total, |pieces|, text), events, id, pieces)
    ensures var t := Steps(AfterDownloadAck(s, id, true, total, |pieces|, text), events);
      && Saves(t.saved, id) == (if Everything(pieces, Got(events, id)) then [Flat(pieces)] else [])
      && (!Everything(pieces, Got(events, id)) ==> UnderWay(t, id, Partial(pieces, Got(events, id))))
  {
    hide Inv, Steps, Saves, UnderWay, Everything, AfterDownloadAck;
    AckStarts(s, id, total, pieces, text);
    DownloadAckKeeps(s, id, true, total, |pieces|, text);
    EventsAdvance(AfterDownloadAck(s, id, true, total, |pieces|, text), events, id, pieces, {});
    assert {} + Got(events, id) == Got(events, id);
  }

  // ----- What was announced stays -----

  /** While the download is shown, it shows these totals. */
  predicate Totals(s: State, id: Id, total: nat, count: nat) {
    id < s.nextId &&
    (id in s.downloads ==> s.downloads[id].phase != Pending && s.downloads[id].total == total && s.downloads[id].count == count)
  }

  lemma TransferTotals(s: State, e: Event, id: Id, total: nat, count: nat)
    requires Totals(s, id, total, count)
    requires e.AskDownload? || e.DownloadSendFailed? || e.DownloadAck? || e.Chunk?
    ensures Totals(Step(s, e), id, total, count)
  {
    hide Clear, Arm, Received, Joined, Full, EmptyTable;
  }

  lemma TimeoutTotals(s: State, h: Handle, id: Id, total: nat, count: nat)
    requires Totals(s, id, total, count)
    ensures Totals(AfterTimeout(s, h), id, total, count)
  {
    hide Over, Clear, Fired;
  }

  lemma StepTotals(s: State, e: Event, id: Id, total: nat, count: nat)
    requires Totals(s, id, total, count)
    ensures Totals(Step(s, e), id, total, count)
  {
    StepStays(s, e);
    if e.Ask? || e.Ack? || e.SendFailed? {
      RequestsOnly(s, e);
      hide Step;
    } else if e.AskRun? || e.Progress? || e.RunSendFailed? || e.LeaveRun? {
      RunsOnly(s, e);
      hide Step;
    } else if e.Timeout? {
      TimeoutTotals(s, e.handle, id, total, count);
    } else if e.Lingered? || e.LinkDown? {
      hide Clear, ClearAll, RequestsStay, DownloadsStay, RunsStay;
    } else {
      TransferTotals(s, e, id, total, count);
    }
  }

  lemma {:induction false} StepsTotals(s: State, events: seq<Event>, id: Id, total: nat, count: nat)
    requires Totals(s, id, total, count)
    ensures Totals(Steps(s, events), id, total, count)
    decreases events
  {
    hide Step, Totals;
    if events != [] {
      StepTotals(s, events[0], id, total, count);
      StepsTotals(Step(s, events[0]), events[1..], id, total, count);
    }
  }

  lemma AckTotals(s: State, id: Id, total: nat, count: nat, text: string)
    requires Inv(s) && id in s.downloads && s.downloads[id].phase == Pending
    ensures Totals(AfterDownloadAck(s, id, true, total, count, text), id, total, count)
  {
    assert id < s.nextId by {
      hide TimersOk, RequestsWatched, DownloadsWatched, RunsWatched, TablesOk, SavedOk, LingersOk;
    }
    hide Inv, Clear, Arm, EmptyTable;
  }

  // ----- End to end -----

  function Arrival(m: Message, id: Id): Event {
    match m
    case AckMessage(accepted, total, count, text) => DownloadAck(id, accepted, total, count, text)
    case ChunkMessage(good, index, data, text) => Chunk(id, good, index, data, text)
  }

  /** The console once the gateway's acknowledgement is in. */
  function Acknowledged(s: State, id: Id, file: Bytes): State {
    Step(s, Arrival(Sent(Local(file), None, None)[0], id))
  }

  /** Every chunk message the gateway sends for this file is among the events. */
  ghost predicate AllArrive(file: Bytes, events: seq<Event>, id: Id) {
    forall m :: m in Sent(Local(file), None, None)[1..] ==> Arrival(m, id) in events
  }

  /** As much of a file as its announced chunks hold. */
  function Kept(file: Bytes): Bytes {
    file[..Min(ChunkCount(|file|) * LOG_CHUNK_BYTES, |file|)]
  }

  /** Any chunk the gateway sends for a file may arrive at any moment, and any number of times. */
  lemma SentChunksAreHarmless(s: State, id: Id, file: Bytes, m: Message)
    requires m in Sent(Local(file), None, None)[1..]
    ensures Harmless(s, Arrival(m, id), id, Pieces(file, ChunkCount(|file|)))
  {
    AllChunksSent(file, 0, ChunkCount(|file|));
    assert Sent(Local(file), None, None)[1..] == Chunks(file, 0, ChunkCount(|file|), None, None);
  }

  lemma ArrivedIsGot(events: seq<Event>, id: Id, i: nat, data: Bytes, text: string)
    requires Chunk(id, true, i, data, text) in events
    ensures i in Got(events, id)
  {
    if events[0] != Chunk(id, true, i, data, text) {
      ArrivedIsGot(events[1..], id, i, data, text);
    }
  }

  lemma CountIsWhole(file: Bytes)
    ensures ChunkCount(|file|) <= ChunksNeeded(|file|)
    ensures Kept(file) == file <==> |file| <= 917_504 * 0xFFFF_FFFF
  {
    var (n, size) := (ChunksNeeded(|file|), |file|);
    NeededExactly(size, ChunkCount(size));
    NeededExactly(size, 0xFFFF_FFFF);
    if n >= UINT32_VALUES {
      assert ChunkCount(size) < n;
    }
    assert |Kept(file)| == Min(ChunkCount(size) * LOG_CHUNK_BYTES, size);
  }

  /** Once the acknowledgement and every chunk the gateway sends for a file have arrived, in any order
      and among anything harmless, the console has saved exactly one file: the gateway's own if and only
      if its chunks of 896 KiB can be counted in 32 bits, and otherwise only as much of it as was announced.
      The size it shows is the file's, as far as 32 bits hold it. */
  lemma {:induction false} EndToEnd(s: State, id: Id, file: Bytes, events: seq<Event>)
    requires Inv(s) && id in s.downloads && s.downloads[id].phase == Pending
    requires AllHarmless(Acknowledged(s, id, file), events, id, Pieces(file, ChunkCount(|file|)))
    requires AllArrive(file, events, id)
    ensures var t := Steps(Acknowledged(s, id, file), events);
      && Saves(t.saved, id) == [Kept(file)]
      && (Saves(t.saved, id) == [file] <==> |file| <= 917_504 * 0xFFFF_FFFF)
      && Totals(t, id, |file| % 0x1_0000_0000, |Pieces(file, ChunkCount(|file|))|)
  {
    hide Inv, Steps, Saves, AllHarmless, AfterDownloadAck, UnderWay;
    var sent := Sent(Local(file), None, None);
    var count := ChunkCount(|file|);
    var pieces := Pieces(file, count);
    CountIsWhole(file);
    AllChunksSent(file, 0, count);
    PiecesArePrefix(file, count);
    forall i | 0 <= i < count ensures i in Got(events, id) {
      var m := ChunkMessage(true, i, PieceAt(file, i), "");
      assert sent[1..][i] == m;
      assert Arrival(m, id) in events;
      ArrivedIsGot(events, id, i, PieceAt(file, i), "");
    }
    hide Pieces, Chunks, Got, Totals;
    DeliveredInAnyOrder(s, id, |file| % UINT32_VALUES, pieces, "", events);
    AckTotals(s, id, |file| % UINT32_VALUES, count, "");
    StepsTotals(Acknowledged(s, id, file), events, id, |file| % UINT32_VALUES, count);
  }

  // ----- Logs that could not be fetched -----

  /** Why there is no log, as the operator is to read it. */
  function Reason(fetched: Fetched): string
    requires !fetched.Local?
  {
    match fetched
    case NoListing(reason) => "could not list log entries: " + reason
    case UnknownLog(log) => "unknown log_id " + log
    case NotFetched(reason) => "download failed: " + reason
    case Unreadable(reason) => "could not read downloaded file: " + reason
  }

  /** The console once all of these messages have arrived, in order. */
  function Receive(s: State, id: Id, messages: seq<Message>): State
    decreases messages
  {
    if messages == [] then s else Receive(Step(s, Arrival(messages[0], id)), id, messages[1..])
  }

  lemma OnlyRefused(s: State, id: Id, fetched: Fetched, stop: Option<nat>, fault: Option<nat>)
    requires !fetched.Local?
    ensures Receive(s, id, Sent(fetched, stop, fault)) == AfterDownloadAck(s, id, false, 0, 0, Reason(fetched))
  {
    hide AfterDownloadAck;
    var sent := Sent(fetched, stop, fault);
    assert sent == [AckMessage(false, 0, 0, Reason(fetched))];
    var t := Step(s, Arrival(sent[0], id));
    assert t == AfterDownloadAck(s, id, false, 0, 0, Reason(fetched));
    hide Sent, Reason, Step;
    assert sent[1..] == [];
    assert Receive(s, id, sent) == Receive(t, id, []) == t;
  }

  /** If the gateway could not fetch the log, its answer ends the download as refused, with the reason,
      and nothing is saved for it then or later. */
  lemma RefusedDownload(s: State, id: Id, fetched: Fetched, stop: Option<nat>, fault: Option<nat>, later: seq<Event>)
    requires Inv(s) && id in s.downloads && s.downloads[id].phase == Pending
    requires !fetched.Local?
    ensures var t := Receive(s, id, Sent(fetched, stop, fault));
      && id in t.downloads && t.downloads[id].phase == Refused && t.downloads[id].note == Told(Reason(fetched))
      && t.saved == s.saved && Due(t.timers, id) == None
      && Saves(t.saved, id) == [] && Saves(Steps(t, later).saved, id) == []
  {
    var t := AfterDownloadAck(s, id, false, 0, 0, Reason(fetched));
    OnlyRefused(s, id, fetched, stop, fault);
    assert t == SettleDownload(s.(timers := Clear(s.timers, id)), id, Told(Reason(fetched))) by {
      hide Inv, Clear;
    }
    assert id < s.nextId && Saves(s.saved, id) == [] by {
      hide TimersOk, RequestsWatched, DownloadsWatched, RunsWatched, TablesOk, LingersOk;
    }
    DownloadAckKeeps(s, id, false, 0, 0, Reason(fetched));
    hide Receive, Sent, Reason;
    assert DownloadTimer(id, Refused) == None;
    assert Due(t.timers, id) == None by {
      hide TimersOk, RequestsWatched, RunsWatched, TablesOk, LingersOk, Due, Saves, Clear;
    }
    hide Inv, Clear, Due, Saves;
    ClosedForGood(t, later, id);
  }

  // ----- Transfers that are cut short -----

  /** The first chunk that is not sent. */
  function FirstCut(i: nat, count: nat, stop: Option<nat>, fault: Option<nat>): (j: nat)
    requires i <= count
    ensures i <= j <= count
    decreases count - i
  {
    if i == count || stop == Some(i) || fault == Some(i) then i else FirstCut(i + 1, count, stop, fault)
  }

  /** A shutdown leaves the chunks from there on unsent; a failed read does too, and says so. */
  lemma {:induction false} CutShort(file: Bytes, i: nat, count: nat, stop: Option<nat>, fault: Option<nat>)
    requires i <= count <= ChunksNeeded(|file|)
    ensures var j := FirstCut(i, count, stop, fault);
      && |Chunks(file, i, count, None, None)| == count - i
      && Chunks(file, i, count, stop, fault)
      == Chunks(file, i, count, None, None)[..j - i]
         + if j < count && stop != Some(j) then [ChunkMessage(false, 0, [], "reading downloaded file failed")] else []
    decreases count - i
  {
    hide PieceAt;
    if i < count {
      NeededExactly(|file|, i);
      CutShort(file, i + 1, count, stop, fault);
      var rest := Chunks(file, i + 1, count, None, None);
      var first := ChunkMessage(true, i, PieceAt(file, i), "");
      assert Chunks(file, i, count, None, None) == [first] + rest;
      var j := FirstCut(i, count, stop, fault);
      if j > i {
        assert Chunks(file, i, count, stop, fault) == [first] + Chunks(file, i + 1, count, stop, fault);
        hide Chunks;
        assert ([first] + rest)[..j - i] == [first] + rest[..j - i - 1];
      }
    }
  }

  /** A transfer the gateway gives up before its last chunk saves nothing, then or later. */
  lemma AbandonedSavesNothing(s: State, id: Id, total: nat, pieces: seq<Bytes>, text: string,
                              events: seq<Event>, reason: string, later: seq<Event>)
    requires Inv(s) && id in s.downloads && s.downloads[id].phase == Pending
    requires AllHarmless(AfterDownloadAck(s, id, true, total, |pieces|, text), events, id, pieces)
    requires !Everything(pieces, Got(events, id))
    ensures var t := Steps(AfterDownloadAck(s, id, true, total, |pieces|, text), events);
      var u := AfterChunk(t, id, false, 0, [], reason);
      && id in u.downloads && u.downloads[id].phase == Refused && u.downloads[id].note == Told(reason)
      && Saves(Steps(u, later).saved, id) == []
  {
    DeliveredInAnyOrder(s, id, total, pieces, text, events);
    var before := AfterDownloadAck(s, id, true, total, |pieces|, text);
    DownloadAckKeeps(s, id, true, total, |pieces|, text);
    StepsKeep(before, events);
    var t := Steps(before, events);
    var u := AfterChunk(t, id, false, 0, [], reason);
    hide Saves, Everything, AfterDownloadAck, Steps, AllHarmless;
    assert id < t.nextId by {
      hide TimersOk, RequestsWatched, DownloadsWatched, RunsWatched, TablesOk, SavedOk, LingersOk;
    }
    assert u == SettleDownload(t.(tables := t.tables - {id}), id, Told(reason)) by {
      hide Inv, Clear;
    }
    hide Inv, Clear, AfterChunk;
    ClosedForGood(u, later, id);
  }
}

/** Requests the console is waiting on: commands, ward configuration, parameter writes, log downloads
    and calibrations, with the timeouts that settle them when nothing answers. The functions say what
    each request, answer and timeout does; FleetStore is the class that does it. */
module Console {
  import opened Options

  type Id = int
  type Handle = int
  /** Log bytes are moved, never looked at. */
  type Bytes = seq<int>

  datatype Kind = Command | Config | ParamWrite

  datatype Status = Unspecified | Accepted | Executing | Success | Rejected | TimedOut

  /** Why a tracker reads as it does. */
  datatype Note = Blank | ReadOnly | NoChannel | NoAnswer | NoChunks | NoProgress | LinkLost | Told(text: string)

  datatype Request = Request(kind: Kind, ward: Id, status: Status, note: Note)

  datatype Phase = Pending | Downloading | Complete | Refused

  datatype Download = Download(ward: Id, log: Id, phase: Phase, note: Note, total: int, count: int, received: int)

  datatype RunStatus = Running | Succeeded | Failed | Cancelled | RunRefused

  datatype Run = Run(id: Id, status: RunStatus, note: Note)

  /** What a timeout does when it fires. */
  datatype Callback =
    | GiveUp(id: Id)
    | DownloadUnanswered(id: Id)
    | ChunksStopped(id: Id)
    | RunSilent(ward: Id, id: Id, status: RunStatus, note: Note)

  /** A settled tracker still being shown; it is deleted some time later. */
  datatype Linger = RequestLinger(id: Id) | DownloadLinger(id: Id) | RunLinger(ward: Id, id: Id)

  /** handles: the timeout remembered for each request. armed: the timeouts yet to fire. */
  datatype Timers = Timers(handles: map<Id, Handle>, armed: map<Handle, Callback>, next: Handle)

  type Table = seq<Option<Bytes>>

  datatype SavedFile = SavedFile(id: Id, bytes: Bytes)

  /** requests, downloads: by request. runs: by ward. saved: the files handed to the browser. */
  datatype State = State(
    requests: map<Id, Request>,
    downloads: map<Id, Download>,
    tables: map<Id, Table>,
    runs: map<Id, Run>,
    timers: Timers,
    lingers: set<Linger>,
    saved: seq<SavedFile>,
    nextId: Id)

  const START := State(map[], map[], map[], map[], Timers(map[], map[], 0), {}, [], 0)

  predicate Over(kind: Kind, status: Status) {
    match kind
    case Command => status == Success || status == Rejected || status == TimedOut
    case Config => status == Accepted || status == Rejected
    case ParamWrite => status == Success || status == Rejected
  }

  function GivenUp(kind: Kind): Status {
    if kind == Command then TimedOut else Rejected
  }

  predicate Ended(phase: Phase) {
    phase == Complete || phase == Refused
  }

  // ----- Timers -----

  function Clear(t: Timers, id: Id): Timers {
    if id in t.handles then t.(armed := t.armed - {t.handles[id]}, handles := t.handles - {id}) else t
  }

  function Arm(t: Timers, id: Id, callback: Callback): Timers {
    Timers(t.handles[id := t.next], t.armed[t.next := callback], t.next + 1)
  }

  function Fired(t: Timers, h: Handle): Timers {
    t.(armed := t.armed - {h})
  }

  // ----- Commands, configuration and parameter writes -----

  function Settle(s: State, kind: Kind, id: Id, status: Status, note: Note): State {
    if id !in s.requests || s.requests[id].kind != kind || Over(kind, s.requests[id].status) then s
    else
      var t := s.(requests := s.requests[id := s.requests[id].(status := status, note := note)]);
      if Over(kind, status) then t.(timers := Clear(t.timers, id), lingers := t.lingers + {RequestLinger(id)}) else t
  }

  function AfterAsk(s: State, kind: Kind, ward: Id, readOnly: bool, channel: bool): State {
    var id := s.nextId;
    var t := s.(nextId := id + 1);
    if readOnly && kind != Config then t.(requests := t.requests[id := Request(kind, ward, Rejected, ReadOnly)])
    else
      var u := t.(requests := t.requests[id := Request(kind, ward, Unspecified, Blank)]);
      if !channel then Settle(u, kind, id, Rejected, NoChannel)
      else u.(timers := Arm(u.timers, id, GiveUp(id)))
  }

  // ----- Log downloads -----

  function SettleDownload(s: State, id: Id, note: Note): State {
    if id !in s.downloads || Ended(s.downloads[id].phase) then s
    else
      s.(timers := Clear(s.timers, id),
         tables := s.tables - {id},
         downloads := s.downloads[id := s.downloads[id].(phase := Refused, note := note)],
         lingers := s.lingers + {DownloadLinger(id)})
  }

  function Completed(s: State, id: Id, bytes: Bytes): State {
    var t := s.(timers := Clear(s.timers, id));
    if id !in t.downloads then t
    else
      t.(downloads := t.downloads[id := t.downloads[id].(phase := Complete, note := Blank)],
         saved := t.saved + [SavedFile(id, bytes)],
         lingers := t.lingers + {DownloadLinger(id)})
  }

  function AwaitChunks(s: State, id: Id): State {
    s.(timers := Arm(Clear(s.timers, id), id, ChunksStopped(id)))
  }

  function AfterDownloadRequest(s: State, ward: Id, log: Id, readOnly: bool, channel: bool): State {
    var id := s.nextId;
    var t := s.(nextId := id + 1);
    if readOnly then t.(downloads := t.downloads[id := Download(ward, log, Refused, ReadOnly, 0, 0, 0)])
    else
      var u := t.(downloads := t.downloads[id := Download(ward, log, Pending, Blank, 0, 0, 0)]);
      if !channel then SettleDownload(u, id, NoChannel)
      else u.(timers := Arm(u.timers, id, DownloadUnanswered(id)))
  }

  function EmptyTable(count: nat): Table {
    seq(count, _ => None)
  }

  function AfterDownloadAck(s: State, id: Id, accepted: bool, total: nat, count: nat, text: string): State {
    if id !in s.downloads || s.downloads[id].phase != Pending then s
    else
      var t := s.(timers := Clear(s.timers, id));
      if !accepted then SettleDownload(t, id, Told(text))
      else if count == 0 then
        Completed(t.(downloads := t.downloads[id := t.downloads[id].(total := total, count := 0)]), id, [])
      else
        AwaitChunks(t.(downloads := t.downloads[id := t.downloads[id].(total := total, count := count, phase := Downloading)],
                       tables := t.tables[id := EmptyTable(count)]), id)
  }

  predicate Full(table: Table) {
    forall i :: 0 <= i < |table| ==> table[i].Some?
  }

  function PieceLength(piece: Option<Bytes>): nat {
    if piece.Some? then |piece.value| else 0
  }

  function PieceBytes(piece: Option<Bytes>): Bytes {
    if piece.Some? then piece.value else []
  }

  /** Bytes held by a table. */
  function Received(table: Table): nat {
    if table == [] then 0 else PieceLength(table[0]) + Received(table[1..])
  }

  /** The pieces of a table end to end. */
  function Joined(table: Table): Bytes {
    if table == [] then [] else PieceBytes(table[0]) + Joined(table[1..])
  }

  function AfterChunk(s: State, id: Id, good: bool, index: nat, data: Bytes, text: string): State {
    if id !in s.downloads || s.downloads[id].phase != Downloading then s
    else if !good then SettleDownload(s.(tables := s.tables - {id}), id, Told(text))
    else if id !in s.tables || index >= |s.tables[id]| || s.tables[id][index].Some? then s
    else
      var table := s.tables[id][index := Some(data)];
      var t := s.(tables := s.tables[id := table],
                  downloads := s.downloads[id := s.downloads[id].(received := s.downloads[id].received + |data|)]);
      if Full(table) then Completed(t.(tables := t.tables - {id}), id, Joined(table))
      else AwaitChunks(t, id)
  }

  // ----- Calibrations -----

  function SettleRun(s: State, ward: Id, id: Id, status: RunStatus, note: Note): State {
    if ward !in s.runs || s.runs[ward].id != id || s.runs[ward].status != Running then s
    else
      s.(timers := Clear(s.timers, id),
         runs := s.runs[ward := Run(id, status, note)],
         lingers := s.lingers + {RunLinger(ward, id)})
  }

  function AfterStartRun(s: State, ward: Id, readOnly: bool, channel: bool): State {
    var id := s.nextId;
    var t := s.(nextId := id + 1);
    if readOnly then t.(runs := t.runs[ward := Run(id, RunRefused, ReadOnly)])
    else
      var u := t.(runs := t.runs[ward := Run(id, Running, Blank)]);
      if !channel then SettleRun(u, ward, id, RunRefused, NoChannel)
      else u.(timers := Arm(u.timers, id, RunSilent(ward, id, RunRefused, NoAnswer)))
  }

  function AfterProgress(s: State, ward: Id, id: Id, status: RunStatus, text: string): State {
    if ward !in s.runs || s.runs[ward].id != id || s.runs[ward].status != Running then s
    else
      var t := s.(timers := Clear(s.timers, id), runs := s.runs[ward := Run(id, status, Told(text))]);
      if status == Running then t.(timers := Arm(t.timers, id, RunSilent(ward, id, Failed, NoProgress)))
      else t.(lingers := t.lingers + {RunLinger(ward, id)})
  }

  /** The operator leaves the dialog, whatever the run is doing. */
  function AfterLeaveRun(s: State, ward: Id): State {
    if ward !in s.runs then s
    else s.(timers := Clear(s.timers, s.runs[ward].id), runs := s.runs - {ward})
  }

  // ----- Timeouts and the link -----

  function CalledBack(s: State, callback: Callback): State {
    match callback
    case GiveUp(id) =>
      if id in s.requests then Settle(s, s.requests[id].kind, id, GivenUp(s.requests[id].kind), NoAnswer) else s
    case DownloadUnanswered(id) => SettleDownload(s, id, NoAnswer)
    case ChunksStopped(id) => SettleDownload(s.(tables := s.tables - {id}), id, NoChunks)
    case RunSilent(ward, id, status, note) => SettleRun(s, ward, id, status, note)
  }

  function AfterTimeout(s: State, h: Handle): State {
    if h in s.timers.armed then CalledBack(s.(timers := Fired(s.timers, h)), s.timers.armed[h]) else s
  }

  function AfterLinger(s: State, linger: Linger): State {
    if linger !in s.lingers then s
    else
      var t := s.(lingers := s.lingers - {linger});
      match linger
      case RequestLinger(id) => t.(requests := t.requests - {id})
      case DownloadLinger(id) => t.(downloads := t.downloads - {id})
      case RunLinger(ward, id) => if ward in t.runs && t.runs[ward].id == id then t.(runs := t.runs - {ward}) else t
  }

  /** The runs and downloads of these wards that a lost link ends. */
  function LostRuns(s: State, gateway: set<Id>): set<Id> {
    set w | w in s.runs && s.runs[w].status == Running && w in gateway
  }

  function LostDownloads(s: State, gateway: set<Id>): set<Id> {
    set id | id in s.downloads && !Ended(s.downloads[id].phase) && s.downloads[id].ward in gateway
  }

  function SettleRuns(s: State, wards: set<Id>): State
    requires wards <= s.runs.Keys
  {
    var ids := set w | w in wards :: s.runs[w].id;
    s.(timers := ClearAll(s.timers, ids),
       runs := map w | w in s.runs :: if w in wards then Run(s.runs[w].id, Failed, LinkLost) else s.runs[w],
       lingers := s.lingers + set w | w in wards :: RunLinger(w, s.runs[w].id))
  }

  function ClearAll(t: Timers, ids: set<Id>): Timers {
    var hit := set id | id in ids && id in t.handles :: t.handles[id];
    t.(armed := t.armed - hit, handles := t.handles - ids)
  }

  function SettleDownloads(s: State, ids: set<Id>): State
    requires ids <= s.downloads.Keys
  {
    s.(timers := ClearAll(s.timers, ids),
       tables := s.tables - ids,
       downloads := map id | id in s.downloads ::
         if id in ids then s.downloads[id].(phase := Refused, note := LinkLost) else s.downloads[id],
       lingers := s.lingers + set id | id in ids :: DownloadLinger(id))
  }

  function AfterLinkDown(s: State, gateway: set<Id>): State {
    var t := SettleRuns(s, LostRuns(s, gateway));
    SettleDownloads(t, LostDownloads(t, gateway))
  }

  lemma ClearAllPlus(t: Timers, ids: set<Id>, id: Id)
    ensures ClearAll(t, {}) == t
    ensures Clear(ClearAll(t, ids), id) == ClearAll(t, ids + {id})
  {
    var hit := set i | i in ids && i in t.handles :: t.handles[i];
    var more := set i | i in ids + {id} && i in t.handles :: t.handles[i];
    if id in t.handles {
      assert more == hit + {t.handles[id]};
      if id !in ids {
        assert t.armed - hit - {t.handles[id]} == t.armed - more;
      }
      assert t.handles - ids - {id} == t.handles - (ids + {id});
    } else {
      assert more == hit;
      assert t.handles - ids == t.handles - (ids + {id});
    }
  }

  lemma SettleNoRuns(s: State)
    ensures SettleRuns(s, {}) == s
  {
    ClearAllPlus(s.timers, {}, 0);
    assert SettleRuns(s, {}).runs == s.runs;
  }

  /** Ending the runs of many wards is ending them one after another. */
  lemma SettleRunsPlus(s: State, wards: set<Id>, w: Id)
    requires wards <= s.runs.Keys && w in s.runs && w !in wards && s.runs[w].status == Running
    ensures SettleRun(SettleRuns(s, wards), w, s.runs[w].id, Failed, LinkLost) == SettleRuns(s, wards + {w})
  {
    var ids := set v | v in wards :: s.runs[v].id;
    assert (set v | v in wards + {w} :: s.runs[v].id) == ids + {s.runs[w].id};
    ClearAllPlus(s.timers, ids, s.runs[w].id);
    hide Clear, ClearAll;
    assert SettleRun(SettleRuns(s, wards), w, s.runs[w].id, Failed, LinkLost).runs == SettleRuns(s, wards + {w}).runs;
    assert (set v | v in wards + {w} :: RunLinger(v, s.runs[v].id))
        == (set v | v in wards :: RunLinger(v, s.runs[v].id)) + {RunLinger(w, s.runs[w].id)};
  }

  lemma SettleNoDownloads(s: State)
    ensures SettleDownloads(s, {}) == s
  {
    ClearAllPlus(s.timers, {}, 0);
    assert SettleDownloads(s, {}).downloads == s.downloads;
  }

  /** Ending many downloads is ending them one after another. */
  lemma SettleDownloadsPlus(s: State, ids: set<Id>, id: Id)
    requires ids <= s.downloads.Keys && id in s.downloads && id !in ids && !Ended(s.downloads[id].phase)
    ensures SettleDownload(SettleDownloads(s, ids), id, LinkLost) == SettleDownloads(s, ids + {id})
  {
    ClearAllPlus(s.timers, ids, id);
    hide Clear, ClearAll;
    assert SettleDownload(SettleDownloads(s, ids), id, LinkLost).downloads == SettleDownloads(s, ids + {id}).downloads;
    assert s.tables - ids - {id} == s.tables - (ids + {id});
    assert (set i | i in ids + {id} :: DownloadLinger(i)) == (set i | i in ids :: DownloadLinger(i)) + {DownloadLinger(id)};
  }

  // ----- Runs of events -----

  datatype Event =
    | Ask(kind: Kind, ward: Id, readOnly: bool, channel: bool)
    | AskDownload(ward: Id, log: Id, readOnly: bool, channel: bool)
    | AskRun(ward: Id, readOnly: bool, channel: bool)
    | Ack(kind: Kind, id: Id, status: Status, text: string)
    | DownloadAck(id: Id, accepted: bool, total: nat, count: nat, text: string)
    | Chunk(id: Id, good: bool, index: nat, data: Bytes, text: string)
    | Progress(ward: Id, id: Id, outcome: RunStatus, text: string)
    | SendFailed(kind: Kind, id: Id, text: string)
    | DownloadSendFailed(id: Id, text: string)
    | RunSendFailed(ward: Id, id: Id, text: string)
    | LeaveRun(ward: Id)
    | Timeout(handle: Handle)
    | Lingered(linger: Linger)
    | LinkDown(gateway: set<Id>)

  function Step(s: State, e: Event): State {
    match e
    case Ask(kind, ward, readOnly, channel) => AfterAsk(s, kind, ward, readOnly, channel)
    case AskDownload(ward, log, readOnly, channel) => AfterDownloadRequest(s, ward, log, readOnly, channel)
    case AskRun(ward, readOnly, channel) => AfterStartRun(s, ward, readOnly, channel)
    case Ack(kind, id, status, text) => Settle(s, kind, id, status, Told(text))
    case DownloadAck(id, accepted, total, count, text) => AfterDownloadAck(s, id, accepted, total, count, text)
    case Chunk(id, good, index, data, text) => AfterChunk(s, id, good, index, data, text)
    case Progress(ward, id, status, text) => AfterProgress(s, ward, id, status, text)
    case SendFailed(kind, id, text) => Settle(s, kind, id, Rejected, Told(text))
    case DownloadSendFailed(id, text) => SettleDownload(s, id, Told(text))
    case RunSendFailed(ward, id, text) => SettleRun(s, ward, id, RunRefused, Told(text))
    case LeaveRun(ward) => AfterLeaveRun(s, ward)
    case Timeout(h) => AfterTimeout(s, h)
    case Lingered(linger) => AfterLinger(s, linger)
    case LinkDown(gateway) => AfterLinkDown(s, gateway)
  }

  function Steps(s: State, events: seq<Event>): State
    decreases events
  {
    if events == [] then s else Steps(Step(s, events[0]), events[1..])
  }

  // ----- The store -----

  lemma {:induction false} JoinedSlice(table: Table, k: nat)
    requires k < |table|
    ensures Joined(table[..k + 1]) == Joined(table[..k]) + PieceBytes(table[k])
    ensures Received(table[..k + 1]) == Received(table[..k]) + PieceLength(table[k])
  {
    if k == 0 {
      assert table[..1] == [table[0]];
      assert table[..1][1..] == [];
    } else {
      assert table[..k + 1][1..] == table[1..][..k];
      assert table[..k][1..] == table[1..][..k - 1];
      JoinedSlice(table[1..], k - 1);
    }
  }

  lemma {:induction false} JoinedPrefix(table: Table, k: nat)
    requires k <= |table|
    ensures |Joined(table[..k])| == Received(table[..k]) <= Received(table)
    ensures k == 0 ==> Joined(table[..k]) == []
  {
    if k == |table| {
      assert table[..k] == table;
      if k > 0 {
        JoinedPrefix(table[1..], k - 1);
        assert table[1..][..k - 1] == table[1..];
      }
    } else if k > 0 {
      assert table[..k][1..] == table[1..][..k - 1];
      JoinedPrefix(table[1..], k - 1);
    }
  }

  /** Uint8Array.set: every write has to land inside the target. */
  method CopyInto(bytes: array<int>, piece: Bytes, offset: nat)
    requires offset + |piece| <= bytes.Length
    modifies bytes
    ensures bytes[..offset] == old(bytes[..offset])
    ensures bytes[offset..offset + |piece|] == piece
  {
    forall j | 0 <= j < |piece| {
      bytes[offset + j] := piece[j];
    }
  }

  /** Copies the pieces one after another into a buffer of the size counted while they arrived. */
  method Reassemble(table: Table, size: nat) returns (bytes: array<int>)
    requires Full(table) && size == Received(table)
    ensures fresh(bytes)
    ensures bytes[..] == Joined(table)
  {
    hide Received, Joined;
    bytes := new int[size];
    var offset := 0;
    JoinedPrefix(table, 0);
    for k := 0 to |table|
      invariant 0 <= offset <= bytes.Length
      invariant offset == Received(table[..k])
      invariant bytes[..offset] == Joined(table[..k])
    {
      JoinedSlice(table, k);
      JoinedPrefix(table, k + 1);
      CopyInto(bytes, table[k].value, offset);
      var end := offset + |table[k].value|;
      assert bytes[..end] == bytes[..offset] + bytes[offset..end];
      offset := end;
    }
    assert table[..|table|] == table;
    assert bytes[..] == bytes[..offset];
  }

  class FleetStore {
    var requests: map<Id, Request>
    var downloads: map<Id, Download>
    var tables: map<Id, Table>
    var runs: map<Id, Run>
    var handles: map<Id, Handle>
    var armed: map<Handle, Callback>
    var nextHandle: Handle
    var lingers: set<Linger>
    var saved: seq<SavedFile>
    var nextId: Id

    function View(): State
      reads this
    {
      State(requests, downloads, tables, runs, TimerView(), lingers, saved, nextId)
    }

    function TimerView(): Timers
      reads this
    {
      Timers(handles, armed, nextHandle)
    }

    constructor ()
      ensures View() == START
    {
      requests, downloads, tables, runs := map[], map[], map[], map[];
      handles, armed, nextHandle, lingers, saved, nextId := map[], map[], 0, {}, [], 0;
    }

    method ClearTimer(id: Id)
      modifies this`handles, this`armed
      ensures TimerView() == Clear(old(TimerView()), id)
    {
      if id in handles {
        armed := armed - {handles[id]};
        handles := handles - {id};
      }
    }

    method SetTimer(id: Id, callback: Callback)
      modifies this`handles, this`armed, this`nextHandle
      ensures TimerView() == Arm(old(TimerView()), id, callback)
    {
      handles := handles[id := nextHandle];
      armed := armed[nextHandle := callback];
      nextHandle := nextHandle + 1;
    }

    method SettleRequest(kind: Kind, id: Id, status: Status, note: Note)
      modifies this
      ensures View() == Settle(old(View()), kind, id, status, note)
    {
      hide Over, Clear;
      if id !in requests || requests[id].kind != kind || Over(kind, requests[id].status) {
        return;
      }
      requests := requests[id := requests[id].(status := status, note := note)];
      if Over(kind, status) {
        ClearTimer(id);
        lingers := lingers + {RequestLinger(id)};
      }
    }

    method Send(kind: Kind, ward: Id, readOnly: bool, channel: bool) returns (id: Id)
      modifies this
      ensures id == old(nextId)
      ensures View() == AfterAsk(old(View()), kind, ward, readOnly, channel)
    {
      id := nextId;
      nextId := nextId + 1;
      if readOnly && kind != Config {
        requests := requests[id := Request(kind, ward, Rejected, ReadOnly)];
        return;
      }
      requests := requests[id := Request(kind, ward, Unspecified, Blank)];
      if !channel {
        SettleRequest(kind, id, Rejected, NoChannel);
        return;
      }
      SetTimer(id, GiveUp(id));
    }

    method SettleLogDownload(id: Id, note: Note)
      modifies this
      ensures View() == SettleDownload(old(View()), id, note)
    {
      if id !in downloads || Ended(downloads[id].phase) {
        return;
      }
      ClearTimer(id);
      tables := tables - {id};
      downloads := downloads[id := downloads[id].(phase := Refused, note := note)];
      lingers := lingers + {DownloadLinger(id)};
    }

    method CompleteLogDownload(id: Id, bytes: Bytes)
      modifies this
      ensures View() == Completed(old(View()), id, bytes)
    {
      ClearTimer(id);
      if id !in downloads {
        return;
      }
      downloads := downloads[id := downloads[id].(phase := Complete, note := Blank)];
      saved := saved + [SavedFile(id, bytes)];
      lingers := lingers + {DownloadLinger(id)};
    }

    method ArmStallTimer(id: Id)
      modifies this`handles, this`armed, this`nextHandle
      ensures TimerView() == Arm(Clear(old(TimerView()), id), id, ChunksStopped(id))
    {
      ClearTimer(id);
      SetTimer(id, ChunksStopped(id));
    }

    method RequestDownloadLogFile(ward: Id, log: Id, readOnly: bool, channel: bool) returns (id: Id)
      modifies this
      ensures id == old(nextId)
      ensures View() == AfterDownloadRequest(old(View()), ward, log, readOnly, channel)
    {
      id := nextId;
      nextId := nextId + 1;
      if readOnly {
        downloads := downloads[id := Download(ward, log, Refused, ReadOnly, 0, 0, 0)];
        return;
      }
      downloads := downloads[id := Download(ward, log, Pending, Blank, 0, 0, 0)];
      if !channel {
        SettleLogDownload(id, NoChannel);
        return;
      }
      SetTimer(id, DownloadUnanswered(id));
    }

    method ApplyDownloadLogFileAck(id: Id, accepted: bool, total: nat, count: nat, text: string)
      modifies this
      ensures View() == AfterDownloadAck(old(View()), id, accepted, total, count, text)
    {
      hide Clear, Arm;
      if id !in downloads || downloads[id].phase != Pending {
        return;
      }
      ClearTimer(id);
      if !accepted {
        SettleLogDownload(id, Told(text));
        return;
      }
      downloads := downloads[id := downloads[id].(total := total, count := count)];
      if count == 0 {
        CompleteLogDownload(id, []);
        return;
      }
      downloads := downloads[id := downloads[id].(phase := Downloading)];
      tables := tables[id := EmptyTable(count)];
      ArmStallTimer(id);
    }

    /** The counted bytes of a table under way are the bytes in it (kept by every event). */
    method ApplyLogFileChunk(id: Id, good: bool, index: nat, data: Bytes, text: string)
      requires id in downloads && id in tables ==> downloads[id].received == Received(tables[id])
      modifies this
      ensures View() == AfterChunk(old(View()), id, good, index, data, text)
    {
      hide Clear, Arm, Completed, SettleDownload;
      if id !in downloads || downloads[id].phase != Downloading {
        return;
      }
      if !good {
        tables := tables - {id};
        SettleLogDownload(id, Told(text));
        return;
      }
      if id !in tables || index >= |tables[id]| || tables[id][index] != None {
        return;
      }
      ReceivedUpdate(tables[id], index, data);
      tables := tables[id := tables[id][index := Some(data)]];
      downloads := downloads[id := downloads[id].(received := downloads[id].received + |data|)];
      if Full(tables[id]) {
        var bytes := Reassemble(tables[id], downloads[id].received);
        tables := tables - {id};
        CompleteLogDownload(id, bytes[..]);
        return;
      }
      ArmStallTimer(id);
    }

    method SettleCalibration(ward: Id, id: Id, status: RunStatus, note: Note)
      modifies this
      ensures View() == SettleRun(old(View()), ward, id, status, note)
    {
      hide Clear;
      if ward !in runs || runs[ward].id != id || runs[ward].status != Running {
        return;
      }
      ClearTimer(id);
      runs := runs[ward := Run(id, status, note)];
      lingers := lingers + {RunLinger(ward, id)};
    }

    method RequestStartCalibration(ward: Id, readOnly: bool, channel: bool)
      modifies this
      ensures View() == AfterStartRun(old(View()), ward, readOnly, channel)
    {
      var id := nextId;
      nextId := nextId + 1;
      if readOnly {
        runs := runs[ward := Run(id, RunRefused, ReadOnly)];
        return;
      }
      runs := runs[ward := Run(id, Running, Blank)];
      if !channel {
        SettleCalibration(ward, id, RunRefused, NoChannel);
        return;
      }
      SetTimer(id, RunSilent(ward, id, RunRefused, NoAnswer));
    }

    method ApplyCalibrationProgress(ward: Id, id: Id, status: RunStatus, text: string)
      modifies this
      ensures View() == AfterProgress(old(View()), ward, id, status, text)
    {
      if ward !in runs || runs[ward].id != id || runs[ward].status != Running {
        return;
      }
      ClearTimer(id);
      runs := runs[ward := Run(id, status, Told(text))];
      if status == Running {
        SetTimer(id, RunSilent(ward, id, Failed, NoProgress));
        return;
      }
      lingers := lingers + {RunLinger(ward, id)};
    }

    method ClearCalibrationRun(ward: Id)
      modifies this
      ensures View() == AfterLeaveRun(old(View()), ward)
    {
      if ward !in runs {
        return;
      }
      ClearTimer(runs[ward].id);
      runs := runs - {ward};
    }

    /** The browser runs a timeout's callback. */
    method FireTimeout(h: Handle)
      modifies this
      ensures View() == AfterTimeout(old(View()), h)
    {
      if h !in armed {
        return;
      }
      var callback := armed[h];
      armed := armed - {h};
      match callback {
        case GiveUp(id) =>
          if id in requests {
            SettleRequest(requests[id].kind, id, GivenUp(requests[id].kind), NoAnswer);
          }
        case DownloadUnanswered(id) => SettleLogDownload(id, NoAnswer);
        case ChunksStopped(id) =>
          tables := tables - {id};
          SettleLogDownload(id, NoChunks);
        case RunSilent(ward, id, status, note) => SettleCalibration(ward, id, status, note);
      }
    }

    method EndRuns(gateway: set<Id>, wards: seq<Id>)
      requires runs.Keys == set w | w in wards
      modifies this
      ensures View() == SettleRuns(old(View()), LostRuns(old(View()), gateway))
    {
      ghost var before := View();
      ghost var done: set<Id> := {};
      SettleNoRuns(before);
      for i := 0 to |wards|
        invariant done <= before.runs.Keys
        invariant done == set w | w in LostRuns(before, gateway) && w in wards[..i]
        invariant View() == SettleRuns(before, done)
      {
        var w := wards[i];
        if runs[w].status == Running && w in gateway {
          SettleRunsPlus(before, done, w);
          SettleCalibration(w, runs[w].id, Failed, LinkLost);
          done := done + {w};
        }
      }
      assert wards[..|wards|] == wards;
      assert done == LostRuns(before, gateway);
    }

    method EndDownloads(gateway: set<Id>, ids: seq<Id>)
      requires downloads.Keys == set id | id in ids
      modifies this
      ensures View() == SettleDownloads(old(View()), LostDownloads(old(View()), gateway))
    {
      ghost var before := View();
      ghost var done: set<Id> := {};
      SettleNoDownloads(before);
      for i := 0 to |ids|
        invariant done <= before.downloads.Keys
        invariant done == set id | id in LostDownloads(before, gateway) && id in ids[..i]
        invariant View() == SettleDownloads(before, done)
      {
        var id := ids[i];
        if !Ended(downloads[id].phase) && downloads[id].ward in gateway {
          SettleDownloadsPlus(before, done, id);
          SettleLogDownload(id, LinkLost);
          done := done + {id};
        }
      }
      assert ids[..|ids|] == ids;
      assert done == LostDownloads(before, gateway);
    }

    /** The link to the gateway is gone: nothing more will come for its wards. wards and ids list
        the runs and the downloads, in whatever order the store holds them. */
    method LoseLink(gateway: set<Id>, wards: seq<Id>, ids: seq<Id>)
      requires runs.Keys == set w | w in wards
      requires downloads.Keys == set id | id in ids
      modifies this
      ensures View() == AfterLinkDown(old(View()), gateway)
    {
      EndRuns(gateway, wards);
      EndDownloads(gateway, ids);
    }

    method FireLinger(linger: Linger)
      modifies this
      ensures View() == AfterLinger(old(View()), linger)
    {
      if linger !in lingers {
        return;
      }
      lingers := lingers - {linger};
      match linger {
        case RequestLinger(id) => requests := requests - {id};
        case DownloadLinger(id) => downloads := downloads - {id};
        case RunLinger(ward, id) =>
          if ward in runs && runs[ward].id == id {
            runs := runs - {ward};
          }
      }
    }
  }

  lemma {:induction false} ReceivedUpdate(table: Table, index: nat, data: Bytes)
    requires index < |table| && table[index] == None
    ensures Received(table[index := Some(data)]) == Received(table) + |data|
  {
    var updated := table[index := Some(data)];
    if index == 0 {
      assert updated[1..] == table[1..];
    } else {
      assert updated[1..] == table[1..][index - 1 := Some(data)];
      ReceivedUpdate(table[1..], index - 1, data);
    }
  }
}

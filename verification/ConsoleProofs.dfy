/** What every interleaving of requests, answers, timeouts and lost links keeps. */
module ConsoleProofs {
  import opened Options
  import opened Collections
  import opened Console

  // ----- Timers -----

  function Owner(callback: Callback): Id {
    match callback
    case GiveUp(id) => id
    case DownloadUnanswered(id) => id
    case ChunksStopped(id) => id
    case RunSilent(_, id, _, _) => id
  }

  /** The timeout that is still going to fire for a request. */
  function Due(t: Timers, id: Id): Option<Callback> {
    if id in t.handles && t.handles[id] in t.armed then Some(t.armed[t.handles[id]]) else None
  }

  /** No timeout is out of reach of the request it belongs to. */
  ghost predicate TimersOk(t: Timers) {
    && (forall h :: h in t.armed ==> h < t.next && Owner(t.armed[h]) in t.handles && t.handles[Owner(t.armed[h])] == h)
    && (forall id :: id in t.handles ==> t.handles[id] < t.next)
    && (forall id :: id in t.handles && t.handles[id] in t.armed ==> Owner(t.armed[t.handles[id]]) == id)
  }

  lemma ClearDue(t: Timers, id: Id)
    requires TimersOk(t)
    ensures TimersOk(Clear(t, id))
    ensures forall i :: Due(Clear(t, id), i) == if i == id then None else Due(t, i)
    ensures forall i :: i in Clear(t, id).handles ==> i in t.handles
  {
  }

  lemma ArmDue(t: Timers, id: Id, callback: Callback)
    requires TimersOk(t) && Owner(callback) == id && Due(t, id) == None
    ensures TimersOk(Arm(t, id, callback))
    ensures forall i :: Due(Arm(t, id, callback), i) == if i == id then Some(callback) else Due(t, i)
    ensures forall i :: i in Arm(t, id, callback).handles <==> i == id || i in t.handles
  {
  }

  lemma FiredDue(t: Timers, h: Handle)
    requires TimersOk(t) && h in t.armed
    ensures TimersOk(Fired(t, h))
    ensures Due(t, Owner(t.armed[h])) == Some(t.armed[h])
    ensures forall i :: Due(Fired(t, h), i) == if i == Owner(t.armed[h]) then None else Due(t, i)
  {
  }

  // ----- Saved files -----

  function Saves(saved: seq<SavedFile>, id: Id): seq<Bytes> {
    if saved == [] then []
    else (if saved[0].id == id then [saved[0].bytes] else []) + Saves(saved[1..], id)
  }

  lemma {:induction false} SavesPlus(saved: seq<SavedFile>, file: SavedFile, id: Id)
    ensures Saves(saved + [file], id) == Saves(saved, id) + if file.id == id then [file.bytes] else []
  {
    if saved == [] {
      assert saved + [file] == [file];
    } else {
      assert (saved + [file])[1..] == saved[1..] + [file];
      SavesPlus(saved[1..], file, id);
    }
  }

  // ----- The invariant -----

  ghost predicate RequestsWatched(requests: map<Id, Request>, t: Timers) {
    forall id :: id in requests ==>
      Due(t, id) == if Over(requests[id].kind, requests[id].status) then None else Some(GiveUp(id))
  }

  function DownloadTimer(id: Id, phase: Phase): Option<Callback> {
    match phase
    case Pending => Some(DownloadUnanswered(id))
    case Downloading => Some(ChunksStopped(id))
    case _ => None
  }

  ghost predicate DownloadsWatched(downloads: map<Id, Download>, t: Timers) {
    forall id :: id in downloads ==> Due(t, id) == DownloadTimer(id, downloads[id].phase)
  }

  /** A run that has not been heard of is refused by its timeout, one that has been fails. */
  predicate RunTimer(ward: Id, run: Run, due: Option<Callback>) {
    due == if run.status != Running then None
           else if run.note == Blank then Some(RunSilent(ward, run.id, RunRefused, NoAnswer))
           else Some(RunSilent(ward, run.id, Failed, NoProgress))
  }

  ghost predicate RunsWatched(runs: map<Id, Run>, t: Timers) {
    forall w :: w in runs ==> RunTimer(w, runs[w], Due(t, runs[w].id))
  }

  /** Every request has its own id. */
  ghost predicate IdsOk(s: State) {
    && (forall id :: id in s.requests ==> id < s.nextId && id !in s.downloads)
    && (forall id :: id in s.downloads ==> id < s.nextId)
    && (forall w :: w in s.runs ==> s.runs[w].id < s.nextId && s.runs[w].id !in s.requests && s.runs[w].id !in s.downloads)
    && (forall v, w :: v in s.runs && w in s.runs && v != w ==> s.runs[v].id != s.runs[w].id)
    && (forall id :: id in s.timers.handles ==> id < s.nextId)
  }

  ghost predicate TableOk(table: Table, d: Download) {
    && d.count == |table|
    && d.received == Received(table)
    && !Full(table)
  }

  ghost predicate TablesOk(tables: map<Id, Table>, downloads: map<Id, Download>) {
    && (forall id :: id in tables ==> id in downloads && downloads[id].phase == Downloading && TableOk(tables[id], downloads[id]))
    && (forall id :: id in downloads && downloads[id].phase == Downloading ==> id in tables)
    && (forall id :: id in downloads && downloads[id].phase == Pending ==> downloads[id].received == 0)
  }

  ghost predicate SavedOk(saved: seq<SavedFile>, downloads: map<Id, Download>, nextId: Id) {
    && (forall id :: |Saves(saved, id)| <= if id < nextId then 1 else 0)
    && (forall id :: id in downloads ==> (downloads[id].phase == Complete <==> Saves(saved, id) != []))
  }

  /** A settled tracker is on its way out, unless it was refused for being read-only; an open one is not. */
  ghost predicate RequestLingersOk(requests: map<Id, Request>, lingers: set<Linger>, nextId: Id) {
    && (forall id :: RequestLinger(id) in lingers ==>
          id < nextId && (id in requests ==> Over(requests[id].kind, requests[id].status)))
    && (forall id :: id in requests && Over(requests[id].kind, requests[id].status) && requests[id].note != ReadOnly ==>
          RequestLinger(id) in lingers)
  }

  ghost predicate DownloadLingersOk(downloads: map<Id, Download>, lingers: set<Linger>, nextId: Id) {
    && (forall id :: DownloadLinger(id) in lingers ==> id < nextId && (id in downloads ==> Ended(downloads[id].phase)))
    && (forall id :: id in downloads && Ended(downloads[id].phase) && downloads[id].note != ReadOnly ==>
          DownloadLinger(id) in lingers)
  }

  ghost predicate RunLingersOk(runs: map<Id, Run>, lingers: set<Linger>, nextId: Id) {
    && (forall w, id :: RunLinger(w, id) in lingers ==>
          id < nextId && (w in runs && runs[w].id == id ==> runs[w].status != Running))
    && (forall w :: w in runs && runs[w].status != Running && runs[w].note != ReadOnly ==>
          RunLinger(w, runs[w].id) in lingers)
  }

  ghost predicate LingersOk(s: State) {
    && RequestLingersOk(s.requests, s.lingers, s.nextId)
    && DownloadLingersOk(s.downloads, s.lingers, s.nextId)
    && RunLingersOk(s.runs, s.lingers, s.nextId)
  }

  ghost predicate Inv(s: State) {
    && TimersOk(s.timers)
    && IdsOk(s)
    && RequestsWatched(s.requests, s.timers)
    && DownloadsWatched(s.downloads, s.timers)
    && RunsWatched(s.runs, s.timers)
    && TablesOk(s.tables, s.downloads)
    && SavedOk(s.saved, s.downloads, s.nextId)
    && LingersOk(s)
  }

  /** Timers t became u, and only what is due for id changed. */
  ghost predicate OnlyDue(t: Timers, u: Timers, id: Id, due: Option<Callback>) {
    && TimersOk(u)
    && (forall i :: Due(u, i) == if i == id then due else Due(t, i))
    && (forall i :: i in u.handles ==> i == id || i in t.handles)
  }

  lemma Cleared(t: Timers, id: Id)
    requires TimersOk(t)
    ensures OnlyDue(t, Clear(t, id), id, None)
    ensures OnlyDue(t, Clear(Clear(t, id), id), id, None)
  {
    ClearDue(t, id);
    ClearDue(Clear(t, id), id);
    hide Clear, Due, TimersOk;
  }

  lemma Rearmed(t: Timers, id: Id, callback: Callback)
    requires TimersOk(t) && Owner(callback) == id
    ensures OnlyDue(t, Arm(Clear(t, id), id, callback), id, Some(callback))
    ensures OnlyDue(t, Arm(Clear(Clear(t, id), id), id, callback), id, Some(callback))
    ensures Due(t, id) == None ==> OnlyDue(t, Arm(t, id, callback), id, Some(callback))
  {
    ClearDue(t, id);
    ClearDue(Clear(t, id), id);
    ArmDue(Clear(t, id), id, callback);
    ArmDue(Clear(Clear(t, id), id), id, callback);
    if Due(t, id) == None {
      ArmDue(t, id, callback);
    }
    hide Clear, Arm, Due, TimersOk;
  }

  lemma TimersFact(s: State)
    requires Inv(s)
    ensures TimersOk(s.timers)
  {
  }

  lemma OpenRequestDue(s: State, id: Id)
    requires Inv(s) && id in s.requests && !Over(s.requests[id].kind, s.requests[id].status)
    ensures OnlyDue(s.timers, s.timers, id, Some(GiveUp(id)))
  {
    hide TimersOk, Due, Over, DownloadsWatched, RunsWatched, TablesOk, SavedOk, LingersOk;
  }

  lemma FreshDue(s: State)
    requires Inv(s)
    ensures TimersOk(s.timers)
    ensures s.nextId !in s.downloads && s.nextId !in s.tables
    ensures Due(s.timers, s.nextId) == None && s.nextId !in s.timers.handles
    ensures Clear(s.timers, s.nextId) == s.timers
  {
    hide TimersOk, RequestsWatched, DownloadsWatched, RunsWatched, TableOk, SavedOk, LingersOk;
  }

  // ----- Commands, configuration and parameter writes -----

  function RequestTimer(id: Id, r: Request): Option<Callback> {
    if Over(r.kind, r.status) then None else Some(GiveUp(id))
  }

  lemma PutRequestLingers(s: State, id: Id, r: Request, t: State)
    requires LingersOk(s)
    requires (id in s.requests && !Over(s.requests[id].kind, s.requests[id].status) && id < t.nextId == s.nextId)
          || (id == s.nextId && t.nextId == id + 1)
    requires t.lingers == s.lingers + if Over(r.kind, r.status) && r.note != ReadOnly then {RequestLinger(id)} else {}
    requires t.requests == s.requests[id := r] && t.downloads == s.downloads && t.runs == s.runs
    ensures LingersOk(t)
  {
    hide Over;
  }

  lemma PutRequest(s: State, id: Id, r: Request, t: State)
    requires Inv(s)
    requires (id in s.requests && !Over(s.requests[id].kind, s.requests[id].status) && t.nextId == s.nextId)
          || (id == s.nextId && t.nextId == id + 1)
    requires t.lingers == s.lingers + if Over(r.kind, r.status) && r.note != ReadOnly then {RequestLinger(id)} else {}
    requires t == s.(requests := s.requests[id := r], timers := t.timers, lingers := t.lingers, nextId := t.nextId)
    requires OnlyDue(s.timers, t.timers, id, RequestTimer(id, r))
    ensures Inv(t)
  {
    hide TimersOk, Due, Over, TablesOk, Saves, LingersOk;
    assert LingersOk(t) by { PutRequestLingers(s, id, r, t); }
  }

  lemma SettleKeeps(s: State, kind: Kind, id: Id, status: Status, note: Note)
    requires Inv(s) && note != ReadOnly
    ensures Inv(Settle(s, kind, id, status, note))
  {
    hide Inv, Clear, OnlyDue, Due, Over, TimersOk;
    TimersFact(s);
    Cleared(s.timers, id);
    var t := Settle(s, kind, id, status, note);
    if id in s.requests && s.requests[id].kind == kind && !Over(kind, s.requests[id].status) {
      OpenRequestDue(s, id);
      PutRequest(s, id, s.requests[id].(status := status, note := note), t);
    }
  }

  /** What the tracker of a new request says. */
  function Asked(kind: Kind, ward: Id, readOnly: bool, channel: bool): Request {
    if readOnly && kind != Config then Request(kind, ward, Rejected, ReadOnly)
    else if channel then Request(kind, ward, Unspecified, Blank)
    else Request(kind, ward, Rejected, NoChannel)
  }

  lemma AskEffect(s: State, kind: Kind, ward: Id, readOnly: bool, channel: bool)
    requires Clear(s.timers, s.nextId) == s.timers
    ensures var (id, r, t) := (s.nextId, Asked(kind, ward, readOnly, channel), AfterAsk(s, kind, ward, readOnly, channel));
      && t == s.(requests := s.requests[id := r], timers := t.timers, lingers := t.lingers, nextId := id + 1)
      && t.lingers == s.lingers + (if Over(r.kind, r.status) && r.note != ReadOnly then {RequestLinger(id)} else {})
      && t.timers == if Over(r.kind, r.status) then s.timers else Arm(s.timers, id, GiveUp(id))
  {
    assert Over(kind, Rejected) && !Over(kind, Unspecified);
    hide Over, Clear, Arm;
    var (id, r, t) := (s.nextId, Asked(kind, ward, readOnly, channel), AfterAsk(s, kind, ward, readOnly, channel));
    assert t.requests == s.requests[id := r];
  }

  lemma AskKeeps(s: State, kind: Kind, ward: Id, readOnly: bool, channel: bool)
    requires Inv(s)
    ensures Inv(AfterAsk(s, kind, ward, readOnly, channel))
  {
    hide Inv, OnlyDue, Clear, Arm, Over, Due, TimersOk, AfterAsk;
    var id := s.nextId;
    FreshDue(s);
    Cleared(s.timers, id);
    Rearmed(s.timers, id, GiveUp(id));
    AskEffect(s, kind, ward, readOnly, channel);
    PutRequest(s, id, Asked(kind, ward, readOnly, channel), AfterAsk(s, kind, ward, readOnly, channel));
  }

  // ----- Log downloads -----

  lemma PutTables(s: State, id: Id, d: Download, tables: map<Id, Table>)
    requires TablesOk(s.tables, s.downloads)
    requires tables - {id} == s.tables - {id}
    requires if d.phase == Downloading then id in tables && TableOk(tables[id], d) else id !in tables
    requires d.phase == Pending ==> d.received == 0
    ensures TablesOk(tables, s.downloads[id := d])
  {
    forall i | i != id ensures (i in tables <==> i in s.tables) && (i in s.tables ==> tables[i] == s.tables[i]) {
      assert i in tables <==> i in tables - {id};
      assert i in s.tables <==> i in s.tables - {id};
      if i in s.tables {
        assert tables[i] == (tables - {id})[i] == (s.tables - {id})[i];
      }
    }
    hide TableOk;
  }

  lemma PutSaved(s: State, id: Id, d: Download, saved: seq<SavedFile>, nextId: Id, bytes: Bytes)
    requires SavedOk(s.saved, s.downloads, s.nextId)
    requires (id in s.downloads && !Ended(s.downloads[id].phase) && id < s.nextId == nextId) || (id == s.nextId && nextId == id + 1)
    requires saved == s.saved + if d.phase == Complete then [SavedFile(id, bytes)] else []
    ensures SavedOk(saved, s.downloads[id := d], nextId)
  {
    forall i ensures Saves(saved, i) == Saves(s.saved, i) + if i == id && d.phase == Complete then [bytes] else [] {
      SavesPlus(s.saved, SavedFile(id, bytes), i);
      assert d.phase != Complete ==> saved == s.saved;
    }
    assert Saves(s.saved, id) == [];
    hide Saves;
  }

  lemma PutDownloadLingers(s: State, id: Id, d: Download, t: State)
    requires LingersOk(s)
    requires (id in s.downloads && !Ended(s.downloads[id].phase) && id < t.nextId == s.nextId) || (id == s.nextId && t.nextId == id + 1)
    requires t.lingers == s.lingers + if Ended(d.phase) && d.note != ReadOnly then {DownloadLinger(id)} else {}
    requires t.downloads == s.downloads[id := d] && t.requests == s.requests && t.runs == s.runs
    ensures LingersOk(t)
  {
    hide Over;
  }

  lemma PutDownload(s: State, id: Id, d: Download, t: State, bytes: Bytes)
    requires Inv(s)
    requires (id in s.downloads && !Ended(s.downloads[id].phase) && t.nextId == s.nextId) || (id == s.nextId && t.nextId == id + 1)
    requires t == s.(downloads := s.downloads[id := d], tables := t.tables, timers := t.timers, lingers := t.lingers,
                     saved := t.saved, nextId := t.nextId)
    requires OnlyDue(s.timers, t.timers, id, DownloadTimer(id, d.phase))
    requires t.lingers == s.lingers + if Ended(d.phase) && d.note != ReadOnly then {DownloadLinger(id)} else {}
    requires t.tables - {id} == s.tables - {id}
    requires if d.phase == Downloading then id in t.tables && TableOk(t.tables[id], d) else id !in t.tables
    requires d.phase == Pending ==> d.received == 0
    requires t.saved == s.saved + if d.phase == Complete then [SavedFile(id, bytes)] else []
    ensures Inv(t)
  {
    hide TimersOk, Due, TableOk, TablesOk, SavedOk, LingersOk, Over;
    assert LingersOk(t) by { PutDownloadLingers(s, id, d, t); }
    PutTables(s, id, d, t.tables);
    PutSaved(s, id, d, t.saved, t.nextId, bytes);
  }

  lemma SettleDownloadKeeps(s: State, id: Id, note: Note)
    requires Inv(s) && note != ReadOnly
    ensures Inv(SettleDownload(s, id, note))
    ensures Inv(SettleDownload(s.(tables := s.tables - {id}), id, note)) || (id in s.downloads ==> Ended(s.downloads[id].phase))
  {
    Cleared(s.timers, id);
    var t := SettleDownload(s, id, note);
    if t != s {
      var d := t.downloads[id];
      assert SettleDownload(s.(tables := s.tables - {id}), id, note).tables == t.tables;
      hide OnlyDue, Inv, Clear;
      PutDownload(s, id, d, t, []);
    }
  }

  lemma DownloadRequestKeeps(s: State, ward: Id, log: Id, readOnly: bool, channel: bool)
    requires Inv(s)
    ensures Inv(AfterDownloadRequest(s, ward, log, readOnly, channel))
  {
    var id := s.nextId;
    var t := AfterDownloadRequest(s, ward, log, readOnly, channel);
    hide Inv, OnlyDue, Clear, Arm, Due, TimersOk;
    FreshDue(s);
    Cleared(s.timers, id);
    Rearmed(s.timers, id, DownloadUnanswered(id));
    assert s.tables - {id} == s.tables;
    PutDownload(s, id, t.downloads[id], t, []);
  }

  lemma {:induction false} EmptyTableHoldsNothing(count: nat)
    ensures |EmptyTable(count)| == count && Received(EmptyTable(count)) == 0
    ensures count > 0 ==> !Full(EmptyTable(count))
  {
    if count > 0 {
      assert EmptyTable(count)[1..] == EmptyTable(count - 1);
      EmptyTableHoldsNothing(count - 1);
      assert EmptyTable(count)[0].None?;
    }
  }

  lemma DownloadFacts(s: State, id: Id)
    requires Inv(s) && id in s.downloads
    ensures TimersOk(s.timers)
    ensures id in s.tables <==> s.downloads[id].phase == Downloading
    ensures id in s.tables ==> TableOk(s.tables[id], s.downloads[id])
    ensures s.downloads[id].phase == Pending ==> s.downloads[id].received == 0
  {
    hide TimersOk, TableOk, IdsOk, RequestsWatched, DownloadsWatched, RunsWatched, SavedOk, LingersOk;
  }

  lemma CompletedKeeps(s: State, id: Id, bytes: Bytes, t: State)
    requires Inv(s)
    requires id in s.downloads && !Ended(s.downloads[id].phase)
    requires id in t.downloads && t.downloads == s.downloads[id := t.downloads[id]]
    requires t == s.(downloads := t.downloads, tables := s.tables - {id}, timers := t.timers)
    requires t.timers == s.timers || t.timers == Clear(s.timers, id)
    ensures Inv(Completed(t, id, bytes))
  {
    DownloadFacts(s, id);
    Cleared(s.timers, id);
    hide Inv, Clear, OnlyDue, TimersOk;
    var u := Completed(t, id, bytes);
    PutDownload(s, id, u.downloads[id], u, bytes);
  }

  lemma AwaitKeeps(s: State, id: Id, d: Download, table: Table, t: State)
    requires Inv(s)
    requires id in s.downloads && !Ended(s.downloads[id].phase)
    requires d.phase == Downloading && TableOk(table, d)
    requires t == s.(downloads := s.downloads[id := d], tables := s.tables[id := table], timers := t.timers)
    requires t.timers == s.timers || t.timers == Clear(s.timers, id)
    ensures Inv(AwaitChunks(t, id))
  {
    hide Inv, Clear, OnlyDue, TimersOk, TableOk, Arm, Due;
    DownloadFacts(s, id);
    Rearmed(s.timers, id, ChunksStopped(id));
    var u := AwaitChunks(t, id);
    PutDownload(s, id, d, u, []);
  }

  lemma DownloadAckKeeps(s: State, id: Id, accepted: bool, total: nat, count: nat, text: string)
    requires Inv(s)
    ensures Inv(AfterDownloadAck(s, id, accepted, total, count, text))
  {
    if id in s.downloads && s.downloads[id].phase == Pending {
      DownloadFacts(s, id);
      EmptyTableHoldsNothing(count);
      Cleared(s.timers, id);
      var t := s.(timers := Clear(s.timers, id));
      hide Inv, Clear, OnlyDue, TimersOk, EmptyTable, Received, Full, Completed, AwaitChunks;
      if !accepted {
        var u := SettleDownload(t, id, Told(text));
        PutDownload(s, id, u.downloads[id], u, []);
      } else if count == 0 {
        var d := t.downloads[id].(total := total, count := 0);
        assert s.tables - {id} == s.tables;
        CompletedKeeps(s, id, [], t.(downloads := t.downloads[id := d]));
      } else {
        var d := t.downloads[id].(total := total, count := count, phase := Downloading);
        AwaitKeeps(s, id, d, EmptyTable(count), t.(downloads := t.downloads[id := d], tables := t.tables[id := EmptyTable(count)]));
      }
    }
  }

  lemma ChunkKeeps(s: State, id: Id, good: bool, index: nat, data: Bytes, text: string)
    requires Inv(s)
    ensures Inv(AfterChunk(s, id, good, index, data, text))
  {
    hide Inv, Clear, Received, Full, Joined, Completed, AwaitChunks;
    if id !in s.downloads || s.downloads[id].phase != Downloading {
    } else if !good {
      SettleDownloadKeeps(s, id, Told(text));
    } else if id !in s.tables || index >= |s.tables[id]| || s.tables[id][index].Some? {
    } else {
      DownloadFacts(s, id);
      ReceivedUpdate(s.tables[id], index, data);
      var table := s.tables[id][index := Some(data)];
      var d := s.downloads[id].(received := s.downloads[id].received + |data|);
      var t := s.(tables := s.tables[id := table], downloads := s.downloads[id := d]);
      if Full(table) {
        assert s.tables[id := table] - {id} == s.tables - {id};
        CompletedKeeps(s, id, Joined(table), t.(tables := t.tables - {id}));
      } else {
        AwaitKeeps(s, id, d, table, t);
      }
    }
  }

  // ----- Calibrations -----

  lemma PutRunLingers(s: State, w: Id, run: Run, t: State)
    requires LingersOk(s)
    requires (w in s.runs && s.runs[w].id == run.id && s.runs[w].status == Running && run.id < t.nextId == s.nextId)
          || (run.id == s.nextId && t.nextId == run.id + 1)
    requires t.lingers == s.lingers + if run.status != Running && run.note != ReadOnly then {RunLinger(w, run.id)} else {}
    requires t.runs == s.runs[w := run] && t.requests == s.requests && t.downloads == s.downloads
    ensures LingersOk(t)
  {
    hide Over;
  }

  lemma PutRun(s: State, w: Id, run: Run, t: State)
    requires Inv(s)
    requires (w in s.runs && s.runs[w].id == run.id && s.runs[w].status == Running && t.nextId == s.nextId)
          || (run.id == s.nextId && t.nextId == run.id + 1)
    requires t.lingers == s.lingers + if run.status != Running && run.note != ReadOnly then {RunLinger(w, run.id)} else {}
    requires t == s.(runs := s.runs[w := run], timers := t.timers, lingers := t.lingers, nextId := t.nextId)
    requires TimersOk(t.timers)
    requires forall i :: i != run.id ==> Due(t.timers, i) == Due(s.timers, i)
    requires RunTimer(w, run, Due(t.timers, run.id))
    requires forall i :: i in t.timers.handles ==> i == run.id || i in s.timers.handles
    ensures Inv(t)
  {
    hide TimersOk, Due, TablesOk, Saves, RunTimer, Over, LingersOk;
    assert LingersOk(t) by { PutRunLingers(s, w, run, t); }
  }

  lemma RunFacts(s: State, w: Id)
    requires Inv(s)
    ensures TimersOk(s.timers)
    ensures w in s.runs ==> RunTimer(w, s.runs[w], Due(s.timers, s.runs[w].id))
  {
    hide TimersOk, IdsOk, RequestsWatched, DownloadsWatched, TablesOk, SavedOk, RunTimer, Due;
  }

  lemma SettleRunKeeps(s: State, w: Id, id: Id, status: RunStatus, note: Note)
    requires Inv(s) && status != Running && note != ReadOnly
    ensures Inv(SettleRun(s, w, id, status, note))
  {
    RunFacts(s, w);
    Cleared(s.timers, id);
    var t := SettleRun(s, w, id, status, note);
    hide Inv, Clear, TimersOk, Due;
    if t != s {
      PutRun(s, w, Run(id, status, note), t);
    }
  }

  lemma StartRunKeeps(s: State, w: Id, readOnly: bool, channel: bool)
    requires Inv(s)
    ensures Inv(AfterStartRun(s, w, readOnly, channel))
  {
    var id := s.nextId;
    hide Inv, Clear, TimersOk, Due, Arm;
    FreshDue(s);
    RunFacts(s, w);
    Rearmed(s.timers, id, RunSilent(w, id, RunRefused, NoAnswer));
    var t := AfterStartRun(s, w, readOnly, channel);
    assert t.runs == s.runs[w := t.runs[w]];
    PutRun(s, w, t.runs[w], t);
  }

  lemma ProgressKeeps(s: State, w: Id, id: Id, status: RunStatus, text: string)
    requires Inv(s)
    ensures Inv(AfterProgress(s, w, id, status, text))
  {
    RunFacts(s, w);
    Cleared(s.timers, id);
    Rearmed(s.timers, id, RunSilent(w, id, Failed, NoProgress));
    hide Inv, Clear, TimersOk, Due, Arm;
    var t := AfterProgress(s, w, id, status, text);
    if w in s.runs && s.runs[w].id == id && s.runs[w].status == Running {
      PutRun(s, w, Run(id, status, Told(text)), t);
    }
  }

  /** Trackers may go, and timers of requests that have none may change. */
  lemma Dropped(s: State, t: State)
    requires Inv(s)
    requires forall id :: id in t.requests ==> id in s.requests && t.requests[id] == s.requests[id]
    requires forall id :: id in t.downloads ==> id in s.downloads && t.downloads[id] == s.downloads[id]
    requires forall w :: w in t.runs ==> w in s.runs && t.runs[w] == s.runs[w]
    requires forall id :: id in s.downloads && !Ended(s.downloads[id].phase) ==> id in t.downloads
    requires t == s.(requests := t.requests, downloads := t.downloads, runs := t.runs, timers := t.timers, lingers := t.lingers)
    requires LingersOk(t)
    requires TimersOk(t.timers)
    requires forall id :: id in t.timers.handles ==> id in s.timers.handles
    requires forall id :: id in t.requests || id in t.downloads ==> Due(t.timers, id) == Due(s.timers, id)
    requires forall w :: w in t.runs ==> Due(t.timers, t.runs[w].id) == Due(s.timers, t.runs[w].id)
    ensures Inv(t)
  {
    hide TimersOk, Due, Over, TableOk, RunTimer, Saves;
  }

  lemma LeaveRunKeeps(s: State, w: Id)
    requires Inv(s)
    ensures Inv(AfterLeaveRun(s, w))
  {
    if w in s.runs {
      var id := s.runs[w].id;
      RunFacts(s, w);
      Cleared(s.timers, id);
      var t := AfterLeaveRun(s, w);
      assert LingersOk(s);
      assert id !in s.requests && id !in s.downloads && forall v :: v in s.runs && v != w ==> s.runs[v].id != id by {
        hide TimersOk, RequestsWatched, DownloadsWatched, RunsWatched, TablesOk, SavedOk, LingersOk;
      }
      hide Inv, Clear, TimersOk, Due, Over;
      Dropped(s, t);
    }
  }

  lemma LingerKeeps(s: State, linger: Linger)
    requires Inv(s)
    ensures Inv(AfterLinger(s, linger))
  {
    if linger in s.lingers {
      var t := AfterLinger(s, linger);
      assert LingersOk(s) && TimersOk(s.timers);
      assert LingersOk(t) by { LingersLess(s, linger); }
      hide Inv, Over, TimersOk, Due, LingersOk;
      assert forall id :: id in s.downloads && !Ended(s.downloads[id].phase) ==> id in t.downloads by {
        assert DownloadLingersOk(s.downloads, s.lingers, s.nextId);
      }
      Dropped(s, t);
    }
  }

  lemma LingersLess(s: State, linger: Linger)
    requires LingersOk(s)
    ensures LingersOk(AfterLinger(s, linger))
  {
    hide Over;
  }

  // ----- Timeouts and the link -----

  lemma ClearFired(t: Timers, h: Handle)
    requires TimersOk(t) && h in t.armed
    ensures OnlyDue(t, Fired(t, h), Owner(t.armed[h]), None)
    ensures OnlyDue(t, Clear(Fired(t, h), Owner(t.armed[h])), Owner(t.armed[h]), None)
    ensures Due(t, Owner(t.armed[h])) == Some(t.armed[h]) && Owner(t.armed[h]) in t.handles
  {
    FiredDue(t, h);
    ClearDue(Fired(t, h), Owner(t.armed[h]));
    hide Clear, Fired, Due, TimersOk;
  }

  /** A due timeout belongs to the open tracker of its request, if that is still there. */
  lemma DueFacts(s: State, id: Id, callback: Callback)
    requires Inv(s) && Due(s.timers, id) == Some(callback)
    ensures id in s.requests ==> callback == GiveUp(id) && !Over(s.requests[id].kind, s.requests[id].status)
    ensures id in s.downloads ==> Some(callback) == DownloadTimer(id, s.downloads[id].phase)
    ensures id in s.tables ==> id in s.downloads
    ensures forall w :: w in s.runs && s.runs[w].id == id ==> s.runs[w].status == Running && RunTimer(w, s.runs[w], Some(callback))
    ensures LingersOk(s) && TimersOk(s.timers)
  {
    hide TimersOk, Due, Over, TableOk, SavedOk, LingersOk;
  }

  lemma OrphanKeeps(s: State, t: State, id: Id)
    requires Inv(s)
    requires t == s.(timers := t.timers) && OnlyDue(s.timers, t.timers, id, None) && id in s.timers.handles
    requires id !in s.requests && id !in s.downloads && forall w :: w in s.runs ==> s.runs[w].id != id
    ensures Inv(t)
  {
    assert LingersOk(s);
    hide Inv, TimersOk, Due, Over;
    Dropped(s, t);
  }

  lemma GiveUpKeeps(s: State, h: Handle)
    requires Inv(s) && h in s.timers.armed && s.timers.armed[h].GiveUp?
    ensures Inv(AfterTimeout(s, h))
  {
    var id := s.timers.armed[h].id;
    assert TimersOk(s.timers);
    hide Inv, TimersOk, Due, OnlyDue, Clear, LingersOk;
    ClearFired(s.timers, h);
    DueFacts(s, id, s.timers.armed[h]);
    var t := AfterTimeout(s, h);
    if id in s.requests {
      var kind := s.requests[id].kind;
      assert Over(kind, GivenUp(kind));
      PutRequest(s, id, s.requests[id].(status := GivenUp(kind), note := NoAnswer), t);
    } else {
      OrphanKeeps(s, t, id);
    }
  }

  lemma DownloadTimeoutKeeps(s: State, h: Handle)
    requires Inv(s) && h in s.timers.armed && (s.timers.armed[h].DownloadUnanswered? || s.timers.armed[h].ChunksStopped?)
    ensures Inv(AfterTimeout(s, h))
  {
    var id := s.timers.armed[h].id;
    assert TimersOk(s.timers);
    hide Inv, TimersOk, Due, OnlyDue, Clear, LingersOk;
    ClearFired(s.timers, h);
    DueFacts(s, id, s.timers.armed[h]);
    var t := AfterTimeout(s, h);
    if id in s.downloads {
      PutDownload(s, id, t.downloads[id], t, []);
    } else {
      assert s.tables - {id} == s.tables;
      OrphanKeeps(s, t, id);
    }
  }

  lemma RunTimeoutKeeps(s: State, h: Handle)
    requires Inv(s) && h in s.timers.armed && s.timers.armed[h].RunSilent?
    ensures Inv(AfterTimeout(s, h))
  {
    var callback := s.timers.armed[h];
    var (w, id) := (callback.ward, callback.id);
    assert TimersOk(s.timers);
    hide Inv, TimersOk, Due, Clear, LingersOk;
    ClearFired(s.timers, h);
    DueFacts(s, id, callback);
    var t := AfterTimeout(s, h);
    if w in s.runs && s.runs[w].id == id {
      PutRun(s, w, Run(id, callback.status, callback.note), t);
    } else {
      OrphanKeeps(s, t, id);
    }
  }

  lemma TimeoutKeeps(s: State, h: Handle)
    requires Inv(s)
    ensures Inv(AfterTimeout(s, h))
  {
    hide Inv;
    if h in s.timers.armed {
      match s.timers.armed[h]
      case GiveUp(_) => GiveUpKeeps(s, h);
      case DownloadUnanswered(_) => DownloadTimeoutKeeps(s, h);
      case ChunksStopped(_) => DownloadTimeoutKeeps(s, h);
      case RunSilent(_, _, _, _) => RunTimeoutKeeps(s, h);
    } else {
      assert AfterTimeout(s, h) == s;
    }
  }

  lemma {:induction false} SettleRunsKeeps(s: State, wards: set<Id>)
    requires Inv(s) && wards <= s.runs.Keys
    requires forall w :: w in wards ==> s.runs[w].status == Running
    ensures Inv(SettleRuns(s, wards))
  {
    hide Inv, SettleRun;
    if wards == {} {
      SettleNoRuns(s);
    } else {
      var w := Member(wards);
      var rest := wards - {w};
      SettleRunsKeeps(s, rest);
      SettleRunsPlus(s, rest, w);
      assert rest + {w} == wards;
      hide SettleRuns;
      SettleRunKeeps(SettleRuns(s, rest), w, s.runs[w].id, Failed, LinkLost);
    }
  }

  lemma {:induction false} SettleDownloadsKeeps(s: State, ids: set<Id>)
    requires Inv(s) && ids <= s.downloads.Keys
    requires forall id :: id in ids ==> !Ended(s.downloads[id].phase)
    ensures Inv(SettleDownloads(s, ids))
  {
    hide Inv, SettleDownload;
    if ids == {} {
      SettleNoDownloads(s);
    } else {
      var id := Member(ids);
      var rest := ids - {id};
      SettleDownloadsKeeps(s, rest);
      SettleDownloadsPlus(s, rest, id);
      assert rest + {id} == ids;
      hide SettleDownloads;
      SettleDownloadKeeps(SettleDownloads(s, rest), id, LinkLost);
    }
  }

  lemma LinkDownKeeps(s: State, gateway: set<Id>)
    requires Inv(s)
    ensures Inv(AfterLinkDown(s, gateway))
  {
    hide Inv, SettleRuns, SettleDownloads;
    var t := SettleRuns(s, LostRuns(s, gateway));
    SettleRunsKeeps(s, LostRuns(s, gateway));
    SettleDownloadsKeeps(t, LostDownloads(t, gateway));
  }

  // ----- Every run -----

  lemma StepKeeps(s: State, e: Event)
    requires Inv(s)
    ensures Inv(Step(s, e))
  {
    hide Inv, Settle, SettleDownload, SettleRun, AfterAsk, AfterDownloadRequest, AfterStartRun, AfterDownloadAck,
      AfterChunk, AfterProgress, AfterLeaveRun, AfterTimeout, AfterLinger, AfterLinkDown;
    match e
    case Ask(kind, ward, readOnly, channel) => AskKeeps(s, kind, ward, readOnly, channel);
    case AskDownload(ward, log, readOnly, channel) => DownloadRequestKeeps(s, ward, log, readOnly, channel);
    case AskRun(ward, readOnly, channel) => StartRunKeeps(s, ward, readOnly, channel);
    case Ack(kind, id, status, text) => SettleKeeps(s, kind, id, status, Told(text));
    case DownloadAck(id, accepted, total, count, text) => DownloadAckKeeps(s, id, accepted, total, count, text);
    case Chunk(id, good, index, data, text) => ChunkKeeps(s, id, good, index, data, text);
    case Progress(ward, id, status, text) => ProgressKeeps(s, ward, id, status, text);
    case SendFailed(kind, id, text) => SettleKeeps(s, kind, id, Rejected, Told(text));
    case DownloadSendFailed(id, text) => SettleDownloadKeeps(s, id, Told(text));
    case RunSendFailed(ward, id, text) => SettleRunKeeps(s, ward, id, RunRefused, Told(text));
    case LeaveRun(ward) => LeaveRunKeeps(s, ward);
    case Timeout(h) => TimeoutKeeps(s, h);
    case Lingered(linger) => LingerKeeps(s, linger);
    case LinkDown(gateway) => LinkDownKeeps(s, gateway);
  }

  lemma {:induction false} StepsKeep(s: State, events: seq<Event>)
    requires Inv(s)
    ensures Inv(Steps(s, events))
    decreases events
  {
    hide Inv, Step;
    if events != [] {
      StepKeeps(s, events[0]);
      StepsKeep(Step(s, events[0]), events[1..]);
    }
  }

  /** Whatever is asked, answered, timed out or cut off, in whatever order: every open tracker has its
      own timeout running, a settled one has none and is on its way out, a chunk table exists exactly
      for the downloads under way and holds the bytes counted, and a file is saved at most once. */
  lemma EveryRun(events: seq<Event>)
    ensures Inv(Steps(START, events))
  {
    assert Inv(START);
    hide Inv, Step;
    StepsKeep(START, events);
  }
}

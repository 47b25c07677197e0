/** How requests end: always, only once, and never because of another request. */
module ConsoleOutcomes {
  import opened Options
  import opened Console
  import opened ConsoleProofs

  // ----- What each kind of request leaves alone -----

  lemma RequestsOnly(s: State, e: Event)
    requires e.Ask? || e.Ack? || e.SendFailed?
    ensures var t := Step(s, e); t.downloads == s.downloads && t.tables == s.tables && t.runs == s.runs && t.saved == s.saved
  {
    hide Over, Clear, Arm;
    if e.Ask? {
      var (id, u) := (s.nextId, s.(nextId := s.nextId + 1));
      hide Settle;
      SettleOnly(u.(requests := u.requests[id := Request(e.kind, e.ward, Unspecified, Blank)]), e.kind, id, Rejected, NoChannel);
    } else {
      hide AfterAsk, Settle;
      SettleOnly(s, e.kind, e.id, if e.Ack? then e.status else Rejected, Told(e.text));
    }
  }

  lemma SettleOnly(s: State, kind: Kind, id: Id, status: Status, note: Note)
    ensures var t := Settle(s, kind, id, status, note);
      t.downloads == s.downloads && t.tables == s.tables && t.runs == s.runs && t.saved == s.saved
  {
    hide Over, Clear;
  }

  lemma DownloadsOnly(s: State, e: Event)
    requires e.AskDownload? || e.DownloadSendFailed? || e.DownloadAck? || e.Chunk?
    ensures var t := Step(s, e); t.requests == s.requests && t.runs == s.runs
  {
    if e.Chunk? {
      ChunkOnly(s, e.id, e.good, e.index, e.data, e.text);
      hide AfterChunk;
    } else if e.DownloadAck? {
      DownloadAckOnly(s, e.id, e.accepted, e.total, e.count, e.text);
      hide AfterDownloadAck;
    } else {
      hide Clear, Arm, AfterChunk, AfterDownloadAck;
    }
  }

  lemma ChunkOnly(s: State, id: Id, good: bool, index: nat, data: Bytes, text: string)
    ensures var t := AfterChunk(s, id, good, index, data, text); t.requests == s.requests && t.runs == s.runs
  {
    hide Clear, Arm, Received, Joined, Full;
  }

  lemma DownloadAckOnly(s: State, id: Id, accepted: bool, total: nat, count: nat, text: string)
    ensures var t := AfterDownloadAck(s, id, accepted, total, count, text); t.requests == s.requests && t.runs == s.runs
  {
    hide Clear, Arm, EmptyTable;
  }

  lemma RunsOnly(s: State, e: Event)
    requires e.AskRun? || e.Progress? || e.RunSendFailed? || e.LeaveRun?
    ensures var t := Step(s, e);
      t.requests == s.requests && t.downloads == s.downloads && t.tables == s.tables && t.saved == s.saved
  {
    hide Clear, Arm;
    if e.AskRun? {
      hide AfterProgress, AfterLeaveRun;
    } else {
      hide AfterStartRun;
    }
  }

  // ----- Settled for good -----

  ghost predicate RequestsStay(s: State, t: State) {
    forall id :: id in t.requests && id < s.nextId ==>
      && id in s.requests
      && (Over(s.requests[id].kind, s.requests[id].status) ==> t.requests[id] == s.requests[id])
  }

  ghost predicate DownloadsStay(s: State, t: State) {
    forall id :: id in t.downloads && id < s.nextId ==>
      && id in s.downloads
      && (Ended(s.downloads[id].phase) ==> t.downloads[id] == s.downloads[id])
  }

  ghost predicate RunsStay(s: State, t: State) {
    forall w :: w in t.runs && t.runs[w].id < s.nextId ==>
      && w in s.runs
      && s.runs[w].id == t.runs[w].id
      && (s.runs[w].status != Running ==> t.runs[w] == s.runs[w])
  }

  /** No request made before s comes back in t, and those settled in s read the same in t. */
  ghost predicate Stays(s: State, t: State) {
    && s.nextId <= t.nextId
    && RequestsStay(s, t)
    && DownloadsStay(s, t)
    && RunsStay(s, t)
  }

  lemma AskStays(s: State, kind: Kind, ward: Id, readOnly: bool, channel: bool)
    ensures Stays(s, AfterAsk(s, kind, ward, readOnly, channel))
  {
    hide Over, Clear, Arm;
  }

  lemma SettleStays(s: State, kind: Kind, id: Id, status: Status, note: Note)
    ensures Stays(s, Settle(s, kind, id, status, note))
  {
    hide Over, Clear;
  }

  lemma AskDownloadStays(s: State, ward: Id, log: Id, readOnly: bool, channel: bool)
    ensures Stays(s, AfterDownloadRequest(s, ward, log, readOnly, channel))
  {
    hide Over, Clear, Arm;
  }

  lemma SettleDownloadStays(s: State, id: Id, note: Note)
    ensures Stays(s, SettleDownload(s, id, note))
  {
    hide Over, Clear;
  }

  lemma DownloadAckStays(s: State, id: Id, accepted: bool, total: nat, count: nat, text: string)
    ensures Stays(s, AfterDownloadAck(s, id, accepted, total, count, text))
  {
    hide Over, Clear, Arm, EmptyTable;
  }

  lemma ChunkStays(s: State, id: Id, good: bool, index: nat, data: Bytes, text: string)
    ensures Stays(s, AfterChunk(s, id, good, index, data, text))
  {
    hide Over, Clear, Arm, Received, Joined, Full;
  }

  lemma AskRunStays(s: State, ward: Id, readOnly: bool, channel: bool)
    ensures Stays(s, AfterStartRun(s, ward, readOnly, channel))
  {
    hide Over, Clear, Arm;
  }

  lemma ProgressStays(s: State, ward: Id, id: Id, status: RunStatus, text: string)
    ensures Stays(s, AfterProgress(s, ward, id, status, text))
  {
    hide Over, Clear, Arm;
  }

  lemma SettleRunStays(s: State, ward: Id, id: Id, status: RunStatus, note: Note)
    ensures Stays(s, SettleRun(s, ward, id, status, note))
  {
    hide Over, Clear;
  }

  lemma LeaveRunStays(s: State, ward: Id)
    ensures Stays(s, AfterLeaveRun(s, ward))
  {
    hide Over, Clear;
  }

  lemma TimeoutStays(s: State, h: Handle)
    ensures Stays(s, AfterTimeout(s, h))
  {
    hide Settle, SettleDownload, SettleRun, Over, Fired;
    if h in s.timers.armed {
      var t := s.(timers := Fired(s.timers, h));
      match s.timers.armed[h]
      case GiveUp(id) =>
        if id in s.requests {
          SettleStays(t, s.requests[id].kind, id, GivenUp(s.requests[id].kind), NoAnswer);
        }
      case DownloadUnanswered(id) => SettleDownloadStays(t, id, NoAnswer);
      case ChunksStopped(id) => SettleDownloadStays(t.(tables := t.tables - {id}), id, NoChunks);
      case RunSilent(ward, id, status, note) => SettleRunStays(t, ward, id, status, note);
    }
  }

  lemma LingerStays(s: State, linger: Linger)
    ensures Stays(s, AfterLinger(s, linger))
  {
    hide Over;
  }

  lemma LinkDownStays(s: State, gateway: set<Id>)
    ensures Stays(s, AfterLinkDown(s, gateway))
  {
    hide Over, ClearAll;
  }

  lemma StepStays(s: State, e: Event)
    ensures Stays(s, Step(s, e))
  {
    hide Stays, AfterAsk, AfterDownloadRequest, AfterStartRun, Settle, AfterDownloadAck, AfterChunk, AfterProgress,
      SettleDownload, SettleRun, AfterLeaveRun, AfterTimeout, AfterLinger, AfterLinkDown;
    match e
    case Ask(kind, ward, readOnly, channel) => AskStays(s, kind, ward, readOnly, channel);
    case AskDownload(ward, log, readOnly, channel) => AskDownloadStays(s, ward, log, readOnly, channel);
    case AskRun(ward, readOnly, channel) => AskRunStays(s, ward, readOnly, channel);
    case Ack(kind, id, status, text) => SettleStays(s, kind, id, status, Told(text));
    case DownloadAck(id, accepted, total, count, text) => DownloadAckStays(s, id, accepted, total, count, text);
    case Chunk(id, good, index, data, text) => ChunkStays(s, id, good, index, data, text);
    case Progress(ward, id, status, text) => ProgressStays(s, ward, id, status, text);
    case SendFailed(kind, id, text) => SettleStays(s, kind, id, Rejected, Told(text));
    case DownloadSendFailed(id, text) => SettleDownloadStays(s, id, Told(text));
    case RunSendFailed(ward, id, text) => SettleRunStays(s, ward, id, RunRefused, Told(text));
    case LeaveRun(ward) => LeaveRunStays(s, ward);
    case Timeout(h) => TimeoutStays(s, h);
    case Lingered(linger) => LingerStays(s, linger);
    case LinkDown(gateway) => LinkDownStays(s, gateway);
  }

  lemma StaysThrough(s: State, t: State, u: State)
    requires Stays(s, t) && Stays(t, u)
    ensures Stays(s, u)
  {
    hide Over;
  }

  /** Over any run, a settled command, download or calibration reads the same until it is deleted,
      and nothing deleted or replaced comes back. */
  lemma {:induction false} SettledForGood(s: State, events: seq<Event>)
    ensures Stays(s, Steps(s, events))
    decreases events
  {
    if events != [] {
      hide Step, Stays;
      StepStays(s, events[0]);
      SettledForGood(Step(s, events[0]), events[1..]);
      StaysThrough(s, Step(s, events[0]), Steps(s, events));
    }
  }

  // ----- Nothing waits for ever -----

  /** The timeout of an open tracker is running, and would settle it: a command as timed out, anything else
      as refused, but a calibration that was making progress as failed; and say what was missing. */
  lemma TimeoutSettles(s: State)
    requires Inv(s)
    ensures forall id :: id in s.requests && !Over(s.requests[id].kind, s.requests[id].status) ==>
      && id in s.timers.handles && s.timers.handles[id] in s.timers.armed
      && var t := AfterTimeout(s, s.timers.handles[id]);
         var r := s.requests[id];
         id in t.requests && t.requests[id] == Request(r.kind, r.ward, if r.kind == Command then TimedOut else Rejected, NoAnswer)
         && Over(r.kind, t.requests[id].status)
    ensures forall id :: id in s.downloads && !Ended(s.downloads[id].phase) ==>
      && id in s.timers.handles && s.timers.handles[id] in s.timers.armed
      && var t := AfterTimeout(s, s.timers.handles[id]);
         id in t.downloads && t.downloads[id].phase == Refused && t.saved == s.saved
         && t.downloads[id].note == if s.downloads[id].phase == Pending then NoAnswer else NoChunks
    ensures forall w :: w in s.runs && s.runs[w].status == Running ==>
      && s.runs[w].id in s.timers.handles && s.timers.handles[s.runs[w].id] in s.timers.armed
      && var t := AfterTimeout(s, s.timers.handles[s.runs[w].id]);
         w in t.runs
         && t.runs[w] == if s.runs[w].note == Blank then Run(s.runs[w].id, RunRefused, NoAnswer) else Run(s.runs[w].id, Failed, NoProgress)
  {
    hide Clear, TimersOk, IdsOk, TablesOk, SavedOk, LingersOk;
  }

  lemma LinkDownExactly(s: State, gateway: set<Id>)
    ensures var t := AfterLinkDown(s, gateway);
      && t.requests == s.requests && t.saved == s.saved
      && t.downloads.Keys == s.downloads.Keys && t.runs.Keys == s.runs.Keys
      && (forall id :: id in t.downloads && t.downloads[id].ward in gateway ==> Ended(t.downloads[id].phase))
      && (forall id :: id in t.downloads && t.downloads[id] != s.downloads[id] ==>
            !Ended(s.downloads[id].phase) && t.downloads[id] == s.downloads[id].(phase := Refused, note := LinkLost))
      && (forall id :: id in t.downloads && t.downloads[id].ward !in gateway ==> t.downloads[id] == s.downloads[id])
      && (forall w :: w in t.runs && w in gateway ==> t.runs[w].status != Running)
      && (forall w :: w in t.runs && t.runs[w] != s.runs[w] ==>
            s.runs[w].status == Running && t.runs[w] == Run(s.runs[w].id, Failed, LinkLost))
      && (forall w :: w in t.runs && w !in gateway ==> t.runs[w] == s.runs[w])
  {
    hide ClearAll;
  }

  /** After the link is lost no download is open and no calibration running on a ward of the gateway, and
      those of other wards are as before. Commands, ward configuration and parameter writes are not
      settled by it, on any ward: the open ones stay open, each with its timeout still to come. */
  lemma LinkDownSettles(s: State, gateway: set<Id>)
    requires Inv(s)
    ensures var t := AfterLinkDown(s, gateway);
      && t.saved == s.saved
      && t.downloads.Keys == s.downloads.Keys && t.runs.Keys == s.runs.Keys
      && (forall id :: id in t.downloads && t.downloads[id].ward in gateway ==> Ended(t.downloads[id].phase))
      && (forall id :: id in t.downloads && t.downloads[id] != s.downloads[id] ==>
            !Ended(s.downloads[id].phase) && t.downloads[id] == s.downloads[id].(phase := Refused, note := LinkLost))
      && (forall id :: id in t.downloads && t.downloads[id].ward !in gateway ==> t.downloads[id] == s.downloads[id])
      && (forall w :: w in t.runs && w in gateway ==> t.runs[w].status != Running)
      && (forall w :: w in t.runs && t.runs[w] != s.runs[w] ==>
            s.runs[w].status == Running && t.runs[w] == Run(s.runs[w].id, Failed, LinkLost))
      && (forall w :: w in t.runs && w !in gateway ==> t.runs[w] == s.runs[w])
      && t.requests == s.requests
      && (forall id :: id in t.requests && !Over(t.requests[id].kind, t.requests[id].status) ==> Due(t.timers, id) == Some(GiveUp(id)))
  {
    var t := AfterLinkDown(s, gateway);
    LinkDownExactly(s, gateway);
    LinkDownKeeps(s, gateway);
    hide AfterLinkDown, Over, Due, TimersOk, IdsOk, DownloadsWatched, RunsWatched, TablesOk, SavedOk, LingersOk;
  }

  /** Not about the calibration `id` of this ward, nor a new one for it. */
  predicate Unrelated(s: State, e: Event, ward: Id, id: Id) {
    match e
    case AskRun(w, _, _) => w != ward
    case Progress(w, i, _, _) => !(w == ward && i == id)
    case RunSendFailed(w, i, _) => !(w == ward && i == id)
    case LeaveRun(w) => w != ward
    case Timeout(h) =>
      h in s.timers.armed && s.timers.armed[h].RunSilent? ==> !(s.timers.armed[h].ward == ward && s.timers.armed[h].id == id)
    case Lingered(linger) => linger != RunLinger(ward, id)
    case LinkDown(gateway) => ward !in gateway
    case _ => true
  }

  lemma TimeoutLeavesRun(s: State, h: Handle, ward: Id)
    requires ward in s.runs && Unrelated(s, Timeout(h), ward, s.runs[ward].id)
    ensures ward in AfterTimeout(s, h).runs && AfterTimeout(s, h).runs[ward] == s.runs[ward]
  {
    hide Over, Clear, Fired;
  }

  lemma UnrelatedRun(s: State, e: Event, ward: Id)
    requires ward in s.runs && Unrelated(s, e, ward, s.runs[ward].id)
    ensures ward in Step(s, e).runs && Step(s, e).runs[ward] == s.runs[ward]
  {
    hide Over, Clear, ClearAll, Arm;
    if e.Timeout? {
      TimeoutLeavesRun(s, e.handle, ward);
      hide AfterTimeout;
    } else if e.AskRun? || e.Progress? || e.RunSendFailed? || e.LeaveRun? || e.Lingered? || e.LinkDown? {
      hide Settle, SettleDownload;
    } else {
      if e.Ask? || e.Ack? || e.SendFailed? {
        RequestsOnly(s, e);
      } else {
        DownloadsOnly(s, e);
      }
      hide Step, Unrelated;
    }
  }

  /** Progress, send failures, timeouts and clean-ups of an earlier calibration of the same ward do
      nothing to the one that replaced it: neither its state nor its timeout. */
  lemma NewerRunUntouched(s: State, e: Event, ward: Id)
    requires Inv(s) && ward in s.runs && Unrelated(s, e, ward, s.runs[ward].id)
    ensures ward in Step(s, e).runs && Step(s, e).runs[ward] == s.runs[ward]
    ensures s.runs[ward].status == Running ==> RunTimer(ward, s.runs[ward], Due(Step(s, e).timers, s.runs[ward].id))
  {
    hide Step, Inv, Unrelated;
    UnrelatedRun(s, e, ward);
    StepKeeps(s, e);
    RunFacts(Step(s, e), ward);
  }
}

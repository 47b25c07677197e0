/** What the operator is shown of each request, and that an answer to one changes nothing else. */
module ConsoleAnswers {
  import opened Options
  import opened Console
  import opened ConsoleProofs

  /** The statuses that end a request: ward configuration has no success to wait for. */
  predicate Final(kind: Kind, status: Status) {
    match kind
    case Command => status in {Success, Rejected, TimedOut}
    case Config => status in {Accepted, Rejected}
    case ParamWrite => status in {Success, Rejected}
  }

  /** The timeout of this request is now this one, or none, and those of all others are as before. */
  ghost predicate DueIs(s: State, t: State, id: Id, callback: Option<Callback>) {
    forall i :: Due(t.timers, i) == if i == id then callback else Due(s.timers, i)
  }

  lemma TimersSound(s: State)
    requires Inv(s)
    ensures TimersOk(s.timers)
  {
    hide TimersOk, IdsOk, RequestsWatched, DownloadsWatched, RunsWatched, TablesOk, SavedOk, LingersOk;
  }

  lemma ClearedDue(s: State, t: State, id: Id)
    requires TimersOk(s.timers) && t.timers == Clear(s.timers, id)
    ensures DueIs(s, t, id, None)
  {
    ClearDue(s.timers, id);
    hide Due, TimersOk, Clear;
  }

  lemma RearmedDue(s: State, t: State, id: Id, callback: Callback)
    requires TimersOk(s.timers) && Owner(callback) == id
    requires t.timers == Arm(Clear(s.timers, id), id, callback) || t.timers == Arm(Clear(Clear(s.timers, id), id), id, callback)
    ensures DueIs(s, t, id, Some(callback))
  {
    Rearmed(s.timers, id, callback);
    hide Due, TimersOk, Clear, Arm;
  }

  lemma FreshlyDue(s: State, t: State, callback: Callback)
    requires Inv(s) && Owner(callback) == s.nextId && (t.timers == s.timers || t.timers == Arm(s.timers, s.nextId, callback))
    ensures DueIs(s, t, s.nextId, if t.timers == s.timers then None else Some(callback))
    ensures Clear(s.timers, s.nextId) == s.timers
  {
    FreshDue(s);
    if t.timers != s.timers {
      ArmDue(s.timers, s.nextId, callback);
    }
    hide Inv, Due, TimersOk, Clear, Arm;
  }

  lemma Unarmed(t: Timers, id: Id, callback: Callback)
    ensures Arm(t, id, callback) != t
  {
    assert Arm(t, id, callback).next != t.next;
  }

  // ----- Commands, configuration and parameter writes -----

  /** A new request is open with a timeout, unless the session may only read or there is no channel: then
      it is refused at once and says so. Configuration may be asked for in any session. */
  lemma AskShown(s: State, kind: Kind, ward: Id, readOnly: bool, channel: bool)
    requires Inv(s)
    ensures var (id, t) := (s.nextId, AfterAsk(s, kind, ward, readOnly, channel));
      var refused := (readOnly && kind != Config) || !channel;
      && t == s.(nextId := id + 1, timers := t.timers, lingers := t.lingers, requests := s.requests[id :=
           if !refused then Request(kind, ward, Unspecified, Blank)
           else Request(kind, ward, Rejected, if readOnly && kind != Config then ReadOnly else NoChannel)])
      && DueIs(s, t, id, if refused then None else Some(GiveUp(id)))
  {
    var t := AfterAsk(s, kind, ward, readOnly, channel);
    FreshDue(s);
    AskEffect(s, kind, ward, readOnly, channel);
    FreshlyDue(s, t, GiveUp(s.nextId));
    Unarmed(s.timers, s.nextId, GiveUp(s.nextId));
    assert Over(kind, Rejected) && !Over(kind, Unspecified);
    hide Inv, Due, TimersOk, Arm, Clear, AfterAsk, Over, DueIs;
  }

  /** An answer shows on the open request it is about, and its timeout goes when it is final; an answer to
      one that is settled, unknown or of another kind changes nothing. */
  lemma AnswerShown(s: State, kind: Kind, id: Id, status: Status, note: Note)
    requires Inv(s)
    ensures var t := Settle(s, kind, id, status, note);
      if id in s.requests && s.requests[id].kind == kind && !Final(kind, s.requests[id].status) then
        && t == s.(timers := t.timers, lingers := t.lingers,
                   requests := s.requests[id := Request(kind, s.requests[id].ward, status, note)])
        && (if Final(kind, status) then DueIs(s, t, id, None) && RequestLinger(id) in t.lingers
            else t.timers == s.timers && t.lingers == s.lingers)
      else t == s
  {
    TimersSound(s);
    assert forall k, st :: Over(k, st) <==> Final(k, st);
    hide Inv, Due, TimersOk, Clear, Over, Final, DueIs;
    var t := Settle(s, kind, id, status, note);
    if t.timers == Clear(s.timers, id) {
      ClearedDue(s, t, id);
    }
  }

  // ----- Log downloads -----

  lemma AskDownloadShown(s: State, ward: Id, log: Id, readOnly: bool, channel: bool)
    requires Inv(s)
    ensures var (id, t) := (s.nextId, AfterDownloadRequest(s, ward, log, readOnly, channel));
      var refused := readOnly || !channel;
      && t == s.(nextId := id + 1, timers := t.timers, lingers := t.lingers, downloads := s.downloads[id :=
           Download(ward, log, if refused then Refused else Pending,
                    if readOnly then ReadOnly else if !channel then NoChannel else Blank, 0, 0, 0)])
      && DueIs(s, t, id, if refused then None else Some(DownloadUnanswered(id)))
  {
    var t := AfterDownloadRequest(s, ward, log, readOnly, channel);
    FreshDue(s);
    Unarmed(s.timers, s.nextId, DownloadUnanswered(s.nextId));
    hide Inv, Due, TimersOk, Arm, Clear, DueIs;
    assert s.tables - {s.nextId} == s.tables;
    assert t.timers == if readOnly || !channel then s.timers else Arm(s.timers, s.nextId, DownloadUnanswered(s.nextId));
    FreshlyDue(s, t, DownloadUnanswered(s.nextId));
    assert t.downloads == s.downloads[s.nextId := t.downloads[s.nextId]];
  }

  /** The gateway's answer to a pending download: refused with its reason, complete if there is nothing to
      send, and otherwise under way with the totals announced. Any other download takes no notice. */
  lemma DownloadAckShown(s: State, id: Id, accepted: bool, total: nat, count: nat, text: string)
    requires Inv(s)
    ensures var t := AfterDownloadAck(s, id, accepted, total, count, text);
      if id in s.downloads && s.downloads[id].phase == Pending then
        && t == s.(timers := t.timers, lingers := t.lingers, tables := t.tables, saved := t.saved, downloads := s.downloads[id :=
             if !accepted then s.downloads[id].(phase := Refused, note := Told(text))
             else if count == 0 then s.downloads[id].(phase := Complete, note := Blank, total := total, count := 0)
             else s.downloads[id].(phase := Downloading, total := total, count := count)])
        && t.saved == (if accepted && count == 0 then s.saved + [SavedFile(id, [])] else s.saved)
        && DueIs(s, t, id, if accepted && count > 0 then Some(ChunksStopped(id)) else None)
      else t == s
  {
    TimersSound(s);
    hide Inv, Due, TimersOk, Arm, Clear, EmptyTable, DueIs;
    var t := AfterDownloadAck(s, id, accepted, total, count, text);
    if id in s.downloads && s.downloads[id].phase == Pending {
      assert t.downloads == s.downloads[id := t.downloads[id]];
      if accepted && count > 0 {
        RearmedDue(s, t, id, ChunksStopped(id));
      } else {
        ClearedTwice(s, t, id);
      }
    }
  }

  lemma ClearedTwice(s: State, t: State, id: Id)
    requires TimersOk(s.timers) && t.timers == Clear(Clear(s.timers, id), id)
    ensures DueIs(s, t, id, None)
  {
    Cleared(s.timers, id);
    hide Due, TimersOk, Clear;
  }

  /** A download given up, whatever for, is refused and says why; what had arrived of it is dropped. */
  lemma SettleDownloadShown(s: State, id: Id, note: Note)
    requires Inv(s)
    ensures var t := SettleDownload(s, id, note);
      if id in s.downloads && !Ended(s.downloads[id].phase) then
        && t == s.(timers := t.timers, lingers := s.lingers + {DownloadLinger(id)}, tables := s.tables - {id},
                   downloads := s.downloads[id := s.downloads[id].(phase := Refused, note := note)])
        && DueIs(s, t, id, None)
      else t == s
  {
    TimersSound(s);
    hide Inv, Due, TimersOk, Clear, DueIs;
    if id in s.downloads && !Ended(s.downloads[id].phase) {
      ClearedDue(s, SettleDownload(s, id, note), id);
    }
  }

  // ----- Calibrations -----

  lemma AskRunShown(s: State, ward: Id, readOnly: bool, channel: bool)
    requires Inv(s)
    ensures var (id, t) := (s.nextId, AfterStartRun(s, ward, readOnly, channel));
      var refused := readOnly || !channel;
      && t == s.(nextId := id + 1, timers := t.timers, lingers := t.lingers, runs := s.runs[ward :=
           Run(id, if refused then RunRefused else Running, if readOnly then ReadOnly else if !channel then NoChannel else Blank)])
      && DueIs(s, t, id, if refused then None else Some(RunSilent(ward, id, RunRefused, NoAnswer)))
  {
    var t := AfterStartRun(s, ward, readOnly, channel);
    var callback := RunSilent(ward, s.nextId, RunRefused, NoAnswer);
    FreshDue(s);
    Unarmed(s.timers, s.nextId, callback);
    hide Inv, Due, TimersOk, Arm, Clear, DueIs;
    assert t.timers == if readOnly || !channel then s.timers else Arm(s.timers, s.nextId, callback);
    FreshlyDue(s, t, callback);
    assert t.runs == s.runs[ward := t.runs[ward]];
  }

  /** Progress shows on the ward's current run while it is running, and on no other. */
  lemma ProgressShown(s: State, ward: Id, id: Id, status: RunStatus, text: string)
    requires Inv(s)
    ensures var t := AfterProgress(s, ward, id, status, text);
      if ward in s.runs && s.runs[ward].id == id && s.runs[ward].status == Running then
        && t == s.(timers := t.timers, lingers := s.lingers + (if status == Running then {} else {RunLinger(ward, id)}),
                   runs := s.runs[ward := Run(id, status, Told(text))])
        && DueIs(s, t, id, if status == Running then Some(RunSilent(ward, id, Failed, NoProgress)) else None)
      else t == s
  {
    TimersSound(s);
    hide Inv, Due, TimersOk, Arm, Clear, DueIs;
    var t := AfterProgress(s, ward, id, status, text);
    if t.timers == Arm(Clear(s.timers, id), id, RunSilent(ward, id, Failed, NoProgress)) {
      RearmedDue(s, t, id, RunSilent(ward, id, Failed, NoProgress));
    }
    if t.timers == Clear(s.timers, id) {
      ClearedDue(s, t, id);
    }
  }

  /** A calibration that could not be sent, or was given up, ends as told; the run of another request does not. */
  lemma SettleRunShown(s: State, ward: Id, id: Id, status: RunStatus, note: Note)
    requires Inv(s)
    ensures var t := SettleRun(s, ward, id, status, note);
      if ward in s.runs && s.runs[ward].id == id && s.runs[ward].status == Running then
        && t == s.(timers := t.timers, lingers := s.lingers + {RunLinger(ward, id)}, runs := s.runs[ward := Run(id, status, note)])
        && DueIs(s, t, id, None)
      else t == s
  {
    TimersSound(s);
    hide Inv, Due, TimersOk, Clear, DueIs;
    var t := SettleRun(s, ward, id, status, note);
    if t.timers == Clear(s.timers, id) {
      ClearedDue(s, t, id);
    }
  }

  lemma LeaveRunShown(s: State, ward: Id)
    requires Inv(s) && ward in s.runs
    ensures var t := AfterLeaveRun(s, ward);
      t == s.(timers := t.timers, runs := s.runs - {ward}) && DueIs(s, t, s.runs[ward].id, None)
  {
    TimersSound(s);
    hide Inv, Due, TimersOk, Clear, DueIs;
    ClearedDue(s, AfterLeaveRun(s, ward), s.runs[ward].id);
  }

  /** What could not be sent is refused, if it is still open, and says why. */
  lemma SendFailureShown(s: State, kind: Kind, id: Id, ward: Id, text: string)
    requires Inv(s)
    ensures var t := Step(s, SendFailed(kind, id, text));
      t.requests == if id in s.requests && s.requests[id].kind == kind && !Final(kind, s.requests[id].status)
                    then s.requests[id := Request(kind, s.requests[id].ward, Rejected, Told(text))] else s.requests
    ensures var t := Step(s, DownloadSendFailed(id, text));
      t.downloads == if id in s.downloads && !Ended(s.downloads[id].phase)
                     then s.downloads[id := s.downloads[id].(phase := Refused, note := Told(text))] else s.downloads
    ensures var t := Step(s, RunSendFailed(ward, id, text));
      t.runs == if ward in s.runs && s.runs[ward].id == id && s.runs[ward].status == Running
                then s.runs[ward := Run(id, RunRefused, Told(text))] else s.runs
  {
    AnswerShown(s, kind, id, Rejected, Told(text));
    SettleDownloadShown(s, id, Told(text));
    SettleRunShown(s, ward, id, RunRefused, Told(text));
    hide Inv, Settle, SettleDownload, SettleRun, DueIs, Final;
  }
}

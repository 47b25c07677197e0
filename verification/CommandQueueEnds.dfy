/** How each command ends: what it is told says what became of it. */
module CommandQueueEnds {
  import opened Options
  import opened Acknowledgements
  import opened CommandQueue
  import opened CommandQueueProofs

  /** The vehicle did it, the vehicle would not, it came too far from its time, or the gateway closed. */
  datatype End = Carried | Declined | OutOfWindow | LeftBehind

  /** What becomes of a command by this event, if it is the end of it. */
  function EndNow(s: State, e: Event, id: Id): Option<End> {
    match e
    case Answer(success) =>
      if s.worker.Acting? && s.worker.command.id == id then Some(if success then Carried else Declined) else None
    case Dispatch(now) =>
      if s.worker.Taken? && s.worker.command.id == id && MustBeRecent(s.worker.command.action)
         && !(-5000 <= now - s.worker.command.timestamp <= 5000)
      then Some(OutOfWindow) else None
    case RefuseNext =>
      if s.worker.Draining? && 0 <= s.worker.refused < |s.queue| && s.queue[s.worker.refused].id == id
      then Some(LeftBehind) else None
    case _ => None
  }

  function EndOf(s: State, events: seq<Event>, id: Id): Option<End>
    decreases events
  {
    if events == [] then None
    else if EndNow(s, events[0], id).Some? then EndNow(s, events[0], id)
    else EndOf(Step(s, events[0]), events[1..], id)
  }

  /** The vehicle was asked to carry it out. */
  predicate Asked(deeds: seq<Deed>, id: Id) {
    exists i :: 0 <= i < |deeds| && deeds[i].command.id == id
  }

  function TheEnd(end: End): seq<Status> {
    [Accepted, if end == Carried then Success else Rejected]
  }

  ghost predicate Recorded(s: State) {
    s.worker.Acting? ==> Asked(s.deeds, s.worker.command.id)
  }

  lemma AskedPlus(deeds: seq<Deed>, deed: Deed)
    ensures forall id :: Asked(deeds + [deed], id) <==> Asked(deeds, id) || deed.command.id == id
  {
    forall id ensures Asked(deeds + [deed], id) <==> Asked(deeds, id) || deed.command.id == id {
      if Asked(deeds, id) {
        var i :| 0 <= i < |deeds| && deeds[i].command.id == id;
        assert (deeds + [deed])[i].command.id == id;
      }
      if deed.command.id == id {
        assert (deeds + [deed])[|deeds|].command.id == id;
      }
    }
  }

  lemma StepRecords(s: State, e: Event)
    requires Recorded(s)
    ensures Recorded(Step(s, e))
  {
    hide Asked, Stale;
    if e.Dispatch? && s.worker.Taken? {
      AskedPlus(s.deeds, Deed(s.worker.command, e.now));
    }
  }

  /** A command waiting its turn, or having it, has been told it was accepted. */
  lemma InLine(s: State, i: nat)
    requires Inv(s) && i < |Line(s)|
    ensures Told(s.acks, Line(s)[i].id) == [Accepted]
  {
    hide Line, Served, Told, Trails, AllTimed, DeedsOk, Ids, Answers;
  }

  lemma HeadUnasked(s: State)
    requires Inv(s) && Line(s) != [] && !s.worker.Acting?
    ensures !Asked(s.deeds, Line(s)[0].id)
  {
    hide Line, Told, Trails, AllTimed, Ids, Answers, Fresh;
    WaitingUnserved(Served(s), Line(s), s.entering, s.acks);
    hide Accounted;
  }

  lemma TimedHead(s: State)
    requires Inv(s) && Line(s) != []
    ensures Timed(Line(s)[0])
  {
    hide Line, Told, Trails, Accounted, DeedsOk, Ids, Answers;
  }

  /** One event, and one command: it ends, or its story goes on. */
  ghost predicate Onward(s: State, e: Event, t: State, id: Id) {
    match EndNow(s, e, id)
    case Some(end) =>
      && Told(s.acks, id) == [Accepted] && Told(t.acks, id) == TheEnd(end)
      && (Asked(t.deeds, id) <==> end == Carried || end == Declined)
    case None =>
      && (Told(t.acks, id) == Told(s.acks, id)
          || (Told(s.acks, id) == [] && (Told(t.acks, id) == [Accepted] || Told(t.acks, id) == [Rejected])))
      && ((Asked(t.deeds, id) <==> Asked(s.deeds, id)) || Told(s.acks, id) == [Accepted])
  }

  lemma StepOnward(s: State, e: Event, id: Id)
    requires Inv(s) && Recorded(s)
    ensures Onward(s, e, Step(s, e), id)
  {
    hide Inv, Recorded, Onward;
    match e
    case HandIn(c) => HandInOnward(s, c, id);
    case Dispatch(now) => DispatchOnward(s, now, id);
    case Answer(success) => AnswerOnward(s, success, id);
    case RefuseNext => RefuseOnward(s, id);
    case _ => OthersOnward(s, e, id);
  }

  lemma OthersOnward(s: State, e: Event, id: Id)
    requires e.Push? || e.RequestStop? || e.Take? || e.StartDraining? || e.StopDraining?
    ensures Onward(s, e, Step(s, e), id)
  {
    hide Told, Asked;
  }

  lemma HandInOnward(s: State, c: Command, id: Id)
    requires Inv(s)
    ensures Onward(s, HandIn(c), Step(s, HandIn(c)), id)
  {
    hide Inv, Told, Asked, Trails;
    if c.id !in s.seen {
      InvTrails(s);
      UnseenUntold(s.seen, s.acks, c.id);
      ToldPlus(s.acks, Ack(c.id, Accepted));
      ToldPlus(s.acks, Ack(c.id, Rejected));
    }
  }

  lemma DispatchOnward(s: State, now: Word64, id: Id)
    requires Inv(s)
    ensures Onward(s, Dispatch(now), Step(s, Dispatch(now)), id)
  {
    hide Inv, Told, Asked, Stale;
    if s.worker.Taken? {
      var c := s.worker.command;
      assert Line(s)[0] == c;
      TimedHead(s);
      WindowExactly(s, now);
      InLine(s, 0);
      HeadUnasked(s);
      ToldPlus(s.acks, Ack(c.id, Rejected));
      AskedPlus(s.deeds, Deed(c, now));
    }
  }

  lemma AnswerOnward(s: State, success: bool, id: Id)
    requires Inv(s) && Recorded(s)
    ensures Onward(s, Answer(success), Step(s, Answer(success)), id)
  {
    hide Inv, Told, Asked;
    if s.worker.Acting? {
      assert Line(s)[0] == s.worker.command;
      InLine(s, 0);
      ToldPlus(s.acks, Ack(s.worker.command.id, Success));
      ToldPlus(s.acks, Ack(s.worker.command.id, Rejected));
    }
  }

  lemma RefuseOnward(s: State, id: Id)
    requires Inv(s)
    ensures Onward(s, RefuseNext, Step(s, RefuseNext), id)
  {
    hide Inv, Told, Asked;
    if s.worker.Draining? && 0 <= s.worker.refused < |s.queue| {
      assert Line(s)[0] == s.queue[s.worker.refused];
      InLine(s, 0);
      HeadUnasked(s);
      ToldPlus(s.acks, Ack(s.queue[s.worker.refused].id, Rejected));
    }
  }

  /** Every command, from any reachable state: once closed nothing changes; before, what it is told and
      whether the vehicle was asked follow from how it ends, if it does. */
  ghost predicate Rightly(s: State, t: State, id: Id, end: Option<End>) {
    if Closed(Told(s.acks, id)) then
      end == None && Told(t.acks, id) == Told(s.acks, id) && (Asked(t.deeds, id) <==> Asked(s.deeds, id))
    else
      match end
      case None => !Closed(Told(t.acks, id))
      case Some(how) => Told(t.acks, id) == TheEnd(how) && (Asked(t.deeds, id) <==> how == Carried || how == Declined)
  }

  lemma {:induction false} StepsEnd(s: State, events: seq<Event>, id: Id)
    requires Inv(s) && Recorded(s)
    ensures Rightly(s, Steps(s, events), id, EndOf(s, events, id))
    decreases events
  {
    hide Inv, Recorded, Told, Asked, EndNow, Step;
    assert !Closed([]) && !Closed([Accepted]) && !Closed([Rejected]);
    assert forall how :: Closed(TheEnd(how));
    hide Closed, TheEnd;
    if events != [] {
      StepKeeps(s, events[0]);
      StepRecords(s, events[0]);
      StepOnward(s, events[0], id);
      StepsEnd(Step(s, events[0]), events[1..], id);
    }
  }

  /** Over every run: a command is told it succeeded if and only if the vehicle was asked and carried it
      out; it is told it was rejected after all if and only if the vehicle was asked and would not, or it
      was further from its time than it may be, or it was left in the queue when the gateway was asked to
      close, and in the latter two the vehicle was never asked. */
  lemma EndsRightly(events: seq<Event>, id: Id)
    ensures var (t, end) := (Steps(START, events), EndOf(START, events, id));
      && (Told(t.acks, id) == [Accepted, Success] <==> end == Some(Carried))
      && (Told(t.acks, id) == [Accepted, Rejected] <==> end == Some(Declined) || end == Some(OutOfWindow) || end == Some(LeftBehind))
      && (end == Some(Carried) || end == Some(Declined) ==> Asked(t.deeds, id))
      && (end == Some(OutOfWindow) || end == Some(LeftBehind) ==> !Asked(t.deeds, id))
      && (end == Some(LeftBehind) || t.worker.Gone? ==> t.stopping)
  {
    assert Inv(START) && Recorded(START);
    StepsEnd(START, events, id);
    StopsOnlyWhenAsked(START, events, id);
    assert Told(START.acks, id) == [];
    hide Steps, EndOf, Told, Asked;
    assert [Accepted, Success][1] != [Accepted, Rejected][1];
  }

  // ----- Coming in, and closing down -----

  /** A command new to the executor is refused exactly if it has no action, and is otherwise accepted, on
      its way to the queue, and told nothing else yet. */
  lemma HandedIn(s: State, c: Command)
    requires Inv(s) && c.id !in s.seen && Timed(c)
    ensures var t := Step(s, HandIn(c));
      && Told(t.acks, c.id) == [if c.action == NotSet then Rejected else Accepted]
      && (c.id in t.entering <==> c.action != NotSet)
      && (c.id in t.entering ==> t.entering[c.id] == c)
      && t.queue == s.queue && t.deeds == s.deeds
  {
    InvTrails(s);
    UnseenUntold(s.seen, s.acks, c.id);
    assert c.id !in s.entering by {
      hide Served, Line, Told, Trails, AllTimed, DeedsOk, Ids, Answers;
      assert [Accepted] != [];
    }
    hide Inv, Told;
    ToldPlus(s.acks, Ack(c.id, Accepted));
    ToldPlus(s.acks, Ack(c.id, Rejected));
  }

  /** Nothing is refused for closing down, and the worker does not go, before a stop has been asked for. */
  predicate OnlyOnStop(s: State) {
    s.worker.Draining? || s.worker.Gone? ==> s.stopping
  }

  lemma {:induction false} StopsOnlyWhenAsked(s: State, events: seq<Event>, id: Id)
    requires OnlyOnStop(s)
    ensures var t := Steps(s, events); OnlyOnStop(t) && (EndOf(s, events, id) == Some(LeftBehind) ==> t.stopping)
    decreases events
  {
    if events != [] {
      StopsOnlyWhenAsked(Step(s, events[0]), events[1..], id);
      if EndNow(s, events[0], id) == Some(LeftBehind) {
        StoppingStays(Step(s, events[0]), events[1..]);
      }
    }
  }

  lemma {:induction false} StoppingStays(s: State, events: seq<Event>)
    requires s.stopping
    ensures Steps(s, events).stopping
    decreases events
  {
    if events != [] {
      StoppingStays(Step(s, events[0]), events[1..]);
    }
  }

  /** Once a stop has been asked for, the vehicle is asked for nothing more than what is already under way. */
  lemma {:induction false} NothingAfterStop(s: State, events: seq<Event>)
    requires s.stopping && !s.worker.Taken?
    ensures Steps(s, events).deeds == s.deeds && !Steps(s, events).worker.Taken?
    decreases events
  {
    if events != [] {
      NothingAfterStop(Step(s, events[0]), events[1..]);
    }
  }

  // ----- Nothing gets stuck -----

  lemma HeadLetThrough(t: State, now: Word64)
    requires t.worker.Taken? && Timed(t.worker.command)
    requires MustBeRecent(t.worker.command.action) ==> -5000 <= now - t.worker.command.timestamp <= 5000
    ensures Step(t, Dispatch(now)) == t.(worker := Acting(t.worker.command), deeds := t.deeds + [Deed(t.worker.command, now)])
  {
    WindowExactly(t, now);
    hide Stale, MustBeRecent;
  }

  lemma AnswerGiven(u: State, success: bool)
    requires u.worker.Acting?
    ensures Step(u, Answer(success))
      == u.(worker := Idle, acks := u.acks + [Ack(u.worker.command.id, if success then Success else Rejected)])
  {
  }

  /** The command at the head of the queue gets its turn: taken, let through and answered by the vehicle. */
  lemma HeadIsServed(s: State, now: Word64, success: bool)
    requires Inv(s) && s.worker.Idle? && !s.stopping && s.queue != []
    requires MustBeRecent(s.queue[0].action) ==> -5000 <= now - s.queue[0].timestamp <= 5000
    ensures var c := s.queue[0]; var t := Step(Step(Step(s, Take), Dispatch(now)), Answer(success));
      && t.worker.Idle? && t.queue == s.queue[1..] && t.deeds == s.deeds + [Deed(c, now)]
      && Told(t.acks, c.id) == [Accepted, if success then Success else Rejected]
  {
    var c := s.queue[0];
    var status := if success then Success else Rejected;
    var (t, u) := (Step(s, Take), Step(Step(s, Take), Dispatch(now)));
    assert Line(s) == s.queue;
    assert t == s.(worker := Taken(c), queue := s.queue[1..]);
    hide *;
    InLine(s, 0);
    TimedHead(s);
    HeadLetThrough(t, now);
    AnswerGiven(u, success);
    ToldPlus(s.acks, Ack(c.id, status));
    assert [Accepted] + [status] == [Accepted, status];
  }

  function Refusals(n: nat): seq<Event> {
    if n == 0 then [] else [RefuseNext] + Refusals(n - 1)
  }

  lemma OneRefused(s: State)
    requires Inv(s) && Recorded(s) && s.worker.Draining? && 0 <= s.worker.refused < |s.queue|
    ensures var t := Step(s, RefuseNext);
      && Inv(t) && Recorded(t) && t == s.(worker := Draining(s.worker.refused + 1), acks := t.acks)
      && Told(t.acks, s.queue[s.worker.refused].id) == [Accepted, Rejected]
  {
    hide Inv, Told, Asked;
    StepKeeps(s, RefuseNext);
    RefuseOnward(s, s.queue[s.worker.refused].id);
  }

  lemma {:induction false} DrainTells(s: State, n: nat)
    requires Inv(s) && Recorded(s) && s.worker.Draining? && 0 <= s.worker.refused && s.worker.refused + n == |s.queue|
    ensures var t := Steps(s, Refusals(n));
      && t.worker == Draining(|s.queue|) && t.queue == s.queue && t.entering == s.entering
      && (forall i :: s.worker.refused <= i < |s.queue| ==> Told(t.acks, s.queue[i].id) == [Accepted, Rejected])
    decreases n
  {
    hide Inv, Recorded, Told, Step;
    if n > 0 {
      var t := Step(s, RefuseNext);
      assert Refusals(n)[0] == RefuseNext && Refusals(n)[1..] == Refusals(n - 1);
      OneRefused(s);
      DrainTells(t, n - 1);
      StepsEnd(t, Refusals(n - 1), s.queue[s.worker.refused].id);
    }
  }

  /** Once a stop is asked for, an idle worker can refuse all that is queued and go; each of these commands
      has then been told so. */
  lemma ShutdownCompletes(s: State)
    requires Inv(s) && Recorded(s) && s.worker.Idle?
    ensures var t := Step(Steps(Step(Step(s, RequestStop), StartDraining), Refusals(|s.queue|)), StopDraining);
      && t.worker.Gone? && t.queue == [] && t.entering == s.entering
      && (forall i :: 0 <= i < |s.queue| ==> Told(t.acks, s.queue[i].id) == [Accepted, Rejected])
  {
    hide Inv, Told, Steps, Asked;
    var d := Step(Step(s, RequestStop), StartDraining);
    StepKeeps(s, RequestStop);
    StepKeeps(Step(s, RequestStop), StartDraining);
    DrainTells(d, |s.queue|);
  }
}

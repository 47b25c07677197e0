/** What every interleaving of the threads keeps: one answer each, in turn, and no stale command let through. */
module CommandQueueProofs {
  import opened Collections
  import opened Acknowledgements
  import opened CommandQueue

  // ----- Who was told what -----

  /** The commands answered, in order: those told something after they were accepted. */
  function Answers(acks: seq<Ack<Status>>): seq<Id> {
    if acks == [] then []
    else
      var (before, last) := (acks[..|acks| - 1], acks[|acks| - 1]);
      Answers(before) + if Told(before, last.id) != [] then [last.id] else []
  }

  lemma AnswersPlus(acks: seq<Ack<Status>>, ack: Ack<Status>)
    ensures Answers(acks + [ack]) == Answers(acks) + if Told(acks, ack.id) != [] then [ack.id] else []
  {
    assert (acks + [ack])[..|acks|] == acks;
  }

  predicate Trail(told: seq<Status>) {
    told == [] || told == [Rejected] || told == [Accepted] || told == [Accepted, Success] || told == [Accepted, Rejected]
  }

  predicate Closed(told: seq<Status>) {
    told == [Accepted, Success] || told == [Accepted, Rejected]
  }

  // ----- The invariant -----

  /** Pushed but not yet answered, in the order they will be. */
  function Line(s: State): seq<Command> {
    match s.worker
    case Taken(c) => [c] + s.queue
    case Acting(c) => [c] + s.queue
    case Draining(n) => if 0 <= n <= |s.queue| then s.queue[n..] else []
    case _ => s.queue
  }

  /** The pushed commands that are no longer in the line. */
  function Served(s: State): seq<Command> {
    if |Line(s)| <= |s.pushed| then s.pushed[..|s.pushed| - |Line(s)|] else []
  }

  function Ids(commands: seq<Command>): (ids: seq<Id>)
    ensures |ids| == |commands|
    ensures forall i :: 0 <= i < |ids| ==> ids[i] == commands[i].id
  {
    seq(|commands|, i requires 0 <= i < |commands| => commands[i].id)
  }

  /** Commands served are told their end, those in line or entering that they were accepted, and nobody
      else was ever accepted. Every command is in one place only. */
  ghost predicate Accounted(served: seq<Command>, line: seq<Command>, entering: map<Id, Command>, acks: seq<Ack<Status>>) {
    && (forall i :: 0 <= i < |served| ==> Closed(Told(acks, served[i].id)))
    && (forall i :: 0 <= i < |line| ==> Told(acks, line[i].id) == [Accepted])
    && (forall id :: id in entering ==> entering[id].id == id && Told(acks, id) == [Accepted])
    && (forall i, j :: 0 <= i < j < |line| ==> line[i].id != line[j].id)
    && (forall i :: 0 <= i < |line| ==> line[i].id !in entering)
    && (forall id :: Told(acks, id) != [] && Told(acks, id) != [Rejected] ==>
          id in entering || id in Ids(line) || id in Ids(served))
  }

  ghost predicate Trails(seen: set<Id>, acks: seq<Ack<Status>>) {
    && (forall id :: id !in seen ==> Told(acks, id) == [])
    && (forall id :: Trail(Told(acks, id)))
  }

  predicate Timed(c: Command) {
    0 <= c.timestamp < UINT64_VALUES
  }

  ghost predicate AllTimed(line: seq<Command>, entering: map<Id, Command>) {
    && (forall i :: 0 <= i < |line| ==> Timed(line[i]))
    && (forall id :: id in entering ==> Timed(entering[id]))
  }

  /** Motors and flight: what must not be carried out long after it was asked for. */
  predicate MustBeRecent(action: Action) {
    action in {Arm, Disarm, Takeoff, Land, Rtl}
  }

  predicate Fresh(deed: Deed) {
    MustBeRecent(deed.command.action) ==> -5000 <= deed.now - deed.command.timestamp <= 5000
  }

  /** No stale command was let through, none twice, and only served ones and the one being carried out. */
  ghost predicate DeedsOk(deeds: seq<Deed>, served: seq<Command>, worker: Worker) {
    && (forall i :: 0 <= i < |deeds| ==> Fresh(deeds[i]))
    && (forall i, j :: 0 <= i < j < |deeds| ==> deeds[i].command.id != deeds[j].command.id)
    && (forall i :: 0 <= i < |deeds| ==> deeds[i].command in served || worker == Acting(deeds[i].command))
  }

  ghost predicate Inv(s: State) {
    && s.pushed == Served(s) + Line(s)
    && (s.worker.Draining? ==> 0 <= s.worker.refused <= |s.queue|)
    && Accounted(Served(s), Line(s), s.entering, s.acks)
    && Answers(s.acks) == Ids(Served(s))
    && Trails(s.seen, s.acks)
    && AllTimed(Line(s), s.entering)
    && DeedsOk(s.deeds, Served(s), s.worker)
  }

  /** However far apart two 64-bit clocks are, the subtraction is the distance between them. */
  lemma DriftIsDistance(now: Word64, timestamp: Word64)
    ensures Drift(now, timestamp) == if now >= timestamp then now - timestamp else timestamp - now
  {
  }

  /** A command taken off the queue is let through exactly if it need not be recent or is: within five
      seconds of its time, before or after. Otherwise it is refused on the spot. */
  lemma WindowExactly(s: State, now: Word64)
    requires s.worker.Taken? && Timed(s.worker.command)
    ensures var (c, t) := (s.worker.command, Step(s, Dispatch(now)));
      if MustBeRecent(c.action) && !(-5000 <= now - c.timestamp <= 5000) then
        t.worker.Idle? && t.deeds == s.deeds && t.acks == s.acks + [Ack(c.id, Rejected)]
      else t.worker == Acting(c) && t.deeds == s.deeds + [Deed(c, now)] && t.acks == s.acks
  {
    DriftIsDistance(now, s.worker.command.timestamp);
  }

  lemma AccountedReject(served: seq<Command>, line: seq<Command>, entering: map<Id, Command>, acks: seq<Ack<Status>>, id: Id)
    requires Accounted(served, line, entering, acks) && Told(acks, id) == []
    ensures Accounted(served, line, entering, acks + [Ack(id, Rejected)])
  {
    ToldPlus(acks, Ack(id, Rejected));
    hide Told, Ids;
  }

  lemma AccountedAccept(served: seq<Command>, line: seq<Command>, entering: map<Id, Command>, acks: seq<Ack<Status>>, c: Command)
    requires Accounted(served, line, entering, acks) && Told(acks, c.id) == []
    ensures Accounted(served, line, entering[c.id := c], acks + [Ack(c.id, Accepted)])
  {
    ToldPlus(acks, Ack(c.id, Accepted));
    hide Told, Ids;
  }

  lemma AccountedPush(served: seq<Command>, line: seq<Command>, entering: map<Id, Command>, acks: seq<Ack<Status>>, id: Id)
    requires Accounted(served, line, entering, acks) && id in entering
    ensures Accounted(served, line + [entering[id]], entering - {id}, acks)
  {
    hide Told;
    var longer := line + [entering[id]];
    assert Ids(longer) == Ids(line) + [id];
  }

  lemma AccountedAnswer(served: seq<Command>, line: seq<Command>, entering: map<Id, Command>, acks: seq<Ack<Status>>, status: Status)
    requires Accounted(served, line, entering, acks) && line != [] && status != Accepted
    ensures Accounted(served + [line[0]], line[1..], entering, acks + [Ack(line[0].id, status)])
    ensures Answers(acks + [Ack(line[0].id, status)]) == Answers(acks) + [line[0].id]
  {
    ToldPlus(acks, Ack(line[0].id, status));
    AnswersPlus(acks, Ack(line[0].id, status));
    hide Told, Answers;
    assert Ids(served + [line[0]]) == Ids(served) + [line[0].id];
    assert Ids(line) == [line[0].id] + Ids(line[1..]);
  }

  lemma TrailsPlus(seen: set<Id>, acks: seq<Ack<Status>>, ack: Ack<Status>)
    requires Trails(seen, acks)
    requires Told(acks, ack.id) == [] ==> ack.status != Success
    requires Told(acks, ack.id) != [] ==> Told(acks, ack.id) == [Accepted] && ack.status != Accepted
    ensures Trails(seen + {ack.id}, acks + [ack])
  {
    ToldPlus(acks, ack);
    hide Told;
  }

  // ----- Steps -----

  /** The invariant, for this division of the pushed commands into served and waiting. */
  ghost predicate Divided(s: State, served: seq<Command>, line: seq<Command>) {
    && Line(s) == line
    && s.pushed == served + line
    && (s.worker.Draining? ==> 0 <= s.worker.refused <= |s.queue|)
    && Accounted(served, line, s.entering, s.acks)
    && Answers(s.acks) == Ids(served)
    && Trails(s.seen, s.acks)
    && AllTimed(line, s.entering)
    && DeedsOk(s.deeds, served, s.worker)
  }

  lemma InvIsDivided(s: State, served: seq<Command>, line: seq<Command>)
    ensures Inv(s) ==> Divided(s, Served(s), Line(s))
    ensures Divided(s, served, line) ==> Inv(s)
  {
    hide Accounted, Trails, AllTimed, DeedsOk, Answers, Line;
    if Divided(s, served, line) {
      assert Served(s) == served;
    }
  }

  lemma UnseenUntold(seen: set<Id>, acks: seq<Ack<Status>>, id: Id)
    requires Trails(seen, acks) && id !in seen
    ensures Told(acks, id) == []
  {
    hide Told;
  }

  lemma AnswersSame(acks: seq<Ack<Status>>, id: Id)
    requires Told(acks, id) == []
    ensures forall status :: Answers(acks + [Ack(id, status)]) == Answers(acks)
  {
    forall status ensures Answers(acks + [Ack(id, status)]) == Answers(acks) {
      AnswersPlus(acks, Ack(id, status));
    }
  }

  lemma HandInKeeps(s: State, served: seq<Command>, line: seq<Command>, c: Command)
    requires Divided(s, served, line)
    ensures Divided(Step(s, HandIn(c)), served, line)
  {
    hide Told, Answers, Accounted, Trails, DeedsOk, Ids;
    if c.id !in s.seen {
      UnseenUntold(s.seen, s.acks, c.id);
      AnswersSame(s.acks, c.id);
      if c.action == NotSet {
        AccountedReject(served, line, s.entering, s.acks, c.id);
        TrailsPlus(s.seen, s.acks, Ack(c.id, Rejected));
      } else {
        AccountedAccept(served, line, s.entering, s.acks, c);
        TrailsPlus(s.seen, s.acks, Ack(c.id, Accepted));
      }
    }
  }

  lemma PushKeeps(s: State, served: seq<Command>, line: seq<Command>, id: Id)
    requires Divided(s, served, line) && id in s.entering && !s.worker.Draining?
    ensures Divided(Step(s, Push(id)), served, line + [s.entering[id]])
  {
    hide Told, Answers, Accounted, Trails, DeedsOk, Ids;
    AccountedPush(served, line, s.entering, s.acks, id);
  }

  /** The command at the head of the line gets its answer. */
  lemma AnswerKeeps(s: State, served: seq<Command>, line: seq<Command>, t: State, status: Status)
    requires Divided(s, served, line) && line != [] && status != Accepted
    requires t == s.(acks := s.acks + [Ack(line[0].id, status)], queue := t.queue, worker := t.worker)
    requires Line(t) == line[1..] && !t.worker.Acting?
    requires t.worker.Draining? ==> 0 <= t.worker.refused <= |t.queue|
    requires s.worker.Acting? ==> s.worker.command == line[0]
    ensures Divided(t, served + [line[0]], line[1..])
  {
    hide Line, Told, Answers, Accounted, Trails, DeedsOk, Ids;
    AccountedHead(served, line, s.entering, s.acks);
    SeenHead(s, line[0].id);
    DeedsAnswered(s.deeds, served, s.worker, line[0], t.worker);
    AccountedAnswer(served, line, s.entering, s.acks, status);
    TrailsPlus(s.seen, s.acks, Ack(line[0].id, status));
    assert Ids(served + [line[0]]) == Ids(served) + [line[0].id];
  }

  lemma AccountedHead(served: seq<Command>, line: seq<Command>, entering: map<Id, Command>, acks: seq<Ack<Status>>)
    requires Accounted(served, line, entering, acks) && line != []
    ensures Told(acks, line[0].id) == [Accepted]
  {
    hide Told, Ids;
  }

  lemma DeedsAnswered(deeds: seq<Deed>, served: seq<Command>, worker: Worker, head: Command, next: Worker)
    requires DeedsOk(deeds, served, worker) && (worker.Acting? ==> worker.command == head)
    ensures DeedsOk(deeds, served + [head], next)
  {
    hide Fresh;
  }

  lemma SeenHead(s: State, id: Id)
    requires Trails(s.seen, s.acks) && Told(s.acks, id) != []
    ensures s.seen + {id} == s.seen
  {
  }

  /** A command that waits is none of those served: they have been told their end. */
  lemma WaitingUnserved(served: seq<Command>, line: seq<Command>, entering: map<Id, Command>, acks: seq<Ack<Status>>)
    requires Accounted(served, line, entering, acks) && line != []
    ensures forall k :: 0 <= k < |served| ==> served[k].id != line[0].id
  {
    AccountedHead(served, line, entering, acks);
    assert !Closed([Accepted]);
    hide Told, Ids, Closed;
  }

  lemma OneMoreDeed(deeds: seq<Deed>, served: seq<Command>, worker: Worker, deed: Deed)
    requires DeedsOk(deeds, served, worker) && !worker.Acting? && Fresh(deed)
    requires forall k :: 0 <= k < |served| ==> served[k].id != deed.command.id
    ensures DeedsOk(deeds + [deed], served, Acting(deed.command))
  {
    hide Fresh;
  }

  lemma LetThroughKeeps(s: State, served: seq<Command>, line: seq<Command>, now: Word64)
    requires Divided(s, served, line) && s.worker.Taken? && !Stale(s.worker.command, now)
    ensures Divided(Step(s, Dispatch(now)), served, line)
  {
    var c := s.worker.command;
    hide Answers, Told, Trails, Accounted, Ids, DeedsOk;
    assert line[0] == c && Timed(c);
    assert Fresh(Deed(c, now)) by {
      DriftIsDistance(now, c.timestamp);
    }
    hide AllTimed, Fresh, Stale;
    WaitingUnserved(served, line, s.entering, s.acks);
    OneMoreDeed(s.deeds, served, s.worker, Deed(c, now));
  }

  lemma WorkerKeeps(s: State, served: seq<Command>, line: seq<Command>, e: Event)
    requires Divided(s, served, line) && (e.RequestStop? || e.Take? || e.StartDraining? || e.StopDraining?)
    ensures Divided(Step(s, e), served, line)
  {
    hide Told, Answers, Accounted, Trails, AllTimed, Ids;
    assert s.queue != [] ==> s.queue == [s.queue[0]] + s.queue[1..];
  }

  lemma StepDivided(s: State, served: seq<Command>, line: seq<Command>, e: Event)
    requires Divided(s, served, line)
    ensures
      || Divided(Step(s, e), served, line)
      || (e.Push? && e.id in s.entering && Divided(Step(s, e), served, line + [s.entering[e.id]]))
      || (line != [] && Divided(Step(s, e), served + [line[0]], line[1..]))
  {
    var t := Step(s, e);
    assert Line(s) == line;
    assert s.worker.Draining? ==> 0 <= s.worker.refused <= |s.queue|;
    hide Divided, Told, Answers, Accounted, Trails, AllTimed, DeedsOk, Ids, Stale;
    match e
    case HandIn(c) => HandInKeeps(s, served, line, c);
    case Push(id) =>
      if id in s.entering && !s.worker.Draining? {
        PushKeeps(s, served, line, id);
      }
    case Dispatch(now) =>
      if s.worker.Taken? {
        if Stale(s.worker.command, now) {
          AnswerKeeps(s, served, line, t, Rejected);
        } else {
          LetThroughKeeps(s, served, line, now);
        }
      }
    case Answer(success) =>
      if s.worker.Acting? {
        AnswerKeeps(s, served, line, t, if success then Success else Rejected);
      }
    case RefuseNext =>
      if s.worker.Draining? && 0 <= s.worker.refused < |s.queue| {
        AnswerKeeps(s, served, line, t, Rejected);
      }
    case _ => WorkerKeeps(s, served, line, e);
  }

  lemma StepKeeps(s: State, e: Event)
    requires Inv(s)
    ensures Inv(Step(s, e))
  {
    hide Inv, Divided, Step, Line, Served;
    var (served, line) := (Served(s), Line(s));
    InvIsDivided(s, served, line);
    StepDivided(s, served, line, e);
    InvIsDivided(Step(s, e), served, line);
    if e.Push? && e.id in s.entering {
      InvIsDivided(Step(s, e), served, line + [s.entering[e.id]]);
    }
    if line != [] {
      InvIsDivided(Step(s, e), served + [line[0]], line[1..]);
    }
  }

  lemma {:induction false} StepsKeep(s: State, events: seq<Event>)
    requires Inv(s)
    ensures Inv(Steps(s, events))
    decreases events
  {
    hide Inv, Step;
    if events != [] {
      StepKeeps(s, events[0]);
      StepsKeep(Step(s, events[0]), events[1..]);
    }
  }

  /** Accepted, whatever came of it. */
  predicate WasAccepted(told: seq<Status>) {
    told != [] && told != [Rejected]
  }

  /** Whatever the threads do: each command is told nothing, or refused for having no action, or accepted
      and then at most one end. The accepted commands are those served, the one being carried out, those
      queued and those entering, each in one of these places only, and the ones told their end are those
      served, in the order of the queue. No command that has to be recent is let through more than five
      seconds from its time, and none twice. */
  lemma EveryRun(events: seq<Event>)
    ensures var t := Steps(START, events);
      && (forall id :: Trail(Told(t.acks, id)))
      && t.pushed == Served(t) + Line(t)
      && Answers(t.acks) == Ids(Served(t))
      && (forall id :: WasAccepted(Told(t.acks, id)) <==> id in t.entering || id in Ids(t.pushed))
      && (forall i, j :: 0 <= i < j < |t.pushed| ==> t.pushed[i].id != t.pushed[j].id)
      && (forall i :: 0 <= i < |t.pushed| ==> t.pushed[i].id !in t.entering)
      && (forall i :: 0 <= i < |t.deeds| ==> Fresh(t.deeds[i]))
      && (forall i, j :: 0 <= i < j < |t.deeds| ==> t.deeds[i].command.id != t.deeds[j].command.id)
  {
    assert Inv(START);
    StepsKeep(START, events);
    var t := Steps(START, events);
    hide Steps, Told, Answers, Ids, Line, Served, Accounted, AllTimed, Fresh;
    AccountedExactly(Served(t), Line(t), t.entering, t.acks);
  }

  lemma {:induction false} AnsweredOnce(acks: seq<Ack<Status>>)
    requires forall id :: Trail(Told(acks, id))
    ensures forall i, j :: 0 <= i < j < |Answers(acks)| ==> Answers(acks)[i] != Answers(acks)[j]
    ensures forall id :: id in Answers(acks) ==> Closed(Told(acks, id))
    decreases acks
  {
    if acks != [] {
      var (before, last) := (acks[..|acks| - 1], acks[|acks| - 1]);
      assert before + [last] == acks;
      ToldPlus(before, last);
      forall id ensures Trail(Told(before, id)) {
        TrailBefore(Told(before, id), last.status);
      }
      AnsweredOnce(before);
      hide Told;
      assert !Closed(Told(before, last.id));
    }
  }

  lemma TrailBefore(told: seq<Status>, status: Status)
    requires Trail(told) || Trail(told + [status])
    ensures Trail(told)
    ensures Trail(told + [status]) ==> !Closed(told)
  {
    if Trail(told + [status]) {
      assert told == (told + [status])[..|told|];
    }
  }

  lemma AccountedExactly(served: seq<Command>, line: seq<Command>, entering: map<Id, Command>, acks: seq<Ack<Status>>)
    requires Accounted(served, line, entering, acks) && Answers(acks) == Ids(served)
    requires forall id :: Trail(Told(acks, id))
    ensures forall id :: WasAccepted(Told(acks, id)) <==> id in entering || id in Ids(served + line)
    ensures forall i, j :: 0 <= i < j < |served + line| ==> (served + line)[i].id != (served + line)[j].id
    ensures forall i :: 0 <= i < |served + line| ==> (served + line)[i].id !in entering
  {
    hide *;
    ServedApart(served, acks);
    PlacesApart(served, line, entering, acks);
    forall id ensures WasAccepted(Told(acks, id)) <==> id in entering || id in Ids(served + line) {
      AcceptedWhere(served, line, entering, acks, id);
      InEither(served, line, id);
    }
  }

  lemma ServedApart(served: seq<Command>, acks: seq<Ack<Status>>)
    requires Answers(acks) == Ids(served)
    requires forall id :: Trail(Told(acks, id))
    ensures forall i, j :: 0 <= i < j < |served| ==> served[i].id != served[j].id
  {
    AnsweredOnce(acks);
    hide *;
    forall i, j | 0 <= i < j < |served| ensures served[i].id != served[j].id {
      assert Answers(acks)[i] == served[i].id && Answers(acks)[j] == served[j].id;
    }
  }

  lemma InEither(a: seq<Command>, b: seq<Command>, id: Id)
    ensures id in Ids(a + b) <==> id in Ids(a) || id in Ids(b)
  {
    assert Ids(a + b) == Ids(a) + Ids(b);
  }

  lemma PlacesApart(served: seq<Command>, line: seq<Command>, entering: map<Id, Command>, acks: seq<Ack<Status>>)
    requires Accounted(served, line, entering, acks)
    requires forall i, j :: 0 <= i < j < |served| ==> served[i].id != served[j].id
    ensures forall i, j :: 0 <= i < j < |served + line| ==> (served + line)[i].id != (served + line)[j].id
    ensures forall i :: 0 <= i < |served + line| ==> (served + line)[i].id !in entering
  {
    assert !Closed([Accepted]);
    hide Told, Closed, Ids;
  }

  lemma AcceptedWhere(served: seq<Command>, line: seq<Command>, entering: map<Id, Command>, acks: seq<Ack<Status>>, id: Id)
    requires Accounted(served, line, entering, acks)
    ensures WasAccepted(Told(acks, id)) <==> id in entering || id in Ids(served) || id in Ids(line)
  {
    assert forall told :: Closed(told) || told == [Accepted] ==> WasAccepted(told) by {
      assert [Accepted][0] != [Rejected][0];
    }
    if id in Ids(served) {
      var i :| 0 <= i < |served| && Ids(served)[i] == id;
      assert Closed(Told(acks, served[i].id));
    } else if id in Ids(line) {
      var i :| 0 <= i < |line| && Ids(line)[i] == id;
      assert Told(acks, line[i].id) == [Accepted];
    } else {
      AcceptedElsewhere(served, line, entering, acks, id);
    }
  }

  lemma AcceptedElsewhere(served: seq<Command>, line: seq<Command>, entering: map<Id, Command>, acks: seq<Ack<Status>>, id: Id)
    requires Accounted(served, line, entering, acks) && id !in Ids(served) && id !in Ids(line)
    ensures WasAccepted(Told(acks, id)) <==> id in entering
  {
    assert WasAccepted([Accepted]) by { assert [Accepted][0] != [Rejected][0]; }
    hide Told, Ids;
  }

  // ----- After a shutdown -----

  /** Every command that was ever accepted has been told its end. */
  ghost predicate AllAnswered(acks: seq<Ack<Status>>) {
    forall id :: WasAccepted(Told(acks, id)) ==> Closed(Told(acks, id))
  }

  lemma EveryoneAnswered(served: seq<Command>, line: seq<Command>, entering: map<Id, Command>, acks: seq<Ack<Status>>)
    requires Accounted(served, line, entering, acks)
    ensures AllAnswered(acks) <==> line == [] && entering.Keys == {}
  {
    hide Told;
    assert !Closed([Accepted]);
    assert [Accepted] != [Rejected] by { assert [Accepted][0] != [Rejected][0]; }
    if line != [] {
      assert Told(acks, line[0].id) == [Accepted];
    } else if entering.Keys != {} {
      var id := Member(entering.Keys);
      assert Told(acks, id) == [Accepted];
    } else {
      forall id | WasAccepted(Told(acks, id)) ensures Closed(Told(acks, id)) {
        assert id in Ids(served);
      }
    }
  }

  /** Once the worker is gone, everything accepted has its answer if and only if nothing reached the
      queue after it stopped refusing and no thread is on its way there. */
  lemma AnsweredAfterShutdown(s: State)
    requires Inv(s) && s.worker.Gone?
    ensures AllAnswered(s.acks) <==> s.queue == [] && s.entering.Keys == {}
  {
    hide Served, Told, Answers, Accounted, Trails, AllTimed, DeedsOk, Ids;
    EveryoneAnswered(Served(s), Line(s), s.entering, s.acks);
  }

  lemma InvTrails(s: State)
    requires Inv(s)
    ensures Trails(s.seen, s.acks)
  {
  }

  lemma LateStays(s: State, e: Event, id: Id)
    requires Inv(s) && s.worker.Gone? && Told(s.acks, id) == [Accepted]
    ensures Step(s, e).worker.Gone? && Told(Step(s, e).acks, id) == [Accepted]
  {
    hide Inv, Told, Stale, Trails;
    if e.HandIn? && e.command.id !in s.seen {
      InvTrails(s);
      UnseenUntold(s.seen, s.acks, e.command.id);
      ToldPlus(s.acks, Ack(e.command.id, Accepted));
      ToldPlus(s.acks, Ack(e.command.id, Rejected));
    }
  }

  /** A command that reaches the queue too late stays accepted for ever. */
  lemma {:induction false} LateForEver(s: State, events: seq<Event>, id: Id)
    requires Inv(s) && s.worker.Gone? && Told(s.acks, id) == [Accepted]
    ensures Told(Steps(s, events).acks, id) == [Accepted]
    decreases events
  {
    hide Told, Inv, Step;
    if events != [] {
      StepKeeps(s, events[0]);
      LateStays(s, events[0], id);
      LateForEver(Step(s, events[0]), events[1..], id);
    }
  }

  /** A thread is about to be told "accepted". */
  predicate Accepts(s: State, e: Event) {
    e.HandIn? && e.command.id !in s.seen && e.command.action != NotSet && Timed(e.command)
  }

  /** Nobody hands in a command with an action. */
  predicate NothingComes(s: State, events: seq<Event>)
    decreases events
  {
    events == [] || (!Accepts(s, events[0]) && NothingComes(Step(s, events[0]), events[1..]))
  }

  lemma AcceptedIsTold(s: State, e: Event)
    requires Inv(s) && s.worker.Gone? && Accepts(s, e)
    ensures Step(s, e).worker.Gone? && Told(Step(s, e).acks, e.command.id) == [Accepted]
  {
    hide Inv, Told, Trails;
    InvTrails(s);
    UnseenUntold(s.seen, s.acks, e.command.id);
    ToldPlus(s.acks, Ack(e.command.id, Accepted));
  }

  lemma {:induction false} QuietStays(s: State, events: seq<Event>)
    requires Inv(s) && s.worker.Gone? && s.queue == [] && s.entering.Keys == {}
    ensures AllAnswered(Steps(s, events).acks) <==> NothingComes(s, events)
    decreases events
  {
    hide Inv, AllAnswered;
    if events == [] {
      AnsweredAfterShutdown(s);
    } else {
      var (e, t) := (events[0], Step(s, events[0]));
      StepKeeps(s, e);
      if Accepts(s, e) {
        AcceptedIsTold(s, e);
        LateForEver(t, events[1..], e.command.id);
        StillOpen(Steps(s, events).acks, e.command.id);
      } else {
        QuietStays(t, events[1..]);
      }
    }
  }

  lemma StillOpen(acks: seq<Ack<Status>>, id: Id)
    requires Told(acks, id) == [Accepted]
    ensures !AllAnswered(acks)
  {
    assert WasAccepted(Told(acks, id)) && !Closed(Told(acks, id)) by {
      assert [Accepted][0] != [Rejected][0];
    }
  }

  /** From the moment the worker has gone, whatever happens later: everything ever accepted is answered if
      and only if no thread was on its way to the queue at that moment and none is accepted afterwards. */
  lemma AnsweredForEver(s: State, events: seq<Event>)
    requires Inv(s) && s.worker.Gone? && s.queue == []
    ensures AllAnswered(Steps(s, events).acks) <==> s.entering.Keys == {} && NothingComes(s, events)
  {
    if s.entering.Keys == {} {
      QuietStays(s, events);
    } else {
      var id := Member(s.entering.Keys);
      assert Told(s.acks, id) == [Accepted];
      hide Inv, Steps, AllAnswered;
      LateForEver(s, events, id);
      StillOpen(Steps(s, events).acks, id);
    }
  }

  /** It does happen: a thread that was told "accepted" loses the race with the shutdown. */
  lemma LateCommandIsLost()
    ensures var c := Command(7, Land, 0);
      var s := Steps(START, [HandIn(c), RequestStop, StartDraining, StopDraining, Push(7)]);
      s.worker.Gone? && s.queue == [c] && Told(s.acks, 7) == [Accepted]
  {
    var c := Command(7, Land, 0);
    var a := Step(START, HandIn(c));
    assert a.entering == map[7 := c] && a.acks == [Ack(7, Accepted)];
    ToldPlus([], Ack(7, Accepted));
    assert [] + [Ack(7, Accepted)] == a.acks;
    assert Steps(START, [HandIn(c), RequestStop, StartDraining, StopDraining, Push(7)])
        == Steps(a, [RequestStop, StartDraining, StopDraining, Push(7)]);
    var b := Step(Step(Step(a, RequestStop), StartDraining), StopDraining);
    assert Steps(a, [RequestStop, StartDraining, StopDraining, Push(7)]) == Step(b, Push(7)) by {
      var d := Step(a, RequestStop);
      assert Steps(a, [RequestStop, StartDraining, StopDraining, Push(7)]) == Steps(d, [StartDraining, StopDraining, Push(7)]);
      assert Steps(d, [StartDraining, StopDraining, Push(7)]) == Steps(Step(d, StartDraining), [StopDraining, Push(7)]);
      assert Steps(Step(d, StartDraining), [StopDraining, Push(7)]) == Steps(b, [Push(7)]);
      assert Steps(b, [Push(7)]) == Steps(Step(b, Push(7)), []);
    }
  }
}

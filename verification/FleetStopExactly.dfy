/** What one stop request does to every ward and to the table, whatever outcomes are reported while its
    commands are being dispatched: its own, in or out of turn, those of other stops, or strangers'. */
module FleetStopExactly {
  import opened Options
  import opened FleetMissions
  import opened FleetMissionProofs

  /** The first outcome among these that ends a command. */
  function FirstFor(acks: seq<Ack>, command: Id): Option<Outcome>
    decreases acks
  {
    if acks == [] then None
    else if acks[0].command == command && acks[0].outcome != NotTerminal then Some(acks[0].outcome)
    else FirstFor(acks[1..], command)
  }

  lemma {:induction false} FirstForConcat(a: seq<Ack>, b: seq<Ack>, command: Id)
    ensures FirstFor(a + b, command) == if FirstFor(a, command).Some? then FirstFor(a, command) else FirstFor(b, command)
    ensures FirstFor(a, command) != Some(NotTerminal)
    decreases a
  {
    if a == [] {
      assert a + b == b;
    } else {
      assert (a + b)[1..] == a[1..] + b;
      FirstForConcat(a[1..], b, command);
    }
  }

  /** What a ward's row must read once its stop has succeeded, been rejected for a reason, or timed out:
      only a success leaves it stopped, and otherwise it is active and says why. */
  function Ended(missionId: Option<Id>, outcome: Outcome): WardRow {
    match outcome
    case Success => WardRow(Stopped, "", missionId)
    case RejectedBy(reason) => WardRow(Active, reason, missionId)
    case _ => WardRow(Active, "stop command timed out", missionId)
  }

  /** A row once the outcome of its stop command is known, if it is. */
  function Closing(row: Option<WardRow>, outcome: Option<Outcome>): Option<WardRow> {
    if row.None? || outcome.None? then row else Some(Ended(row.value.missionId, outcome.value))
  }

  function PendingRow(store: Store, stop: PendingStop): Option<WardRow> {
    RowAt(store, stop.mission, stop.ward)
  }

  // ----- Any outcomes at all -----

  /** Each pending command has the first outcome that ends it take effect on its ward; no row that is not
      being stopped changes. */
  ghost predicate RowsFollow(store: Store, store': Store, pending: Pending, acks: seq<Ack>) {
    && (forall c :: c in pending ==> PendingRow(store', pending[c]) == Closing(PendingRow(store, pending[c]), FirstFor(acks, c)))
    && (forall m, w :: !StoppingAt(store, m, w) ==> RowAt(store', m, w) == RowAt(store, m, w))
  }

  /** A command leaves the table with the first outcome that ends it. */
  ghost predicate TableFollows(pending: Pending, pending': Pending, acks: seq<Ack>) {
    && (forall c :: c in pending' <==> c in pending && FirstFor(acks, c) == None)
    && (forall c :: c in pending' ==> pending'[c] == pending[c])
  }

  /** A mission's aggregate moves only from stopping to stopped, and does so with its last ward. */
  predicate StatusFollows(m: Mission, m': Mission) {
    m'.status == if m.status == FleetStopping && AllSettled(m') then FleetStopped else m.status
  }

  ghost predicate StatusesFollow(store: Store, store': Store) {
    forall m :: m in store && m in store' ==> StatusFollows(store[m], store'[m])
  }

  ghost predicate AckedExactly(s: State, t: State, acks: seq<Ack>) {
    && Framed(s, t) && t.nextId == s.nextId
    && RowsFollow(s.store, t.store, s.pending, acks)
    && TableFollows(s.pending, t.pending, acks)
    && StatusesFollow(s.store, t.store)
  }

  /** Everything but the rows and status of one mission is as before. */
  ghost predicate OnlyMission(s: State, t: State, mission: Id) {
    && Framed(s, t)
    && (forall m :: m in s.store && m != mission ==> t.store[m] == s.store[m])
  }

  lemma AnsweredExactly(u: State, c: Id, outcome: Outcome)
    requires c in u.pending && outcome != NotTerminal
    requires RowAt(u.store, u.pending[c].mission, u.pending[c].ward).Some?
    ensures var stop := u.pending[c];
            var t := AfterAck(u, Ack(c, outcome));
            && OnlyMission(u, t, stop.mission)
            && t.nextId == u.nextId && t.pending == u.pending - {c}
            && (forall w :: RowAt(t.store, stop.mission, w)
                  == if w == stop.ward then Some(Ended(u.store[stop.mission].wards[w].missionId, outcome))
                     else RowAt(u.store, stop.mission, w))
            && (u.store[stop.mission].status != FleetStopped ==> StatusFollows(u.store[stop.mission], t.store[stop.mission]))
  {
  }

  lemma OneFirst(ack: Ack)
    ensures forall c :: FirstFor([ack], c) == if ack.command == c && ack.outcome != NotTerminal then Some(ack.outcome) else None
  {
    assert [ack][1..] == [];
  }

  lemma SameStatusFollows(s: State)
    requires Inv(s)
    ensures StatusesFollow(s.store, s.store)
  {
    hide Matched, ShapesSound, UploadsDistinct, NamesFresh, Listed;
    forall m | m in s.store ensures StatusFollows(s.store[m], s.store[m]) {
      assert AggregateSound(s.store[m]);
    }
  }

  lemma NothingFollows(s: State, acks: seq<Ack>)
    requires Inv(s) && forall c :: c in s.pending ==> FirstFor(acks, c) == None
    ensures AckedExactly(s, s, acks)
  {
    SameStatusFollows(s);
    hide Inv, FirstFor, StatusesFollow;
  }

  lemma NotYetStopped(s: State, stop: PendingStop)
    requires Inv(s) && StoppingAt(s.store, stop.mission, stop.ward)
    ensures s.store[stop.mission].status != FleetStopped
  {
    hide Matched, ShapesSound, UploadsDistinct, NamesFresh, Listed;
    assert AggregateSound(s.store[stop.mission]);
    assert !Settled(s.store[stop.mission].wards[stop.ward]);
  }

  /** The pending stops are of different wards. */
  lemma PendingApart(s: State, c: Id, d: Id)
    requires Inv(s) && c in s.pending && d in s.pending && c != d
    ensures s.pending[c] != s.pending[d]
  {
    hide ShapesSound, UploadsDistinct, NamesFresh, Listed, AggregatesSound, StoppingAt, InFlight;
  }

  lemma AnsweredRows(s: State, t: State, command: Id, outcome: Outcome)
    requires Inv(s) && command in s.pending && outcome != NotTerminal
    requires t == AfterAck(s, Ack(command, outcome))
    ensures RowsFollow(s.store, t.store, s.pending, [Ack(command, outcome)])
  {
    var stop := s.pending[command];
    PendingIsStopping(s.store, s.pending, command);
    AnsweredExactly(s, command, outcome);
    OneFirst(Ack(command, outcome));
    hide FirstFor, AfterAck;
    assert forall m, w :: m != stop.mission || w != stop.ward ==> RowAt(t.store, m, w) == RowAt(s.store, m, w);
    forall c | c in s.pending && c != command ensures s.pending[c] != stop {
      PendingApart(s, c, command);
    }
  }

  lemma AckExactly(s: State, ack: Ack)
    requires Inv(s)
    ensures AckedExactly(s, AfterAck(s, ack), [ack])
  {
    OneFirst(ack);
    if ack.outcome != NotTerminal && ack.command in s.pending {
      var stop := s.pending[ack.command];
      var t := AfterAck(s, ack);
      PendingIsStopping(s.store, s.pending, ack.command);
      SameStatusFollows(s);
      NotYetStopped(s, stop);
      AnsweredExactly(s, ack.command, ack.outcome);
      assert ack == Ack(ack.command, ack.outcome);
      AnsweredRows(s, t, ack.command, ack.outcome);
      hide Inv, FirstFor, AfterAck, RowsFollow, StatusFollows, RowAt;
    } else {
      hide FirstFor;
      NothingFollows(s, [ack]);
    }
  }

  lemma RowsCompose(store: Store, store': Store, store'': Store, pending: Pending, pending': Pending, a: seq<Ack>, b: seq<Ack>)
    requires RowsFollow(store, store', pending, a) && RowsFollow(store', store'', pending', b)
    requires TableFollows(pending, pending', a)
    requires forall c :: c in pending ==> StoppingAt(store, pending[c].mission, pending[c].ward)
    ensures RowsFollow(store, store'', pending, a + b)
  {
    forall c ensures FirstFor(a + b, c) == if FirstFor(a, c).Some? then FirstFor(a, c) else FirstFor(b, c) {
      FirstForConcat(a, b, c);
    }
    hide FirstFor, RowAt;
  }

  lemma TableComposes(pending: Pending, pending': Pending, pending'': Pending, a: seq<Ack>, b: seq<Ack>)
    requires TableFollows(pending, pending', a) && TableFollows(pending', pending'', b)
    ensures TableFollows(pending, pending'', a + b)
  {
    forall c ensures FirstFor(a + b, c) == if FirstFor(a, c).Some? then FirstFor(a, c) else FirstFor(b, c) {
      FirstForConcat(a, b, c);
    }
    hide FirstFor;
  }

  /** Settled wards stay settled, so a mission that was stopped stays so. */
  lemma StatusesCompose(s: State, t: State, u: State)
    requires Framed(s, t) && Framed(t, u) && StatusesFollow(s.store, t.store) && StatusesFollow(t.store, u.store)
    requires forall m, w :: !StoppingAt(t.store, m, w) ==> RowAt(u.store, m, w) == RowAt(t.store, m, w)
    ensures StatusesFollow(s.store, u.store)
  {
    forall m | m in s.store ensures StatusFollows(s.store[m], u.store[m]) {
      assert StatusFollows(s.store[m], t.store[m]) && StatusFollows(t.store[m], u.store[m]);
      assert SameRoutes(t.store[m], u.store[m]);
      if AllSettled(t.store[m]) {
        forall w | w in u.store[m].wards ensures Settled(u.store[m].wards[w]) {
          assert !StoppingAt(t.store, m, w);
          assert RowAt(u.store, m, w) == RowAt(t.store, m, w);
        }
      }
    }
  }

  lemma AckedComposes(s: State, t: State, u: State, a: seq<Ack>, b: seq<Ack>)
    requires AckedExactly(s, t, a) && AckedExactly(t, u, b)
    requires Matched(s.store, s.pending)
    ensures AckedExactly(s, u, a + b)
  {
    FramedTransitive(s, t, u);
    StatusesCompose(s, t, u);
    hide FirstFor, StatusesFollow, Framed;
    RowsCompose(s.store, t.store, u.store, s.pending, t.pending, a, b);
    hide RowsFollow;
    TableComposes(s.pending, t.pending, u.pending, a, b);
  }

  /** Any outcomes, in any order, about any commands. */
  lemma {:induction false} AcksExactly(s: State, acks: seq<Ack>)
    requires Inv(s)
    ensures AckedExactly(s, AfterAcks(s, acks), acks) && Inv(AfterAcks(s, acks))
    decreases acks
  {
    if acks == [] {
      NothingFollows(s, acks);
    } else {
      AckExactly(s, acks[0]);
      AfterAckKeeps(s, acks[0]);
      assert Matched(s.store, s.pending);
      hide Inv, Matched, AckedExactly, AfterAck;
      AcksExactly(AfterAck(s, acks[0]), acks[1..]);
      AckedComposes(s, AfterAck(s, acks[0]), AfterAcks(s, acks), [acks[0]], acks[1..]);
      assert [acks[0]] + acks[1..] == acks;
    }
  }

  // ----- The loop over the wards -----

  predicate LiveIn(wards: map<Id, WardRow>, order: seq<Id>, w: Id) {
    w in order && w in wards && Live(wards[w])
  }

  /** The name for the next command, once this ward has been visited. */
  function NextAfter(wards: map<Id, WardRow>, w: Id, next: Id): Id {
    if w in wards && Live(wards[w]) then next + 1 else next
  }

  /** The name of the command that stops a ward. */
  function CommandFor(wards: map<Id, WardRow>, order: seq<Id>, next: Id, w: Id): Id
    decreases order
  {
    if order == [] || order[0] == w then next else CommandFor(wards, order[1..], NextAfter(wards, order[0], next), w)
  }

  /** Everything reported from here to the end of the loop. */
  function AcksFrom(wards: map<Id, WardRow>, order: seq<Id>, during: map<Id, seq<Delivery>>, next: Id): seq<Ack>
    decreases order
  {
    if order == [] then []
    else
      var here := if order[0] in wards && Live(wards[order[0]]) then AcksOf(DeliveriesFor(during, order[0]), next) else [];
      here + AcksFrom(wards, order[1..], during, NextAfter(wards, order[0], next))
  }

  /** What is reported from the dispatch of a ward's command on. */
  function AcksSince(wards: map<Id, WardRow>, order: seq<Id>, during: map<Id, seq<Delivery>>, next: Id, w: Id): seq<Ack>
    decreases order
  {
    if order == [] then []
    else if order[0] == w then AcksFrom(wards, order, during, next)
    else AcksSince(wards, order[1..], during, NextAfter(wards, order[0], next), w)
  }

  /** How the stop command of a ward has ended by the end of the loop, if it has. */
  function OutcomeOf(wards: map<Id, WardRow>, order: seq<Id>, during: map<Id, seq<Delivery>>, next: Id, w: Id): Option<Outcome> {
    FirstFor(AcksSince(wards, order, during, next, w), CommandFor(wards, order, next, w))
  }

  function SentRow(row: WardRow): WardRow {
    WardRow(Stopping, "", row.missionId)
  }

  /** Live wards have been stopped and answered as their own commands were; wards whose stop was already
      pending as theirs were; all other rows of all missions are as before. */
  ghost predicate LoopRows(store: Store, store': Store, pending: Pending, mission: Id, wards: map<Id, WardRow>,
                           order: seq<Id>, during: map<Id, seq<Delivery>>, next: Id)
  {
    && (forall w :: LiveIn(wards, order, w) ==>
          RowAt(store', mission, w) == Closing(Some(SentRow(wards[w])), OutcomeOf(wards, order, during, next, w)))
    && (forall c :: c in pending ==>
          PendingRow(store', pending[c]) == Closing(PendingRow(store, pending[c]), FirstFor(AcksFrom(wards, order, during, next), c)))
    && (forall m, w :: !StoppingAt(store, m, w) && !(m == mission && LiveIn(wards, order, w)) ==>
          RowAt(store', m, w) == RowAt(store, m, w))
  }

  predicate Unanswered(wards: map<Id, WardRow>, order: seq<Id>, during: map<Id, seq<Delivery>>, next: Id, w: Id) {
    LiveIn(wards, order, w) && OutcomeOf(wards, order, during, next, w) == None
  }

  /** The table has lost what was answered and gained one entry for each unanswered new command. */
  ghost predicate LoopTable(pending: Pending, pending': Pending, mission: Id, wards: map<Id, WardRow>,
                            order: seq<Id>, during: map<Id, seq<Delivery>>, next: Id)
  {
    && (forall c :: c in pending ==> (c in pending' <==> FirstFor(AcksFrom(wards, order, during, next), c) == None))
    && (forall c :: c in pending && c in pending' ==> pending'[c] == pending[c])
    && (forall w :: Unanswered(wards, order, during, next, w) ==>
          var c := CommandFor(wards, order, next, w); c !in pending && c in pending' && pending'[c] == PendingStop(mission, w))
    && (forall c :: c in pending' && c !in pending ==>
          && pending'[c].mission == mission && Unanswered(wards, order, during, next, pending'[c].ward)
          && c == CommandFor(wards, order, next, pending'[c].ward))
  }

  ghost predicate OthersFollow(store: Store, store': Store, mission: Id) {
    forall m :: m in store && m in store' && m != mission ==> StatusFollows(store[m], store'[m])
  }

  /** The live wards of the snapshot still to be visited are as it shows them. */
  ghost predicate AsShown(store: Store, mission: Id, wards: map<Id, WardRow>, order: seq<Id>) {
    && Distinct(order)
    && (forall w :: w in order ==> w in wards)
    && (forall w :: LiveIn(wards, order, w) ==> RowAt(store, mission, w) == Some(wards[w]))
  }

  ghost predicate LoopDone(s: State, t: State, mission: Id, wards: map<Id, WardRow>, order: seq<Id>,
                           during: map<Id, seq<Delivery>>)
  {
    && Framed(s, t)
    && LoopRows(s.store, t.store, s.pending, mission, wards, order, during, s.nextId)
    && LoopTable(s.pending, t.pending, mission, wards, order, during, s.nextId)
    && OthersFollow(s.store, t.store, mission)
  }

  /** The first ward of the loop and the others, whose outcomes are those of the rest of the loop. */
  lemma TurnAndRest(wards: map<Id, WardRow>, order: seq<Id>, during: map<Id, seq<Delivery>>, next: Id, w: Id)
    requires order != [] && Distinct(order)
    ensures w == order[0] ==>
      && !LiveIn(wards, order[1..], w)
      && OutcomeOf(wards, order, during, next, w) == FirstFor(AcksFrom(wards, order, during, next), next)
      && CommandFor(wards, order, next, w) == next
    ensures w != order[0] ==>
      var (rest, next') := (order[1..], NextAfter(wards, order[0], next));
      && (LiveIn(wards, order, w) <==> LiveIn(wards, rest, w))
      && OutcomeOf(wards, order, during, next, w) == OutcomeOf(wards, rest, during, next', w)
      && CommandFor(wards, order, next, w) == CommandFor(wards, rest, next', w)
      && Unanswered(wards, order, during, next, w) == Unanswered(wards, rest, during, next', w)
  {
    DistinctTail(order);
    hide FirstFor, AcksFrom, Live, Distinct, NextAfter;
  }

  lemma AcksOfTurn(wards: map<Id, WardRow>, order: seq<Id>, during: map<Id, seq<Delivery>>, next: Id, c: Id)
    requires order != [] && LiveIn(wards, order, order[0])
    ensures var (first, later) := (FirstFor(AcksOf(DeliveriesFor(during, order[0]), next), c),
                                   FirstFor(AcksFrom(wards, order[1..], during, next + 1), c));
      FirstFor(AcksFrom(wards, order, during, next), c) == if first.Some? then first else later
  {
    FirstForConcat(AcksOf(DeliveriesFor(during, order[0]), next), AcksFrom(wards, order[1..], during, next + 1), c);
    hide FirstFor;
  }

  lemma RowsOfTurn(store: Store, sent: Store, answered: Store, last: Store, pending: Pending, after: Pending, mission: Id,
                   wards: map<Id, WardRow>, order: seq<Id>, during: map<Id, seq<Delivery>>, next: Id, acks: seq<Ack>)
    requires order != [] && AsShown(store, mission, wards, order) && LiveIn(wards, order, order[0])
    requires next !in pending && forall c :: c in pending ==> StoppingAt(store, pending[c].mission, pending[c].ward)
    requires forall m, w :: RowAt(sent, m, w) == if m == mission && w == order[0] then Some(SentRow(wards[w])) else RowAt(store, m, w)
    requires acks == AcksOf(DeliveriesFor(during, order[0]), next)
    requires RowsFollow(sent, answered, pending[next := PendingStop(mission, order[0])], acks)
    requires TableFollows(pending[next := PendingStop(mission, order[0])], after, acks)
    requires LoopRows(answered, last, after, mission, wards, order[1..], during, next + 1)
    ensures LoopRows(store, last, pending, mission, wards, order, during, next)
  {
    assert NextAfter(wards, order[0], next) == next + 1;
    assert forall w :: LiveIn(wards, order, w) ==> Live(wards[w]);
    hide FirstFor, RowAt, AcksFrom, AcksOf, OutcomeOf, CommandFor, LiveIn, NextAfter, Distinct;
    var (w0, rest) := (order[0], order[1..]);
    TurnAndRest(wards, order, during, next, w0);
    forall w | LiveIn(wards, order, w)
      ensures RowAt(last, mission, w) == Closing(Some(SentRow(wards[w])), OutcomeOf(wards, order, during, next, w))
    {
      if w == w0 {
        AcksOfTurn(wards, order, during, next, next);
        OpenOrClosed(sent, answered, last, pending[next := PendingStop(mission, w0)], after, mission, wards, rest, during, next + 1, acks, next);
      } else {
        TurnAndRest(wards, order, during, next, w);
      }
    }
    forall c | c in pending
      ensures PendingRow(last, pending[c]) == Closing(PendingRow(store, pending[c]), FirstFor(AcksFrom(wards, order, during, next), c))
    {
      AcksOfTurn(wards, order, during, next, c);
      TurnAndRest(wards, order, during, next, pending[c].ward);
      OpenOrClosed(sent, answered, last, pending[next := PendingStop(mission, w0)], after, mission, wards, rest, during, next + 1, acks, c);
    }
    forall m, w | !StoppingAt(store, m, w) && !(m == mission && LiveIn(wards, order, w))
      ensures RowAt(last, m, w) == RowAt(store, m, w)
    {
      TurnAndRest(wards, order, during, next, w);
    }
  }

  /** A pending command is either answered in this turn, for good, or left to the rest of the loop. */
  lemma OpenOrClosed(sent: Store, answered: Store, last: Store, pending: Pending, after: Pending, mission: Id,
                     wards: map<Id, WardRow>, rest: seq<Id>, during: map<Id, seq<Delivery>>, next: Id, acks: seq<Ack>, c: Id)
    requires c in pending && PendingRow(sent, pending[c]).Some?
    requires RowsFollow(sent, answered, pending, acks) && TableFollows(pending, after, acks)
    requires LoopRows(answered, last, after, mission, wards, rest, during, next)
    requires !(pending[c].mission == mission && LiveIn(wards, rest, pending[c].ward))
    ensures var (first, later) := (FirstFor(acks, c), FirstFor(AcksFrom(wards, rest, during, next), c));
      PendingRow(last, pending[c]) == Closing(PendingRow(sent, pending[c]), if first.Some? then first else later)
  {
    FirstForConcat(acks, [], c);
    hide FirstFor, RowAt, AcksFrom, OutcomeOf, LiveIn;
  }

  lemma TableOfTurn(pending: Pending, after: Pending, last: Pending, mission: Id, wards: map<Id, WardRow>, order: seq<Id>,
                    during: map<Id, seq<Delivery>>, next: Id, acks: seq<Ack>)
    requires order != [] && Distinct(order) && LiveIn(wards, order, order[0])
    requires next !in pending && forall c :: c in pending ==> c < next
    requires acks == AcksOf(DeliveriesFor(during, order[0]), next)
    requires TableFollows(pending[next := PendingStop(mission, order[0])], after, acks)
    requires LoopTable(after, last, mission, wards, order[1..], during, next + 1)
    ensures LoopTable(pending, last, mission, wards, order, during, next)
  {
    var (w0, rest) := (order[0], order[1..]);
    assert NextAfter(wards, w0, next) == next + 1;
    hide FirstFor, AcksFrom, AcksOf, OutcomeOf, CommandFor, LiveIn, NextAfter, Distinct;
    TurnAndRest(wards, order, during, next, w0);
    forall c | c in pending
      ensures c in last <==> FirstFor(AcksFrom(wards, order, during, next), c) == None
      ensures c in last ==> last[c] == pending[c]
    {
      AcksOfTurn(wards, order, during, next, c);
      if c in last && c !in after {
        CommandsAhead(wards, rest, next + 1, last[c].ward);
      }
    }
    AcksOfTurn(wards, order, during, next, next);
    forall w | Unanswered(wards, order, during, next, w)
      ensures var c := CommandFor(wards, order, next, w); c !in pending && c in last && last[c] == PendingStop(mission, w)
    {
      TurnAndRest(wards, order, during, next, w);
      CommandsAhead(wards, order, next, w);
    }
    forall c | c in last && c !in pending
      ensures last[c].mission == mission && Unanswered(wards, order, during, next, last[c].ward)
      ensures c == CommandFor(wards, order, next, last[c].ward)
    {
      TurnAndRest(wards, order, during, next, last[c].ward);
      if c == next && c !in after {
        CommandsAhead(wards, rest, next + 1, last[c].ward);
      }
    }
  }

  lemma {:induction false} CommandsAhead(wards: map<Id, WardRow>, order: seq<Id>, next: Id, w: Id)
    ensures CommandFor(wards, order, next, w) >= next
    decreases order
  {
    if order != [] && order[0] != w {
      CommandsAhead(wards, order[1..], NextAfter(wards, order[0], next), w);
    }
  }

  /** A ward that is not stopped here leaves everything to the rest of the loop. */
  lemma SkippedWard(wards: map<Id, WardRow>, order: seq<Id>, during: map<Id, seq<Delivery>>, next: Id, w: Id)
    requires order != [] && Distinct(order) && order[0] in wards && !Live(wards[order[0]])
    ensures LiveIn(wards, order, w) == LiveIn(wards, order[1..], w)
    ensures LiveIn(wards, order, w) ==>
      && w in wards
      && OutcomeOf(wards, order, during, next, w) == OutcomeOf(wards, order[1..], during, next, w)
      && CommandFor(wards, order, next, w) == CommandFor(wards, order[1..], next, w)
    ensures Unanswered(wards, order, during, next, w) == Unanswered(wards, order[1..], during, next, w)
    ensures Unanswered(wards, order, during, next, w) ==>
      CommandFor(wards, order, next, w) == CommandFor(wards, order[1..], next, w)
    ensures AcksFrom(wards, order, during, next) == AcksFrom(wards, order[1..], during, next)
  {
    TurnAndRest(wards, order, during, next, w);
    hide FirstFor, OutcomeOf, CommandFor, Distinct;
  }

  lemma SkippedRows(store: Store, last: Store, pending: Pending, mission: Id, wards: map<Id, WardRow>, order: seq<Id>,
                    during: map<Id, seq<Delivery>>, next: Id)
    requires order != [] && Distinct(order) && order[0] in wards && !Live(wards[order[0]])
    requires LoopRows(store, last, pending, mission, wards, order[1..], during, next)
    ensures LoopRows(store, last, pending, mission, wards, order, during, next)
  {
    hide FirstFor, AcksFrom, OutcomeOf, LiveIn, CommandFor, RowAt, Distinct, Unanswered, Live;
    SkippedWard(wards, order, during, next, order[0]);
    forall w ensures LiveIn(wards, order, w) == LiveIn(wards, order[1..], w) && (LiveIn(wards, order, w) ==> w in wards) {
      SkippedWard(wards, order, during, next, w);
    }
    forall w | LiveIn(wards, order, w)
      ensures RowAt(last, mission, w) == Closing(Some(SentRow(wards[w])), OutcomeOf(wards, order, during, next, w))
    {
      SkippedWard(wards, order, during, next, w);
    }
  }

  lemma SkippedTable(pending: Pending, last: Pending, mission: Id, wards: map<Id, WardRow>, order: seq<Id>,
                     during: map<Id, seq<Delivery>>, next: Id)
    requires order != [] && Distinct(order) && order[0] in wards && !Live(wards[order[0]])
    requires LoopTable(pending, last, mission, wards, order[1..], during, next)
    ensures LoopTable(pending, last, mission, wards, order, during, next)
  {
    hide FirstFor, AcksFrom, OutcomeOf, LiveIn, CommandFor, Distinct, Unanswered, Live;
    SkippedWard(wards, order, during, next, order[0]);
    forall w | Unanswered(wards, order, during, next, w)
      ensures var c := CommandFor(wards, order, next, w); c !in pending && c in last && last[c] == PendingStop(mission, w)
    {
      SkippedWard(wards, order, during, next, w);
    }
    forall c | c in last && c !in pending
      ensures last[c].mission == mission && Unanswered(wards, order, during, next, last[c].ward)
      ensures c == CommandFor(wards, order, next, last[c].ward)
    {
      SkippedWard(wards, order, during, next, last[c].ward);
    }
  }

  lemma SkippedTurn(s: State, t: State, mission: Id, wards: map<Id, WardRow>, order: seq<Id>, during: map<Id, seq<Delivery>>)
    requires order != [] && Distinct(order) && order[0] in wards && !Live(wards[order[0]])
    requires LoopDone(s, t, mission, wards, order[1..], during)
    ensures LoopDone(s, t, mission, wards, order, during)
  {
    hide LoopRows, LoopTable, Framed, OthersFollow, Distinct;
    SkippedRows(s.store, t.store, s.pending, mission, wards, order, during, s.nextId);
    SkippedTable(s.pending, t.pending, mission, wards, order, during, s.nextId);
  }

  lemma SentFollows(s: State, u: State, v: State, t: State, mission: Id)
    requires Framed(s, u) && Framed(u, v) && Framed(v, t)
    requires forall m :: m in s.store && m != mission ==> u.store[m] == s.store[m]
    requires StatusesFollow(u.store, v.store) && OthersFollow(v.store, t.store, mission)
    requires forall m, w :: m != mission && !StoppingAt(v.store, m, w) ==> RowAt(t.store, m, w) == RowAt(v.store, m, w)
    ensures Framed(s, t) && OthersFollow(s.store, t.store, mission)
  {
    FramedTransitive(s, u, v);
    FramedTransitive(s, v, t);
    forall m | m in s.store && m != mission ensures StatusFollows(s.store[m], t.store[m]) {
      assert StatusFollows(u.store[m], v.store[m]) && StatusFollows(v.store[m], t.store[m]);
      assert SameRoutes(v.store[m], t.store[m]);
      if AllSettled(v.store[m]) {
        forall w | w in t.store[m].wards ensures Settled(t.store[m].wards[w]) {
          assert RowAt(t.store, m, w) == RowAt(v.store, m, w);
        }
      }
    }
  }

  lemma SentOnly(s: State, mission: Id, ward: Id, missionId: Option<Id>)
    requires RowAt(s.store, mission, ward).Some?
    ensures var u := StopSent(s, mission, ward, missionId);
      && (forall m :: m in s.store && m != mission ==> u.store[m] == s.store[m])
      && u.pending == s.pending[s.nextId := PendingStop(mission, ward)] && u.nextId == s.nextId + 1
  {
  }

  /** The state between marking a ward and the first answer. */
  ghost predicate Marked(s: State, u: State, mission: Id, ward: Id, row: WardRow) {
    && Framed(s, u) && u.nextId == s.nextId + 1
    && u.pending == s.pending[s.nextId := PendingStop(mission, ward)]
    && (forall m :: m in s.store && m != mission ==> u.store[m] == s.store[m])
    && (forall m, w :: RowAt(u.store, m, w) == if m == mission && w == ward then Some(SentRow(row)) else RowAt(s.store, m, w))
  }

  lemma StopSentMarks(s: State, mission: Id, ward: Id, row: WardRow)
    requires RowAt(s.store, mission, ward).Some?
    ensures Marked(s, StopSent(s, mission, ward, row.missionId), mission, ward, row)
  {
    StopSentRows(s, mission, ward, row.missionId);
    SentOnly(s, mission, ward, row.missionId);
    hide StopSent, RowAt, Framed;
  }

  /** No pending command is named like the next one, and each is of a ward being stopped. */
  ghost predicate TableReady(s: State) {
    && (forall c :: c in s.pending ==> c < s.nextId)
    && (forall c :: c in s.pending ==> StoppingAt(s.store, s.pending[c].mission, s.pending[c].ward))
  }

  lemma InvTableReady(s: State)
    requires Inv(s)
    ensures TableReady(s)
  {
    hide StoppingAt, InFlight, ShapesSound, AggregatesSound, UploadsDistinct, Listed;
  }

  lemma LiveTurn(s: State, u: State, v: State, t: State, mission: Id, wards: map<Id, WardRow>, order: seq<Id>,
                 during: map<Id, seq<Delivery>>, acks: seq<Ack>)
    requires TableReady(s) && order != [] && AsShown(s.store, mission, wards, order) && LiveIn(wards, order, order[0])
    requires Marked(s, u, mission, order[0], wards[order[0]])
    requires acks == AcksOf(DeliveriesFor(during, order[0]), s.nextId) && AckedExactly(u, v, acks)
    requires LoopDone(v, t, mission, wards, order[1..], during)
    ensures LoopDone(s, t, mission, wards, order, during)
  {
    hide Framed, OthersFollow, AcksOf, AcksFrom, FirstFor, LiveIn, StoppingAt, LoopRows, LoopTable, RowsFollow, TableFollows, Live,
      StatusesFollow, RowAt, TableReady, Marked, AckedExactly, LoopDone, AsShown;
    ShownFirst(s.store, mission, wards, order);
    LiveTurnFrame(s, u, v, t, mission, wards, order, during, acks);
    LiveTurnRows(s, u, v, t, mission, wards, order, during, acks);
    LiveTurnTable(s, u, v, t, mission, wards, order, during, acks);
    LoopIsDone(s, t, mission, wards, order, during);
  }

  lemma ShownFirst(store: Store, mission: Id, wards: map<Id, WardRow>, order: seq<Id>)
    requires order != [] && AsShown(store, mission, wards, order)
    ensures Distinct(order) && order[0] in wards
  {
    assert order[0] in order;
    hide Distinct, LiveIn, RowAt;
  }

  lemma LoopIsDone(s: State, t: State, mission: Id, wards: map<Id, WardRow>, order: seq<Id>, during: map<Id, seq<Delivery>>)
    requires Framed(s, t) && OthersFollow(s.store, t.store, mission)
    requires LoopRows(s.store, t.store, s.pending, mission, wards, order, during, s.nextId)
    requires LoopTable(s.pending, t.pending, mission, wards, order, during, s.nextId)
    ensures LoopDone(s, t, mission, wards, order, during)
  {
  }

  lemma LiveTurnRows(s: State, u: State, v: State, t: State, mission: Id, wards: map<Id, WardRow>, order: seq<Id>,
                     during: map<Id, seq<Delivery>>, acks: seq<Ack>)
    requires TableReady(s) && order != [] && AsShown(s.store, mission, wards, order) && LiveIn(wards, order, order[0])
    requires order[0] in wards && Marked(s, u, mission, order[0], wards[order[0]])
    requires acks == AcksOf(DeliveriesFor(during, order[0]), s.nextId) && AckedExactly(u, v, acks)
    requires v.nextId == s.nextId + 1 && LoopDone(v, t, mission, wards, order[1..], during)
    ensures LoopRows(s.store, t.store, s.pending, mission, wards, order, during, s.nextId)
  {
    hide Framed, OthersFollow, AcksOf, AcksFrom, FirstFor, LiveIn, StoppingAt, LoopRows, LoopTable, RowsFollow, TableFollows, Live,
      StatusesFollow, RowAt, AsShown;
    RowsOfTurn(s.store, u.store, v.store, t.store, s.pending, v.pending, mission, wards, order, during, s.nextId, acks);
  }

  lemma LiveTurnTable(s: State, u: State, v: State, t: State, mission: Id, wards: map<Id, WardRow>, order: seq<Id>,
                      during: map<Id, seq<Delivery>>, acks: seq<Ack>)
    requires TableReady(s) && order != [] && Distinct(order) && LiveIn(wards, order, order[0])
    requires order[0] in wards && Marked(s, u, mission, order[0], wards[order[0]])
    requires acks == AcksOf(DeliveriesFor(during, order[0]), s.nextId) && AckedExactly(u, v, acks)
    requires v.nextId == s.nextId + 1 && LoopDone(v, t, mission, wards, order[1..], during)
    ensures LoopTable(s.pending, t.pending, mission, wards, order, during, s.nextId)
  {
    hide Framed, OthersFollow, AcksOf, AcksFrom, FirstFor, LiveIn, StoppingAt, LoopRows, LoopTable, RowsFollow, TableFollows, Live,
      StatusesFollow, RowAt, Distinct;
    TableOfTurn(s.pending, v.pending, t.pending, mission, wards, order, during, s.nextId, acks);
  }

  lemma LiveTurnFrame(s: State, u: State, v: State, t: State, mission: Id, wards: map<Id, WardRow>, order: seq<Id>,
                      during: map<Id, seq<Delivery>>, acks: seq<Ack>)
    requires order != [] && order[0] in wards && Marked(s, u, mission, order[0], wards[order[0]])
    requires AckedExactly(u, v, acks) && LoopDone(v, t, mission, wards, order[1..], during)
    ensures Framed(s, t) && OthersFollow(s.store, t.store, mission) && v.nextId == s.nextId + 1
  {
    hide Framed, OthersFollow, FirstFor, LiveIn, StoppingAt, LoopRows, LoopTable, RowsFollow, TableFollows, StatusesFollow, RowAt;
    RestKeepsOthers(v.store, t.store, v.pending, mission, wards, order[1..], during, v.nextId);
    SentFollows(s, u, v, t, mission);
  }

  lemma RestKeepsOthers(store: Store, last: Store, pending: Pending, mission: Id, wards: map<Id, WardRow>, order: seq<Id>,
                        during: map<Id, seq<Delivery>>, next: Id)
    requires LoopRows(store, last, pending, mission, wards, order, during, next)
    ensures forall m, w :: m != mission && !StoppingAt(store, m, w) ==> RowAt(last, m, w) == RowAt(store, m, w)
  {
    hide RowAt, LiveIn, OutcomeOf, AcksFrom, FirstFor;
  }

  lemma ShownToRest(s: State, u: State, v: State, mission: Id, wards: map<Id, WardRow>, order: seq<Id>, acks: seq<Ack>)
    requires order != [] && AsShown(s.store, mission, wards, order) && LiveIn(wards, order, order[0])
    requires Marked(s, u, mission, order[0], wards[order[0]]) && AckedExactly(u, v, acks)
    ensures AsShown(v.store, mission, wards, order[1..])
  {
    DistinctTail(order);
    assert forall w :: w in order <==> w == order[0] || w in order[1..];
    hide RowAt, FirstFor, Framed, TableFollows, StatusesFollow;
  }

  lemma ShownAfterSkip(store: Store, mission: Id, wards: map<Id, WardRow>, order: seq<Id>)
    requires order != [] && AsShown(store, mission, wards, order)
    ensures AsShown(store, mission, wards, order[1..])
  {
    DistinctTail(order);
    assert forall w :: w in order <==> w == order[0] || w in order[1..];
    hide RowAt;
  }

  lemma TurnTaken(s: State, mission: Id, wards: map<Id, WardRow>, order: seq<Id>, deliveries: seq<Delivery>)
    requires Inv(s) && order != [] && AsShown(s.store, mission, wards, order) && LiveIn(wards, order, order[0])
    ensures var (w, row) := (order[0], wards[order[0]]);
      var (u, v) := (StopSent(s, mission, w, row.missionId), StopWard(s, mission, w, row.missionId, deliveries));
      Marked(s, u, mission, w, row) && AckedExactly(u, v, AcksOf(deliveries, s.nextId)) && Inv(v)
  {
    var (w, row) := (order[0], wards[order[0]]);
    assert RowAt(s.store, mission, w) == Some(row) && s.store[mission].wards[w] == row;
    StopSentMarks(s, mission, w, row);
    StopSentKeeps(s, mission, w);
    hide Inv, Marked, AckedExactly, StopSent, AfterAcks, RowAt;
    AcksExactly(StopSent(s, mission, w, row.missionId), AcksOf(deliveries, s.nextId));
  }

  lemma NothingLooped(s: State, mission: Id, wards: map<Id, WardRow>, order: seq<Id>, during: map<Id, seq<Delivery>>)
    requires Inv(s) && order == []
    ensures LoopDone(s, s, mission, wards, order, during)
  {
    SameStatusFollows(s);
    hide Inv, StatusFollows;
  }

  lemma {:induction false} LoopExactly(s: State, mission: Id, wards: map<Id, WardRow>, order: seq<Id>, during: map<Id, seq<Delivery>>)
    requires Inv(s) && AsShown(s.store, mission, wards, order)
    ensures Inv(StopWards(s, mission, wards, order, during))
    ensures LoopDone(s, StopWards(s, mission, wards, order, during), mission, wards, order, during)
    decreases order
  {
    if order == [] {
      NothingLooped(s, mission, wards, order, during);
      hide Inv, LoopDone;
    } else {
      var (w, rest) := (order[0], order[1..]);
      ShownFirst(s.store, mission, wards, order);
      assert w in order && (LiveIn(wards, order, w) <==> Live(wards[w]));
      hide Inv, LoopDone, AckedExactly, StopSent, StopWard, RowAt, Marked, Distinct, Live, LiveIn, AcksOf, AsShown;
      if Live(wards[w]) {
        var ds := DeliveriesFor(during, w);
        TurnTaken(s, mission, wards, order, ds);
        var (u, v) := (StopSent(s, mission, w, wards[w].missionId), StopWard(s, mission, w, wards[w].missionId, ds));
        ShownToRest(s, u, v, mission, wards, order, AcksOf(ds, s.nextId));
        LoopExactly(v, mission, wards, rest, during);
        InvTableReady(s);
        LiveTurn(s, u, v, StopWards(v, mission, wards, rest, during), mission, wards, order, during, AcksOf(ds, s.nextId));
      } else {
        ShownAfterSkip(s.store, mission, wards, order);
        LoopExactly(s, mission, wards, rest, during);
        SkippedTurn(s, StopWards(s, mission, wards, rest, during), mission, wards, order, during);
      }
    }
  }

  // ----- The whole request -----

  function LiveWards(m: Mission): set<Id> {
    set w | w in m.wards && Live(m.wards[w])
  }

  lemma {:induction false} LiveCountIsSize(wards: map<Id, WardRow>, order: seq<Id>)
    requires Distinct(order) && forall w :: w in order ==> w in wards
    ensures LiveCount(wards, order) == |set w | w in order && Live(wards[w])|
  {
    var live := set w | w in order && Live(wards[w]);
    if order != [] {
      var w, rest := order[0], order[1..];
      DistinctTail(order);
      assert w in order && forall w' :: w' in order <==> w' == w || w' in rest;
      LiveCountIsSize(wards, rest);
      var fewer := set w' | w' in rest && Live(wards[w']);
      if Live(wards[w]) {
        assert live == fewer + {w} && w !in fewer;
      } else {
        assert live == fewer;
      }
    }
  }

  lemma {:induction false} NoneLive(s: State, mission: Id, wards: map<Id, WardRow>, order: seq<Id>,
                                    during: map<Id, seq<Delivery>>)
    requires LiveCount(wards, order) == 0
    ensures StopWards(s, mission, wards, order, during) == s
    decreases order
  {
    if order != [] { NoneLive(s, mission, wards, order[1..], during); }
  }

  lemma LiveWardsCounted(m: Mission)
    requires ShapeSound(m)
    ensures LiveCount(m.wards, m.order) == |LiveWards(m)|
  {
    LiveCountIsSize(m.wards, m.order);
    assert forall w :: w in m.order <==> w in m.wards;
    assert LiveWards(m) == set w | w in m.order && Live(m.wards[w]);
  }

  /** Closing the loop changes at most the aggregate status. */
  lemma StopClosed(t: State, mission: Id)
    requires mission in t.store
    ensures var u := Finalized(WithStatus(t, mission, FleetStopping), mission);
            && OnlyMission(t, u, mission) && u.pending == t.pending && mission in u.store
            && u.store[mission] == t.store[mission].(status := if AllSettled(t.store[mission]) then FleetStopped else FleetStopping)
  {
  }

  lemma RowsIgnoreStatus(s: State, t: State, u: State, mission: Id, wards: map<Id, WardRow>, order: seq<Id>,
                         during: map<Id, seq<Delivery>>)
    requires LoopDone(s, t, mission, wards, order, during) && OnlyMission(t, u, mission) && u.pending == t.pending
    requires mission in t.store && mission in u.store && u.store[mission].wards == t.store[mission].wards
    ensures LoopDone(s, u, mission, wards, order, during)
  {
    FramedTransitive(s, t, u);
    assert forall m, w :: RowAt(u.store, m, w) == RowAt(t.store, m, w);
    hide RowAt, LiveIn, OutcomeOf, AcksFrom, FirstFor, CommandFor, Unanswered, StatusFollows;
  }

  /** Stopping a mission, whatever outcomes are reported while its commands are being dispatched. Each live
      ward ends as the first outcome for its own command, from its dispatch on, has it: stopped, active
      again with the reason, or still stopping with exactly one new entry in the table. Wards of any
      mission whose stop was already pending end as the first outcome for theirs has it; no other row
      changes. The reply counts the live wards, and the aggregate status follows the wards. */
  lemma StopExactly(s: State, mission: Id, during: map<Id, seq<Delivery>>)
    requires Inv(s) && mission in s.store
    ensures var (t, reply) := AfterStop(s, mission, during);
      var m := s.store[mission];
      && Framed(s, t)
      && LoopRows(s.store, t.store, s.pending, mission, m.wards, m.order, during, s.nextId)
      && LoopTable(s.pending, t.pending, mission, m.wards, m.order, during, s.nextId)
      && OthersFollow(s.store, t.store, mission)
      && reply == Accepted(|LiveWards(m)|)
      && mission in t.store
      && t.store[mission].status
         == if LiveWards(m) == {} then m.status else if AllSettled(t.store[mission]) then FleetStopped else FleetStopping
  {
    var m := s.store[mission];
    var t := StopWards(s, mission, m.wards, m.order, during);
    ShownAll(s, mission);
    LiveWardsCounted(m);
    hide Inv, RowAt, ShapeSound, LoopRows, LoopTable, OthersFollow, AsShown;
    LoopExactly(s, mission, m.wards, m.order, during);
    if LiveWards(m) == {} {
      NoneLive(s, mission, m.wards, m.order, during);
    } else {
      LoopFrames(s, t, mission, m.wards, m.order, during);
      hide LoopDone, StopWards;
      StopClosed(t, mission);
      RowsIgnoreStatus(s, t, AfterStop(s, mission, during).0, mission, m.wards, m.order, during);
    }
    hide LoopDone;
    assert LoopDone(s, AfterStop(s, mission, during).0, mission, m.wards, m.order, during);
    LoopParts(s, AfterStop(s, mission, during).0, mission, m.wards, m.order, during);
  }

  lemma LoopParts(s: State, t: State, mission: Id, wards: map<Id, WardRow>, order: seq<Id>, during: map<Id, seq<Delivery>>)
    requires LoopDone(s, t, mission, wards, order, during)
    ensures Framed(s, t) && OthersFollow(s.store, t.store, mission)
    ensures LoopRows(s.store, t.store, s.pending, mission, wards, order, during, s.nextId)
    ensures LoopTable(s.pending, t.pending, mission, wards, order, during, s.nextId)
  {
  }

  lemma LoopFrames(s: State, t: State, mission: Id, wards: map<Id, WardRow>, order: seq<Id>, during: map<Id, seq<Delivery>>)
    requires LoopDone(s, t, mission, wards, order, during) && mission in s.store
    ensures mission in t.store
  {
  }

  lemma ShownAll(s: State, mission: Id)
    requires Inv(s) && mission in s.store
    ensures ShapeSound(s.store[mission]) && AsShown(s.store, mission, s.store[mission].wards, s.store[mission].order)
  {
    hide Matched, AggregatesSound, UploadsDistinct, NamesFresh, Listed;
    assert ShapeSound(s.store[mission]);
  }
}

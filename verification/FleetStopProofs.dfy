/** What stopping a fleet mission achieves, ward by ward, and that it always can be completed. */
module FleetStopProofs {
  import opened Options
  import opened FleetMissions
  import opened FleetMissionProofs
  import opened FleetStopExactly

  // ----- A stop whose commands are answered, if at all, by their own outcomes, each in its turn -----

  /** The first outcome that ends a command. */
  function FirstTerminal(deliveries: seq<Delivery>): Option<Outcome> {
    if deliveries == [] then None
    else if deliveries[0].Own? && deliveries[0].outcome != NotTerminal then Some(deliveries[0].outcome)
    else FirstTerminal(deliveries[1..])
  }

  predicate OwnOnly(deliveries: seq<Delivery>) {
    forall d :: d in deliveries ==> d.Own?
  }

  predicate AllOwn(during: map<Id, seq<Delivery>>) {
    forall w :: w in during ==> OwnOnly(during[w])
  }

  lemma {:induction false} IgnoredAcks(s: State, command: Id, acks: seq<Ack>)
    requires command !in s.pending
    requires forall a :: a in acks ==> a.command == command
    ensures AfterAcks(s, acks) == s
    decreases acks
  {
    if acks != [] {
      assert acks[0] in acks;
      IgnoredAcks(s, command, acks[1..]);
    }
  }

  /** Of several answers to one command only the first that ends it counts. */
  lemma {:induction false} OwnAcks(s: State, command: Id, deliveries: seq<Delivery>)
    requires OwnOnly(deliveries)
    requires command in s.pending
    ensures AfterAcks(s, AcksOf(deliveries, command))
         == match FirstTerminal(deliveries)
            case None => s
            case Some(outcome) => AfterAck(s, Ack(command, outcome))
    decreases deliveries
  {
    var acks := AcksOf(deliveries, command);
    if deliveries != [] {
      assert deliveries[0] in deliveries;
      var rest := deliveries[1..];
      assert acks[1..] == AcksOf(rest, command);
      if deliveries[0].outcome == NotTerminal {
        OwnAcks(s, command, rest);
      } else {
        var t := AfterAck(s, acks[0]);
        assert command !in t.pending;
        forall a | a in acks[1..] ensures a.command == command {
          var i :| 0 <= i < |rest| && acks[1..][i] == a;
          assert rest[i] in deliveries;
        }
        IgnoredAcks(t, command, acks[1..]);
      }
    }
  }

  lemma {:induction false} FirstOfOwn(deliveries: seq<Delivery>, command: Id, c: Id)
    requires OwnOnly(deliveries)
    ensures FirstFor(AcksOf(deliveries, command), c) == if c == command then FirstTerminal(deliveries) else None
    decreases deliveries
  {
    if deliveries != [] {
      assert deliveries[0] in deliveries;
      assert AcksOf(deliveries, command)[1..] == AcksOf(deliveries[1..], command);
      FirstOfOwn(deliveries[1..], command, c);
    }
  }

  lemma {:induction false} OwnAhead(wards: map<Id, WardRow>, order: seq<Id>, during: map<Id, seq<Delivery>>, next: Id, c: Id)
    requires AllOwn(during) && c < next
    ensures FirstFor(AcksFrom(wards, order, during, next), c) == None
    decreases order
  {
    if order != [] {
      var (w, rest) := (order[0], order[1..]);
      OwnAhead(wards, rest, during, NextAfter(wards, w, next), c);
      if w in wards && Live(wards[w]) {
        FirstOfOwn(DeliveriesFor(during, w), next, c);
        FirstForConcat(AcksOf(DeliveriesFor(during, w), next), AcksFrom(wards, rest, during, next + 1), c);
      } else {
        assert AcksFrom(wards, order, during, next) == AcksFrom(wards, rest, during, next);
      }
    }
  }

  lemma {:induction false} OwnOutcome(wards: map<Id, WardRow>, order: seq<Id>, during: map<Id, seq<Delivery>>, next: Id, w: Id)
    requires AllOwn(during) && LiveIn(wards, order, w)
    ensures OutcomeOf(wards, order, during, next, w) == FirstTerminal(DeliveriesFor(during, w))
    decreases order
  {
    var rest := order[1..];
    if order[0] == w {
      OwnAhead(wards, rest, during, next + 1, next);
      FirstOfOwn(DeliveriesFor(during, w), next, next);
      FirstForConcat(AcksOf(DeliveriesFor(during, w), next), AcksFrom(wards, rest, during, next + 1), next);
    } else {
      assert order == [order[0]] + rest;
      OwnOutcome(wards, rest, during, NextAfter(wards, order[0], next), w);
    }
  }

  /** Where a ward ends up when the mission is stopped. */
  function StoppedRow(row: WardRow, deliveries: seq<Delivery>): WardRow {
    if !Live(row) then row
    else
      match FirstTerminal(deliveries)
      case None => SentRow(row)
      case Some(outcome) => Ended(row.missionId, outcome)
  }

  lemma Kept(s: State, t: State, mission: Id, wards: map<Id, WardRow>, order: seq<Id>, during: map<Id, seq<Delivery>>, m: Id, w: Id)
    requires Matched(s.store, s.pending) && LoopRows(s.store, t.store, s.pending, mission, wards, order, during, s.nextId)
    requires forall c :: c in s.pending ==> FirstFor(AcksFrom(wards, order, during, s.nextId), c) == None
    requires !(m == mission && LiveIn(wards, order, w))
    ensures RowAt(t.store, m, w) == RowAt(s.store, m, w)
  {
    hide RowAt, FirstFor, AcksFrom, LiveIn, OutcomeOf;
    if StoppingAt(s.store, m, w) {
      var c :| c in s.pending && s.pending[c] == PendingStop(m, w);
      assert PendingRow(t.store, s.pending[c]) == PendingRow(s.store, s.pending[c]);
    }
  }

  /** If each dispatch is answered, if at all, by outcomes of that very command: every live ward ends up
      stopped, or active again with the reason, or stopping; all other rows and entries are untouched. */
  lemma StopOnItsOwn(s: State, mission: Id, during: map<Id, seq<Delivery>>)
    requires Inv(s) && mission in s.store && AllOwn(during)
    ensures var t := AfterStop(s, mission, during).0;
      && mission in t.store && t.store[mission].wards.Keys == s.store[mission].wards.Keys
      && (forall w :: w in s.store[mission].wards ==>
            t.store[mission].wards[w] == StoppedRow(s.store[mission].wards[w], DeliveriesFor(during, w)))
      && (forall m, w :: m != mission ==> RowAt(t.store, m, w) == RowAt(s.store, m, w))
      && (forall c :: c in s.pending ==> c in t.pending && t.pending[c] == s.pending[c])
  {
    var (m, t) := (s.store[mission], AfterStop(s, mission, during).0);
    StopExactly(s, mission, during);
    assert SameRoutes(m, t.store[mission]);
    ShownAll(s, mission);
    InvTableReady(s);
    forall c | c in s.pending ensures FirstFor(AcksFrom(m.wards, m.order, during, s.nextId), c) == None {
      OwnAhead(m.wards, m.order, during, s.nextId, c);
    }
    forall w | LiveIn(m.wards, m.order, w)
      ensures OutcomeOf(m.wards, m.order, during, s.nextId, w) == FirstTerminal(DeliveriesFor(during, w))
    {
      OwnOutcome(m.wards, m.order, during, s.nextId, w);
    }
    assert Matched(s.store, s.pending);
    hide Inv, Matched, AfterStop, LoopTable, OutcomeOf, AcksFrom, FirstFor, FirstTerminal;
    forall m', w | !(m' == mission && LiveIn(m.wards, m.order, w)) ensures RowAt(t.store, m', w) == RowAt(s.store, m', w) {
      Kept(s, t, mission, m.wards, m.order, during, m', w);
    }
    forall w | w in m.wards ensures t.store[mission].wards[w] == StoppedRow(m.wards[w], DeliveriesFor(during, w)) {
      assert RowAt(t.store, mission, w) == Some(t.store[mission].wards[w]) && RowAt(s.store, mission, w) == Some(m.wards[w]);
      assert w in m.order;
    }
  }

  // ----- A stop can always be completed -----

  predicate Harmless(outcome: Outcome) {
    outcome == Success || outcome == NotTerminal
  }

  predicate HarmlessAcks(acks: seq<Ack>) {
    forall a :: a in acks ==> Harmless(a.outcome)
  }

  predicate HarmlessDeliveries(deliveries: seq<Delivery>) {
    forall d :: d in deliveries ==> Harmless(if d.Own? then d.outcome else d.ack.outcome)
  }

  predicate NoFailures(during: map<Id, seq<Delivery>>) {
    forall w :: w in during ==> HarmlessDeliveries(during[w])
  }

  predicate QuietRow(before: Option<WardRow>, after: Option<WardRow>) {
    after == before || (before.Some? && after.Some? && before.value.status == Stopping && after.value.status == Stopped)
  }

  ghost predicate Quiet(s: State, t: State) {
    forall m, w :: QuietRow(RowAt(s.store, m, w), RowAt(t.store, m, w))
  }

  predicate NotLiveAt(store: Store, mission: Id, ward: Id) {
    RowAt(store, mission, ward).Some? && !Live(RowAt(store, mission, ward).value)
  }

  lemma AfterAckQuiet(s: State, ack: Ack)
    requires Matched(s.store, s.pending) && Harmless(ack.outcome)
    ensures Quiet(s, AfterAck(s, ack))
  {
    if ack.outcome == Success && ack.command in s.pending {
      PendingIsStopping(s.store, s.pending, ack.command);
      hide Matched;
      AnsweredExactly(s, ack.command, Success);
      var stop := s.pending[ack.command];
      var t := AfterAck(s, ack);
      hide AfterAck;
      assert ack == Ack(ack.command, Success);
      assert forall m, w :: m != stop.mission ==> RowAt(t.store, m, w) == RowAt(s.store, m, w);
    }
  }

  lemma {:induction false} AfterAcksQuiet(s: State, acks: seq<Ack>)
    requires Inv(s) && HarmlessAcks(acks)
    ensures Quiet(s, AfterAcks(s, acks))
    decreases acks
  {
    if acks != [] {
      assert acks[0] in acks;
      AfterAckKeeps(s, acks[0]);
      AfterAckQuiet(s, acks[0]);
      hide Inv, AfterAck, RowAt;
      var t := AfterAck(s, acks[0]);
      AfterAcksQuiet(t, acks[1..]);
      forall m, w ensures QuietRow(RowAt(s.store, m, w), RowAt(AfterAcks(s, acks).store, m, w)) {
        assert QuietRow(RowAt(s.store, m, w), RowAt(t.store, m, w));
        assert QuietRow(RowAt(t.store, m, w), RowAt(AfterAcks(t, acks[1..]).store, m, w));
      }
    }
  }

  lemma StopWardQuiets(s: State, mission: Id, ward: Id, deliveries: seq<Delivery>)
    requires Inv(s) && HarmlessDeliveries(deliveries)
    requires RowAt(s.store, mission, ward).Some? && Live(s.store[mission].wards[ward])
    ensures var t := StopWard(s, mission, ward, s.store[mission].wards[ward].missionId, deliveries);
            && NotLiveAt(t.store, mission, ward)
            && (forall w :: w != ward ==> QuietRow(RowAt(s.store, mission, w), RowAt(t.store, mission, w)))
  {
    var missionId := s.store[mission].wards[ward].missionId;
    var u := StopSent(s, mission, ward, missionId);
    var acks := AcksOf(deliveries, s.nextId);
    StopSentKeeps(s, mission, ward);
    StopSentRows(s, mission, ward, missionId);
    forall a | a in acks ensures Harmless(a.outcome) {
      var i :| 0 <= i < |acks| && acks[i] == a;
      assert deliveries[i] in deliveries;
    }
    hide Inv, RowAt, StopSent;
    AfterAcksQuiet(u, acks);
    var t := AfterAcks(u, acks);
    hide AfterAcks;
    assert forall w :: QuietRow(RowAt(u.store, mission, w), RowAt(t.store, mission, w));
  }

  lemma {:induction false} StopWardsQuiets(s: State, mission: Id, wards: map<Id, WardRow>, order: seq<Id>,
                                           during: map<Id, seq<Delivery>>)
    requires Inv(s) && NoFailures(during) && StillShown(s, mission, wards, order)
    ensures forall w :: w in order || NotLiveAt(s.store, mission, w) ==>
              NotLiveAt(StopWards(s, mission, wards, order, during).store, mission, w)
    decreases order
  {
    if order != [] {
      var w, rest := order[0], order[1..];
      DistinctTail(order);
      assert w in order && forall w' :: w' in order <==> w' == w || w' in rest;
      if Live(wards[w]) {
        var ds := DeliveriesFor(during, w);
        var u := StopWard(s, mission, w, wards[w].missionId, ds);
        assert RowAt(s.store, mission, w) == Some(wards[w]);
        StopWardEffect(s, mission, w, ds);
        StopWardQuiets(s, mission, w, ds);
        hide Inv, RowAt, StopWard;
        assert StillShown(u, mission, wards, rest);
        StopWardsQuiets(u, mission, wards, rest, during);
      } else {
        hide Inv, RowAt;
        StopWardsQuiets(s, mission, wards, rest, during);
      }
    }
  }

  /** The live wards of the snapshot still to be visited are as it shows them; the others are not live. */
  ghost predicate StillShown(s: State, mission: Id, wards: map<Id, WardRow>, order: seq<Id>) {
    && Distinct(order)
    && (forall w :: w in order ==> w in wards)
    && (forall w :: w in order && Live(wards[w]) ==> RowAt(s.store, mission, w) == Some(wards[w]))
    && (forall w :: w in order && !Live(wards[w]) ==> NotLiveAt(s.store, mission, w))
  }

  /** After a stop without failures no ward of the mission is left running. */
  lemma StopLeavesNoneLive(s: State, mission: Id, during: map<Id, seq<Delivery>>)
    requires Inv(s) && mission in s.store && NoFailures(during)
    ensures var t := AfterStop(s, mission, during).0;
            Inv(t) && mission in t.store && forall w :: w in t.store[mission].wards ==> !Live(t.store[mission].wards[w])
  {
    var m := s.store[mission];
    assert ShapeSound(m);
    var t := StopWards(s, mission, m.wards, m.order, during);
    var u := AfterStop(s, mission, during).0;
    assert StillShown(s, mission, m.wards, m.order);
    ShownAtFirst(s, mission);
    AfterStopKeeps(s, mission, during);
    hide Inv;
    StopWardsQuiets(s, mission, m.wards, m.order, during);
    StopWardsKeeps(s, mission, m.wards, m.order, during);
    assert SameRoutes(m, t.store[mission]);
    hide StopWards, StillShown, StillAsShown;
    assert u.store[mission].wards == t.store[mission].wards;
    forall w | w in t.store[mission].wards ensures !Live(t.store[mission].wards[w]) {
      assert w in m.order;
      assert NotLiveAt(t.store, mission, w);
    }
  }

  lemma {:induction false} AnsweredAreGone(s: State, acks: seq<Ack>, c: Id)
    requires Ack(c, Success) in acks
    ensures c !in AfterAcks(s, acks).pending
    decreases acks
  {
    var t := AfterAck(s, acks[0]);
    if acks[0] == Ack(c, Success) {
      assert c !in t.pending;
      PendingShrinks(t, acks[1..]);
    } else {
      AnsweredAreGone(t, acks[1..], c);
    }
  }

  lemma {:induction false} PendingShrinks(s: State, acks: seq<Ack>)
    ensures AfterAcks(s, acks).pending.Keys <= s.pending.Keys
    decreases acks
  {
    if acks != [] { PendingShrinks(AfterAck(s, acks[0]), acks[1..]); }
  }

  /** No mission is stuck: from any reachable state, stop it with no ward refusing, let each of its
      commands in flight succeed, in any order and among any other successes, and it can be removed. */
  lemma NeverStuck(s: State, mission: Id, during: map<Id, seq<Delivery>>, acks: seq<Ack>)
    requires Inv(s) && mission in s.store && NoFailures(during) && HarmlessAcks(acks)
    requires var t := AfterStop(s, mission, during).0;
             forall c :: c in t.pending && t.pending[c].mission == mission ==> Ack(c, Success) in acks
    ensures var u := AfterAcks(AfterStop(s, mission, during).0, acks);
            && mission in u.store && AllSettled(u.store[mission])
            && AfterRemove(u, mission).1 == Accepted(0)
            && mission !in AfterRemove(u, mission).0.store
  {
    var t := AfterStop(s, mission, during).0;
    var u := AfterAcks(t, acks);
    StopLeavesNoneLive(s, mission, during);
    AfterAcksKeeps(t, acks);
    AfterAcksOnly(t, acks);
    AfterAcksQuiet(t, acks);
    hide AfterStop, AfterAcks;
    forall w | w in u.store[mission].wards ensures Settled(u.store[mission].wards[w]) {
      assert SameRoutes(t.store[mission], u.store[mission]);
      assert QuietRow(RowAt(t.store, mission, w), RowAt(u.store, mission, w));
      if StoppingAt(u.store, mission, w) {
        var c :| c in u.pending && u.pending[c] == PendingStop(mission, w);
        AnsweredAreGone(t, acks, c);
        assert false;
      }
    }
  }

  /** A stop that did not succeed never passes for one that did: the ward is active again and says why,
      its mission counts as unsettled and cannot be removed. */
  lemma FailedStopShows(s: State, c: Id, reason: string)
    requires Inv(s) && c in s.pending
    ensures var stop := s.pending[c];
      && StoppingAt(s.store, stop.mission, stop.ward)
      && var missionId := s.store[stop.mission].wards[stop.ward].missionId;
         var (done, refused, silent) :=
           (AfterAck(s, Ack(c, Success)), AfterAck(s, Ack(c, RejectedBy(reason))), AfterAck(s, Ack(c, TimedOut)));
         && RowAt(done.store, stop.mission, stop.ward) == Some(WardRow(Stopped, "", missionId))
         && RowAt(refused.store, stop.mission, stop.ward) == Some(WardRow(Active, reason, missionId))
         && RowAt(silent.store, stop.mission, stop.ward) == Some(WardRow(Active, "stop command timed out", missionId))
         && StillRunning(refused, stop.mission) && StillRunning(silent, stop.mission)
  {
    PendingIsStopping(s.store, s.pending, c);
    hide Inv;
    AnsweredExactly(s, c, Success);
    FailureShows(s, c, RejectedBy(reason));
    FailureShows(s, c, TimedOut);
    hide AfterAck;
  }

  predicate StillRunning(s: State, mission: Id) {
    && mission in s.store && !AllSettled(s.store[mission])
    && AfterRemove(s, mission) == (s, Refused(StillActive))
  }

  lemma FailureShows(s: State, c: Id, outcome: Outcome)
    requires Inv(s) && c in s.pending && (outcome == TimedOut || outcome.RejectedBy?)
    ensures var stop := s.pending[c]; var t := AfterAck(s, Ack(c, outcome));
      && StoppingAt(s.store, stop.mission, stop.ward)
      && RowAt(t.store, stop.mission, stop.ward) == Some(Ended(s.store[stop.mission].wards[stop.ward].missionId, outcome))
      && StillRunning(t, stop.mission)
  {
    PendingIsStopping(s.store, s.pending, c);
    hide Inv;
    AnsweredExactly(s, c, outcome);
    var t := AfterAck(s, Ack(c, outcome));
    var stop := s.pending[c];
    hide AfterAck;
    assert RowAt(t.store, stop.mission, stop.ward).Some?;
    assert !Settled(t.store[stop.mission].wards[stop.ward]);
  }

  function StoppingWards(m: Mission): set<Id> {
    set w | w in m.wards && m.wards[w].status == Stopping
  }

  /** Each success brings the end one ward closer. */
  lemma SuccessIsProgress(s: State, c: Id)
    requires Inv(s) && c in s.pending
    ensures var mission := s.pending[c].mission;
            var t := AfterAck(s, Ack(c, Success));
            && mission in s.store && mission in t.store
            && |StoppingWards(t.store[mission])| == |StoppingWards(s.store[mission])| - 1
  {
    PendingIsStopping(s.store, s.pending, c);
    hide Inv;
    var stop := s.pending[c];
    AnsweredExactly(s, c, Success);
    var t := AfterAck(s, Ack(c, Success));
    assert SameRoutes(s.store[stop.mission], t.store[stop.mission]);
    var before, after := s.store[stop.mission].wards, t.store[stop.mission].wards;
    forall w | w in before ensures after[w] == if w == stop.ward then WardRow(Stopped, "", before[w].missionId) else before[w] {
      assert RowAt(t.store, stop.mission, w) == Some(after[w]);
    }
    hide AfterAck;
    assert StoppingWards(t.store[stop.mission]) == StoppingWards(s.store[stop.mission]) - {stop.ward};
  }
}

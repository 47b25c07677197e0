/** Every command's acknowledgement trail, and what a mission has flown, over every run of the engine. */
module DemoFlightProofs {
  import opened Options
  import opened DemoFlight

  // ----- Acknowledgement trails -----

  predicate Tells(message: Envelope, id: Id) {
    message.out.Ack? && message.out.command == id
  }

  /** Everything a command has been told, in order. */
  function Acks(sent: seq<Envelope>, id: Id): seq<Status> {
    if sent == [] then []
    else if Tells(sent[|sent| - 1], id) then Acks(sent[..|sent| - 1], id) + [sent[|sent| - 1].out.status]
    else Acks(sent[..|sent| - 1], id)
  }

  /** At most one terminal acknowledgement, nothing after it, and at most one "executing" before it. */
  predicate Trail(acks: seq<Status>) {
    || acks == []
    || acks == [Executing]
    || (|acks| == 1 && acks[0] != Executing)
    || (|acks| == 2 && acks[0] == Executing && acks[1] != Executing)
  }

  lemma AcksPlus(sent: seq<Envelope>, message: Envelope)
    ensures forall id ::
      Acks(sent + [message], id) == if Tells(message, id) then Acks(sent, id) + [message.out.status] else Acks(sent, id)
  {
    assert (sent + [message])[..|sent|] == sent;
  }

  /** Between a and b at most one command was told anything, and only this. */
  ghost predicate OneTold(a: seq<Envelope>, b: seq<Envelope>, who: Option<Id>, status: Status) {
    forall id :: Acks(b, id) == if who == Some(id) then Acks(a, id) + [status] else Acks(a, id)
  }

  // ----- Items passed -----

  function Indices(n: nat): (s: seq<nat>)
    ensures |s| == n
  {
    seq(n, i => i)
  }

  /** The items of a mission of n, over and over. */
  function Laps(n: nat, laps: nat): seq<nat> {
    if laps == 0 then [] else Laps(n, laps - 1) + Indices(n)
  }

  ghost predicate RunOk(run: MissionRun) {
    var n := |run.mission.items|;
    && run.passesLeft <= run.mission.repeatCount
    && run.itemIndex <= n
    && (run.itemIndex == n ==> n == 0)
    && run.passed == Laps(n, run.mission.repeatCount - run.passesLeft) + Indices(run.itemIndex)
  }

  lemma PastItemLaps(run: MissionRun)
    requires RunOk(run)
    ensures var past := PastItem(run); var n := |run.mission.items|;
      && past.mission == run.mission && past.passesLeft == run.passesLeft && past.start == run.start
      && past.holding == run.holding && past.paused == run.paused && past.since == run.since && run.passed <= past.passed
      && (past.itemIndex < n ==> RunOk(past))
      && (past.itemIndex >= n ==> past.passed == Laps(n, run.mission.repeatCount - run.passesLeft + 1))
      && (past.itemIndex >= n && run.passesLeft > 0 ==> RunOk(past.(passesLeft := run.passesLeft - 1, itemIndex := 0)))
  {
    var n := |run.mission.items|;
    if run.itemIndex < n {
      assert Indices(run.itemIndex) + [run.itemIndex] == Indices(run.itemIndex + 1);
      assert run.passed + [run.itemIndex]
          == Laps(n, run.mission.repeatCount - run.passesLeft) + (Indices(run.itemIndex) + [run.itemIndex]);
    }
    assert Laps(n, run.mission.repeatCount - run.passesLeft + 1) == Laps(n, run.mission.repeatCount - run.passesLeft) + Indices(n);
    assert Indices(0) == [];
  }

  /** A mission that is reported finished has passed all its items in order, once more than it was to be
      repeated, and its start command is told so at once. */
  ghost predicate FinishOk(sent: seq<Envelope>, i: nat)
    requires i < |sent| && sent[i].out.MissionFinished?
  {
    var (w, run) := (sent[i].ward, sent[i].out.run);
    var n := |run.mission.items|;
    && run.passed == Laps(n, run.mission.repeatCount + 1)
    && 0 < i < |sent| - 1
    && sent[i - 1] == Envelope(w, Progress(run.mission.id, n - 1, n, true))
    && sent[i + 1] == Envelope(w, Ack(run.start, Success))
  }

  ghost predicate FinishesOk(sent: seq<Envelope>) {
    forall i :: 0 <= i < |sent| && sent[i].out.MissionFinished? ==> FinishOk(sent, i)
  }

  lemma FinishesPlus(sent: seq<Envelope>, message: Envelope)
    requires FinishesOk(sent) && !message.out.MissionFinished?
    ensures FinishesOk(sent + [message])
  {
    forall i | 0 <= i < |sent + [message]| && (sent + [message])[i].out.MissionFinished?
      ensures FinishOk(sent + [message], i)
    {
      assert FinishOk(sent, i);
    }
  }

  // ----- Flying on -----

  /** The command whose manoeuvre a mission item would push aside. */
  function Preempted(ward: Ward, start: Id): Option<Id> {
    if ward.target.Some? && ward.target.value.command != start then Some(ward.target.value.command) else None
  }

  /** The last that was sent: this mission is finished, and its start command told so. */
  predicate JustFinished(g: Flight, run: MissionRun) {
    var n := |g.sent|;
    && n >= 2 && g.sent[n - 1] == Envelope(g.id, Ack(run.start, Success))
    && g.sent[n - 2].ward == g.id && g.sent[n - 2].out.MissionFinished?
    && var flown := g.sent[n - 2].out.run;
       flown.mission == run.mission && flown.start == run.start && flown.since == run.since
  }

  /** From f, with this run under way, the mission has been flown on to g: either to a next item, which
      takes over the ward's target, or to its end. */
  ghost predicate FlownOn(f: Flight, run: MissionRun, g: Flight) {
    && g.id == f.id && g.ward.armed == f.ward.armed && g.ward.inAir == f.ward.inAir
    && FinishesOk(g.sent)
    && (if g.ward.run.Some? then
          && RunOk(g.ward.run.value) && g.ward.run.value.itemIndex < |run.mission.items|
          && g.ward.run.value.mission == run.mission && g.ward.run.value.start == run.start
          && g.ward.run.value.since == run.since && run.passed <= g.ward.run.value.passed
          && !g.ward.run.value.paused && g.ward.run.value.holding == run.holding
          && g.ward.target == Some(Target(run.start, MissionItem)) && !g.ward.patrolling
          && OneTold(f.sent, g.sent, Preempted(f.ward, run.start), Rejected)
        else
          && g.ward.target == f.ward.target && g.ward.patrolling == f.ward.patrolling
          && JustFinished(g, run)
          && OneTold(f.sent, g.sent, Some(run.start), Success))
  }

  ghost predicate Flyable(f: Flight) {
    f.ward.run.Some? && !f.ward.run.value.paused && RunOk(f.ward.run.value) && FinishesOk(f.sent)
  }

  lemma TargetEffect(f: Flight, command: Id, onArrival: Arrival)
    requires FinishesOk(f.sent)
    ensures var g := SetTarget(f, command, onArrival);
      && g.id == f.id && FinishesOk(g.sent)
      && OneTold(f.sent, g.sent, Preempted(f.ward, command), Rejected)
  {
    if Preempted(f.ward, command).Some? {
      AcksPlus(f.sent, Envelope(f.id, Ack(f.ward.target.value.command, Rejected)));
      FinishesPlus(f.sent, Envelope(f.id, Ack(f.ward.target.value.command, Rejected)));
    }
    hide Acks, FinishesOk;
  }

  lemma SayEffect(f: Flight, out: Out)
    requires FinishesOk(f.sent) && !out.MissionFinished?
    ensures FinishesOk(Say(f, out).sent)
    ensures OneTold(f.sent, Say(f, out).sent, if out.Ack? then Some(out.command) else None, if out.Ack? then out.status else Rejected)
  {
    AcksPlus(f.sent, Envelope(f.id, out));
    FinishesPlus(f.sent, Envelope(f.id, out));
  }

  lemma ItemFliesOn(f: Flight, run: MissionRun, out: Out)
    requires Flyable(f) && f.ward.run == Some(run) && run.itemIndex < |run.mission.items| && !out.Ack? && !out.MissionFinished?
    ensures FlownOn(f, run, Say(SetTarget(f, run.start, MissionItem), out))
  {
    hide Acks, RunOk, FinishesOk, Preempted;
    TargetEffect(f, run.start, MissionItem);
    SayEffect(SetTarget(f, run.start, MissionItem), out);
  }

  lemma SkipFliesOn(f: Flight, run: MissionRun, out: Out, g: Flight)
    requires FinishesOk(f.sent) && !out.Ack? && !out.MissionFinished?
    requires FlownOn(Say(f, out), run, g)
    ensures FlownOn(f, run, g)
  {
    hide Acks, RunOk, FinishesOk, Preempted;
    SayEffect(f, out);
  }

  lemma {:induction false} FlyFliesOn(f: Flight)
    requires Flyable(f)
    ensures FlownOn(f, f.ward.run.value, Fly(f))
    decreases PassesLeft(f.ward), ItemsAhead(f.ward), 1
  {
    var run := f.ward.run.value;
    var items := run.mission.items;
    hide RunOk, Advance, FlownOn;
    if run.itemIndex < |items| && items[run.itemIndex].supported {
      ItemFliesOn(f, run, Progress(run.mission.id, items[run.itemIndex].seqNo, |items|, false));
    } else if run.itemIndex < |items| {
      var out := ItemSkipped(items[run.itemIndex].seqNo);
      FinishesPlus(f.sent, Envelope(f.id, out));
      AdvanceFliesOn(Say(f, out));
      SkipFliesOn(f, run, out, Advance(Say(f, out)));
    } else {
      AdvanceFliesOn(f);
    }
  }

  /** The three messages that report a mission finished. */
  function Finishing(sent: seq<Envelope>, w: Id, run: MissionRun): seq<Envelope> {
    var n := |run.mission.items|;
    sent + [Envelope(w, Progress(run.mission.id, n - 1, n, true))] + [Envelope(w, MissionFinished(run))]
    + [Envelope(w, Ack(run.start, Success))]
  }

  lemma FinishingOk(sent: seq<Envelope>, w: Id, run: MissionRun)
    requires FinishesOk(sent) && run.passed == Laps(|run.mission.items|, run.mission.repeatCount + 1)
    ensures FinishesOk(Finishing(sent, w, run))
  {
    var n := |run.mission.items|;
    var a := sent + [Envelope(w, Progress(run.mission.id, n - 1, n, true))];
    var c := Finishing(sent, w, run);
    FinishesPlus(sent, a[|sent|]);
    hide Laps;
    forall i | 0 <= i < |c| && c[i].out.MissionFinished? ensures FinishOk(c, i) {
      if i < |a| {
        assert FinishOk(a, i);
      }
    }
  }

  lemma FinishingTells(sent: seq<Envelope>, w: Id, run: MissionRun)
    ensures OneTold(sent, Finishing(sent, w, run), Some(run.start), Success)
  {
    var n := |run.mission.items|;
    var a := sent + [Envelope(w, Progress(run.mission.id, n - 1, n, true))];
    var b := a + [Envelope(w, MissionFinished(run))];
    AcksPlus(sent, a[|sent|]);
    AcksPlus(a, b[|a|]);
    AcksPlus(b, Envelope(w, Ack(run.start, Success)));
    hide Acks;
  }

  lemma FinishedFliesOn(f: Flight, run: MissionRun)
    requires FinishesOk(f.sent) && run.passed == Laps(|run.mission.items|, run.mission.repeatCount + 1)
    ensures FlownOn(f, run, Finished(f, run))
  {
    FinishingOk(f.sent, f.id, run);
    FinishingTells(f.sent, f.id, run);
    hide OneTold, FinishesOk, Laps;
    assert Finished(f, run).sent == Finishing(f.sent, f.id, run);
  }

  lemma NextFliesOn(f: Flight, run: MissionRun, next: MissionRun, g: Flight)
    requires FlownOn(f.(ward := f.ward.(run := Some(next))), next, g)
    requires next.mission == run.mission && next.start == run.start && next.holding == run.holding
    requires next.since == run.since && run.passed <= next.passed
    ensures FlownOn(f, run, g)
  {
    hide Acks, RunOk, FinishesOk;
  }

  lemma {:induction false} AdvanceFliesOn(f: Flight)
    requires Flyable(f)
    ensures FlownOn(f, f.ward.run.value, Advance(f))
    decreases PassesLeft(f.ward), ItemsAhead(f.ward), 0
  {
    PastItemLaps(f.ward.run.value);
    var run := PastItem(f.ward.run.value);
    hide Acks, RunOk, FinishesOk, PastItem, Fly, Finished, FlownOn;
    if run.itemIndex < |run.mission.items| {
      var g := f.(ward := f.ward.(run := Some(run)));
      FlyFliesOn(g);
      NextFliesOn(f, f.ward.run.value, run, Fly(g));
    } else if run.passesLeft > 0 {
      var again := run.(passesLeft := run.passesLeft - 1, itemIndex := 0);
      var g := f.(ward := f.ward.(run := Some(again)));
      FlyFliesOn(g);
      NextFliesOn(f, f.ward.run.value, again, Fly(g));
    } else {
      FinishedFliesOn(f, run);
      EndFliesOn(f, f.ward.run.value, run);
    }
  }

  lemma EndFliesOn(f: Flight, run: MissionRun, last: MissionRun)
    requires FlownOn(f, last, Finished(f, last))
    requires last.start == run.start && last.mission == run.mission && last.since == run.since
    ensures FlownOn(f, run, Finished(f, last))
  {
    hide Acks, FinishesOk, RunOk;
  }

  // ----- One ward -----

  predicate Owns(ward: Ward, id: Id) {
    || (ward.target.Some? && ward.target.value.command == id)
    || (ward.run.Some? && ward.run.value.start == id)
  }

  /** The commands a ward is still carrying out have been told so and nothing more; a mission under way
      is in the air, and is heading for an item, holding at one, or paused. */
  ghost predicate WardOk(f: Flight) {
    && (forall id :: Owns(f.ward, id) ==> Acks(f.sent, id) == [Executing])
    && (f.ward.patrolling ==> f.ward.target.None?)
    && (f.ward.run.Some? ==>
          && f.ward.inAir
          && RunOk(f.ward.run.value) && f.ward.run.value.itemIndex < |f.ward.run.value.mission.items|
          && (f.ward.run.value.paused ==> f.ward.target.None?)
          && (f.ward.target.Some? ==> f.ward.target.value == Target(f.ward.run.value.start, MissionItem))
          && (f.ward.target.None? && !f.ward.run.value.paused ==> f.ward.run.value.holding))
  }

  ghost predicate TrailsOk(sent: seq<Envelope>) {
    forall id :: Trail(Acks(sent, id))
  }

  /** f became g: only commands of this ward, and a fresh one, have been told anything. */
  ghost predicate Moves(f: Flight, g: Flight, newest: Option<Id>) {
    && g.id == f.id
    && WardOk(g)
    && TrailsOk(g.sent)
    && FinishesOk(g.sent)
    && (forall id :: !Owns(f.ward, id) && newest != Some(id) ==> Acks(g.sent, id) == Acks(f.sent, id))
    && (forall id :: Owns(g.ward, id) ==> Owns(f.ward, id) || newest == Some(id))
  }

  ghost predicate Ready(f: Flight) {
    WardOk(f) && TrailsOk(f.sent) && FinishesOk(f.sent)
  }

  lemma InterruptedEffect(f: Flight)
    requires Ready(f)
    ensures var g := Interrupted(f);
      && Ready(g) && g.id == f.id && g.ward.run.None? && g.ward.armed == f.ward.armed && g.ward.inAir == f.ward.inAir
      && OneTold(f.sent, g.sent, if f.ward.run.Some? then Some(f.ward.run.value.start) else None, Rejected)
      && (forall id :: Owns(g.ward, id) ==> Owns(f.ward, id))
  {
    hide RunOk, Acks, FinishesOk;
    if f.ward.run.Some? {
      var g := f.(ward := StopMotion(f.ward.(run := None)));
      SayEffect(g, Ack(f.ward.run.value.start, Rejected));
      SayEffect(Say(g, Ack(f.ward.run.value.start, Rejected)), MissionInterrupted);
    }
  }

  /** The ward takes up the fresh command id, once whatever it was doing is given up. */
  lemma TakesUp(f: Flight, id: Id, onArrival: Arrival)
    requires Ready(f) && f.ward.run.None? && Acks(f.sent, id) == []
    ensures Moves(f, Answered(SetTarget(f, id, onArrival), id, Executing), Some(id))
  {
    hide RunOk, Acks, FinishesOk;
    TargetEffect(f, id, onArrival);
    SayEffect(SetTarget(f, id, onArrival), Ack(id, Executing));
  }

  lemma ManoeuvreMoves(f: Flight, id: Id, onArrival: Arrival)
    requires Ready(f) && Acks(f.sent, id) == []
    ensures Moves(f, Answered(SetTarget(Interrupted(f), id, onArrival), id, Executing), Some(id))
  {
    hide RunOk, Acks, FinishesOk, Interrupted, SetTarget;
    InterruptedEffect(f);
    TakesUp(Interrupted(f), id, onArrival);
  }

  /** A command that is answered at once and leaves the ward's course alone. */
  lemma AnsweredMoves(f: Flight, ward: Ward, id: Id, status: Status)
    requires Ready(f) && Acks(f.sent, id) == [] && status != Executing
    requires ward == f.ward.(armed := ward.armed)
    ensures Moves(f, Answered(f.(ward := ward), id, status), Some(id))
  {
    hide RunOk, Acks, FinishesOk;
    SayEffect(f.(ward := ward), Ack(id, status));
  }

  lemma DisarmMoves(f: Flight, id: Id)
    requires Ready(f) && Acks(f.sent, id) == []
    ensures var g := Interrupted(f);
      Moves(f, Answered(g.(ward := StopMotion(g.ward).(inAir := false, armed := false)), id, Success), Some(id))
  {
    hide RunOk, Acks, FinishesOk, Interrupted;
    InterruptedEffect(f);
    var g := Interrupted(f);
    SayEffect(g.(ward := StopMotion(g.ward).(inAir := false, armed := false)), Ack(id, Success));
  }

  lemma PauseMoves(f: Flight, id: Id)
    requires Ready(f) && Acks(f.sent, id) == [] && f.ward.run.Some?
    ensures Moves(f, Answered(f.(ward := StopMotion(f.ward.(run := Some(f.ward.run.value.(paused := true))))), id, Success), Some(id))
  {
    hide Acks, FinishesOk, Laps;
    SayEffect(f.(ward := StopMotion(f.ward.(run := Some(f.ward.run.value.(paused := true))))), Ack(id, Success));
  }

  /** A mission taken up, or taken up again, by the fresh command id. */
  lemma LaunchMoves(f: Flight, run: MissionRun, id: Id)
    requires Ready(f) && Acks(f.sent, id) == []
    requires RunOk(run) && run.start == id && !run.paused
    ensures Moves(f, Fly(Answered(f.(ward := f.ward.(run := Some(run), inAir := true)), id, Executing)), Some(id))
  {
    hide RunOk, Acks, FinishesOk, Fly;
    var g := f.(ward := f.ward.(run := Some(run), inAir := true));
    SayEffect(g, Ack(id, Executing));
    FlyFliesOn(Answered(g, id, Executing));
    LaunchedMoves(f, run, id, Answered(g, id, Executing), Fly(Answered(g, id, Executing)));
  }

  /** The new run's start command has been told it is being carried out, and the run is flown on. */
  lemma LaunchedMoves(f: Flight, run: MissionRun, id: Id, g: Flight, h: Flight)
    requires Ready(f) && Acks(f.sent, id) == []
    requires RunOk(run) && run.start == id && !run.paused
    requires g.id == f.id && g.ward == f.ward.(run := Some(run), inAir := true) && OneTold(f.sent, g.sent, Some(id), Executing)
    requires FlownOn(g, run, h)
    ensures Moves(f, h, Some(id))
  {
    hide RunOk, Acks, FinishesOk;
  }

  lemma StartedMoves(f: Flight, id: Id, mission: Option<Mission>)
    requires Ready(f) && Acks(f.sent, id) == []
    ensures Moves(f, Started(f, id, mission), Some(id))
  {
    if mission.None? || !f.ward.armed {
      AnsweredMoves(f, f.ward, id, Rejected);
    } else if f.ward.run.Some? && f.ward.run.value.paused {
      LaunchMoves(f, f.ward.run.value.(paused := false, start := id), id);
    } else {
      LaunchMoves(f, MissionRun(mission.value, 0, mission.value.repeatCount, id, false, false, [], |f.sent| + 1, {}), id);
    }
  }

  lemma TakeoffMoves(f: Flight, id: Id)
    requires Ready(f) && Acks(f.sent, id) == [] && !f.ward.inAir
    ensures Moves(f, Answered(SetTarget(f.(ward := f.ward.(inAir := true)), id, Hold), id, Executing), Some(id))
  {
    hide RunOk, Acks, FinishesOk, Trail, SetTarget;
    var raised := f.(ward := f.ward.(inAir := true));
    assert Ready(raised) && f.ward.run.None?;
    TakesUp(raised, id, Hold);
  }

  lemma CommandedMoves(f: Flight, id: Id, action: Action, mission: Option<Mission>, batteryLow: bool)
    requires Ready(f) && Acks(f.sent, id) == []
    ensures Moves(f, Commanded(f, id, action, mission, batteryLow), Some(id))
  {
    hide Ready, Moves, Acks, Started, SetTarget, Interrupted;
    AnsweredMoves(f, f.ward, id, Rejected);
    match action
    case Arm =>
      AnsweredMoves(f, f.ward.(armed := true), id, Success);
    case Disarm(_) =>
      DisarmMoves(f, id);
    case Takeoff =>
      if !f.ward.inAir {
        TakeoffMoves(f, id);
      }
    case LandNow =>
      ManoeuvreMoves(f, id, Land);
    case ReturnToLaunch =>
      ManoeuvreMoves(f, id, Land);
    case Goto(_) =>
      ManoeuvreMoves(f, id, Hold);
    case StartMission =>
      StartedMoves(f, id, mission);
    case PauseMission =>
      if f.ward.run.Some? {
        PauseMoves(f, id);
      }
    case SetHome(_) =>
      AnsweredMoves(f, f.ward, id, Success);
    case NoAction =>
  }

  // ----- Ticks -----

  lemma FlownOnMoves(f: Flight, g: Flight, run: MissionRun, h: Flight)
    requires Ready(f) && f.ward.run.Some? && f.ward.run.value.start == run.start
    requires g.id == f.id && g.sent == f.sent && g.ward.target.None? && g.ward.inAir == f.ward.inAir
    requires FlownOn(g, run, h)
    ensures Moves(f, h, None)
  {
    assert Owns(f.ward, run.start);
    hide RunOk, Acks, FinishesOk, Trail;
    TrailsAfter(f.sent, h.sent, run.start, h.ward.run.None?);
    hide TrailsOk;
  }

  lemma TrailsAfter(before: seq<Envelope>, after: seq<Envelope>, start: Id, succeeded: bool)
    requires TrailsOk(before) && Acks(before, start) == [Executing]
    requires OneTold(before, after, if succeeded then Some(start) else None, if succeeded then Success else Rejected)
    ensures TrailsOk(after)
  {
    hide Acks;
  }

  lemma AdvanceMoves(f: Flight, g: Flight)
    requires Ready(f) && g.id == f.id && g.sent == f.sent && g.ward.target.None? && g.ward.run.Some? && f.ward.run.Some?
    requires g.ward == f.ward.(run := g.ward.run, target := None, patrolling := g.ward.patrolling)
    requires g.ward.run == Some(f.ward.run.value.(holding := g.ward.run.value.holding, reached := g.ward.run.value.reached))
    requires !f.ward.run.value.paused
    ensures Moves(f, Advance(g), None)
  {
    assert RunOk(g.ward.run.value) && FinishesOk(g.sent);
    hide RunOk, Acks, FinishesOk, Advance, Ready, Moves, Trail;
    AdvanceFliesOn(g);
    FlownOnMoves(f, g, g.ward.run.value, Advance(g));
  }

  lemma HoldEndedMoves(f: Flight, holdOver: bool)
    requires Ready(f)
    ensures Moves(f, HoldEnded(f, holdOver), None)
  {
    hide Acks, RunOk, FinishesOk, Advance;
    if HoldEnded(f, holdOver) != f {
      AdvanceMoves(f, f.(ward := f.ward.(run := Some(f.ward.run.value.(holding := false)))));
    }
  }

  lemma HoldingMoves(f: Flight)
    requires Ready(f) && f.ward.run.Some? && !f.ward.run.value.paused
    ensures Moves(f, f.(ward := StopMotion(f.ward).(run := Some(AtItsItem(f.ward.run.value).(holding := true)))), None)
  {
    hide Acks, FinishesOk, Laps;
  }

  lemma ArrivedMoves(f: Flight, grounded: bool)
    requires Ready(f) && f.ward.target.Some? && f.ward.run.None?
    ensures Moves(f, Arrived(f.(ward := StopMotion(f.ward)), f.ward.target.value, grounded), None)
  {
    var command := f.ward.target.value.command;
    var g := f.(ward := StopMotion(f.ward));
    assert Owns(f.ward, command);
    hide RunOk, Acks, FinishesOk, Advance;
    SayEffect(g, Ack(command, Success));
  }

  lemma MovedMoves(f: Flight, reading: Reading)
    requires Ready(f)
    ensures Moves(f, Moved(f, reading), None)
  {
    var g := f.(ward := StopMotion(f.ward));
    if f.ward.patrolling || f.ward.target.None? || !reading.reached {
      hide Acks;
    } else if f.ward.run.None? {
      hide Ready, Moves, Advance;
      ArrivedMoves(f, reading.grounded);
    } else {
      var run := f.ward.run.value;
      assert f.ward.target == Some(Target(run.start, MissionItem)) && !run.paused;
      hide Ready, Moves, Advance;
      if run.itemIndex < |run.mission.items| && run.mission.items[run.itemIndex].hold {
        HoldingMoves(f);
      } else {
        AdvanceMoves(f, g.(ward := g.ward.(run := Some(AtItsItem(run)))));
      }
    }
  }

  lemma TickedMoves(f: Flight, reading: Reading)
    requires Ready(f)
    ensures Moves(f, Ticked(f, reading), None)
  {
    HoldEndedMoves(f, reading.holdOver);
    var g := HoldEnded(f, reading.holdOver);
    hide WardOk, Acks, Trail, FinishesOk, Owns, HoldEnded, Moved;
    MovedMoves(g, reading);
  }
}

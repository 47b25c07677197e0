/** The demo engine over whole runs, and how a mission ends. */
module DemoFlightRuns {
  import opened Options
  import opened DemoFlight
  import opened DemoFlightProofs

  function At(s: State, w: Id): Flight
    requires w in s.wards
  {
    Flight(w, s.wards[w], s.sent)
  }

  ghost predicate Apart(wards: map<Id, Ward>) {
    forall v, w, id :: v in wards && w in wards && Owns(wards[v], id) && Owns(wards[w], id) ==> v == w
  }

  ghost predicate Unheard(sent: seq<Envelope>, from: Id) {
    forall id :: from <= id ==> Acks(sent, id) == []
  }

  ghost predicate Inv(s: State) {
    && (forall w :: w in s.wards ==> WardOk(At(s, w)))
    && Apart(s.wards)
    && TrailsOk(s.sent)
    && FinishesOk(s.sent)
    && Unheard(s.sent, s.nextCommand)
  }

  lemma PutKeeps(s: State, w: Id, g: Flight, newest: Option<Id>)
    requires Inv(s) && w in s.wards && Moves(At(s, w), g, newest)
    requires newest == None || newest == Some(s.nextCommand)
    ensures Inv(Put(if newest.Some? then s.(nextCommand := s.nextCommand + 1) else s, w, g))
  {
    hide RunOk, Acks, Trail, FinishesOk;
    var t := Put(if newest.Some? then s.(nextCommand := s.nextCommand + 1) else s, w, g);
    forall v | v in t.wards ensures WardOk(At(t, v)) {
      if v != w {
        assert WardOk(At(s, v));
        forall id | Owns(s.wards[v], id) ensures Acks(g.sent, id) == Acks(s.sent, id) {
          assert Acks(s.sent, id) == [Executing];
        }
      }
    }
    forall v, id | v in s.wards && v != w && Owns(s.wards[v], id) ensures !Owns(g.ward, id) {
      assert WardOk(At(s, v));
      assert Acks(s.sent, id) == [Executing];
    }
  }

  lemma DoKeeps(s: State, w: Id, action: Action, batteryLow: bool)
    requires Inv(s)
    ensures Inv(Step(s, Do(w, action, batteryLow)))
  {
    var id := s.nextCommand;
    if w in s.wards {
      var f := At(s, w);
      assert WardOk(f) && Acks(f.sent, id) == [];
      CommandedMoves(f, id, action, MissionOf(s, w), batteryLow);
      hide Inv, Commanded, Moves, WardOk, Acks;
      PutKeeps(s, w, Commanded(f, id, action, MissionOf(s, w), batteryLow), Some(id));
    } else {
      var t := Step(s, Do(w, action, batteryLow));
      hide RunOk, Acks, FinishesOk;
      SayEffect(Flight(w, SPAWNED, s.sent), Ack(id, Rejected));
      forall v | v in t.wards ensures WardOk(At(t, v)) {
        assert WardOk(At(s, v));
      }
    }
  }

  lemma TickKeeps(s: State, w: Id, reading: Reading)
    requires Inv(s)
    ensures Inv(Step(s, Tick(w, reading)))
  {
    if w in s.wards {
      assert WardOk(At(s, w));
      TickedMoves(At(s, w), reading);
      hide Inv, Ticked, Moves, WardOk;
      PutKeeps(s, w, Ticked(At(s, w), reading), None);
    }
  }

  lemma OthersKeep(s: State, e: Event)
    requires Inv(s) && (e.Spawn? || e.Despawn? || e.Upload?)
    ensures Inv(Step(s, e))
  {
    hide RunOk, Acks, Trail, FinishesOk;
    var t := Step(s, e);
    forall v | v in t.wards ensures WardOk(At(t, v)) {
      if v in s.wards {
        assert WardOk(At(s, v));
      }
    }
  }

  lemma StepKeeps(s: State, e: Event)
    requires Inv(s)
    ensures Inv(Step(s, e))
  {
    hide Inv, Step;
    match e
    case Do(w, action, batteryLow) => DoKeeps(s, w, action, batteryLow);
    case Tick(w, reading) => TickKeeps(s, w, reading);
    case Spawn(_) => OthersKeep(s, e);
    case Despawn(_) => OthersKeep(s, e);
    case Upload(_, _) => OthersKeep(s, e);
  }

  lemma {:induction false} StepsKeep(s: State, events: seq<Event>)
    requires Inv(s)
    ensures Inv(Steps(s, events))
    decreases events
  {
    hide Inv, Step;
    if events != [] {
      StepKeeps(s, events[0]);
      StepsKeep(Step(s, events[0]), events[1..]);
    }
  }

  /** Over every run, no command is told anything after a terminal answer, none gets two of them, and
      every mission reported finished has been flown in full, in order, just before its start command
      is told so. */
  lemma EveryRun(events: seq<Event>)
    ensures var t := Steps(START, events);
      && (forall id :: Trail(Acks(t.sent, id)))
      && (forall i :: 0 <= i < |t.sent| && t.sent[i].out.MissionFinished? ==> FinishOk(t.sent, i))
      && (forall w :: w in t.wards ==> WardOk(At(t, w)))
      && Apart(t.wards)
  {
    assert Inv(START);
    StepsKeep(START, events);
    hide Step, WardOk, Acks, Trail, FinishOk;
  }

  // ----- How a mission ends -----

  /** What puts an end to a mission before its last item. */
  predicate Ends(e: Event, w: Id, run: MissionRun) {
    match e
    case Despawn(v) => v == w
    case Upload(v, _) => v == w
    case Do(v, action, _) =>
      v == w && (action.Disarm? || action.LandNow? || action.ReturnToLaunch? || action.Goto?
                 || (action.StartMission? && !run.paused))
    case _ => false
  }

  /** The mission goes on, further or as far as before, paused or not. */
  predicate GoesOn(run: MissionRun, ward: Ward) {
    && ward.run.Some?
    && ward.run.value.mission == run.mission && ward.run.value.since == run.since
    && run.passed <= ward.run.value.passed
  }

  /** It goes on for the same start command, or that command has just been told it is done. */
  ghost predicate Fate(run: MissionRun, g: Flight) {
    if g.ward.run.Some? then GoesOn(run, g.ward) && g.ward.run.value.start == run.start
    else Acks(g.sent, run.start) == [Executing, Success] && JustFinished(g, run)
  }

  lemma FlownOnFate(g: Flight, run: MissionRun, h: Flight)
    requires FlownOn(g, run, h) && Acks(g.sent, run.start) == [Executing]
    ensures Fate(run, h)
  {
    hide RunOk, Acks, FinishesOk, Preempted;
  }

  lemma RunFacts(f: Flight)
    requires Ready(f) && f.ward.run.Some?
    ensures var run := f.ward.run.value;
      && Acks(f.sent, run.start) == [Executing] && RunOk(run)
      && FinishesOk(f.sent)
  {
    assert Owns(f.ward, f.ward.run.value.start);
    hide Acks, FinishesOk, Laps;
  }

  lemma AdvanceFate(f: Flight, g: Flight)
    requires Ready(f) && f.ward.run.Some? && !f.ward.run.value.paused
    requires g.sent == f.sent && g.ward.run.Some?
    requires g.ward.run.value == f.ward.run.value.(holding := g.ward.run.value.holding, reached := g.ward.run.value.reached)
    ensures Fate(f.ward.run.value, Advance(g))
  {
    RunFacts(f);
    var (run, before) := (g.ward.run.value, f.ward.run.value);
    assert run.mission == before.mission && run.start == before.start && run.since == before.since && run.passed == before.passed;
    hide *;
    SameSteps(before, run);
    CanFly(g);
    AdvanceFliesOn(g);
    FlownOnFate(g, run, Advance(g));
    SameFate(before, run, Advance(g));
  }

  lemma CanFly(f: Flight)
    requires f.ward.run.Some? && !f.ward.run.value.paused && RunOk(f.ward.run.value) && FinishesOk(f.sent)
    ensures Flyable(f)
  {
  }

  lemma SameFate(a: MissionRun, b: MissionRun, h: Flight)
    requires Fate(b, h) && b.mission == a.mission && b.start == a.start && b.since == a.since && b.passed == a.passed
    ensures Fate(a, h)
  {
    hide Acks;
  }

  lemma HoldEndedFate(f: Flight, holdOver: bool)
    requires Ready(f) && f.ward.run.Some?
    ensures var g := HoldEnded(f, holdOver);
      Fate(f.ward.run.value, g) && (g.ward.run.None? ==> g.ward.target.None?)
  {
    hide Acks, RunOk, FinishesOk, Trail, Advance;
    if HoldEnded(f, holdOver) != f {
      var h := f.(ward := f.ward.(run := Some(f.ward.run.value.(holding := false))));
      RunFacts(f);
      assert RunOk(h.ward.run.value) by {
        SameSteps(f.ward.run.value, h.ward.run.value);
      }
      AdvanceFliesOn(h);
      AdvanceFate(f, h);
    }
  }

  lemma SameSteps(a: MissionRun, b: MissionRun)
    requires RunOk(a) && b.mission == a.mission && b.passesLeft == a.passesLeft && b.itemIndex == a.itemIndex && b.passed == a.passed
    ensures RunOk(b)
  {
  }

  lemma MovedFate(f: Flight, reading: Reading)
    requires Ready(f) && f.ward.run.Some?
    ensures Fate(f.ward.run.value, Moved(f, reading))
  {
    hide Acks, RunOk, FinishesOk, Trail, Advance;
    if Moved(f, reading) != f {
      AdvanceFate(f, f.(ward := StopMotion(f.ward).(run := Some(AtItsItem(f.ward.run.value)))));
    }
  }

  lemma TickFate(f: Flight, reading: Reading)
    requires Ready(f) && f.ward.run.Some?
    ensures Fate(f.ward.run.value, Ticked(f, reading))
  {
    var g := HoldEnded(f, reading.holdOver);
    HoldEndedFate(f, reading.holdOver);
    HoldEndedMoves(f, reading.holdOver);
    if g.ward.run.Some? {
      assert Ready(g);
      hide Ready, Moves, HoldEnded, Moved, Acks;
      MovedFate(g, reading);
    } else {
      hide Ready, Moves, HoldEnded, Acks;
    }
  }

  lemma ResumeFate(f: Flight, id: Id, mission: Option<Mission>)
    requires Ready(f) && f.ward.run.Some? && f.ward.run.value.paused && Acks(f.sent, id) == []
    ensures var g := Started(f, id, mission);
      || GoesOn(f.ward.run.value, g.ward)
      || (g.ward.run.None? && Acks(g.sent, id) == [Executing, Success] && JustFinished(g, f.ward.run.value.(start := id)))
  {
    var run := f.ward.run.value.(paused := false, start := id);
    var h := f.(ward := f.ward.(run := Some(run)));
    assert RunOk(run);
    SayEffect(h, Ack(id, Executing));
    hide Acks, RunOk, FinishesOk, Trail, Fly;
    FlyFliesOn(Answered(h, id, Executing));
  }

  /** A mission under way goes on, or has just been reported finished and the command it flies for told so,
      unless the event is one of those that end it. */
  lemma MissionFate(s: State, e: Event, w: Id)
    requires Inv(s) && w in s.wards && s.wards[w].run.Some?
    ensures var run := s.wards[w].run.value; var t := Step(s, e);
      || Ends(e, w, run)
      || (w in t.wards && GoesOn(run, t.wards[w]))
      || (w in t.wards && t.wards[w].run.None? && e.Tick?
          && Acks(t.sent, run.start) == [Executing, Success] && JustFinished(At(t, w), run))
      || (w in t.wards && t.wards[w].run.None? && e.Do?
          && Acks(t.sent, s.nextCommand) == [Executing, Success] && JustFinished(At(t, w), run.(start := s.nextCommand)))
  {
    var f := At(s, w);
    assert Ready(f) && Acks(s.sent, s.nextCommand) == [];
    hide Inv, Ready, Acks, Fly, Advance, Ticked, Started, Interrupted, SetTarget, WardOk, TrailsOk, FinishesOk;
    if e.Tick? && e.ward == w {
      TickFate(f, e.reading);
      TickedMoves(f, e.reading);
      assert At(Step(s, e), w) == Ticked(f, e.reading);
    } else if e.Do? && e.ward == w && e.action.StartMission? && f.ward.run.value.paused {
      ResumeFate(f, s.nextCommand, MissionOf(s, w));
      var g := Started(f, s.nextCommand, MissionOf(s, w));
      StartedMoves(f, s.nextCommand, MissionOf(s, w));
      assert At(Step(s, e), w) == g;
    } else if e.Do? && e.ward == w && e.action.Takeoff? {
      assert f.ward.inAir by {
        assert Ready(f);
      }
    }
  }

  // ----- How a manoeuvre ends -----

  const FAIR := Reading(true, true, true)

  predicate Manoeuvre(ward: Ward, action: Action) {
    if action.Takeoff? then ward.armed && !ward.inAir
    else ward.inAir && (action.LandNow? || action.ReturnToLaunch? || action == Goto(true))
  }

  lemma ToldAt(a: seq<Envelope>, b: seq<Envelope>, who: Option<Id>, status: Status, id: Id)
    requires OneTold(a, b, who, status)
    ensures Acks(b, id) == if who == Some(id) then Acks(a, id) + [status] else Acks(a, id)
  {
    hide Acks;
  }

  function StartOf(ward: Ward): Option<Id> {
    if ward.run.Some? then Some(ward.run.value.start) else None
  }

  /** A command the ward is carrying out is either its mission's or its manoeuvre's, and told so once. */
  lemma OneOwner(f: Flight, id: Id, other: Id)
    requires Ready(f) && Acks(f.sent, id) == []
    ensures !Owns(f.ward, id)
    ensures StartOf(f.ward) != Some(id) && Preempted(Interrupted(f).ward, id) != Some(id)
    ensures Owns(f.ward, other) ==>
      && other != id && Acks(f.sent, other) == [Executing]
      && (StartOf(f.ward) == Some(other) <==> Preempted(Interrupted(f).ward, id) != Some(other))
  {
    hide Acks, RunOk, FinishesOk, Trail;
  }

  lemma ThreeTold(a: seq<Envelope>, b: seq<Envelope>, c: seq<Envelope>, d: seq<Envelope>, first: Option<Id>, second: Option<Id>, id: Id, other: Id)
    requires OneTold(a, b, first, Rejected) && OneTold(b, c, second, Rejected) && OneTold(c, d, Some(id), Executing)
    ensures first != Some(id) && second != Some(id) ==> Acks(d, id) == Acks(a, id) + [Executing]
    ensures other != id && (first == Some(other) <==> second != Some(other)) ==> Acks(d, other) == Acks(a, other) + [Rejected]
  {
    hide Acks, OneTold;
    ToldAt(a, b, first, Rejected, id);
    ToldAt(b, c, second, Rejected, id);
    ToldAt(c, d, Some(id), Executing, id);
    ToldAt(a, b, first, Rejected, other);
    ToldAt(b, c, second, Rejected, other);
    ToldAt(c, d, Some(id), Executing, other);
  }

  /** What one command is told when the ward gives up what it is doing for the fresh command id. */
  lemma OwnerTold(f: Flight, id: Id, onArrival: Arrival, other: Id)
    requires Ready(f) && Acks(f.sent, id) == []
    ensures var g := Answered(SetTarget(Interrupted(f), id, onArrival), id, Executing);
      && Acks(g.sent, id) == [Executing]
      && (Owns(f.ward, other) ==> Acks(g.sent, other) == [Executing, Rejected])
  {
    hide Ready, Acks, RunOk, FinishesOk, OneTold, Interrupted, SetTarget, Owns, Preempted;
    var c := Interrupted(f);
    var d := SetTarget(c, id, onArrival);
    OneOwner(f, id, other);
    InterruptedEffect(f);
    ReadyFinishes(c);
    TargetEffect(c, id, onArrival);
    SayEffect(d, Ack(id, Executing));
    ThreeTold(f.sent, c.sent, d.sent, Answered(d, id, Executing).sent, StartOf(f.ward), Preempted(c.ward, id), id, other);
    assert [Executing] + [Rejected] == [Executing, Rejected] && [] + [Executing] == [Executing];
  }

  lemma ReadyFinishes(f: Flight)
    requires Ready(f)
    ensures FinishesOk(f.sent)
  {
  }

  lemma TakesOver(f: Flight, id: Id, onArrival: Arrival)
    requires Ready(f) && Acks(f.sent, id) == []
    ensures var g := Answered(SetTarget(Interrupted(f), id, onArrival), id, Executing);
      && Acks(g.sent, id) == [Executing]
      && (forall other :: Owns(f.ward, other) ==> Acks(g.sent, other) == [Executing, Rejected])
      && g.ward == Ward(f.ward.armed, f.ward.inAir, false, Some(Target(id, onArrival)), None)
  {
    hide Ready, Acks, Owns;
    var g := Answered(SetTarget(Interrupted(f), id, onArrival), id, Executing);
    OwnerTold(f, id, onArrival, id);
    forall other | Owns(f.ward, other) ensures Acks(g.sent, other) == [Executing, Rejected] {
      OwnerTold(f, id, onArrival, other);
    }
  }

  lemma ReachedEnds(g: Flight, id: Id, onArrival: Arrival)
    requires g.ward.target == Some(Target(id, onArrival)) && onArrival != MissionItem
    requires g.ward.run.None? && !g.ward.patrolling && Acks(g.sent, id) == [Executing]
    ensures var h := Ticked(g, FAIR);
      && Acks(h.sent, id) == [Executing, Success] && h.ward.target.None?
      && (if onArrival == Land then !h.ward.inAir && !h.ward.armed else h.ward.inAir == g.ward.inAir && h.ward.armed == g.ward.armed)
  {
    AcksPlus(g.sent, Envelope(g.id, Ack(id, Success)));
    hide Acks, Advance;
  }

  /** A manoeuvre takes over from whatever the ward was doing, which is told it lost; once its target is
      reached it succeeds, a landing with the ward on the ground and disarmed, any other with it holding
      in the air. */
  lemma ManoeuvreEnds(f: Flight, id: Id, action: Action, mission: Option<Mission>, batteryLow: bool)
    requires Ready(f) && Acks(f.sent, id) == [] && Manoeuvre(f.ward, action)
    ensures var g := Commanded(f, id, action, mission, batteryLow);
      && Acks(g.sent, id) == [Executing] && g.ward.target.Some? && g.ward.run.None?
      && (forall other :: Owns(f.ward, other) ==> Acks(g.sent, other) == [Executing, Rejected])
      && var h := Ticked(g, FAIR);
         && Acks(h.sent, id) == [Executing, Success] && h.ward.target.None?
         && (if action.LandNow? || action.ReturnToLaunch? then !h.ward.inAir && !h.ward.armed
             else h.ward.inAir && h.ward.armed == f.ward.armed)
  {
    var onArrival := if action.LandNow? || action.ReturnToLaunch? then Land else Hold;
    var raised := if action.Takeoff? then f.(ward := f.ward.(inAir := true)) else f;
    assert Ready(raised) && (action.Takeoff? ==> f.ward.run.None?) by {
      hide Acks, RunOk, FinishesOk, Trail;
    }
    hide Ready, Acks, SetTarget, Ticked, Started;
    assert action.Takeoff? ==> Interrupted(raised) == raised;
    TakesOver(raised, id, onArrival);
    ReachedEnds(Answered(SetTarget(Interrupted(raised), id, onArrival), id, Executing), id, onArrival);
  }

  // ----- A mission left alone is flown to its end -----

  /** Items still to be passed, this one included. */
  function Remaining(run: MissionRun): int {
    run.passesLeft * |run.mission.items| + |run.mission.items| - run.itemIndex
  }

  /** Twice that, less one if the current item is reached and only its hold is left. */
  function Work(ward: Ward): int
    requires ward.run.Some?
  {
    2 * Remaining(ward.run.value) - if ward.target.None? then 1 else 0
  }

  predicate AtItem(f: Flight) {
    f.ward.run.Some? && f.ward.run.value.itemIndex < |f.ward.run.value.mission.items|
  }

  lemma {:induction false} FlyCloser(f: Flight)
    requires AtItem(f)
    ensures var g := Fly(f); g.ward.run.Some? ==> Remaining(g.ward.run.value) <= Remaining(f.ward.run.value)
    decreases PassesLeft(f.ward), ItemsAhead(f.ward), 1
  {
    hide Advance;
    var run := f.ward.run.value;
    if !run.paused && !run.mission.items[run.itemIndex].supported {
      AdvanceCloser(Say(f, ItemSkipped(run.mission.items[run.itemIndex].seqNo)));
    }
  }

  lemma {:induction false} AdvanceCloser(f: Flight)
    requires AtItem(f)
    ensures var g := Advance(f); g.ward.run.Some? ==> Remaining(g.ward.run.value) < Remaining(f.ward.run.value)
    decreases PassesLeft(f.ward), ItemsAhead(f.ward), 0
  {
    var run := PastItem(f.ward.run.value);
    var n := |run.mission.items|;
    hide Fly;
    if run.itemIndex < n {
      FlyCloser(f.(ward := f.ward.(run := Some(run))));
    } else if run.passesLeft > 0 {
      assert run.passesLeft * n == (run.passesLeft - 1) * n + n;
      FlyCloser(f.(ward := f.ward.(run := Some(run.(passesLeft := run.passesLeft - 1, itemIndex := 0)))));
    }
  }

  function Ticks(f: Flight, k: nat): Flight
    decreases k
  {
    if k == 0 then f else Ticks(Ticked(f, FAIR), k - 1)
  }

  predicate Underway(f: Flight) {
    f.ward.run.Some? && !f.ward.run.value.paused
  }

  /** From f, whose current item is reached, to g: on the way to a later item, or done. */
  predicate Closer(run: MissionRun, g: Flight) {
    if g.ward.run.Some? then
      Underway(g) && g.ward.target.Some? && g.ward.run.value.start == run.start && Remaining(g.ward.run.value) < Remaining(run)
    else g.ward.target.None?
  }

  lemma AdvanceGetsCloser(f: Flight)
    requires Underway(f) && AtItem(f) && f.ward.target.None? && RunOk(f.ward.run.value) && FinishesOk(f.sent)
    ensures Closer(f.ward.run.value, Advance(f))
  {
    hide RunOk, Advance, Acks, FinishesOk;
    AdvanceFliesOn(f);
    AdvanceCloser(f);
  }

  lemma MovedCloser(f: Flight)
    requires Ready(f) && Underway(f) && f.ward.target.Some?
    ensures var g := Moved(f, FAIR);
      && (g.ward.run.Some? ==> Underway(g) && g.ward.run.value.start == f.ward.run.value.start && Work(g.ward) < Work(f.ward))
      && (g.ward.run.None? ==> g.ward.target.None?)
  {
    var run := f.ward.run.value;
    assert f.ward.target == Some(Target(run.start, MissionItem)) && !f.ward.patrolling && AtItem(f) && RunOk(run);
    hide Ready, Advance, RunOk;
    if !run.mission.items[run.itemIndex].hold {
      assert FinishesOk(f.sent) by {
        assert Ready(f);
      }
      assert RunOk(AtItsItem(run)) && Remaining(AtItsItem(run)) == Remaining(run) by {
        assert RunOk(run);
      }
      AdvanceGetsCloser(f.(ward := StopMotion(f.ward).(run := Some(AtItsItem(run)))));
    }
  }

  lemma TickCloser(f: Flight)
    requires Ready(f) && Underway(f)
    ensures var g := Ticked(f, FAIR);
      && (g.ward.run.Some? ==> Underway(g) && g.ward.run.value.start == f.ward.run.value.start && Work(g.ward) < Work(f.ward))
      && (g.ward.run.None? ==> g.ward.target.None?)
  {
    var run := f.ward.run.value;
    if f.ward.target.Some? {
      hide Moved;
      MovedCloser(f);
    } else {
      var h := f.(ward := f.ward.(run := Some(run.(holding := false))));
      assert run.holding && AtItem(f) && RunOk(h.ward.run.value) && FinishesOk(f.sent);
      HoldEndedMoves(f, true);
      var g := HoldEnded(f, true);
      assert Ready(g);
      hide Ready, Moved, Moves, RunOk, FinishesOk, Advance;
      AdvanceGetsCloser(h);
      assert g == Advance(h);
      if g.ward.run.Some? {
        MovedCloser(g);
      } else {
        assert Moved(g, FAIR) == g by {
          assert g.ward.target.None?;
        }
      }
    }
  }

  /** Left alone, and with each item reached and each hold over by the next tick, a mission is flown to
      its end within twice as many ticks as it has items to pass, which is the last that is sent. */
  lemma {:induction false} FlownToTheEnd(f: Flight, k: nat)
    requires Ready(f) && Underway(f) && k >= Work(f.ward)
    ensures Ticks(f, k).ward.run.None? && Acks(Ticks(f, k).sent, f.ward.run.value.start) == [Executing, Success]
    ensures JustFinished(Ticks(f, k), f.ward.run.value)
    decreases k
  {
    var g := Ticked(f, FAIR);
    assert Work(f.ward) > 0;
    TickedMoves(f, FAIR);
    TickCloser(f);
    TickFate(f, FAIR);
    hide Ticked, WardOk, Acks;
    if g.ward.run.Some? {
      FlownToTheEnd(g, k - 1);
    } else {
      Settled(g, k - 1);
    }
  }

  lemma {:induction false} Settled(f: Flight, k: nat)
    requires f.ward.run.None? && f.ward.target.None?
    ensures Ticks(f, k) == f
    decreases k
  {
    if k > 0 {
      Settled(f, k - 1);
    }
  }
}

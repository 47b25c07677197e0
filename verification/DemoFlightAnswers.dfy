/** When a ward does what it is told and when it refuses, what a tick can bring about, and that no ward
    flies disarmed. */
module DemoFlightAnswers {
  import opened Options
  import opened DemoFlight
  import opened DemoFlightProofs
  import opened DemoFlightRuns

  // ----- Commands -----

  /** What has to be the case for a command to be carried out. */
  predicate Possible(ward: Ward, action: Action, mission: Option<Mission>, batteryLow: bool) {
    match action
    case Arm => !ward.armed && !batteryLow
    case Disarm(force) => ward.armed && (force || !ward.inAir)
    case Takeoff => ward.armed && !ward.inAir
    case LandNow => ward.inAir
    case ReturnToLaunch => ward.inAir
    case Goto(hasTarget) => ward.inAir && hasTarget
    case StartMission => ward.armed && mission.Some?
    case PauseMission => ward.run.Some? && !ward.run.value.paused
    case SetHome(hasTarget) => hasTarget
    case NoAction => false
  }

  /** What is done at once, and what takes time. */
  predicate AtOnce(action: Action) {
    action in {Arm, PauseMission} || action.Disarm? || action.SetHome?
  }

  lemma SaidLast(f: Flight, id: Id, status: Status)
    requires Acks(f.sent, id) == []
    ensures Acks(Answered(f, id, status).sent, id) == [status]
  {
    AcksPlus(f.sent, Envelope(f.id, Ack(id, status)));
    hide Acks;
  }

  /** A command that cannot be carried out is refused and changes nothing. One that can is either done at
      once, and told so, or told that it is being carried out. */
  lemma AnsweredRightly(f: Flight, id: Id, action: Action, mission: Option<Mission>, batteryLow: bool)
    requires Ready(f) && Acks(f.sent, id) == []
    ensures var g := Commanded(f, id, action, mission, batteryLow);
      if !Possible(f.ward, action, mission, batteryLow) then g == f.(sent := f.sent + [Envelope(f.id, Ack(id, Rejected))])
      else if AtOnce(action) then
        && Acks(g.sent, id) == [Success]
        && g.ward == (match action
                      case Arm => f.ward.(armed := true)
                      case Disarm(_) => Ward(false, false, false, None, None)
                      case PauseMission =>
                        f.ward.(patrolling := false, target := None, run := Some(f.ward.run.value.(paused := true)))
                      case _ => f.ward)
      else Acks(g.sent, id) == [Executing] || (action.StartMission? && Acks(g.sent, id) == [Executing, Success])
  {
    if Possible(f.ward, action, mission, batteryLow) {
      match action
      case Arm => SaidLast(f, id, Success);
      case Disarm(_) => DisarmedRightly(f, id);
      case Takeoff => ManoeuvreRightly(f, id, action, mission, batteryLow);
      case LandNow => ManoeuvreRightly(f, id, action, mission, batteryLow);
      case ReturnToLaunch => ManoeuvreRightly(f, id, action, mission, batteryLow);
      case Goto(_) => ManoeuvreRightly(f, id, action, mission, batteryLow);
      case StartMission => StartedRightly(f, id, mission);
      case PauseMission => SaidLast(f, id, Success);
      case SetHome(_) => SaidLast(f, id, Success);
      case NoAction =>
    }
    hide Ready, Acks, Interrupted, SetTarget, Started;
  }

  lemma ManoeuvreRightly(f: Flight, id: Id, action: Action, mission: Option<Mission>, batteryLow: bool)
    requires Ready(f) && Acks(f.sent, id) == [] && Manoeuvre(f.ward, action)
    ensures Acks(Commanded(f, id, action, mission, batteryLow).sent, id) == [Executing]
  {
    hide Ready, Acks, Commanded;
    ManoeuvreEnds(f, id, action, mission, batteryLow);
  }

  lemma DisarmedRightly(f: Flight, id: Id)
    requires Ready(f) && Acks(f.sent, id) == []
    ensures var g := Interrupted(f);
      && Acks(Answered(g.(ward := StopMotion(g.ward).(inAir := false, armed := false)), id, Success).sent, id) == [Success]
      && StopMotion(g.ward).(inAir := false, armed := false) == Ward(false, false, false, None, None)
  {
    OneOwner(f, id, id);
    InterruptedEffect(f);
    var g := Interrupted(f);
    hide Ready, Acks, Interrupted;
    assert Acks(g.sent, id) == [];
    SaidLast(g.(ward := StopMotion(g.ward).(inAir := false, armed := false)), id, Success);
  }

  lemma FliesRightly(f: Flight, id: Id)
    requires Flyable(f) && f.ward.run.value.start == id && Acks(f.sent, id) == [Executing]
    ensures Acks(Fly(f).sent, id) == [Executing] || Acks(Fly(f).sent, id) == [Executing, Success]
  {
    hide Acks, RunOk, FinishesOk, Fly;
    FlyFliesOn(f);
  }

  lemma StartedRightly(f: Flight, id: Id, mission: Option<Mission>)
    requires Ready(f) && Acks(f.sent, id) == [] && f.ward.armed && mission.Some?
    ensures var g := Started(f, id, mission); Acks(g.sent, id) == [Executing] || Acks(g.sent, id) == [Executing, Success]
  {
    var run := if f.ward.run.Some? && f.ward.run.value.paused then f.ward.run.value.(paused := false, start := id)
               else MissionRun(mission.value, 0, mission.value.repeatCount, id, false, false, [], |f.sent| + 1, {});
    var inAir := if f.ward.run.Some? && f.ward.run.value.paused then f.ward.inAir else true;
    var h := f.(ward := f.ward.(run := Some(run), inAir := inAir));
    assert RunOk(run) by {
      assert Indices(0) == [];
    }
    SaidLast(h, id, Executing);
    SayEffect(h, Ack(id, Executing));
    hide Ready, Acks, RunOk, FinishesOk, Fly;
    FliesRightly(Answered(h, id, Executing), id);
  }

  // ----- Ticks -----

  /** An item is left behind only after it was reached, and one to hold at only once the hold is over. */
  lemma NoShortCut(f: Flight, reading: Reading)
    requires Ready(f) && f.ward.run.Some?
    ensures var (run, g) := (f.ward.run.value, Ticked(f, reading));
      g.ward.run.None? || g.ward.run.value.passed != run.passed ==>
        && !run.paused
        && (if f.ward.target.Some? then reading.reached && !run.mission.items[run.itemIndex].hold
            else run.holding && reading.holdOver)
  {
    hide Acks, RunOk, FinishesOk, Trail, Advance;
  }

  /** A manoeuvre succeeds exactly when its target is reached; a landing only on the ground, and until then
      it goes on. Nothing else happens. */
  lemma ManoeuvreTicks(f: Flight, reading: Reading)
    requires Ready(f) && f.ward.run.None? && f.ward.target.Some? && f.ward.target.value.onArrival != MissionItem
    ensures var (target, g) := (f.ward.target.value, Ticked(f, reading));
      if !reading.reached then g == f
      else if target.onArrival == Land && !reading.grounded then g.sent == f.sent && g.ward == f.ward
      else
        && g.sent == f.sent + [Envelope(f.id, Ack(target.command, Success))]
        && g.ward == (if target.onArrival == Land then Ward(false, false, false, None, None)
                      else Ward(f.ward.armed, f.ward.inAir, false, None, None))
  {
    hide Acks, RunOk, FinishesOk, Trail, Advance;
  }

  // ----- No ward flies disarmed -----

  lemma {:induction false} FlyLeaves(f: Flight)
    ensures Fly(f).ward.armed == f.ward.armed && Fly(f).ward.inAir == f.ward.inAir
    decreases PassesLeft(f.ward), ItemsAhead(f.ward), 1
  {
    if f.ward.run.Some? && !f.ward.run.value.paused {
      var run := f.ward.run.value;
      if run.itemIndex < |run.mission.items| {
        if !run.mission.items[run.itemIndex].supported {
          AdvanceLeaves(Say(f, ItemSkipped(run.mission.items[run.itemIndex].seqNo)));
        }
      } else {
        AdvanceLeaves(f);
      }
    }
    hide Advance;
  }

  lemma {:induction false} AdvanceLeaves(f: Flight)
    ensures Advance(f).ward.armed == f.ward.armed && Advance(f).ward.inAir == f.ward.inAir
    decreases PassesLeft(f.ward), ItemsAhead(f.ward), 0
  {
    if f.ward.run.Some? {
      var run := PastItem(f.ward.run.value);
      if run.itemIndex < |run.mission.items| {
        FlyLeaves(f.(ward := f.ward.(run := Some(run))));
      } else if run.passesLeft > 0 {
        FlyLeaves(f.(ward := f.ward.(run := Some(run.(passesLeft := run.passesLeft - 1, itemIndex := 0)))));
      }
    }
    hide Fly;
  }

  predicate FliesArmed(ward: Ward) {
    ward.inAir ==> ward.armed
  }

  lemma CommandedArmed(f: Flight, id: Id, action: Action, mission: Option<Mission>, batteryLow: bool)
    requires FliesArmed(f.ward)
    ensures FliesArmed(Commanded(f, id, action, mission, batteryLow).ward)
  {
    if action.StartMission? && mission.Some? && f.ward.armed {
      if f.ward.run.Some? && f.ward.run.value.paused {
        FlyLeaves(Answered(f.(ward := f.ward.(run := Some(f.ward.run.value.(paused := false, start := id)))), id, Executing));
      } else {
        var run := MissionRun(mission.value, 0, mission.value.repeatCount, id, false, false, [], |f.sent| + 1, {});
        FlyLeaves(Answered(f.(ward := f.ward.(run := Some(run), inAir := true)), id, Executing));
      }
    }
    hide Fly;
  }

  lemma TickedArmed(f: Flight, reading: Reading)
    requires FliesArmed(f.ward)
    ensures FliesArmed(Ticked(f, reading).ward)
  {
    if f.ward.run.Some? {
      AdvanceLeaves(f.(ward := f.ward.(run := Some(f.ward.run.value.(holding := false)))));
    }
    var g := HoldEnded(f, reading.holdOver);
    assert FliesArmed(g.ward) by {
      hide Advance;
    }
    if g.ward.run.Some? {
      AdvanceLeaves(g.(ward := StopMotion(g.ward).(run := Some(AtItsItem(g.ward.run.value)))));
    }
    hide Advance, HoldEnded;
  }

  lemma {:induction false} ArmedRun(s: State, events: seq<Event>)
    requires forall w :: w in s.wards ==> FliesArmed(s.wards[w])
    ensures forall w :: w in Steps(s, events).wards ==> FliesArmed(Steps(s, events).wards[w])
    decreases events
  {
    if events != [] {
      var e := events[0];
      if e.Do? && e.ward in s.wards {
        CommandedArmed(At(s, e.ward), s.nextCommand, e.action, MissionOf(s, e.ward), e.batteryLow);
      }
      if e.Tick? && e.ward in s.wards {
        TickedArmed(At(s, e.ward), e.reading);
      }
      hide Commanded, Ticked, FliesArmed;
      assert forall w :: w in Step(s, e).wards ==> FliesArmed(Step(s, e).wards[w]) by {
        NewcomersArmed();
        UploadArmed();
      }
      hide Step;
      ArmedRun(Step(s, e), events[1..]);
    }
  }

  lemma NewcomersArmed()
    ensures FliesArmed(SPAWNED)
  {
  }

  lemma UploadArmed()
    ensures forall ward: Ward :: FliesArmed(ward.(run := None)) <==> FliesArmed(ward)
  {
  }

  /** Over every run: whatever is in the air is armed. */
  lemma NoneFliesDisarmed(events: seq<Event>)
    ensures var t := Steps(START, events); forall w :: w in t.wards && t.wards[w].inAir ==> t.wards[w].armed
  {
    ArmedRun(START, events);
    hide Step;
  }

  /** A new mission takes the place of the old one, and a run under way is dropped without a word. */
  lemma UploadedExactly(s: State, w: Id, mission: Mission)
    requires w in s.wards
    ensures var t := Step(s, Upload(w, mission));
      && t.sent == s.sent && MissionOf(t, w) == Some(mission)
      && w in t.wards && t.wards[w].run.None? && t.wards[w].target == s.wards[w].target
      && (forall v :: v != w ==> MissionOf(t, v) == MissionOf(s, v) && (v in t.wards <==> v in s.wards))
      && (forall v :: v in s.wards && v != w ==> v in t.wards && t.wards[v] == s.wards[v])
  {
  }

  /** A new ward is there at once, armed and on patrol in the air; taken away again it leaves no trace. */
  lemma SpawnedExactly(s: State, w: Id)
    requires w !in s.wards && w !in s.missions
    ensures var t := Step(s, Spawn(w));
      && t == s.(wards := s.wards[w := Ward(true, true, true, None, None)])
      && Step(t, Spawn(w)) == t && Step(t, Despawn(w)) == s
  {
    var t := Step(s, Spawn(w));
    assert t.wards - {w} == s.wards && t.missions - {w} == s.missions;
  }
}

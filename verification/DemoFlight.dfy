/** The demo engine's flight logic: one manoeuvre and at most one mission per ward, with an
    acknowledgement trail for every command. Where a ward is, and how long things take, comes in from
    outside as readings. */
module DemoFlight {
  import opened Options

  type Id = int

  datatype Status = Executing | Success | Rejected

  datatype Item = Item(seqNo: int, supported: bool, hold: bool)

  datatype Mission = Mission(id: Id, items: seq<Item>, repeatCount: nat)

  datatype Arrival = Hold | Land | MissionItem

  datatype Target = Target(command: Id, onArrival: Arrival)

  /** Kept for the record only: passed, every item gone past so far, in order; since, how much had been
      sent when the mission was first started; reached, at which of these steps the ward got to the item. */
  datatype MissionRun = MissionRun(
    mission: Mission,
    itemIndex: nat,
    passesLeft: nat,
    start: Id,
    holding: bool,
    paused: bool,
    passed: seq<nat>,
    since: nat,
    reached: set<nat>)

  datatype Ward = Ward(armed: bool, inAir: bool, patrolling: bool, target: Option<Target>, run: Option<MissionRun>)

  /** What the engine sends out. */
  datatype Out =
    | Ack(command: Id, status: Status)
    | Progress(mission: Id, seqNo: int, total: nat, finished: bool)
    | ItemSkipped(seqNo: int)
    | MissionInterrupted
    | MissionFinished(run: MissionRun)

  /** Every message names the ward it is about. */
  datatype Envelope = Envelope(ward: Id, out: Out)

  /** A ward, its name, and everything sent so far. */
  datatype Flight = Flight(id: Id, ward: Ward, sent: seq<Envelope>)

  datatype Action =
    | Arm
    | Disarm(force: bool)
    | Takeoff
    | LandNow
    | ReturnToLaunch
    | Goto(hasTarget: bool)
    | StartMission
    | PauseMission
    | SetHome(hasTarget: bool)
    | NoAction

  /** What a ward finds on a tick: the hold is over, the target is reached, it is on the ground. */
  datatype Reading = Reading(holdOver: bool, reached: bool, grounded: bool)

  datatype State = State(wards: map<Id, Ward>, missions: map<Id, Mission>, sent: seq<Envelope>, nextCommand: Id)

  const START := State(map[], map[], [], 0)
  const SPAWNED := Ward(true, true, true, None, None)

  function Say(f: Flight, out: Out): Flight {
    f.(sent := f.sent + [Envelope(f.id, out)])
  }

  // ----- Manoeuvres -----

  function SetTarget(f: Flight, command: Id, onArrival: Arrival): Flight {
    var g := if f.ward.target.Some? && f.ward.target.value.command != command
             then Say(f, Ack(f.ward.target.value.command, Rejected)) else f;
    g.(ward := g.ward.(patrolling := false, target := Some(Target(command, onArrival))))
  }

  function StopMotion(ward: Ward): Ward {
    ward.(patrolling := false, target := None)
  }

  function Interrupted(f: Flight): Flight {
    if f.ward.run.None? then f
    else
      var start := f.ward.run.value.start;
      Say(Say(f.(ward := StopMotion(f.ward.(run := None))), Ack(start, Rejected)), MissionInterrupted)
  }

  // ----- Missions -----

  function PassesLeft(ward: Ward): nat {
    if ward.run.Some? then ward.run.value.passesLeft else 0
  }

  function ItemsAhead(ward: Ward): nat {
    if ward.run.Some? && ward.run.value.itemIndex < |ward.run.value.mission.items|
    then |ward.run.value.mission.items| - ward.run.value.itemIndex else 0
  }

  function Fly(f: Flight): Flight
    decreases PassesLeft(f.ward), ItemsAhead(f.ward), 1
  {
    if f.ward.run.None? || f.ward.run.value.paused then f
    else
      var run := f.ward.run.value;
      var items := run.mission.items;
      if run.itemIndex < |items| && items[run.itemIndex].supported then
        Say(SetTarget(f, run.start, MissionItem), Progress(run.mission.id, items[run.itemIndex].seqNo, |items|, false))
      else
        Advance(if run.itemIndex < |items| then Say(f, ItemSkipped(items[run.itemIndex].seqNo)) else f)
  }

  function PastItem(run: MissionRun): MissionRun {
    run.(passed := run.passed + if run.itemIndex < |run.mission.items| then [run.itemIndex] else [],
         itemIndex := run.itemIndex + 1)
  }

  function Finished(f: Flight, run: MissionRun): Flight {
    var n := |run.mission.items|;
    Say(Say(Say(f.(ward := f.ward.(run := None)),
                Progress(run.mission.id, n - 1, n, true)),
            MissionFinished(run)),
        Ack(run.start, Success))
  }

  function Advance(f: Flight): Flight
    decreases PassesLeft(f.ward), ItemsAhead(f.ward), 0
  {
    if f.ward.run.None? then f
    else
      var run := PastItem(f.ward.run.value);
      if run.itemIndex < |run.mission.items| then Fly(f.(ward := f.ward.(run := Some(run))))
      else if run.passesLeft > 0 then
        Fly(f.(ward := f.ward.(run := Some(run.(passesLeft := run.passesLeft - 1, itemIndex := 0)))))
      else Finished(f, run)
  }

  // ----- Commands -----

  function Answered(f: Flight, id: Id, status: Status): Flight {
    Say(f, Ack(id, status))
  }

  function Started(f: Flight, id: Id, mission: Option<Mission>): Flight {
    if mission.None? || !f.ward.armed then Answered(f, id, Rejected)
    else if f.ward.run.Some? && f.ward.run.value.paused then
      Fly(Answered(f.(ward := f.ward.(run := Some(f.ward.run.value.(paused := false, start := id)))), id, Executing))
    else
      var run := MissionRun(mission.value, 0, mission.value.repeatCount, id, false, false, [], |f.sent| + 1, {});
      Fly(Answered(f.(ward := f.ward.(run := Some(run), inAir := true)), id, Executing))
  }

  function Commanded(f: Flight, id: Id, action: Action, mission: Option<Mission>, batteryLow: bool): Flight {
    match action
    case Arm =>
      if f.ward.armed || batteryLow then Answered(f, id, Rejected)
      else Answered(f.(ward := f.ward.(armed := true)), id, Success)
    case Disarm(force) =>
      if !f.ward.armed || (f.ward.inAir && !force) then Answered(f, id, Rejected)
      else
        var g := Interrupted(f);
        Answered(g.(ward := StopMotion(g.ward).(inAir := false, armed := false)), id, Success)
    case Takeoff =>
      if !f.ward.armed || f.ward.inAir then Answered(f, id, Rejected)
      else Answered(SetTarget(f.(ward := f.ward.(inAir := true)), id, Hold), id, Executing)
    case LandNow =>
      if !f.ward.inAir then Answered(f, id, Rejected) else Answered(SetTarget(Interrupted(f), id, Land), id, Executing)
    case ReturnToLaunch =>
      if !f.ward.inAir then Answered(f, id, Rejected) else Answered(SetTarget(Interrupted(f), id, Land), id, Executing)
    case Goto(hasTarget) =>
      if !f.ward.inAir || !hasTarget then Answered(f, id, Rejected)
      else Answered(SetTarget(Interrupted(f), id, Hold), id, Executing)
    case StartMission => Started(f, id, mission)
    case PauseMission =>
      if f.ward.run.None? || f.ward.run.value.paused then Answered(f, id, Rejected)
      else
        Answered(f.(ward := StopMotion(f.ward.(run := Some(f.ward.run.value.(paused := true))))), id, Success)
    case SetHome(hasTarget) => Answered(f, id, if hasTarget then Success else Rejected)
    case NoAction => Answered(f, id, Rejected)
  }

  // ----- Ticks -----

  function AtItsItem(run: MissionRun): MissionRun {
    run.(reached := run.reached + {|run.passed|})
  }

  function Arrived(f: Flight, target: Target, grounded: bool): Flight {
    match target.onArrival
    case MissionItem =>
      if f.ward.run.None? then f
      else
        var run := AtItsItem(f.ward.run.value);
        if run.itemIndex < |run.mission.items| && run.mission.items[run.itemIndex].hold then
          f.(ward := f.ward.(run := Some(run.(holding := true))))
        else Advance(f.(ward := f.ward.(run := Some(run))))
    case Hold => Answered(f, target.command, Success)
    case Land =>
      if grounded then Answered(f.(ward := f.ward.(inAir := false, armed := false)), target.command, Success)
      else SetTarget(f, target.command, Land)
  }

  function HoldEnded(f: Flight, holdOver: bool): Flight {
    if f.ward.run.Some? && !f.ward.run.value.paused && f.ward.target.None? && f.ward.run.value.holding && holdOver then
      Advance(f.(ward := f.ward.(run := Some(f.ward.run.value.(holding := false)))))
    else f
  }

  function Moved(f: Flight, reading: Reading): Flight {
    if f.ward.patrolling || f.ward.target.None? || !reading.reached then f
    else Arrived(f.(ward := StopMotion(f.ward)), f.ward.target.value, reading.grounded)
  }

  function Ticked(f: Flight, reading: Reading): Flight {
    Moved(HoldEnded(f, reading.holdOver), reading)
  }

  // ----- The engine -----

  datatype Event =
    | Spawn(ward: Id)
    | Despawn(ward: Id)
    | Upload(ward: Id, mission: Mission)
    | Do(ward: Id, action: Action, batteryLow: bool)
    | Tick(ward: Id, reading: Reading)

  function Put(s: State, w: Id, f: Flight): State {
    s.(wards := s.wards[w := f.ward], sent := f.sent)
  }

  function MissionOf(s: State, w: Id): Option<Mission> {
    if w in s.missions then Some(s.missions[w]) else None
  }

  function Step(s: State, e: Event): State {
    match e
    case Spawn(w) => if w in s.wards then s else s.(wards := s.wards[w := SPAWNED])
    case Despawn(w) => s.(wards := s.wards - {w}, missions := s.missions - {w})
    case Upload(w, mission) =>
      if w !in s.wards then s
      else s.(missions := s.missions[w := mission], wards := s.wards[w := s.wards[w].(run := None)])
    case Do(w, action, batteryLow) =>
      var id := s.nextCommand;
      var t := s.(nextCommand := id + 1);
      if w !in s.wards then t.(sent := t.sent + [Envelope(w, Ack(id, Rejected))])
      else Put(t, w, Commanded(Flight(w, s.wards[w], s.sent), id, action, MissionOf(s, w), batteryLow))
    case Tick(w, reading) =>
      if w !in s.wards then s else Put(s, w, Ticked(Flight(w, s.wards[w], s.sent), reading))
  }

  function Steps(s: State, events: seq<Event>): State
    decreases events
  {
    if events == [] then s else Steps(Step(s, events[0]), events[1..])
  }

  class FakeGateway {
    var wards: map<Id, Ward>
    var missions: map<Id, Mission>
    var sent: seq<Envelope>
    var nextCommand: Id

    function View(): State
      reads this
    {
      State(wards, missions, sent, nextCommand)
    }

    function At(w: Id): Flight
      requires w in wards
      reads this
    {
      Flight(w, wards[w], sent)
    }

    constructor ()
      ensures View() == START
    {
      wards, missions, sent, nextCommand := map[], map[], [], 0;
    }

    method OnEnvelope(w: Id, out: Out)
      modifies this`sent
      ensures sent == old(sent) + [Envelope(w, out)]
    {
      sent := sent + [Envelope(w, out)];
    }

    method Aim(w: Id, command: Id, onArrival: Arrival)
      requires w in wards
      modifies this`wards, this`sent
      ensures w in wards && wards == old(wards)[w := wards[w]]
      ensures At(w) == SetTarget(old(At(w)), command, onArrival)
    {
      var previous := wards[w].target;
      if previous.Some? && previous.value.command != command {
        OnEnvelope(w, Ack(previous.value.command, Rejected));
      }
      wards := wards[w := wards[w].(patrolling := false, target := Some(Target(command, onArrival)))];
    }

    method Halt(w: Id)
      requires w in wards
      modifies this`wards
      ensures w in wards && wards == old(wards)[w := wards[w]]
      ensures wards[w] == StopMotion(old(wards[w]))
    {
      wards := wards[w := wards[w].(patrolling := false, target := None)];
    }

    method InterruptMission(w: Id)
      requires w in wards
      modifies this`wards, this`sent
      ensures w in wards && wards == old(wards)[w := wards[w]]
      ensures At(w) == Interrupted(old(At(w)))
    {
      var run := wards[w].run;
      if run.None? {
        return;
      }
      wards := wards[w := wards[w].(run := None)];
      Halt(w);
      OnEnvelope(w, Ack(run.value.start, Rejected));
      OnEnvelope(w, MissionInterrupted);
    }

    method FlyToCurrentItem(w: Id)
      requires w in wards
      modifies this`wards, this`sent
      ensures w in wards && wards == old(wards)[w := wards[w]]
      ensures At(w) == Fly(old(At(w)))
      decreases PassesLeft(wards[w]), ItemsAhead(wards[w]), 1
    {
      if wards[w].run.None? || wards[w].run.value.paused {
        return;
      }
      var run := wards[w].run.value;
      var items := run.mission.items;
      if run.itemIndex >= |items| || !items[run.itemIndex].supported {
        if run.itemIndex < |items| {
          OnEnvelope(w, ItemSkipped(items[run.itemIndex].seqNo));
        }
        AdvanceMission(w);
        return;
      }
      Aim(w, run.start, MissionItem);
      OnEnvelope(w, Progress(run.mission.id, items[run.itemIndex].seqNo, |items|, false));
    }

    method AdvanceMission(w: Id)
      requires w in wards
      modifies this`wards, this`sent
      ensures w in wards && wards == old(wards)[w := wards[w]]
      ensures At(w) == Advance(old(At(w)))
      decreases PassesLeft(wards[w]), ItemsAhead(wards[w]), 0
    {
      if wards[w].run.None? {
        return;
      }
      var run := PastItem(wards[w].run.value);
      if run.itemIndex < |run.mission.items| {
        wards := wards[w := wards[w].(run := Some(run))];
        FlyToCurrentItem(w);
        return;
      }
      if run.passesLeft > 0 {
        run := run.(passesLeft := run.passesLeft - 1, itemIndex := 0);
        wards := wards[w := wards[w].(run := Some(run))];
        FlyToCurrentItem(w);
        return;
      }
      wards := wards[w := wards[w].(run := None)];
      var n := |run.mission.items|;
      OnEnvelope(w, Progress(run.mission.id, n - 1, n, true));
      OnEnvelope(w, MissionFinished(run));
      OnEnvelope(w, Ack(run.start, Success));
    }

    method StartMissionCommand(w: Id, id: Id)
      requires w in wards
      modifies this`wards, this`sent
      ensures w in wards && wards == old(wards)[w := wards[w]]
      ensures At(w) == Started(old(At(w)), id, old(MissionOf(View(), w)))
    {
      if w !in missions || !wards[w].armed {
        OnEnvelope(w, Ack(id, Rejected));
        return;
      }
      var ward := wards[w];
      if ward.run.Some? && ward.run.value.paused {
        wards := wards[w := ward.(run := Some(ward.run.value.(paused := false, start := id)))];
      } else {
        var run := MissionRun(missions[w], 0, missions[w].repeatCount, id, false, false, [], |sent| + 1, {});
        wards := wards[w := ward.(run := Some(run), inAir := true)];
      }
      OnEnvelope(w, Ack(id, Executing));
      FlyToCurrentItem(w);
    }

    method HandleCommand(w: Id, action: Action, batteryLow: bool)
      modifies this
      ensures View() == Step(old(View()), Do(w, action, batteryLow))
    {
      var id := nextCommand;
      nextCommand := nextCommand + 1;
      if w !in wards {
        OnEnvelope(w, Ack(id, Rejected));
        return;
      }
      Obey(w, id, action, batteryLow);
    }

    method Obey(w: Id, id: Id, action: Action, batteryLow: bool)
      requires w in wards
      modifies this`wards, this`sent
      ensures w in wards && wards == old(wards)[w := wards[w]]
      ensures At(w) == Commanded(old(At(w)), id, action, old(MissionOf(View(), w)), batteryLow)
    {
      hide Fly, Advance, SetTarget, Interrupted, Started;
      var ward := wards[w];
      var answer := Rejected;
      match action {
        case Arm =>
          if !ward.armed && !batteryLow {
            wards := wards[w := ward.(armed := true)];
            answer := Success;
          }
        case Disarm(force) =>
          if ward.armed && (!ward.inAir || force) {
            InterruptMission(w);
            wards := wards[w := wards[w].(inAir := false)];
            Halt(w);
            wards := wards[w := wards[w].(armed := false)];
            answer := Success;
          }
        case Takeoff =>
          if ward.armed && !ward.inAir {
            wards := wards[w := ward.(inAir := true)];
            Aim(w, id, Hold);
            answer := Executing;
          }
        case LandNow =>
          if ward.inAir {
            InterruptMission(w);
            Aim(w, id, Land);
            answer := Executing;
          }
        case ReturnToLaunch =>
          if ward.inAir {
            InterruptMission(w);
            Aim(w, id, Land);
            answer := Executing;
          }
        case Goto(hasTarget) =>
          if ward.inAir && hasTarget {
            InterruptMission(w);
            Aim(w, id, Hold);
            answer := Executing;
          }
        case StartMission =>
          StartMissionCommand(w, id);
          return;
        case PauseMission =>
          if ward.run.Some? && !ward.run.value.paused {
            wards := wards[w := ward.(run := Some(ward.run.value.(paused := true)))];
            Halt(w);
            answer := Success;
          }
        case SetHome(hasTarget) =>
          if hasTarget {
            answer := Success;
          }
        case NoAction =>
      }
      OnEnvelope(w, Ack(id, answer));
    }

    method SpawnWard(w: Id)
      modifies this
      ensures View() == Step(old(View()), Spawn(w))
    {
      if w !in wards {
        wards := wards[w := SPAWNED];
      }
    }

    method DespawnWard(w: Id)
      modifies this
      ensures View() == Step(old(View()), Despawn(w))
    {
      wards := wards - {w};
      missions := missions - {w};
    }

    method HandleMissionUpload(w: Id, mission: Mission)
      modifies this
      ensures View() == Step(old(View()), Upload(w, mission))
    {
      if w !in wards {
        return;
      }
      missions := missions[w := mission];
      wards := wards[w := wards[w].(run := None)];
    }

    method Arrive(w: Id, target: Target, grounded: bool)
      requires w in wards
      modifies this`wards, this`sent
      ensures w in wards && wards == old(wards)[w := wards[w]]
      ensures At(w) == Arrived(old(At(w)), target, grounded)
    {
      hide Advance;
      match target.onArrival {
        case MissionItem =>
          if wards[w].run.None? {
            return;
          }
          var run := AtItsItem(wards[w].run.value);
          wards := wards[w := wards[w].(run := Some(run))];
          if run.itemIndex < |run.mission.items| && run.mission.items[run.itemIndex].hold {
            wards := wards[w := wards[w].(run := Some(run.(holding := true)))];
          } else {
            AdvanceMission(w);
          }
        case Hold => OnEnvelope(w, Ack(target.command, Success));
        case Land =>
          if grounded {
            wards := wards[w := wards[w].(inAir := false, armed := false)];
            OnEnvelope(w, Ack(target.command, Success));
          } else {
            Aim(w, target.command, Land);
          }
      }
    }

    /** One ward's share of a tick. */
    method TickWard(w: Id, reading: Reading)
      requires w in wards
      modifies this
      ensures View() == Step(old(View()), Tick(w, reading))
    {
      hide Advance, Arrived;
      var ward := wards[w];
      if ward.run.Some? && !ward.run.value.paused && ward.target.None? && ward.run.value.holding && reading.holdOver {
        wards := wards[w := ward.(run := Some(ward.run.value.(holding := false)))];
        AdvanceMission(w);
      }
      assert At(w) == HoldEnded(old(At(w)), reading.holdOver);
      if wards[w].patrolling || wards[w].target.None? || !reading.reached {
        return;
      }
      var target := wards[w].target.value;
      Halt(w);
      Arrive(w, target, reading.grounded);
    }
  }
}

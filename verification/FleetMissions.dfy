/** Fleet missions: one plan and one state per ward, an aggregate status, and the table that relates
    stop commands to the wards they were sent to. The functions say what each request or
    outcome does to the stored state; FleetManager is the class that does it. */
module FleetMissions {
  import opened Options

  /** Wards, missions and commands are named by text in the gateway; here by numbers. */
  type Id = int

  datatype WardStatus = Unspecified | Uploading | Active | Stopping | Stopped | Rejected

  datatype FleetStatus = FleetActive | FleetStopping | FleetStopped

  datatype Plan = Plan(ward: Id, items: seq<nat>)

  datatype WardRow = WardRow(status: WardStatus, message: string, missionId: Option<Id>)

  /** order lists the wards as the store returns them: by id. */
  datatype Mission = Mission(
    name: string,
    repeatCount: nat,
    status: FleetStatus,
    plans: map<Id, Plan>,
    wards: map<Id, WardRow>,
    order: seq<Id>)

  datatype PendingStop = PendingStop(mission: Id, ward: Id)

  /** listing: mission ids in order of creation. nextId: the next name the clock will yield. */
  datatype State = State(
    store: map<Id, Mission>,
    listing: seq<Id>,
    pending: map<Id, PendingStop>,
    nextId: Id)

  const START := State(map[], [], map[], 0)

  datatype Outcome = NotTerminal | Success | RejectedBy(reason: string) | TimedOut

  datatype Ack = Ack(command: Id, outcome: Outcome)

  /** A command outcome reported while a stop command is being dispatched: about that very command,
      or about any other. */
  datatype Delivery = Own(outcome: Outcome) | Other(ack: Ack)

  datatype Reason = UnknownFleet | UnknownMission | StillActive | NoPlans | StoreError

  datatype Reply = Accepted(dispatched: nat) | Refused(reason: Reason)

  predicate Settled(row: WardRow) {
    row.status == Stopped || row.status == Rejected
  }

  predicate AllSettled(m: Mission) {
    forall w :: w in m.wards ==> Settled(m.wards[w])
  }

  /** Neither settled nor already being stopped. */
  predicate Live(row: WardRow) {
    !Settled(row) && row.status != Stopping
  }

  // ----- The store -----

  function InsertId(id: Id, ids: seq<Id>): seq<Id> {
    if ids == [] || id <= ids[0] then [id] + ids else [ids[0]] + InsertId(id, ids[1..])
  }

  function SortedIds(ids: seq<Id>): seq<Id> {
    if ids == [] then [] else InsertId(ids[0], SortedIds(ids[1..]))
  }

  predicate Distinct(ids: seq<Id>) {
    forall i, j :: 0 <= i < j < |ids| ==> ids[i] != ids[j]
  }

  function WardIds(plans: seq<Plan>): (ids: seq<Id>)
    ensures |ids| == |plans|
    ensures forall i :: 0 <= i < |plans| ==> ids[i] == plans[i].ward
  {
    seq(|plans|, i requires 0 <= i < |plans| => plans[i].ward)
  }

  function PlanTable(plans: seq<Plan>): map<Id, Plan> {
    if plans == [] then map[] else PlanTable(plans[1..])[plans[0].ward := plans[0]]
  }

  /** A further row, for a ward that has none yet. */
  lemma {:induction false} PlanTableSnoc(plans: seq<Plan>, plan: Plan)
    requires plan.ward !in WardIds(plans)
    ensures PlanTable(plans + [plan]) == PlanTable(plans)[plan.ward := plan]
  {
    if plans == [] {
      assert plans + [plan] == [plan] && [plan][1..] == [];
    } else {
      assert (plans + [plan])[1..] == plans[1..] + [plan];
      assert WardIds(plans) == [plans[0].ward] + WardIds(plans[1..]);
      PlanTableSnoc(plans[1..], plan);
    }
  }

  /** The rows of a table are those of the wards put into it. */
  lemma {:induction false} PlanTableKeys(plans: seq<Plan>)
    ensures forall w :: w in PlanTable(plans) <==> w in WardIds(plans)
  {
    if plans != [] {
      PlanTableKeys(plans[1..]);
      assert WardIds(plans) == [plans[0].ward] + WardIds(plans[1..]);
    }
  }

  predicate ApartBelow(plans: seq<Plan>, n: nat)
    requires n <= |plans|
  {
    Distinct(WardIds(plans[..n]))
  }

  lemma NextWard(plans: seq<Plan>, i: nat)
    requires i < |plans| && ApartBelow(plans, i) && plans[i].ward !in WardIds(plans[..i])
    ensures plans[..i + 1] == plans[..i] + [plans[i]] && ApartBelow(plans, i + 1)
  {
    var ids := WardIds(plans[..i + 1]);
    assert forall k :: 0 <= k < i ==> ids[k] == WardIds(plans[..i])[k];
  }

  lemma RepeatedWard(plans: seq<Plan>, i: nat)
    requires i < |plans| && plans[i].ward in WardIds(plans[..i])
    ensures !Distinct(WardIds(plans))
  {
    var ids := WardIds(plans[..i]);
    var k :| 0 <= k < |ids| && ids[k] == plans[i].ward;
    assert WardIds(plans)[k] == WardIds(plans)[i];
  }

  const UNPLACED := WardRow(Unspecified, "", None)

  /** A mission as the store first writes it, with every ward still unspecified. */
  function NewMission(name: string, repeatCount: nat, plans: seq<Plan>): Mission {
    var table := PlanTable(plans);
    Mission(name, repeatCount, FleetActive, table, map w | w in table :: UNPLACED, SortedIds(WardIds(plans)))
  }

  /** Overwrites one ward's row; an unknown mission or ward changes nothing. */
  function WithWard(s: State, mission: Id, ward: Id, row: WardRow): State {
    if mission in s.store && ward in s.store[mission].wards then
      var m := s.store[mission];
      s.(store := s.store[mission := m.(wards := m.wards[ward := row])])
    else s
  }

  function WithStatus(s: State, mission: Id, status: FleetStatus): State {
    if mission in s.store then s.(store := s.store[mission := s.store[mission].(status := status)]) else s
  }

  function Without(ids: seq<Id>, id: Id): seq<Id> {
    if ids == [] then [] else (if ids[0] == id then [] else [ids[0]]) + Without(ids[1..], id)
  }

  // ----- Outcomes -----

  function Finalized(s: State, mission: Id): State {
    if mission in s.store && s.store[mission].status == FleetStopping && AllSettled(s.store[mission]) then
      WithStatus(s, mission, FleetStopped)
    else s
  }

  function Answered(row: WardRow, outcome: Outcome): WardRow {
    match outcome
    case Success => row.(status := Stopped, message := "")
    case RejectedBy(reason) => row.(status := Active, message := reason)
    case _ => row.(status := Active, message := "stop command timed out")
  }

  function AfterAck(s: State, ack: Ack): State {
    if ack.outcome == NotTerminal || ack.command !in s.pending then s
    else
      var stop := s.pending[ack.command];
      var t := s.(pending := s.pending - {ack.command});
      if stop.mission in s.store && stop.ward in s.store[stop.mission].wards then
        var row := s.store[stop.mission].wards[stop.ward];
        Finalized(WithWard(t, stop.mission, stop.ward, Answered(row, ack.outcome)), stop.mission)
      else t
  }

  function AfterAcks(s: State, acks: seq<Ack>): State
    decreases acks
  {
    if acks == [] then s else AfterAcks(AfterAck(s, acks[0]), acks[1..])
  }

  predicate Awaits(m: Mission, ward: Id, missionId: Id) {
    && ward in m.wards
    && m.wards[ward].missionId == Some(missionId)
    && m.wards[ward].status == Uploading
  }

  /** The position of the first listed mission waiting for this upload, if any. */
  function FirstAwaiting(s: State, i: nat, ward: Id, missionId: Id): nat
    decreases |s.listing| - i
  {
    if i >= |s.listing| then |s.listing|
    else if s.listing[i] in s.store && Awaits(s.store[s.listing[i]], ward, missionId) then i
    else FirstAwaiting(s, i + 1, ward, missionId)
  }

  function Uploaded(row: WardRow, success: bool, message: string): WardRow {
    if success then row.(status := Active, message := "") else row.(status := Rejected, message := message)
  }

  function AfterUpload(s: State, ward: Id, missionId: Id, success: bool, message: string): State {
    var i := FirstAwaiting(s, 0, ward, missionId);
    if i < |s.listing| && s.listing[i] in s.store && ward in s.store[s.listing[i]].wards then
      WithWard(s, s.listing[i], ward, Uploaded(s.store[s.listing[i]].wards[ward], success, message))
    else s
  }

  // ----- Requests -----

  /** The row a ward gets when its route is handed over. */
  function DispatchRow(ward: Id, refusals: map<Id, string>, missionId: Id): WardRow {
    if ward in refusals then WardRow(Rejected, refusals[ward], Some(missionId))
    else WardRow(Uploading, "", Some(missionId))
  }

  /** Hands each plan to its ward. refusals: the wards that refuse at once, and why. */
  function Dispatched(s: State, mission: Id, plans: seq<Plan>, refusals: map<Id, string>): State
    decreases plans
  {
    if plans == [] then s
    else
      var w := plans[0].ward;
      Dispatched(WithWard(s.(nextId := s.nextId + 1), mission, w, DispatchRow(w, refusals, s.nextId)),
                 mission, plans[1..], refusals)
  }

  function AfterCreate(s: State, fleetKnown: bool, name: string, repeatCount: nat, plans: seq<Plan>,
                       refusals: map<Id, string>): (State, Reply)
  {
    if !fleetKnown then (s, Refused(UnknownFleet))
    else if plans == [] then (s, Refused(NoPlans))
    else
      var id := s.nextId;
      var t := s.(nextId := id + 1);
      if !Distinct(WardIds(plans)) then (t, Refused(StoreError))
      else
        var u := t.(store := t.store[id := NewMission(name, repeatCount, plans)], listing := t.listing + [id]);
        (Dispatched(u, id, plans, refusals), Accepted(|plans|))
  }

  function AfterEdit(s: State, mission: Id, name: string, repeatCount: nat, plans: seq<Plan>,
                     refusals: map<Id, string>): (State, Reply)
  {
    if mission !in s.store then (s, Refused(UnknownMission))
    else if !AllSettled(s.store[mission]) then (s, Refused(StillActive))
    else if plans == [] then (s, Refused(NoPlans))
    else if !Distinct(WardIds(plans)) then (s, Refused(StoreError))
    else
      var t := s.(store := s.store[mission := NewMission(name, repeatCount, plans)]);
      (Dispatched(t, mission, plans, refusals), Accepted(|plans|))
  }

  function AfterRemove(s: State, mission: Id): (State, Reply) {
    if mission !in s.store then (s, Refused(UnknownMission))
    else if !AllSettled(s.store[mission]) then (s, Refused(StillActive))
    else (s.(store := s.store - {mission}, listing := Without(s.listing, mission)), Accepted(0))
  }

  function AckOf(delivery: Delivery, command: Id): Ack {
    match delivery
    case Own(outcome) => Ack(command, outcome)
    case Other(ack) => ack
  }

  function AcksOf(deliveries: seq<Delivery>, command: Id): (acks: seq<Ack>)
    ensures |acks| == |deliveries|
    ensures forall i :: 0 <= i < |acks| ==> acks[i] == AckOf(deliveries[i], command)
  {
    seq(|deliveries|, i requires 0 <= i < |deliveries| => AckOf(deliveries[i], command))
  }

  /** The ward is marked and the command entered in the table before anything can answer it. */
  function StopSent(s: State, mission: Id, ward: Id, missionId: Option<Id>): State {
    var t := WithWard(s, mission, ward, WardRow(Stopping, "", missionId));
    t.(pending := t.pending[s.nextId := PendingStop(mission, ward)], nextId := s.nextId + 1)
  }

  function StopWard(s: State, mission: Id, ward: Id, missionId: Option<Id>, deliveries: seq<Delivery>): State {
    AfterAcks(StopSent(s, mission, ward, missionId), AcksOf(deliveries, s.nextId))
  }

  function DeliveriesFor(during: map<Id, seq<Delivery>>, ward: Id): seq<Delivery> {
    if ward in during then during[ward] else []
  }

  /** The loop over the snapshot taken at the start. during: what is reported while each ward's stop
      command is being dispatched. */
  function StopWards(s: State, mission: Id, wards: map<Id, WardRow>, order: seq<Id>,
                     during: map<Id, seq<Delivery>>): State
    decreases order
  {
    if order == [] then s
    else
      var w := order[0];
      if w in wards && Live(wards[w]) then
        StopWards(StopWard(s, mission, w, wards[w].missionId, DeliveriesFor(during, w)), mission, wards, order[1..], during)
      else StopWards(s, mission, wards, order[1..], during)
  }

  function LiveCount(wards: map<Id, WardRow>, order: seq<Id>): nat {
    if order == [] then 0
    else (if order[0] in wards && Live(wards[order[0]]) then 1 else 0) + LiveCount(wards, order[1..])
  }

  function AfterStop(s: State, mission: Id, during: map<Id, seq<Delivery>>): (State, Reply) {
    if mission !in s.store then (s, Refused(UnknownMission))
    else
      var m := s.store[mission];
      var n := LiveCount(m.wards, m.order);
      var t := StopWards(s, mission, m.wards, m.order, during);
      (if n > 0 then Finalized(WithStatus(t, mission, FleetStopping), mission) else t, Accepted(n))
  }

  // ----- Runs -----

  datatype Op =
    | Create(fleetKnown: bool, name: string, repeatCount: nat, plans: seq<Plan>, refusals: map<Id, string>)
    | Edit(mission: Id, name: string, repeatCount: nat, plans: seq<Plan>, refusals: map<Id, string>)
    | Stop(mission: Id, during: map<Id, seq<Delivery>>)
    | Remove(mission: Id)
    | CommandOutcome(ack: Ack)
    | UploadOutcome(ward: Id, missionId: Id, success: bool, message: string)

  function Step(s: State, op: Op): State {
    match op
    case Create(known, name, n, plans, refusals) => AfterCreate(s, known, name, n, plans, refusals).0
    case Edit(mission, name, n, plans, refusals) => AfterEdit(s, mission, name, n, plans, refusals).0
    case Stop(mission, during) => AfterStop(s, mission, during).0
    case Remove(mission) => AfterRemove(s, mission).0
    case CommandOutcome(ack) => AfterAck(s, ack)
    case UploadOutcome(ward, missionId, success, message) => AfterUpload(s, ward, missionId, success, message)
  }

  function Run(s: State, ops: seq<Op>): State
    decreases ops
  {
    if ops == [] then s else Run(Step(s, ops[0]), ops[1..])
  }

  // ----- The manager -----

  class FleetManager {
    var store: map<Id, Mission>
    var listing: seq<Id>
    var pending: map<Id, PendingStop>
    var nextId: Id

    function View(): State
      reads this
    {
      State(store, listing, pending, nextId)
    }

    constructor ()
      ensures View() == START
    {
      store, listing, pending, nextId := map[], [], map[], 0;
    }

    method UpdateWardState(mission: Id, ward: Id, row: WardRow)
      modifies this`store
      ensures View() == WithWard(old(View()), mission, ward, row)
    {
      if mission in store && ward in store[mission].wards {
        var m := store[mission];
        store := store[mission := m.(wards := m.wards[ward := row])];
      }
    }

    method SetStatus(mission: Id, status: FleetStatus)
      modifies this`store
      ensures View() == WithStatus(old(View()), mission, status)
    {
      if mission in store {
        store := store[mission := store[mission].(status := status)];
      }
    }

    /** Inserts a plan and a state for each ward in turn; the primary key refuses a ward's second row, and
        the rest is not tried. */
    method InsertRoutes(mission: Id, plans: seq<Plan>) returns (ok: bool)
      requires mission in store && store[mission].plans == map[] && store[mission].wards == map[]
      modifies this`store
      ensures ok == Distinct(WardIds(plans))
      ensures ok ==> store == old(store)[mission := old(store)[mission].(
        plans := PlanTable(plans), wards := map w | w in PlanTable(plans) :: UNPLACED, order := SortedIds(WardIds(plans)))]
    {
      ghost var before := store;
      assert store == before[mission := before[mission].(plans := PlanTable([]), wards := map w | w in PlanTable([]) :: UNPLACED)];
      for i := 0 to |plans|
        invariant ApartBelow(plans, i)
        invariant store == before[mission := before[mission].(
          plans := PlanTable(plans[..i]), wards := map w | w in PlanTable(plans[..i]) :: UNPLACED)]
      {
        var w := plans[i].ward;
        var m := store[mission];
        PlanTableKeys(plans[..i]);
        if w in m.plans {
          assert w in WardIds(plans[..i]);
          RepeatedWard(plans, i);
          return false;
        }
        NextWard(plans, i);
        PlanTableSnoc(plans[..i], plans[i]);
        store := store[mission := m.(plans := m.plans[w := plans[i]], wards := m.wards[w := UNPLACED])];
        ghost var table := PlanTable(plans[..i + 1]);
        assert store[mission].wards == map v | v in table :: UNPLACED;
      }
      assert plans[..|plans|] == plans;
      store := store[mission := store[mission].(order := SortedIds(WardIds(plans)))];
      ok := true;
    }

    /** One transaction: if any row is refused the tables are as before. */
    method CreateFleetMission(id: Id, name: string, repeatCount: nat, plans: seq<Plan>) returns (ok: bool)
      modifies this`store, this`listing
      ensures ok == Distinct(WardIds(plans))
      ensures ok ==> store == old(store)[id := NewMission(name, repeatCount, plans)] && listing == old(listing) + [id]
      ensures !ok ==> store == old(store) && listing == old(listing)
    {
      var saved := store;
      store := store[id := Mission(name, repeatCount, FleetActive, map[], map[], [])];
      ok := InsertRoutes(id, plans);
      if !ok {
        store := saved;
        return;
      }
      listing := listing + [id];
    }

    /** One transaction: the old rows are deleted and the new ones inserted, or the tables are as before. */
    method UpdateWardPlans(mission: Id, name: string, repeatCount: nat, plans: seq<Plan>) returns (ok: bool)
      modifies this`store
      ensures ok == (mission in old(store) && Distinct(WardIds(plans)))
      ensures store == if ok then old(store)[mission := NewMission(name, repeatCount, plans)] else old(store)
    {
      if mission !in store {
        return false;
      }
      var saved := store;
      store := store[mission := store[mission].(name := name, repeatCount := repeatCount, status := FleetActive)];
      store := store[mission := store[mission].(plans := map[])];
      store := store[mission := store[mission].(wards := map[])];
      ok := InsertRoutes(mission, plans);
      if !ok {
        store := saved;
      }
    }

    method MaybeFinalizeStop(mission: Id)
      modifies this`store
      ensures View() == Finalized(old(View()), mission)
    {
      if mission !in store || store[mission].status != FleetStopping {
        return;
      }
      if AllSettled(store[mission]) {
        SetStatus(mission, FleetStopped);
      }
    }

    method HandleCommandOutcome(ack: Ack)
      modifies this
      ensures View() == AfterAck(old(View()), ack)
    {
      if ack.outcome == NotTerminal {
        return;
      }
      if ack.command !in pending {
        return;
      }
      var stop := pending[ack.command];
      pending := pending - {ack.command};
      if stop.mission !in store || stop.ward !in store[stop.mission].wards {
        return;
      }
      var row := store[stop.mission].wards[stop.ward];
      match ack.outcome {
        case Success => row := row.(status := Stopped, message := "");
        case RejectedBy(reason) => row := row.(status := Active, message := reason);
        case _ => row := row.(status := Active, message := "stop command timed out");
      }
      UpdateWardState(stop.mission, stop.ward, row);
      MaybeFinalizeStop(stop.mission);
    }

    /** Everything the rest of the gateway may report back before a dispatched command returns. */
    method DispatchCommand(command: Id, deliveries: seq<Delivery>)
      modifies this
      ensures View() == AfterAcks(old(View()), AcksOf(deliveries, command))
    {
      ghost var acks := AcksOf(deliveries, command);
      ghost var before := View();
      for i := 0 to |deliveries|
        invariant AfterAcks(before, acks) == AfterAcks(View(), acks[i..])
      {
        HandleCommandOutcome(AckOf(deliveries[i], command));
        assert acks[i..][1..] == acks[i + 1..];
      }
    }

    method StopOne(mission: Id, ward: Id, missionId: Option<Id>, deliveries: seq<Delivery>)
      modifies this
      ensures View() == StopWard(old(View()), mission, ward, missionId, deliveries)
    {
      var command := nextId;
      nextId := nextId + 1;
      UpdateWardState(mission, ward, WardRow(Stopping, "", missionId));
      pending := pending[command := PendingStop(mission, ward)];
      DispatchCommand(command, deliveries);
    }

    method HandleStop(mission: Id, during: map<Id, seq<Delivery>>) returns (reply: Reply)
      modifies this
      ensures (View(), reply) == AfterStop(old(View()), mission, during)
    {
      if mission !in store {
        return Refused(UnknownMission);
      }
      var snapshot := store[mission];
      ghost var before := View();
      var dispatched := 0;
      var i := 0;
      while i < |snapshot.order|
        invariant 0 <= i <= |snapshot.order|
        invariant dispatched + LiveCount(snapshot.wards, snapshot.order[i..]) == LiveCount(snapshot.wards, snapshot.order)
        invariant StopWards(View(), mission, snapshot.wards, snapshot.order[i..], during)
               == StopWards(before, mission, snapshot.wards, snapshot.order, during)
      {
        hide StopWard, Live;
        var w := snapshot.order[i];
        assert snapshot.order[i..][1..] == snapshot.order[i + 1..];
        if w in snapshot.wards && Live(snapshot.wards[w]) {
          StopOne(mission, w, snapshot.wards[w].missionId, DeliveriesFor(during, w));
          dispatched := dispatched + 1;
        }
        i := i + 1;
      }
      if dispatched > 0 {
        SetStatus(mission, FleetStopping);
        MaybeFinalizeStop(mission);
      }
      reply := Accepted(dispatched);
    }

    /** Sends every ward its own route; an immediate refusal settles that ward at once. */
    method UploadPlans(mission: Id, plans: seq<Plan>, refusals: map<Id, string>)
      modifies this`store, this`nextId
      ensures View() == Dispatched(old(View()), mission, plans, refusals)
    {
      ghost var before := View();
      for i := 0 to |plans|
        invariant listing == old(listing) && pending == old(pending)
        invariant Dispatched(before, mission, plans, refusals) == Dispatched(View(), mission, plans[i..], refusals)
      {
        var w := plans[i].ward;
        var missionId := nextId;
        nextId := nextId + 1;
        var row := WardRow(Uploading, "", Some(missionId));
        if w in refusals {
          row := WardRow(Rejected, refusals[w], Some(missionId));
        }
        assert plans[i..][1..] == plans[i + 1..];
        UpdateWardState(mission, w, row);
      }
    }

    method HandleCreate(fleetKnown: bool, name: string, repeatCount: nat, plans: seq<Plan>, refusals: map<Id, string>)
      returns (reply: Reply)
      modifies this
      ensures (View(), reply) == AfterCreate(old(View()), fleetKnown, name, repeatCount, plans, refusals)
    {
      if !fleetKnown {
        return Refused(UnknownFleet);
      }
      if plans == [] {
        return Refused(NoPlans);
      }
      var id := nextId;
      nextId := nextId + 1;
      var stored := CreateFleetMission(id, name, repeatCount, plans);
      if !stored {
        return Refused(StoreError);
      }
      UploadPlans(id, plans, refusals);
      reply := Accepted(|plans|);
    }

    method HandleEdit(mission: Id, name: string, repeatCount: nat, plans: seq<Plan>, refusals: map<Id, string>)
      returns (reply: Reply)
      modifies this
      ensures (View(), reply) == AfterEdit(old(View()), mission, name, repeatCount, plans, refusals)
    {
      if mission !in store {
        return Refused(UnknownMission);
      }
      if !AllSettled(store[mission]) {
        return Refused(StillActive);
      }
      if plans == [] {
        return Refused(NoPlans);
      }
      var stored := UpdateWardPlans(mission, name, repeatCount, plans);
      if !stored {
        return Refused(StoreError);
      }
      UploadPlans(mission, plans, refusals);
      reply := Accepted(|plans|);
    }

    method HandleRemove(mission: Id) returns (reply: Reply)
      modifies this
      ensures (View(), reply) == AfterRemove(old(View()), mission)
    {
      if mission !in store {
        return Refused(UnknownMission);
      }
      if !AllSettled(store[mission]) {
        return Refused(StillActive);
      }
      store := store - {mission};
      listing := Without(listing, mission);
      reply := Accepted(0);
    }

    method HandleUploadOutcome(ward: Id, missionId: Id, success: bool, message: string)
      modifies this`store
      ensures View() == AfterUpload(old(View()), ward, missionId, success, message)
    {
      var i := 0;
      while i < |listing|
        invariant 0 <= i <= |listing|
        invariant View() == old(View())
        invariant FirstAwaiting(View(), 0, ward, missionId) == FirstAwaiting(View(), i, ward, missionId)
      {
        var id := listing[i];
        if id in store && Awaits(store[id], ward, missionId) {
          var row := store[id].wards[ward];
          if success {
            row := row.(status := Active, message := "");
          } else {
            row := row.(status := Rejected, message := message);
          }
          UpdateWardState(id, ward, row);
          return;
        }
        i := i + 1;
      }
    }
  }
}

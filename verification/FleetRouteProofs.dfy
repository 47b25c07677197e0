/** What creating, editing and uploading do to a fleet mission, and what they can never do. */
module FleetRouteProofs {
  import opened Options
  import opened FleetMissions
  import opened FleetMissionProofs

  // ----- Handing out routes -----

  /** A ward given its route waits for the upload of that very name, unless it refused, for a reason. */
  function PlacedRow(ward: Id, refusals: map<Id, string>, upload: Id): WardRow {
    if ward in refusals then WardRow(Rejected, refusals[ward], Some(upload)) else WardRow(Uploading, "", Some(upload))
  }

  /** Each ward's row is the one its own dispatch wrote, under a name of its own. */
  ghost predicate RowsDispatched(s: State, t: State, mission: Id, plans: seq<Plan>, refusals: map<Id, string>) {
    && t.nextId == s.nextId + |plans|
    && (forall i :: 0 <= i < |plans| ==>
          RowAt(t.store, mission, plans[i].ward) == Some(PlacedRow(plans[i].ward, refusals, s.nextId + i)))
    && (forall w :: w !in WardIds(plans) ==> RowAt(t.store, mission, w) == RowAt(s.store, mission, w))
  }

  ghost predicate OnlyRowsOf(s: State, t: State, mission: Id) {
    && t.pending == s.pending && t.listing == s.listing && t.store.Keys == s.store.Keys
    && (forall m :: m in s.store && m != mission ==> t.store[m] == s.store[m])
    && mission in s.store && t.store[mission] == s.store[mission].(wards := t.store[mission].wards)
    && t.store[mission].wards.Keys == s.store[mission].wards.Keys
  }

  lemma WithWardExactly(s: State, mission: Id, ward: Id, row: WardRow)
    requires RowAt(s.store, mission, ward).Some?
    ensures var t := WithWard(s, mission, ward, row);
            && OnlyRowsOf(s, t, mission) && t.nextId == s.nextId
            && (forall w :: RowAt(t.store, mission, w) == if w == ward then Some(row) else RowAt(s.store, mission, w))
  {
  }

  lemma {:induction false} DispatchedExactly(s: State, mission: Id, plans: seq<Plan>, refusals: map<Id, string>)
    requires mission in s.store && Distinct(WardIds(plans))
    requires forall i :: 0 <= i < |plans| ==> plans[i].ward in s.store[mission].wards
    ensures OnlyRowsOf(s, Dispatched(s, mission, plans, refusals), mission)
    ensures RowsDispatched(s, Dispatched(s, mission, plans, refusals), mission, plans, refusals)
    decreases plans
  {
    if plans != [] {
      var w, rest := plans[0].ward, plans[1..];
      var row := DispatchRow(w, refusals, s.nextId);
      var t := WithWard(s.(nextId := s.nextId + 1), mission, w, row);
      WithWardExactly(s.(nextId := s.nextId + 1), mission, w, row);
      DistinctTail(WardIds(plans));
      assert WardIds(plans)[1..] == WardIds(rest);
      assert forall i :: 0 <= i < |rest| ==> rest[i] == plans[i + 1];
      assert row == PlacedRow(w, refusals, s.nextId);
      hide WithWard, PlacedRow, DispatchRow;
      DispatchedExactly(t, mission, rest, refusals);
      var u := Dispatched(t, mission, rest, refusals);
      RowsCompose(s, t, u, mission, plans, refusals);
    }
  }

  lemma RowsCompose(s: State, t: State, u: State, mission: Id, plans: seq<Plan>, refusals: map<Id, string>)
    requires plans != [] && plans[0].ward !in WardIds(plans[1..])
    requires t.nextId == s.nextId + 1
    requires forall w :: RowAt(t.store, mission, w)
                      == if w == plans[0].ward then Some(PlacedRow(w, refusals, s.nextId)) else RowAt(s.store, mission, w)
    requires RowsDispatched(t, u, mission, plans[1..], refusals)
    ensures RowsDispatched(s, u, mission, plans, refusals)
  {
    hide RowAt, PlacedRow;
    var rest := plans[1..];
    assert WardIds(plans) == [plans[0].ward] + WardIds(rest);
    forall i | 0 <= i < |plans|
      ensures RowAt(u.store, mission, plans[i].ward) == Some(PlacedRow(plans[i].ward, refusals, s.nextId + i))
    {
      if i > 0 {
        assert rest[i - 1] == plans[i];
        assert t.nextId + (i - 1) == s.nextId + i;
      }
    }
  }

  /** A new or edited mission consists of exactly the requested wards, each either uploading or refused
      with the reason, under upload names never used before; nothing else changes. */
  lemma PlacedExactly(u: State, mission: Id, name: string, repeatCount: nat, plans: seq<Plan>,
                      refusals: map<Id, string>)
    requires plans != [] && Distinct(WardIds(plans))
    requires mission in u.store && u.store[mission] == NewMission(name, repeatCount, plans)
    ensures var t := Dispatched(u, mission, plans, refusals);
            && OnlyRowsOf(u, t, mission) && RowsDispatched(u, t, mission, plans, refusals)
            && t.store[mission].status == FleetActive
            && (forall w :: w in t.store[mission].wards <==> w in WardIds(plans))
  {
    NewMissionSound(name, repeatCount, plans);
    assert forall i :: 0 <= i < |plans| ==> plans[i].ward == WardIds(plans)[i];
    DispatchedExactly(u, mission, plans, refusals);
  }

  /** A request that nothing else speaks against is refused exactly if a ward has two routes in it: the
      store's inserts then fail and are rolled back, so that missions, listing and table are as before. */
  lemma DuplicateWardsRefused(s: State, mission: Id, name: string, repeatCount: nat, plans: seq<Plan>,
                              refusals: map<Id, string>)
    requires plans != []
    ensures var (t, reply) := AfterCreate(s, true, name, repeatCount, plans, refusals);
            && (reply.Refused? <==> exists i, j :: 0 <= i < j < |plans| && plans[i].ward == plans[j].ward)
            && (reply.Refused? ==> t.store == s.store && t.pending == s.pending && t.listing == s.listing)
    ensures var (t, reply) := AfterEdit(s, mission, name, repeatCount, plans, refusals);
            mission in s.store && AllSettled(s.store[mission]) ==>
              && (reply.Refused? <==> exists i, j :: 0 <= i < j < |plans| && plans[i].ward == plans[j].ward)
              && (reply.Refused? ==> t == s)
  {
    assert Distinct(WardIds(plans)) <==> !(exists i, j :: 0 <= i < j < |plans| && plans[i].ward == plans[j].ward) by {
      if i, j :| 0 <= i < j < |plans| && plans[i].ward == plans[j].ward {
        assert WardIds(plans)[i] == WardIds(plans)[j];
      }
    }
    hide Dispatched, NewMission;
  }

  /** A mission as requested: each ward with its own route, waiting for the upload of that name unless it
      refused, and the wards in order. */
  ghost predicate AsRequested(m: Mission, name: string, repeatCount: nat, plans: seq<Plan>, refusals: map<Id, string>, upload: Id) {
    && m.name == name && m.repeatCount == repeatCount && m.status == FleetActive
    && m.plans.Keys == m.wards.Keys
    && (forall w :: w in m.wards <==> w in WardIds(plans))
    && (forall i :: 0 <= i < |plans| ==> plans[i].ward in m.plans && m.plans[plans[i].ward] == plans[i])
    && (forall i :: 0 <= i < |plans| ==>
          plans[i].ward in m.wards && m.wards[plans[i].ward] == PlacedRow(plans[i].ward, refusals, upload + i))
    && Ascending(m.order)
    && (forall w :: w in m.order <==> w in WardIds(plans))
  }

  lemma {:induction false} OwnRoutes(plans: seq<Plan>)
    requires Distinct(WardIds(plans))
    ensures forall i :: 0 <= i < |plans| ==> plans[i].ward in PlanTable(plans) && PlanTable(plans)[plans[i].ward] == plans[i]
  {
    if plans != [] {
      DistinctTail(WardIds(plans));
      assert WardIds(plans)[1..] == WardIds(plans[1..]);
      OwnRoutes(plans[1..]);
      forall i | 0 < i < |plans| ensures plans[i].ward in PlanTable(plans) && PlanTable(plans)[plans[i].ward] == plans[i] {
        assert plans[i] == plans[1..][i - 1];
        assert WardIds(plans)[i] != WardIds(plans)[0];
      }
    }
  }

  lemma NewMissionTables(name: string, repeatCount: nat, plans: seq<Plan>)
    requires Distinct(WardIds(plans))
    ensures var m := NewMission(name, repeatCount, plans);
      && m.name == name && m.repeatCount == repeatCount && m.status == FleetActive && m.plans.Keys == m.wards.Keys
      && (forall i :: 0 <= i < |plans| ==> plans[i].ward in m.plans && m.plans[plans[i].ward] == plans[i])
      && Ascending(m.order)
      && (forall w :: w in m.order <==> w in WardIds(plans))
  {
    OwnRoutes(plans);
    SortedIdsAscend(WardIds(plans));
    SortedIdsMembers(WardIds(plans));
    hide PlanTable, SortedIds, WardIds, Ascending, Distinct;
  }

  lemma DispatchedAsRequested(u: State, mission: Id, name: string, repeatCount: nat, plans: seq<Plan>, refusals: map<Id, string>)
    requires plans != [] && Distinct(WardIds(plans))
    requires mission in u.store && u.store[mission] == NewMission(name, repeatCount, plans)
    ensures var t := Dispatched(u, mission, plans, refusals);
      OnlyRowsOf(u, t, mission) && AsRequested(t.store[mission], name, repeatCount, plans, refusals, u.nextId)
  {
    hide *;
    PlacedExactly(u, mission, name, repeatCount, plans, refusals);
    NewMissionTables(name, repeatCount, plans);
    var t := Dispatched(u, mission, plans, refusals);
    OnlyItsRows(u, t, mission);
    RowsAsPlaced(u, t, mission, plans, refusals);
    WithItsRows(u.store[mission], t.store[mission], name, repeatCount, plans, refusals, u.nextId);
  }

  lemma OnlyItsRows(s: State, t: State, mission: Id)
    requires OnlyRowsOf(s, t, mission)
    ensures mission in s.store && mission in t.store
    ensures t.store[mission] == s.store[mission].(wards := t.store[mission].wards)
    ensures t.store[mission].wards.Keys == s.store[mission].wards.Keys
  {
  }

  lemma WithItsRows(before: Mission, m: Mission, name: string, repeatCount: nat, plans: seq<Plan>, refusals: map<Id, string>, upload: Id)
    requires before.name == name && before.repeatCount == repeatCount && before.status == FleetActive
    requires before.plans.Keys == before.wards.Keys == m.wards.Keys && m == before.(wards := m.wards)
    requires forall w :: w in m.wards <==> w in WardIds(plans)
    requires forall i :: 0 <= i < |plans| ==> plans[i].ward in before.plans && before.plans[plans[i].ward] == plans[i]
    requires forall i :: 0 <= i < |plans| ==>
      plans[i].ward in m.wards && m.wards[plans[i].ward] == PlacedRow(plans[i].ward, refusals, upload + i)
    requires Ascending(before.order) && forall w :: w in before.order <==> w in WardIds(plans)
    ensures AsRequested(m, name, repeatCount, plans, refusals, upload)
  {
    hide WardIds, PlacedRow, Ascending;
  }

  lemma RowsAsPlaced(u: State, t: State, mission: Id, plans: seq<Plan>, refusals: map<Id, string>)
    requires mission in t.store && RowsDispatched(u, t, mission, plans, refusals)
    ensures forall i :: 0 <= i < |plans| ==>
      && plans[i].ward in t.store[mission].wards
      && t.store[mission].wards[plans[i].ward] == PlacedRow(plans[i].ward, refusals, u.nextId + i)
  {
    hide WardIds, PlacedRow;
    forall i | 0 <= i < |plans|
      ensures plans[i].ward in t.store[mission].wards
      ensures t.store[mission].wards[plans[i].ward] == PlacedRow(plans[i].ward, refusals, u.nextId + i)
    {
      assert RowAt(t.store, mission, plans[i].ward).Some?;
    }
  }

  predicate NoWardTwice(plans: seq<Plan>) {
    forall i, j :: 0 <= i < j < |plans| ==> plans[i].ward != plans[j].ward
  }

  lemma DistinctWards(plans: seq<Plan>)
    ensures Distinct(WardIds(plans)) <==> NoWardTwice(plans)
  {
    assert forall i, j :: 0 <= i < j < |plans| ==> (plans[i].ward != plans[j].ward <==> WardIds(plans)[i] != WardIds(plans)[j]);
  }

  /** A fleet mission is created exactly if the fleet is known, there are routes, and no ward has two; it
      is then as requested and everything else is as before. */
  lemma CreatedExactly(s: State, fleetKnown: bool, name: string, repeatCount: nat, plans: seq<Plan>, refusals: map<Id, string>)
    requires Inv(s)
    ensures var (t, reply) := AfterCreate(s, fleetKnown, name, repeatCount, plans, refusals);
      && (reply.Accepted? <==>
            fleetKnown && plans != [] && NoWardTwice(plans))
      && t.pending == s.pending
      && (if reply.Accepted? then
            && reply.dispatched == |plans| && s.nextId !in s.store
            && t.listing == s.listing + [s.nextId] && t.store.Keys == s.store.Keys + {s.nextId}
            && AsRequested(t.store[s.nextId], name, repeatCount, plans, refusals, s.nextId + 1)
            && (forall m :: m in s.store ==> t.store[m] == s.store[m])
          else t.store == s.store && t.listing == s.listing)
  {
    var id := s.nextId;
    assert id !in s.store by {
      hide Matched, ShapesSound, AggregatesSound, UploadsDistinct, Listed;
    }
    DistinctWards(plans);
    hide Inv, NewMission, Dispatched, AsRequested, Distinct, WardIds, AllSettled, NoWardTwice;
    if fleetKnown && plans != [] && Distinct(WardIds(plans)) {
      AddedAsRequested(s, name, repeatCount, plans, refusals);
    }
  }

  lemma AddedAsRequested(s: State, name: string, repeatCount: nat, plans: seq<Plan>, refusals: map<Id, string>)
    requires plans != [] && Distinct(WardIds(plans)) && s.nextId !in s.store
    ensures var id := s.nextId;
      var u := State(s.store[id := NewMission(name, repeatCount, plans)], s.listing + [id], s.pending, id + 1);
      var t := Dispatched(u, id, plans, refusals);
      && t.pending == s.pending && t.listing == s.listing + [id] && t.store.Keys == s.store.Keys + {id}
      && AsRequested(t.store[id], name, repeatCount, plans, refusals, id + 1)
      && (forall m :: m in s.store ==> t.store[m] == s.store[m])
  {
    var id := s.nextId;
    var u := State(s.store[id := NewMission(name, repeatCount, plans)], s.listing + [id], s.pending, id + 1);
    hide NewMission, Dispatched, AsRequested, Distinct, WardIds;
    DispatchedAsRequested(u, id, name, repeatCount, plans, refusals);
  }

  /** A fleet mission is edited exactly if it is known, all its wards are settled, there are routes, and no
      ward has two; it is then as requested and everything else is as before. */
  lemma EditedExactly(s: State, mission: Id, name: string, repeatCount: nat, plans: seq<Plan>, refusals: map<Id, string>)
    ensures var (t, reply) := AfterEdit(s, mission, name, repeatCount, plans, refusals);
      && (reply.Accepted? <==>
            && mission in s.store
            && (forall w :: w in s.store[mission].wards ==> s.store[mission].wards[w].status in {Stopped, Rejected})
            && plans != [] && NoWardTwice(plans))
      && (if reply.Accepted? then
            && reply.dispatched == |plans|
            && t.listing == s.listing && t.pending == s.pending && t.store.Keys == s.store.Keys
            && AsRequested(t.store[mission], name, repeatCount, plans, refusals, s.nextId)
            && (forall m :: m in s.store && m != mission ==> t.store[m] == s.store[m])
          else t == s)
  {
    DistinctWards(plans);
    assert mission in s.store ==>
      (AllSettled(s.store[mission]) <==> forall w :: w in s.store[mission].wards ==> s.store[mission].wards[w].status in {Stopped, Rejected});
    hide NewMission, Dispatched, AsRequested, Distinct, WardIds, AllSettled, NoWardTwice;
    if mission in s.store && AllSettled(s.store[mission]) && plans != [] && Distinct(WardIds(plans)) {
      var u := s.(store := s.store[mission := NewMission(name, repeatCount, plans)]);
      DispatchedAsRequested(u, mission, name, repeatCount, plans, refusals);
    }
  }

  // ----- Upload outcomes -----

  /** An upload outcome changes one ward, and only one that is still waiting for that very upload: it is
      active if the upload succeeded, and otherwise refused, for the reason given. */
  lemma UploadExactly(s: State, ward: Id, missionId: Id, success: bool, message: string)
    requires Inv(s)
    ensures (forall m :: m in s.store ==> !Awaits(s.store[m], ward, missionId)) ==>
              AfterUpload(s, ward, missionId, success, message) == s
    ensures forall m :: m in s.store && Awaits(s.store[m], ward, missionId) ==>
              AfterUpload(s, ward, missionId, success, message)
              == s.(store := PutRow(s.store, m, ward,
                  if success then WardRow(Active, "", Some(missionId)) else WardRow(Rejected, message, Some(missionId))))
  {
    FirstAwaitingFinds(s, 0, ward, missionId);
    var i := FirstAwaiting(s, 0, ward, missionId);
    hide Matched, ShapesSound, AggregatesSound, NamesFresh, FirstAwaiting;
    forall m | m in s.store && Awaits(s.store[m], ward, missionId)
      ensures i < |s.listing| && s.listing[i] == m
    {
      assert m in s.listing;
      var k :| 0 <= k < |s.listing| && s.listing[k] == m;
      assert i < |s.listing|;
      assert Issued(s.store, missionId, m, ward) && Issued(s.store, missionId, s.listing[i], ward);
    }
  }

  /** The outcome of an upload begun before an edit no longer concerns the edited mission. */
  lemma StaleUploadIgnored(s: State, mission: Id, name: string, repeatCount: nat, plans: seq<Plan>,
                           refusals: map<Id, string>, ward: Id, missionId: Id, success: bool, message: string)
    requires Inv(s) && missionId < s.nextId
    requires AfterEdit(s, mission, name, repeatCount, plans, refusals).1.Accepted?
    ensures var t := AfterEdit(s, mission, name, repeatCount, plans, refusals).0;
            mission in t.store && mission in AfterUpload(t, ward, missionId, success, message).store
            && AfterUpload(t, ward, missionId, success, message).store[mission] == t.store[mission]
  {
    var u := s.(store := s.store[mission := NewMission(name, repeatCount, plans)]);
    var t := AfterEdit(s, mission, name, repeatCount, plans, refusals).0;
    PlacedExactly(u, mission, name, repeatCount, plans, refusals);
    AfterEditKeeps(s, mission, name, repeatCount, plans, refusals);
    hide AfterEdit, Inv, Dispatched, NewMission;
    assert !Awaits(t.store[mission], ward, missionId);
    UploadExactly(t, ward, missionId, success, message);
    FirstAwaitingFinds(t, 0, ward, missionId);
  }

  // ----- Settled wards -----

  predicate SettledAt(store: Store, mission: Id, ward: Id) {
    RowAt(store, mission, ward).Some? && Settled(RowAt(store, mission, ward).value)
  }

  /** A settled row is kept as long as its mission and ward exist. */
  ghost predicate SettledKept(s: State, t: State) {
    forall m, w :: SettledAt(s.store, m, w) && RowAt(t.store, m, w).Some? ==> RowAt(t.store, m, w) == RowAt(s.store, m, w)
  }

  lemma AckedKeepsSettled(s: State, t: State)
    requires AckedOnly(s, t)
    ensures SettledKept(s, t)
  {
    hide RowAt;
    forall m, w | SettledAt(s.store, m, w) ensures RowAt(t.store, m, w) == RowAt(s.store, m, w) {
      assert AckedRow(RowAt(s.store, m, w), RowAt(t.store, m, w));
    }
  }

  lemma {:induction false} StopWardsKeepSettled(s: State, mission: Id, wards: map<Id, WardRow>, order: seq<Id>,
                                                during: map<Id, seq<Delivery>>)
    requires Inv(s) && StillAsShown(s, mission, wards, order)
    ensures forall m, w :: SettledAt(s.store, m, w) ==>
              RowAt(StopWards(s, mission, wards, order, during).store, m, w) == RowAt(s.store, m, w)
    decreases order
  {
    if order != [] {
      var w, rest := order[0], order[1..];
      assert w in order && w in wards;
      if Live(wards[w]) {
        var ds := DeliveriesFor(during, w);
        var u := StopWard(s, mission, w, wards[w].missionId, ds);
        assert RowAt(s.store, mission, w) == Some(wards[w]);
        StopWardEffect(s, mission, w, ds);
        StopWardKeeps(s, mission, wards, order, ds);
        hide Inv, RowAt, StopWard, StillAsShown;
        forall m, w' | SettledAt(s.store, m, w') ensures RowAt(u.store, m, w') == RowAt(s.store, m, w') { }
        StopWardsKeepSettled(u, mission, wards, rest, during);
      } else {
        assert StillAsShown(s, mission, wards, rest);
        hide Inv, RowAt, StillAsShown;
        StopWardsKeepSettled(s, mission, wards, rest, during);
      }
    }
  }

  lemma StopKeepsSettled(s: State, mission: Id, during: map<Id, seq<Delivery>>)
    requires Inv(s)
    ensures SettledKept(s, AfterStop(s, mission, during).0)
  {
    if mission in s.store {
      var m := s.store[mission];
      var t := StopWards(s, mission, m.wards, m.order, during);
      ShownAtFirst(s, mission);
      StopWardsKeepSettled(s, mission, m.wards, m.order, during);
      hide Inv, StopWards, StillAsShown, AllSettled;
      assert forall m, w :: RowAt(AfterStop(s, mission, during).0.store, m, w) == RowAt(t.store, m, w);
    }
  }

  lemma UploadKeepsSettled(s: State, ward: Id, missionId: Id, success: bool, message: string)
    ensures SettledKept(s, AfterUpload(s, ward, missionId, success, message))
  {
    FirstAwaitingFinds(s, 0, ward, missionId);
  }

  lemma DispatchKeepsOthers(s: State, t: State, mission: Id)
    requires OnlyRowsOf(s, t, mission)
    ensures forall m, w :: m != mission ==> RowAt(t.store, m, w) == RowAt(s.store, m, w)
  {
  }

  lemma CreateKeepsSettled(s: State, fleetKnown: bool, name: string, repeatCount: nat, plans: seq<Plan>,
                           refusals: map<Id, string>)
    requires Inv(s)
    ensures SettledKept(s, AfterCreate(s, fleetKnown, name, repeatCount, plans, refusals).0)
  {
    if fleetKnown && plans != [] && Distinct(WardIds(plans)) {
      var id := s.nextId;
      var u := State(s.store[id := NewMission(name, repeatCount, plans)], s.listing + [id], s.pending, id + 1);
      PlacedExactly(u, id, name, repeatCount, plans, refusals);
      DispatchKeepsOthers(u, Dispatched(u, id, plans, refusals), id);
      assert id !in s.store;
      hide Inv, NewMission, Dispatched;
    }
  }

  lemma EditKeepsOthersSettled(s: State, mission: Id, name: string, repeatCount: nat, plans: seq<Plan>,
                               refusals: map<Id, string>)
    ensures var (t, reply) := AfterEdit(s, mission, name, repeatCount, plans, refusals);
            && (reply.Refused? ==> t == s)
            && (forall m, w :: m != mission ==> RowAt(t.store, m, w) == RowAt(s.store, m, w))
  {
    if AfterEdit(s, mission, name, repeatCount, plans, refusals).1.Accepted? {
      var u := s.(store := s.store[mission := NewMission(name, repeatCount, plans)]);
      PlacedExactly(u, mission, name, repeatCount, plans, refusals);
      DispatchKeepsOthers(u, Dispatched(u, mission, plans, refusals), mission);
    }
  }

  /** Only an accepted edit of its mission changes a settled ward. */
  lemma UnsettledOnlyByEdit(s: State, op: Op, mission: Id, ward: Id)
    requires Inv(s) && SettledAt(s.store, mission, ward)
    requires RowAt(Step(s, op).store, mission, ward).Some?
    requires RowAt(Step(s, op).store, mission, ward) != RowAt(s.store, mission, ward)
    ensures op.Edit? && op.mission == mission
    ensures AfterEdit(s, mission, op.name, op.repeatCount, op.plans, op.refusals).1.Accepted?
  {
    hide AfterCreate, AfterEdit, AfterStop, AfterAck, AfterUpload, SettledAt;
    match op
    case Create(known, name, n, plans, refusals) => CreateKeepsSettled(s, known, name, n, plans, refusals);
    case Edit(m, name, n, plans, refusals) => EditKeepsOthersSettled(s, m, name, n, plans, refusals);
    case Stop(m, during) => StopKeepsSettled(s, m, during);
    case Remove(m) =>
    case CommandOutcome(ack) =>
      AfterAckOnly(s, ack);
      AckedKeepsSettled(s, AfterAck(s, ack));
    case UploadOutcome(w, missionId, success, message) => UploadKeepsSettled(s, w, missionId, success, message);
  }
}

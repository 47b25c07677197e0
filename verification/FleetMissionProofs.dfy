/** What holds of fleet missions in every state the manager can reach. */
module FleetMissionProofs {
  import opened Options
  import opened FleetMissions

  type Store = map<Id, Mission>
  type Pending = map<Id, PendingStop>

  // ----- The invariant -----

  function RowAt(store: Store, mission: Id, ward: Id): Option<WardRow> {
    if mission in store && ward in store[mission].wards then Some(store[mission].wards[ward]) else None
  }

  predicate StoppingAt(store: Store, mission: Id, ward: Id) {
    RowAt(store, mission, ward).Some? && RowAt(store, mission, ward).value.status == Stopping
  }

  ghost predicate InFlight(pending: Pending, mission: Id, ward: Id) {
    exists c :: c in pending && pending[c] == PendingStop(mission, ward)
  }

  /** Stop commands in flight and wards being stopped correspond one to one. */
  ghost predicate Matched(store: Store, pending: Pending) {
    && (forall c :: c in pending ==> StoppingAt(store, pending[c].mission, pending[c].ward))
    && (forall c, d :: c in pending && d in pending && pending[c] == pending[d] ==> c == d)
    && (forall m, w :: StoppingAt(store, m, w) ==> InFlight(pending, m, w))
  }

  /** The aggregate status says no more than the wards do. */
  predicate AggregateSound(m: Mission) {
    match m.status
    case FleetActive => true
    case FleetStopped => AllSettled(m)
    case FleetStopping => !AllSettled(m) && AllPlaced(m)
  }

  /** No ward still waits for its route. */
  predicate AllPlaced(m: Mission) {
    forall w :: w in m.wards ==> m.wards[w].status != Unspecified && m.wards[w].status != Uploading
  }

  ghost predicate ShapeSound(m: Mission) {
    && m.plans.Keys == m.wards.Keys
    && Distinct(m.order)
    && (forall w :: w in m.order <==> w in m.wards)
    && m.order != []
  }

  ghost predicate ShapesSound(store: Store) {
    forall m :: m in store ==> ShapeSound(store[m])
  }

  ghost predicate AggregatesSound(store: Store) {
    forall m :: m in store ==> AggregateSound(store[m])
  }

  predicate Issued(store: Store, upload: Id, mission: Id, ward: Id) {
    RowAt(store, mission, ward).Some? && RowAt(store, mission, ward).value.missionId == Some(upload)
  }

  /** Every upload has a name of its own. */
  ghost predicate UploadsDistinct(store: Store, nextId: Id) {
    && (forall x: Id, m: Id, w: Id :: Issued(store, x, m, w) ==> x < nextId)
    && (forall x: Id, m: Id, w: Id, m': Id, w': Id :: Issued(store, x, m, w) && Issued(store, x, m', w') ==> m == m' && w == w')
  }

  ghost predicate NamesFresh(s: State) {
    && (forall m :: m in s.store ==> m < s.nextId)
    && (forall c :: c in s.pending ==> c < s.nextId)
  }

  ghost predicate Listed(s: State) {
    Distinct(s.listing) && (forall m :: m in s.listing <==> m in s.store)
  }

  ghost predicate Inv(s: State) {
    && Matched(s.store, s.pending)
    && ShapesSound(s.store)
    && AggregatesSound(s.store)
    && UploadsDistinct(s.store, s.nextId)
    && NamesFresh(s)
    && Listed(s)
  }

  // ----- Changing one row -----

  function PutRow(store: Store, mission: Id, ward: Id, row: WardRow): Store
    requires RowAt(store, mission, ward).Some?
  {
    store[mission := store[mission].(wards := store[mission].wards[ward := row])]
  }

  lemma PutRowRows(store: Store, mission: Id, ward: Id, row: WardRow)
    requires RowAt(store, mission, ward).Some?
    ensures forall m, w :: RowAt(PutRow(store, mission, ward, row), m, w)
                        == if m == mission && w == ward then Some(row) else RowAt(store, m, w)
  {
  }

  lemma PutRowShapes(store: Store, mission: Id, ward: Id, row: WardRow)
    requires RowAt(store, mission, ward).Some? && ShapesSound(store)
    ensures ShapesSound(PutRow(store, mission, ward, row))
  {
    var store' := PutRow(store, mission, ward, row);
    assert ShapeSound(store[mission]);
    assert store'[mission].wards.Keys == store[mission].wards.Keys;
  }

  lemma PutRowUploads(store: Store, mission: Id, ward: Id, row: WardRow, nextId: Id, nextId': Id)
    requires RowAt(store, mission, ward).Some? && UploadsDistinct(store, nextId) && nextId <= nextId'
    requires row.missionId == RowAt(store, mission, ward).value.missionId
          || (nextId < nextId' && row.missionId == Some(nextId))
    ensures UploadsDistinct(PutRow(store, mission, ward, row), nextId')
  {
    PutRowRows(store, mission, ward, row);
    var store' := PutRow(store, mission, ward, row);
    hide RowAt, PutRow;
    forall x: Id, m: Id, w: Id | Issued(store', x, m, w) ensures x < nextId' && (Issued(store, x, m, w) || (x == nextId && m == mission && w == ward)) {
      if m != mission || w != ward || row.missionId == RowAt(store, mission, ward).value.missionId {
        assert Issued(store, x, m, w);
      }
    }
  }

  lemma PutRowAggregates(store: Store, mission: Id, ward: Id, row: WardRow)
    requires RowAt(store, mission, ward).Some? && AggregatesSound(store)
    requires AggregateSound(store[mission].(wards := store[mission].wards[ward := row]))
    ensures AggregatesSound(PutRow(store, mission, ward, row))
  {
    hide AggregateSound;
    var store' := PutRow(store, mission, ward, row);
    forall m | m in store' ensures AggregateSound(store'[m]) { assert AggregateSound(store[m]); }
  }

  lemma PendingIsStopping(store: Store, pending: Pending, c: Id)
    requires Matched(store, pending) && c in pending
    ensures StoppingAt(store, pending[c].mission, pending[c].ward)
  {
  }

  /** A ward whose stop command was answered is no longer being stopped. */
  lemma MatchedAnswer(store: Store, pending: Pending, c: Id, row: WardRow)
    requires Matched(store, pending) && c in pending && row.status != Stopping
    ensures StoppingAt(store, pending[c].mission, pending[c].ward)
    ensures Matched(PutRow(store, pending[c].mission, pending[c].ward, row), pending - {c})
  {
    var stop := pending[c];
    assert StoppingAt(store, stop.mission, stop.ward);
    PutRowRows(store, stop.mission, stop.ward, row);
    var store', pending' := PutRow(store, stop.mission, stop.ward, row), pending - {c};
    hide RowAt, PutRow;
    forall d | d in pending' ensures StoppingAt(store', pending'[d].mission, pending'[d].ward) {
      assert pending[d] != stop;
    }
    forall m, w | StoppingAt(store', m, w) ensures InFlight(pending', m, w) {
      assert StoppingAt(store, m, w);
      var d :| d in pending && pending[d] == PendingStop(m, w);
      assert d in pending' && pending'[d] == PendingStop(m, w);
    }
  }

  /** A ward marked together with a fresh command in the table. */
  lemma MatchedSend(store: Store, pending: Pending, c: Id, mission: Id, ward: Id, row: WardRow)
    requires Matched(store, pending) && c !in pending
    requires RowAt(store, mission, ward).Some? && !StoppingAt(store, mission, ward) && row.status == Stopping
    ensures Matched(PutRow(store, mission, ward, row), pending[c := PendingStop(mission, ward)])
  {
    PutRowRows(store, mission, ward, row);
    var store', pending' := PutRow(store, mission, ward, row), pending[c := PendingStop(mission, ward)];
    hide RowAt, PutRow;
    assert pending'[c] == PendingStop(mission, ward);
    forall d | d in pending ensures pending[d] != PendingStop(mission, ward) {
      assert StoppingAt(store, pending[d].mission, pending[d].ward);
    }
    forall m, w | StoppingAt(store', m, w) ensures InFlight(pending', m, w) {
      if m == mission && w == ward {
        assert c in pending';
      } else {
        assert StoppingAt(store, m, w);
        var d :| d in pending && pending[d] == PendingStop(m, w);
        assert d in pending' && pending'[d] == PendingStop(m, w);
      }
    }
  }

  /** Rows that neither start nor cease to be stopping leave the correspondence alone. */
  lemma MatchedSame(store: Store, store': Store, pending: Pending)
    requires Matched(store, pending)
    requires forall m, w :: StoppingAt(store', m, w) == StoppingAt(store, m, w)
    ensures Matched(store', pending)
  {
  }

  // ----- Changing a status -----

  lemma WithStatusRows(s: State, mission: Id, status: FleetStatus)
    ensures var t := WithStatus(s, mission, status);
            && (forall m, w :: RowAt(t.store, m, w) == RowAt(s.store, m, w))
            && t.store.Keys == s.store.Keys && t == s.(store := t.store)
            && (forall m :: m in s.store && m != mission ==> t.store[m] == s.store[m])
  {
  }

  /** The parts of the invariant that look only at rows and names. */
  ghost predicate RowInv(s: State) {
    && Matched(s.store, s.pending)
    && ShapesSound(s.store)
    && UploadsDistinct(s.store, s.nextId)
    && NamesFresh(s)
    && Listed(s)
  }

  lemma WithStatusRowInv(s: State, mission: Id, status: FleetStatus)
    requires RowInv(s)
    ensures RowInv(WithStatus(s, mission, status))
  {
    var t := WithStatus(s, mission, status);
    WithStatusRows(s, mission, status);
    assert ShapesSound(t.store) by {
      forall m | m in t.store ensures ShapeSound(t.store[m]) { assert ShapeSound(s.store[m]); }
    }
    hide RowAt, WithStatus, ShapesSound;
    MatchedSame(s.store, t.store, s.pending);
    forall x: Id, m: Id, w: Id | Issued(t.store, x, m, w) ensures Issued(s.store, x, m, w) { }
  }

  /** Closing a stop: the aggregate may have been overtaken by its wards settling, nothing else. */
  lemma FinalizedKeeps(s: State, mission: Id)
    requires RowInv(s)
    requires forall m :: m in s.store && m != mission ==> AggregateSound(s.store[m])
    requires mission in s.store ==>
               AggregateSound(s.store[mission]) || (s.store[mission].status == FleetStopping && AllPlaced(s.store[mission]))
    ensures Inv(Finalized(s, mission))
  {
    WithStatusRowInv(s, mission, FleetStopped);
    WithStatusRows(s, mission, FleetStopped);
    hide Matched, ShapesSound, UploadsDistinct, NamesFresh, Listed;
    var t := Finalized(s, mission);
    forall m | m in t.store ensures AggregateSound(t.store[m]) { }
  }

  // ----- Outcomes -----

  lemma PutRowAggregate(m: Mission, ward: Id, row: WardRow)
    requires AggregateSound(m) && ward in m.wards && m.wards[ward].status == Stopping
    requires row.status == Stopped || row.status == Active
    ensures var m' := m.(wards := m.wards[ward := row]);
            AggregateSound(m') || (m'.status == FleetStopping && AllPlaced(m'))
  {
    assert m.status != FleetStopped by { assert !Settled(m.wards[ward]); }
  }

  lemma AfterAckKeeps(s: State, ack: Ack)
    requires Inv(s)
    ensures Inv(AfterAck(s, ack))
  {
    if ack.outcome != NotTerminal && ack.command in s.pending {
      hide Matched, ShapesSound, UploadsDistinct;
      var stop := s.pending[ack.command];
      var m, w := stop.mission, stop.ward;
      PendingIsStopping(s.store, s.pending, ack.command);
      var row := Answered(s.store[m].wards[w], ack.outcome);
      MatchedAnswer(s.store, s.pending, ack.command, row);
      PutRowShapes(s.store, m, w, row);
      PutRowUploads(s.store, m, w, row, s.nextId, s.nextId);
      PutRowAggregate(s.store[m], w, row);
      var t := State(PutRow(s.store, m, w, row), s.listing, s.pending - {ack.command}, s.nextId);
      assert t == WithWard(s.(pending := s.pending - {ack.command}), m, w, row);
      FinalizedKeeps(t, m);
    }
  }

  lemma {:induction false} AfterAcksKeeps(s: State, acks: seq<Ack>)
    requires Inv(s)
    ensures Inv(AfterAcks(s, acks))
    decreases acks
  {
    hide Inv, AfterAck;
    if acks != [] {
      AfterAckKeeps(s, acks[0]);
      AfterAcksKeeps(AfterAck(s, acks[0]), acks[1..]);
    }
  }

  lemma {:induction false} FirstAwaitingFinds(s: State, i: nat, ward: Id, missionId: Id)
    ensures var j := FirstAwaiting(s, i, ward, missionId);
            && (j < |s.listing| ==> s.listing[j] in s.store && Awaits(s.store[s.listing[j]], ward, missionId))
            && (forall k :: i <= k < j && k < |s.listing| && s.listing[k] in s.store ==>
                  !Awaits(s.store[s.listing[k]], ward, missionId))
    decreases |s.listing| - i
  {
    if i < |s.listing| && !(s.listing[i] in s.store && Awaits(s.store[s.listing[i]], ward, missionId)) {
      FirstAwaitingFinds(s, i + 1, ward, missionId);
    }
  }

  lemma AfterUploadKeeps(s: State, ward: Id, missionId: Id, success: bool, message: string)
    requires Inv(s)
    ensures Inv(AfterUpload(s, ward, missionId, success, message))
  {
    hide Matched, ShapesSound, UploadsDistinct;
    FirstAwaitingFinds(s, 0, ward, missionId);
    var i := FirstAwaiting(s, 0, ward, missionId);
    if i < |s.listing| {
      var m := s.listing[i];
      var row := Uploaded(s.store[m].wards[ward], success, message);
      var store' := PutRow(s.store, m, ward, row);
      assert AfterUpload(s, ward, missionId, success, message) == s.(store := store');
      PutRowRows(s.store, m, ward, row);
      PutRowShapes(s.store, m, ward, row);
      PutRowUploads(s.store, m, ward, row, s.nextId, s.nextId);
      assert AggregateSound(s.store[m]) && !Settled(s.store[m].wards[ward]);
      PutRowAggregates(s.store, m, ward, row);
      hide RowAt;
      MatchedSame(s.store, store', s.pending);
    }
  }

  // ----- Stop -----

  lemma StopSentKeeps(s: State, mission: Id, ward: Id)
    requires Inv(s)
    requires RowAt(s.store, mission, ward).Some? && Live(s.store[mission].wards[ward])
    ensures Inv(StopSent(s, mission, ward, s.store[mission].wards[ward].missionId))
  {
    hide Matched, ShapesSound, UploadsDistinct;
    var before := s.store[mission].wards[ward];
    var row := WardRow(Stopping, "", before.missionId);
    var store' := PutRow(s.store, mission, ward, row);
    assert StopSent(s, mission, ward, before.missionId)
        == State(store', s.listing, s.pending[s.nextId := PendingStop(mission, ward)], s.nextId + 1);
    MatchedSend(s.store, s.pending, s.nextId, mission, ward, row);
    PutRowShapes(s.store, mission, ward, row);
    PutRowUploads(s.store, mission, ward, row, s.nextId, s.nextId + 1);
    assert AggregateSound(s.store[mission]) && !Settled(before);
    SentAggregate(s.store[mission], ward, row);
    PutRowAggregates(s.store, mission, ward, row);
  }

  lemma SentAggregate(m: Mission, ward: Id, row: WardRow)
    requires AggregateSound(m) && ward in m.wards && !Settled(m.wards[ward]) && row.status == Stopping
    ensures AggregateSound(m.(wards := m.wards[ward := row]))
  {
    var m' := m.(wards := m.wards[ward := row]);
    assert !Settled(m'.wards[ward]);
  }

  /** Acks touch only wards being stopped, and settle them one way or the other. */
  ghost predicate AckedOnly(s: State, t: State) {
    && t.store.Keys == s.store.Keys
    && t.listing == s.listing && t.nextId == s.nextId
    && t.pending.Keys <= s.pending.Keys
    && (forall c :: c in t.pending ==> t.pending[c] == s.pending[c])
    && (forall m :: m in s.store ==> SameRoutes(s.store[m], t.store[m]))
    && (forall m, w :: AckedRow(RowAt(s.store, m, w), RowAt(t.store, m, w)))
  }

  predicate SameRoutes(m: Mission, m': Mission) {
    m' == m.(wards := m'.wards, status := m'.status) && m'.wards.Keys == m.wards.Keys
  }

  predicate AckedRow(before: Option<WardRow>, after: Option<WardRow>) {
    || after == before
    || (before.Some? && after.Some? && before.value.status == Stopping
        && (after.value.status == Stopped || after.value.status == Active)
        && after.value.missionId == before.value.missionId)
  }

  lemma AfterAckOnly(s: State, ack: Ack)
    requires Matched(s.store, s.pending)
    ensures AckedOnly(s, AfterAck(s, ack))
  {
    if ack.outcome != NotTerminal && ack.command in s.pending {
      var stop := s.pending[ack.command];
      assert StoppingAt(s.store, stop.mission, stop.ward);
    }
  }

  lemma AckedTransitive(s: State, t: State, u: State)
    requires AckedOnly(s, t) && AckedOnly(t, u)
    ensures AckedOnly(s, u)
  {
    forall m | m in s.store ensures SameRoutes(s.store[m], u.store[m]) {
      assert SameRoutes(s.store[m], t.store[m]) && SameRoutes(t.store[m], u.store[m]);
    }
    hide RowAt;
    forall m, w ensures AckedRow(RowAt(s.store, m, w), RowAt(u.store, m, w)) {
      assert AckedRow(RowAt(s.store, m, w), RowAt(t.store, m, w));
      assert AckedRow(RowAt(t.store, m, w), RowAt(u.store, m, w));
    }
  }

  lemma {:induction false} AfterAcksOnly(s: State, acks: seq<Ack>)
    requires Inv(s)
    ensures AckedOnly(s, AfterAcks(s, acks))
    decreases acks
  {
    if acks != [] {
      AfterAckKeeps(s, acks[0]);
      AfterAckOnly(s, acks[0]);
      hide Inv, AfterAck, AckedOnly;
      AfterAcksOnly(AfterAck(s, acks[0]), acks[1..]);
      AckedTransitive(s, AfterAck(s, acks[0]), AfterAcks(AfterAck(s, acks[0]), acks[1..]));
    }
  }

  predicate PlacedAt(store: Store, mission: Id, ward: Id) {
    && RowAt(store, mission, ward).Some?
    && RowAt(store, mission, ward).value.status != Unspecified
    && RowAt(store, mission, ward).value.status != Uploading
  }

  /** The wards of the snapshot that the loop has yet to stop are as the snapshot shows them. */
  ghost predicate StillAsShown(s: State, mission: Id, wards: map<Id, WardRow>, order: seq<Id>) {
    && Distinct(order)
    && (forall w :: w in order ==> w in wards)
    && (forall w :: w in order && Live(wards[w]) ==> RowAt(s.store, mission, w) == Some(wards[w]))
    && (forall w :: w in order && !Live(wards[w]) ==> PlacedAt(s.store, mission, w))
  }

  /** The same missions, listed alike, with the same routes for the same wards. */
  ghost predicate Framed(s: State, t: State) {
    && t.store.Keys == s.store.Keys && t.listing == s.listing
    && (forall m :: m in s.store ==> SameRoutes(s.store[m], t.store[m]))
  }

  lemma FramedTransitive(s: State, t: State, u: State)
    requires Framed(s, t) && Framed(t, u)
    ensures Framed(s, u)
  {
    forall m | m in s.store ensures SameRoutes(s.store[m], u.store[m]) {
      assert SameRoutes(s.store[m], t.store[m]) && SameRoutes(t.store[m], u.store[m]);
    }
  }

  lemma StopSentRows(s: State, mission: Id, ward: Id, missionId: Option<Id>)
    requires RowAt(s.store, mission, ward).Some?
    ensures var u := StopSent(s, mission, ward, missionId);
            && Framed(s, u)
            && (forall m, w :: RowAt(u.store, m, w)
                  == if m == mission && w == ward then Some(WardRow(Stopping, "", missionId)) else RowAt(s.store, m, w))
  {
  }

  lemma StopWardEffect(s: State, mission: Id, ward: Id, deliveries: seq<Delivery>)
    requires Inv(s)
    requires RowAt(s.store, mission, ward).Some? && Live(s.store[mission].wards[ward])
    ensures var row := s.store[mission].wards[ward];
            var t := StopWard(s, mission, ward, row.missionId, deliveries);
            && Inv(t) && Framed(s, t)
            && AckedRow(Some(WardRow(Stopping, "", row.missionId)), RowAt(t.store, mission, ward))
            && (forall m, w :: m != mission || w != ward ==> AckedRow(RowAt(s.store, m, w), RowAt(t.store, m, w)))
  {
    var missionId := s.store[mission].wards[ward].missionId;
    var u := StopSent(s, mission, ward, missionId);
    var acks := AcksOf(deliveries, s.nextId);
    var t := AfterAcks(u, acks);
    StopSentKeeps(s, mission, ward);
    StopSentRows(s, mission, ward, missionId);
    hide RowAt, Inv, StopSent, AfterAcks, Framed;
    AfterAcksKeeps(u, acks);
    AfterAcksOnly(u, acks);
    AckedFramed(u, t);
    FramedTransitive(s, u, t);
    assert forall m, w :: AckedRow(RowAt(u.store, m, w), RowAt(t.store, m, w));
  }

  lemma StopWardKeeps(s: State, mission: Id, wards: map<Id, WardRow>, order: seq<Id>, deliveries: seq<Delivery>)
    requires Inv(s) && order != [] && order[0] in wards && StillAsShown(s, mission, wards, order) && Live(wards[order[0]])
    ensures var t := StopWard(s, mission, order[0], wards[order[0]].missionId, deliveries);
            && Inv(t) && Framed(s, t)
            && StillAsShown(t, mission, wards, order[1..])
            && PlacedAt(t.store, mission, order[0])
            && (forall w :: PlacedAt(s.store, mission, w) ==> PlacedAt(t.store, mission, w))
  {
    var w := order[0];
    assert RowAt(s.store, mission, w) == Some(wards[w]);
    assert s.store[mission].wards[w] == wards[w];
    hide Inv, StopWard, Framed, RowAt;
    StopWardEffect(s, mission, w, deliveries);
    ShownAfter(s, StopWard(s, mission, w, wards[w].missionId, deliveries), mission, wards, order);
  }

  lemma ShownAfter(s: State, t: State, mission: Id, wards: map<Id, WardRow>, order: seq<Id>)
    requires order != [] && order[0] in wards && StillAsShown(s, mission, wards, order)
    requires AckedRow(Some(WardRow(Stopping, "", wards[order[0]].missionId)), RowAt(t.store, mission, order[0]))
    requires forall w :: w != order[0] ==> AckedRow(RowAt(s.store, mission, w), RowAt(t.store, mission, w))
    ensures StillAsShown(t, mission, wards, order[1..])
    ensures PlacedAt(t.store, mission, order[0])
    ensures forall w :: PlacedAt(s.store, mission, w) ==> PlacedAt(t.store, mission, w)
  {
    hide RowAt;
    var rest := order[1..];
    assert forall w :: w in rest ==> w in order;
    forall w | w in rest ensures w != order[0] {
      var i :| 0 <= i < |rest| && rest[i] == w;
      assert order[i + 1] == w;
    }
    assert Distinct(rest);
  }

  lemma AckedFramed(s: State, t: State)
    requires AckedOnly(s, t)
    ensures Framed(s, t)
  {
  }

  lemma {:induction false} StopWardsKeeps(s: State, mission: Id, wards: map<Id, WardRow>, order: seq<Id>,
                                          during: map<Id, seq<Delivery>>)
    requires Inv(s) && StillAsShown(s, mission, wards, order)
    ensures var t := StopWards(s, mission, wards, order, during);
            && Inv(t) && Framed(s, t)
            && (forall w :: w in order || PlacedAt(s.store, mission, w) ==> PlacedAt(t.store, mission, w))
    decreases order
  {
    hide Inv, StopWard, PlacedAt;
    if order != [] {
      var w := order[0];
      assert w in order && w in wards;
      if Live(wards[w]) {
        var u := StopWard(s, mission, w, wards[w].missionId, DeliveriesFor(during, w));
        StopWardKeeps(s, mission, wards, order, DeliveriesFor(during, w));
        StopWardsKeeps(u, mission, wards, order[1..], during);
        FramedTransitive(s, u, StopWards(u, mission, wards, order[1..], during));
      } else {
        assert StillAsShown(s, mission, wards, order[1..]);
        StopWardsKeeps(s, mission, wards, order[1..], during);
      }
    }
  }

  lemma ShownAtFirst(s: State, mission: Id)
    requires Inv(s) && mission in s.store
    ensures StillAsShown(s, mission, s.store[mission].wards, s.store[mission].order)
  {
    assert ShapeSound(s.store[mission]);
  }

  lemma AfterStopKeeps(s: State, mission: Id, during: map<Id, seq<Delivery>>)
    requires Inv(s)
    ensures Inv(AfterStop(s, mission, during).0)
  {
    if mission in s.store {
      var m := s.store[mission];
      var t := StopWards(s, mission, m.wards, m.order, during);
      ShownAtFirst(s, mission);
      StopWardsKeeps(s, mission, m.wards, m.order, during);
      if LiveCount(m.wards, m.order) > 0 {
        assert SameRoutes(m, t.store[mission]);
        hide Inv, PlacedAt, StopWards;
        CloseStop(s, t, mission);
      }
    }
  }

  lemma CloseStop(s: State, t: State, mission: Id)
    requires Inv(s) && Inv(t) && mission in s.store && mission in t.store
    requires SameRoutes(s.store[mission], t.store[mission])
    requires forall w :: w in s.store[mission].order ==> PlacedAt(t.store, mission, w)
    ensures Inv(Finalized(WithStatus(t, mission, FleetStopping), mission))
  {
    WithStatusRowInv(t, mission, FleetStopping);
    assert ShapeSound(s.store[mission]);
    var u := WithStatus(t, mission, FleetStopping);
    assert AllPlaced(u.store[mission]) by {
      forall w | w in u.store[mission].wards ensures u.store[mission].wards[w].status != Unspecified && u.store[mission].wards[w].status != Uploading {
        assert PlacedAt(t.store, mission, w);
      }
    }
    hide Matched, ShapesSound, UploadsDistinct;
    FinalizedKeeps(u, mission);
  }

  // ----- Create, edit, remove -----

  lemma {:induction false} InsertIdMembers(id: Id, ids: seq<Id>)
    ensures forall w :: w in InsertId(id, ids) <==> w == id || w in ids
    ensures Distinct(ids) && id !in ids ==> Distinct(InsertId(id, ids))
  {
    var r := InsertId(id, ids);
    DistinctTail(r);
    if ids == [] || id <= ids[0] {
      assert r[1..] == ids;
    } else {
      DistinctTail(ids);
      InsertIdMembers(id, ids[1..]);
      assert r[1..] == InsertId(id, ids[1..]) && ids == [ids[0]] + ids[1..];
    }
  }

  lemma DistinctTail(ids: seq<Id>)
    requires ids != []
    ensures Distinct(ids) <==> ids[0] !in ids[1..] && Distinct(ids[1..])
  {
    var rest := ids[1..];
    assert ids == [ids[0]] + rest;
    if Distinct(ids) {
      forall i | 0 <= i < |rest| ensures rest[i] != ids[0] { assert rest[i] == ids[i + 1]; }
      forall i, j | 0 <= i < j < |rest| ensures rest[i] != rest[j] { assert ids[i + 1] != ids[j + 1]; }
    }
    if ids[0] !in rest && Distinct(rest) {
      forall i, j | 0 <= i < j < |ids| ensures ids[i] != ids[j] {
        assert ids[j] == rest[j - 1];
        if i > 0 { assert ids[i] == rest[i - 1]; }
      }
    }
  }

  lemma {:induction false} SortedIdsMembers(ids: seq<Id>)
    ensures forall w :: w in SortedIds(ids) <==> w in ids
    ensures Distinct(ids) ==> Distinct(SortedIds(ids))
  {
    if ids != [] {
      DistinctTail(ids);
      SortedIdsMembers(ids[1..]);
      InsertIdMembers(ids[0], SortedIds(ids[1..]));
      assert ids == [ids[0]] + ids[1..];
    }
  }

  predicate Ascending(ids: seq<Id>) {
    forall i, j :: 0 <= i < j < |ids| ==> ids[i] <= ids[j]
  }

  lemma {:induction false} SortedIdsAscend(ids: seq<Id>)
    ensures Ascending(SortedIds(ids))
  {
    if ids != [] {
      SortedIdsAscend(ids[1..]);
      InsertIdAscends(ids[0], SortedIds(ids[1..]));
    }
  }

  lemma {:induction false} InsertIdAscends(id: Id, ids: seq<Id>)
    requires Ascending(ids)
    ensures Ascending(InsertId(id, ids))
  {
    if ids != [] && id > ids[0] {
      InsertIdAscends(id, ids[1..]);
      InsertIdMembers(id, ids[1..]);
      var r := InsertId(id, ids[1..]);
      forall j | 0 <= j < |r| ensures ids[0] <= r[j] {
        assert r[j] in r;
        if r[j] != id {
          var k :| 0 <= k < |ids[1..]| && ids[1..][k] == r[j];
          assert ids[k + 1] == r[j];
        }
      }
    }
  }

  lemma NewMissionSound(name: string, repeatCount: nat, plans: seq<Plan>)
    requires plans != [] && Distinct(WardIds(plans))
    ensures var m := NewMission(name, repeatCount, plans);
            && ShapeSound(m) && AggregateSound(m)
            && (forall w :: w in m.wards ==> m.wards[w] == UNPLACED)
            && (forall w :: w in m.wards <==> w in WardIds(plans))
  {
    PlanTableKeys(plans);
    SortedIdsMembers(WardIds(plans));
    var m := NewMission(name, repeatCount, plans);
    assert plans[0].ward in m.order by { assert WardIds(plans)[0] in WardIds(plans); }
  }

  ghost predicate NoneStopping(store: Store, mission: Id) {
    forall w :: !StoppingAt(store, mission, w)
  }

  lemma DispatchOneKeeps(s: State, mission: Id, ward: Id, row: WardRow)
    requires Inv(s)
    requires mission in s.store && s.store[mission].status == FleetActive && NoneStopping(s.store, mission)
    requires row.status != Stopping && row.missionId == Some(s.nextId)
    ensures var t := WithWard(s.(nextId := s.nextId + 1), mission, ward, row);
            && Inv(t) && NoneStopping(t.store, mission)
            && mission in t.store && t.store[mission].status == FleetActive
  {
    hide Matched, ShapesSound, UploadsDistinct;
    if RowAt(s.store, mission, ward).Some? {
      var store' := PutRow(s.store, mission, ward, row);
      assert WithWard(s.(nextId := s.nextId + 1), mission, ward, row)
          == State(store', s.listing, s.pending, s.nextId + 1);
      PutRowRows(s.store, mission, ward, row);
      PutRowShapes(s.store, mission, ward, row);
      PutRowUploads(s.store, mission, ward, row, s.nextId, s.nextId + 1);
      PutRowAggregates(s.store, mission, ward, row);
      hide RowAt;
      MatchedSame(s.store, store', s.pending);
    } else {
      UploadsLater(s.store, s.nextId);
    }
  }

  lemma UploadsLater(store: Store, nextId: Id)
    requires UploadsDistinct(store, nextId)
    ensures UploadsDistinct(store, nextId + 1)
  {
  }

  lemma {:induction false} DispatchedKeeps(s: State, mission: Id, plans: seq<Plan>, refusals: map<Id, string>)
    requires Inv(s)
    requires mission in s.store && s.store[mission].status == FleetActive && NoneStopping(s.store, mission)
    ensures Inv(Dispatched(s, mission, plans, refusals))
    decreases plans
  {
    if plans != [] {
      hide Inv, WithWard, NoneStopping;
      var w := plans[0].ward;
      var row := DispatchRow(w, refusals, s.nextId);
      assert row.status != Stopping && row.missionId == Some(s.nextId);
      DispatchOneKeeps(s, mission, w, row);
      var t := WithWard(s.(nextId := s.nextId + 1), mission, w, row);
      assert Dispatched(s, mission, plans, refusals) == Dispatched(t, mission, plans[1..], refusals);
      DispatchedKeeps(t, mission, plans[1..], refusals);
    }
  }

  /** A mission put in the place of nothing, or of one whose wards have all settled. */
  lemma PlacedMission(s: State, t: State, id: Id, m: Mission)
    requires Inv(s)
    requires t.store == s.store[id := m] && t.pending == s.pending && s.nextId <= t.nextId && id < t.nextId
    requires Listed(t)
    requires ShapeSound(m) && AggregateSound(m) && forall w :: w in m.wards ==> m.wards[w] == UNPLACED
    requires id in s.store ==> AllSettled(s.store[id])
    ensures Inv(t) && NoneStopping(t.store, id)
  {
    assert forall m', w :: m' != id ==> RowAt(t.store, m', w) == RowAt(s.store, m', w);
    assert forall w :: RowAt(t.store, id, w).Some? ==> RowAt(t.store, id, w) == Some(UNPLACED);
    assert forall w :: !StoppingAt(s.store, id, w);
    assert ShapesSound(t.store) by {
      forall m' | m' in t.store ensures ShapeSound(t.store[m']) { if m' != id { assert ShapeSound(s.store[m']); } }
    }
    assert AggregatesSound(t.store) by {
      forall m' | m' in t.store ensures AggregateSound(t.store[m']) { if m' != id { assert AggregateSound(s.store[m']); } }
    }
    hide RowAt, ShapeSound, AggregateSound, ShapesSound, AggregatesSound, AllSettled;
    MatchedSame(s.store, t.store, s.pending);
    forall x: Id, m': Id, w: Id | Issued(t.store, x, m', w) ensures Issued(s.store, x, m', w) { }
  }

  lemma AddedMission(s: State, m: Mission)
    requires Inv(s)
    requires ShapeSound(m) && AggregateSound(m) && forall w :: w in m.wards ==> m.wards[w] == UNPLACED
    ensures var t := State(s.store[s.nextId := m], s.listing + [s.nextId], s.pending, s.nextId + 1);
            Inv(t) && NoneStopping(t.store, s.nextId)
  {
    var t := State(s.store[s.nextId := m], s.listing + [s.nextId], s.pending, s.nextId + 1);
    hide Matched, ShapesSound, AggregatesSound, UploadsDistinct, ShapeSound, AggregateSound;
    assert forall m' :: m' in s.listing ==> m' in s.store;
    assert Listed(t) by {
      forall i | 0 <= i < |s.listing| ensures s.listing[i] != s.nextId {
        assert s.listing[i] in s.listing;
      }
      assert Distinct(t.listing);
    }
    PlacedMission(s, t, s.nextId, m);
  }

  lemma AfterCreateKeeps(s: State, fleetKnown: bool, name: string, repeatCount: nat, plans: seq<Plan>,
                         refusals: map<Id, string>)
    requires Inv(s)
    ensures Inv(AfterCreate(s, fleetKnown, name, repeatCount, plans, refusals).0)
  {
    hide Inv;
    if fleetKnown && plans != [] {
      if Distinct(WardIds(plans)) {
        CreatedKeeps(s, name, repeatCount, plans, refusals);
      } else {
        ClockTicked(s);
      }
    }
  }

  lemma CreatedKeeps(s: State, name: string, repeatCount: nat, plans: seq<Plan>, refusals: map<Id, string>)
    requires Inv(s) && plans != [] && Distinct(WardIds(plans))
    ensures var u := State(s.store[s.nextId := NewMission(name, repeatCount, plans)], s.listing + [s.nextId], s.pending, s.nextId + 1);
      Inv(Dispatched(u, s.nextId, plans, refusals))
  {
    var m := NewMission(name, repeatCount, plans);
    assert m.status == FleetActive;
    hide *;
    NewMissionSound(name, repeatCount, plans);
    AddedMission(s, m);
    DispatchedKeeps(State(s.store[s.nextId := m], s.listing + [s.nextId], s.pending, s.nextId + 1),
                    s.nextId, plans, refusals);
  }

  lemma ClockTicked(s: State)
    requires Inv(s)
    ensures Inv(s.(nextId := s.nextId + 1))
  {
    hide Matched;
  }

  lemma AfterEditKeeps(s: State, mission: Id, name: string, repeatCount: nat, plans: seq<Plan>,
                       refusals: map<Id, string>)
    requires Inv(s)
    ensures Inv(AfterEdit(s, mission, name, repeatCount, plans, refusals).0)
  {
    if mission in s.store && AllSettled(s.store[mission]) && plans != [] && Distinct(WardIds(plans)) {
      var m := NewMission(name, repeatCount, plans);
      var t := s.(store := s.store[mission := m]);
      NewMissionSound(name, repeatCount, plans);
      PlacedMission(s, t, mission, m);
      DispatchedKeeps(t, mission, plans, refusals);
    }
  }

  lemma {:induction false} WithoutMembers(ids: seq<Id>, id: Id)
    ensures forall m :: m in Without(ids, id) <==> m in ids && m != id
    ensures Distinct(ids) ==> Distinct(Without(ids, id))
  {
    if ids != [] {
      DistinctTail(ids);
      WithoutMembers(ids[1..], id);
      if ids[0] != id {
        DistinctTail(Without(ids, id));
        assert Without(ids, id)[1..] == Without(ids[1..], id);
      }
      assert ids == [ids[0]] + ids[1..];
    }
  }

  lemma AfterRemoveKeeps(s: State, mission: Id)
    requires Inv(s)
    ensures Inv(AfterRemove(s, mission).0)
  {
    if mission in s.store && AllSettled(s.store[mission]) {
      var t := AfterRemove(s, mission).0;
      WithoutMembers(s.listing, mission);
      assert forall m, w :: m != mission ==> RowAt(t.store, m, w) == RowAt(s.store, m, w);
      assert forall w :: RowAt(t.store, mission, w) == None;
      assert forall w :: !StoppingAt(s.store, mission, w);
      assert ShapesSound(t.store) && AggregatesSound(t.store);
      hide RowAt, ShapesSound, AggregatesSound;
      MatchedSame(s.store, t.store, s.pending);
      forall x: Id, m': Id, w: Id | Issued(t.store, x, m', w) ensures Issued(s.store, x, m', w) { }
    }
  }

  // ----- Every run -----

  lemma StepKeeps(s: State, op: Op)
    requires Inv(s)
    ensures Inv(Step(s, op))
  {
    hide Inv, AfterCreate, AfterEdit, AfterStop, AfterRemove, AfterAck, AfterUpload;
    match op
    case Create(known, name, n, plans, refusals) => AfterCreateKeeps(s, known, name, n, plans, refusals);
    case Edit(mission, name, n, plans, refusals) => AfterEditKeeps(s, mission, name, n, plans, refusals);
    case Stop(mission, during) => AfterStopKeeps(s, mission, during);
    case Remove(mission) => AfterRemoveKeeps(s, mission);
    case CommandOutcome(ack) => AfterAckKeeps(s, ack);
    case UploadOutcome(ward, missionId, success, message) => AfterUploadKeeps(s, ward, missionId, success, message);
  }

  lemma {:induction false} RunKeeps(s: State, ops: seq<Op>)
    requires Inv(s)
    ensures Inv(Run(s, ops))
    decreases ops
  {
    hide Inv, Step;
    if ops != [] {
      StepKeeps(s, ops[0]);
      RunKeeps(Step(s, ops[0]), ops[1..]);
    }
  }

  /** The invariant holds after any requests and outcomes in any order, with any outcomes reported
      while stop commands are still being dispatched. */
  lemma EveryRun(ops: seq<Op>)
    ensures Inv(Run(START, ops))
  {
    RunKeeps(START, ops);
  }
}

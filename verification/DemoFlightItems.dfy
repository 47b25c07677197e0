/** What a mission's messages say about its items, and that no item that can be flown to is left out: the
    ward heads for each, gets to each, and says so of each, in order, once per pass. */
module DemoFlightItems {
  import opened Options
  import opened DemoFlight
  import opened DemoFlightProofs
  import opened DemoFlightRuns

  // ----- The messages about one ward -----

  function OfWard(sent: seq<Envelope>, w: Id): seq<Out> {
    if sent == [] then []
    else OfWard(sent[..|sent| - 1], w) + if sent[|sent| - 1].ward == w then [sent[|sent| - 1].out] else []
  }

  /** What has been said about a ward from some moment on. */
  function Log(sent: seq<Envelope>, since: nat, w: Id): seq<Out>
    requires since <= |sent|
  {
    OfWard(sent[since..], w)
  }

  lemma LogPlus(sent: seq<Envelope>, since: nat, message: Envelope, w: Id)
    requires since <= |sent|
    ensures Log(sent + [message], since, w) == Log(sent, since, w) + if message.ward == w then [message.out] else []
  {
    var rest := sent[since..];
    assert (sent + [message])[since..] == rest + [message];
    assert (rest + [message])[..|rest|] == rest;
  }

  lemma {:induction false} LogOfOthers(sent: seq<Envelope>, more: seq<Envelope>, since: nat, w: Id)
    requires since <= |sent| && forall i :: 0 <= i < |more| ==> more[i].ward != w
    ensures Log(sent + more, since, w) == Log(sent, since, w)
    decreases more
  {
    if more == [] {
      assert sent + more == sent;
    } else {
      var (init, last) := (more[..|more| - 1], more[|more| - 1]);
      LogOfOthers(sent, init, since, w);
      LogPlus(sent + init, since, last, w);
      assert sent + more == sent + init + [last];
    }
  }

  /** The last message says that a command is being carried out: as a mission starts, or is taken up again. */
  predicate Resumed(log: seq<Out>) {
    log != [] && log[|log| - 1].Ack? && log[|log| - 1].status == Executing
  }

  /** It says which item of this mission is being flown to. */
  predicate Opens(out: Out, mission: Mission) {
    out.Progress? && out == Progress(mission.id, out.seqNo, |mission.items|, false)
  }

  /** The items announced as those being flown to. One announced again on taking the mission up again
      counts once. */
  function Opened(log: seq<Out>, mission: Mission): seq<int> {
    if log == [] then []
    else
      var (before, last) := (log[..|log| - 1], log[|log| - 1]);
      Opened(before, mission) + if Opens(last, mission) && !Resumed(before) then [last.seqNo] else []
  }

  function Skipped(log: seq<Out>): seq<int> {
    if log == [] then []
    else Skipped(log[..|log| - 1]) + if log[|log| - 1].ItemSkipped? then [log[|log| - 1].seqNo] else []
  }

  lemma OpenedPlus(log: seq<Out>, out: Out, mission: Mission)
    ensures Opened(log + [out], mission) == Opened(log, mission) + if Opens(out, mission) && !Resumed(log) then [out.seqNo] else []
    ensures Skipped(log + [out]) == Skipped(log) + if out.ItemSkipped? then [out.seqNo] else []
    ensures Resumed(log + [out]) <==> out.Ack? && out.status == Executing
  {
    assert (log + [out])[..|log|] == log;
  }

  // ----- The items of a mission -----

  /** The sequence numbers met on these steps: those of the items that can be flown to, or the others'. */
  function SeqNos(items: seq<Item>, steps: seq<nat>, supported: bool): seq<int> {
    if steps == [] then []
    else
      var i := steps[|steps| - 1];
      SeqNos(items, steps[..|steps| - 1], supported)
      + if i < |items| && items[i].supported == supported then [items[i].seqNo] else []
  }

  lemma SeqNosPlus(items: seq<Item>, steps: seq<nat>, i: nat, supported: bool)
    ensures SeqNos(items, steps + [i], supported)
         == SeqNos(items, steps, supported) + if i < |items| && items[i].supported == supported then [items[i].seqNo] else []
  {
    assert (steps + [i])[..|steps|] == steps;
  }

  lemma {:induction false} SeqNosConcat(items: seq<Item>, a: seq<nat>, b: seq<nat>, supported: bool)
    ensures SeqNos(items, a + b, supported) == SeqNos(items, a, supported) + SeqNos(items, b, supported)
    decreases b
  {
    if b == [] {
      assert a + b == a;
    } else {
      var (init, last) := (b[..|b| - 1], b[|b| - 1]);
      SeqNosConcat(items, a, init, supported);
      SeqNosPlus(items, a + init, last, supported);
      assert a + b == a + init + [last];
    }
  }

  /** The sequence numbers of the items of one kind, in order. */
  function Listed(items: seq<Item>, supported: bool): seq<int> {
    if items == [] then []
    else
      var last := items[|items| - 1];
      Listed(items[..|items| - 1], supported) + if last.supported == supported then [last.seqNo] else []
  }

  function Times(s: seq<int>, k: nat): seq<int> {
    if k == 0 then [] else Times(s, k - 1) + s
  }

  lemma ListedPlus(items: seq<Item>, item: Item, supported: bool)
    ensures Listed(items + [item], supported) == Listed(items, supported) + if item.supported == supported then [item.seqNo] else []
  {
    assert (items + [item])[..|items|] == items;
  }

  lemma {:induction false} OnePass(items: seq<Item>, n: nat, supported: bool)
    requires n <= |items|
    ensures SeqNos(items, Indices(n), supported) == Listed(items[..n], supported)
    decreases n
  {
    if n == 0 {
      assert Indices(0) == [];
    } else {
      hide SeqNos, Listed;
      OnePass(items, n - 1, supported);
      assert Indices(n) == Indices(n - 1) + [n - 1];
      SeqNosPlus(items, Indices(n - 1), n - 1, supported);
      assert items[..n] == items[..n - 1] + [items[n - 1]];
      ListedPlus(items[..n - 1], items[n - 1], supported);
    }
  }

  lemma {:induction false} AllPasses(items: seq<Item>, k: nat, supported: bool)
    ensures SeqNos(items, Laps(|items|, k), supported) == Times(Listed(items, supported), k)
    decreases k
  {
    if k > 0 {
      AllPasses(items, k - 1, supported);
      SeqNosConcat(items, Laps(|items|, k - 1), Indices(|items|), supported);
      OnePass(items, |items|, supported);
      assert items[..|items|] == items;
    }
  }

  // ----- The invariant -----

  /** The messages sent since the mission started are those of these steps. */
  ghost predicate Noted(sent: seq<Envelope>, w: Id, run: MissionRun, steps: seq<nat>) {
    && 0 < run.since <= |sent|
    && sent[run.since - 1].ward == w && sent[run.since - 1].out.Ack? && sent[run.since - 1].out.status == Executing
    && var log := Log(sent, run.since, w);
       && !Resumed(log)
       && Opened(log, run.mission) == SeqNos(run.mission.items, steps, true)
       && Skipped(log) == SeqNos(run.mission.items, steps, false)
  }

  predicate CanFlyTo(items: seq<Item>, i: nat) {
    i < |items| && items[i].supported
  }

  /** The steps on which the ward got to the item: all past ones whose item can be flown to, and maybe this one. */
  ghost predicate ReachedExactly(run: MissionRun, here: bool) {
    forall p: nat :: p in run.reached <==>
      (p < |run.passed| && CanFlyTo(run.mission.items, run.passed[p])) || (here && p == |run.passed|)
  }

  /** A mission under way: its item can be flown to and is the last one announced; it has been reached if
      the ward holds there. */
  ghost predicate ItemsOk(f: Flight) {
    f.ward.run.Some? ==>
      var run := f.ward.run.value;
      && CanFlyTo(run.mission.items, run.itemIndex)
      && Noted(f.sent, f.id, run, run.passed + [run.itemIndex])
      && ReachedExactly(run, run.holding)
      && (run.holding ==> run.mission.items[run.itemIndex].hold)
  }

  /** A mission reported finished: since its start, the items that can be flown to were announced in order,
      once per pass, each after the one before had been reached; the others were reported as skipped. */
  ghost predicate FlownOk(sent: seq<Envelope>, i: nat)
    requires i < |sent| && sent[i].out.MissionFinished?
  {
    var (w, run) := (sent[i].ward, sent[i].out.run);
    var passes := run.mission.repeatCount + 1;
    && 0 < run.since <= i
    && sent[run.since - 1].ward == w && sent[run.since - 1].out.Ack? && sent[run.since - 1].out.status == Executing
    && Opened(OfWard(sent[run.since..i], w), run.mission) == Times(Listed(run.mission.items, true), passes)
    && Skipped(OfWard(sent[run.since..i], w)) == Times(Listed(run.mission.items, false), passes)
    && run.passed == Laps(|run.mission.items|, passes)
    && ReachedExactly(run, false)
  }

  ghost predicate FlownsOk(sent: seq<Envelope>) {
    forall i :: 0 <= i < |sent| && sent[i].out.MissionFinished? ==> FlownOk(sent, i)
  }

  lemma FlownsPlus(sent: seq<Envelope>, message: Envelope)
    requires FlownsOk(sent) && !message.out.MissionFinished?
    ensures FlownsOk(sent + [message])
  {
    forall i | 0 <= i < |sent + [message]| && (sent + [message])[i].out.MissionFinished? ensures FlownOk(sent + [message], i) {
      assert FlownOk(sent, i);
      assert (sent + [message])[sent[i].out.run.since..i] == sent[sent[i].out.run.since..i];
    }
  }

  /** A message that says nothing about items. */
  predicate Quiet(out: Out) {
    !(out.Progress? && !out.finished) && !out.ItemSkipped? && !out.MissionFinished? && !(out.Ack? && out.status == Executing)
  }

  lemma QuietNoted(sent: seq<Envelope>, w: Id, out: Out, run: MissionRun, steps: seq<nat>)
    requires Noted(sent, w, run, steps) && Quiet(out)
    ensures Noted(sent + [Envelope(w, out)], w, run, steps)
  {
    LogPlus(sent, run.since, Envelope(w, out), w);
    OpenedPlus(Log(sent, run.since, w), out, run.mission);
    hide Log, Opened, Skipped, SeqNos, Resumed, Opens;
  }

  lemma StepNoted(sent: seq<Envelope>, w: Id, out: Out, run: MissionRun, steps: seq<nat>, i: nat)
    requires Noted(sent, w, run, steps) && i < |run.mission.items|
    requires if run.mission.items[i].supported then Opens(out, run.mission) && out.seqNo == run.mission.items[i].seqNo
             else out == ItemSkipped(run.mission.items[i].seqNo)
    ensures Noted(sent + [Envelope(w, out)], w, run, steps + [i])
  {
    LogPlus(sent, run.since, Envelope(w, out), w);
    OpenedPlus(Log(sent, run.since, w), out, run.mission);
    SeqNosPlus(run.mission.items, steps, i, true);
    SeqNosPlus(run.mission.items, steps, i, false);
    hide Log, Opened, Skipped, SeqNos, Resumed;
  }

  // ----- Flying on -----

  ghost predicate FlyReady(f: Flight) {
    && f.ward.run.Some? && !f.ward.run.value.paused && !f.ward.run.value.holding
    && RunOk(f.ward.run.value) && FlownsOk(f.sent)
    && Noted(f.sent, f.id, f.ward.run.value, f.ward.run.value.passed)
    && ReachedExactly(f.ward.run.value, false)
  }

  /** As if the current item were behind already. */
  ghost predicate AdvanceReady(f: Flight) {
    && f.ward.run.Some? && !f.ward.run.value.paused && !f.ward.run.value.holding
    && RunOk(f.ward.run.value) && FlownsOk(f.sent)
    && Noted(f.sent, f.id, f.ward.run.value, PastItem(f.ward.run.value).passed)
    && ReachedExactly(PastItem(f.ward.run.value), false)
  }

  ghost predicate ItemsReady(f: Flight) {
    ItemsOk(f) && FlownsOk(f.sent)
  }

  lemma QuietSaid(f: Flight, out: Out)
    requires FlownsOk(f.sent) && Quiet(out)
    ensures FlownsOk(Say(f, out).sent)
    ensures forall run, steps :: Noted(f.sent, f.id, run, steps) ==> Noted(Say(f, out).sent, f.id, run, steps)
  {
    FlownsPlus(f.sent, Envelope(f.id, out));
    forall run, steps | Noted(f.sent, f.id, run, steps) ensures Noted(Say(f, out).sent, f.id, run, steps) {
      QuietNoted(f.sent, f.id, out, run, steps);
    }
  }

  lemma HeadsForItem(f: Flight)
    requires FlyReady(f) && CanFlyTo(f.ward.run.value.mission.items, f.ward.run.value.itemIndex)
    ensures ItemsReady(Fly(f))
  {
    var run := f.ward.run.value;
    var items := run.mission.items;
    hide RunOk, Noted, FlownsOk, ReachedExactly;
    var g := SetTarget(f, run.start, MissionItem);
    if g.sent != f.sent {
      QuietSaid(f, Ack(f.ward.target.value.command, Rejected));
    }
    var out := Progress(run.mission.id, items[run.itemIndex].seqNo, |items|, false);
    FlownsPlus(g.sent, Envelope(f.id, out));
    StepNoted(g.sent, f.id, out, run, run.passed, run.itemIndex);
    assert Fly(f) == Say(g, out);
  }

  lemma SkipsItem(f: Flight)
    requires FlyReady(f) && f.ward.run.value.itemIndex < |f.ward.run.value.mission.items|
    requires !CanFlyTo(f.ward.run.value.mission.items, f.ward.run.value.itemIndex)
    ensures AdvanceReady(Say(f, ItemSkipped(f.ward.run.value.mission.items[f.ward.run.value.itemIndex].seqNo)))
  {
    var run := f.ward.run.value;
    var out := ItemSkipped(run.mission.items[run.itemIndex].seqNo);
    FlownsPlus(f.sent, Envelope(f.id, out));
    StepNoted(f.sent, f.id, out, run, run.passed, run.itemIndex);
    hide RunOk, Noted, FlownsOk;
  }

  /** A mission without items is past them at once. */
  lemma NoItem(f: Flight)
    requires FlyReady(f) && f.ward.run.value.itemIndex >= |f.ward.run.value.mission.items|
    ensures AdvanceReady(f)
  {
    var run := f.ward.run.value;
    assert PastItem(run).passed == run.passed;
    hide RunOk, Noted, FlownsOk;
  }

  lemma FlyReadyFacts(f: Flight)
    requires FlyReady(f)
    ensures f.ward.run.Some? && !f.ward.run.value.paused
  {
  }

  lemma {:induction false} FlyItems(f: Flight)
    requires FlyReady(f)
    ensures ItemsReady(Fly(f))
    decreases PassesLeft(f.ward), ItemsAhead(f.ward), 1
  {
    FlyReadyFacts(f);
    hide FlyReady, AdvanceReady, ItemsReady, Advance;
    var run := f.ward.run.value;
    if CanFlyTo(run.mission.items, run.itemIndex) {
      HeadsForItem(f);
    } else if run.itemIndex < |run.mission.items| {
      SkipsItem(f);
      AdvanceItems(Say(f, ItemSkipped(run.mission.items[run.itemIndex].seqNo)));
    } else {
      NoItem(f);
      AdvanceItems(f);
    }
  }

  lemma {:induction false} AdvanceItems(f: Flight)
    requires AdvanceReady(f)
    ensures ItemsReady(Advance(f))
    decreases PassesLeft(f.ward), ItemsAhead(f.ward), 0
  {
    hide *;
    AdvanceReadyFacts(f);
    AdvanceUnfolds(f);
    PastItemLaps(f.ward.run.value);
    var run := PastItem(f.ward.run.value);
    if run.itemIndex < |run.mission.items| {
      MovesOn(f, run);
      FlyItems(f.(ward := f.ward.(run := Some(run))));
    } else if run.passesLeft > 0 {
      var again := run.(passesLeft := run.passesLeft - 1, itemIndex := 0);
      MovesOn(f, again);
      FlyItems(f.(ward := f.ward.(run := Some(again))));
    } else {
      EndsFlown(f, run);
    }
  }

  lemma AdvanceUnfolds(f: Flight)
    requires f.ward.run.Some?
    ensures var run := PastItem(f.ward.run.value);
      && run.passesLeft == f.ward.run.value.passesLeft == PassesLeft(f.ward)
      && (if run.itemIndex < |run.mission.items| then
            var g := f.(ward := f.ward.(run := Some(run)));
            Advance(f) == Fly(g) && PassesLeft(g.ward) == PassesLeft(f.ward) && ItemsAhead(g.ward) < ItemsAhead(f.ward)
          else if run.passesLeft > 0 then
            var g := f.(ward := f.ward.(run := Some(run.(passesLeft := run.passesLeft - 1, itemIndex := 0))));
            Advance(f) == Fly(g) && PassesLeft(g.ward) < PassesLeft(f.ward)
          else Advance(f) == Finished(f, run))
  {
    hide Fly, Finished;
  }

  lemma AdvanceReadyFacts(f: Flight)
    requires AdvanceReady(f)
    ensures f.ward.run.Some? && RunOk(f.ward.run.value)
    ensures var run := f.ward.run.value; run.itemIndex < PastItem(run).itemIndex
  {
  }

  lemma MovesOn(f: Flight, next: MissionRun)
    requires AdvanceReady(f) && RunOk(next)
    requires var past := PastItem(f.ward.run.value); next == past.(passesLeft := next.passesLeft, itemIndex := next.itemIndex)
    ensures FlyReady(f.(ward := f.ward.(run := Some(next))))
  {
    hide FlownsOk, RunOk, Log, Opened, Skipped, SeqNos, Resumed;
  }

  lemma FlownLast(a: seq<Envelope>, w: Id, before: MissionRun, run: MissionRun)
    requires FlownsOk(a) && Noted(a, w, before, run.passed) && ReachedExactly(run, false)
    requires run.mission == before.mission && run.since == before.since
    requires run.passed == Laps(|run.mission.items|, run.mission.repeatCount + 1)
    requires SeqNos(run.mission.items, run.passed, true) == Times(Listed(run.mission.items, true), run.mission.repeatCount + 1)
    requires SeqNos(run.mission.items, run.passed, false) == Times(Listed(run.mission.items, false), run.mission.repeatCount + 1)
    ensures FlownsOk(a + [Envelope(w, MissionFinished(run))])
  {
    var b := a + [Envelope(w, MissionFinished(run))];
    hide SeqNos, Times, Listed, Opened, Skipped, OfWard, Resumed, ReachedExactly, Laps;
    forall i | 0 <= i < |b| && b[i].out.MissionFinished? ensures FlownOk(b, i) {
      if i < |a| {
        assert FlownOk(a, i);
        assert b[a[i].out.run.since..i] == a[a[i].out.run.since..i];
      } else {
        assert b[run.since..|a|] == a[run.since..];
      }
    }
  }

  lemma EndsFlown(f: Flight, run: MissionRun)
    requires AdvanceReady(f) && run == PastItem(f.ward.run.value)
    requires run.passed == Laps(|run.mission.items|, run.mission.repeatCount + 1)
    ensures ItemsReady(Finished(f, run))
  {
    var n := |run.mission.items|;
    var a := f.sent + [Envelope(f.id, Progress(run.mission.id, n - 1, n, true))];
    var b := a + [Envelope(f.id, MissionFinished(run))];
    hide RunOk, ReachedExactly, Laps;
    QuietSaid(f, Progress(run.mission.id, n - 1, n, true));
    assert Noted(a, f.id, f.ward.run.value, run.passed);
    AllPasses(run.mission.items, run.mission.repeatCount + 1, true);
    AllPasses(run.mission.items, run.mission.repeatCount + 1, false);
    hide Noted, SeqNos, Times, Listed;
    FlownLast(a, f.id, f.ward.run.value, run);
    FlownsPlus(b, Envelope(f.id, Ack(run.start, Success)));
    hide FlownsOk, Noted;
    assert Finished(f, run).sent == b + [Envelope(f.id, Ack(run.start, Success))];
  }

  // ----- Commands -----

  /** An answer that leaves the mission alone. */
  lemma AnsweredItems(f: Flight, ward: Ward, id: Id, status: Status)
    requires ItemsReady(f) && ward.run == f.ward.run && (status != Executing || ward.run.None?)
    ensures ItemsReady(Answered(f.(ward := ward), id, status))
  {
    FlownsPlus(f.sent, Envelope(f.id, Ack(id, status)));
    if status != Executing {
      QuietSaid(f, Ack(id, status));
    }
    hide FlownsOk, Noted, ReachedExactly;
  }

  lemma PauseItems(f: Flight, id: Id)
    requires ItemsReady(f) && f.ward.run.Some?
    ensures ItemsReady(Answered(f.(ward := StopMotion(f.ward.(run := Some(f.ward.run.value.(paused := true))))), id, Success))
  {
    QuietSaid(f, Ack(id, Success));
    var run := f.ward.run.value;
    assert Noted(Say(f, Ack(id, Success)).sent, f.id, run.(paused := true), run.passed + [run.itemIndex]);
    hide FlownsOk, Noted;
  }

  lemma InterruptedItems(f: Flight)
    requires ItemsReady(f)
    ensures ItemsReady(Interrupted(f)) && Interrupted(f).ward.run.None? && Interrupted(f).id == f.id
  {
    if f.ward.run.Some? {
      var start := f.ward.run.value.start;
      FlownsPlus(f.sent, Envelope(f.id, Ack(start, Rejected)));
      FlownsPlus(f.sent + [Envelope(f.id, Ack(start, Rejected))], Envelope(f.id, MissionInterrupted));
    }
    hide FlownsOk, Noted, ReachedExactly;
  }

  lemma TargetItems(f: Flight, id: Id, onArrival: Arrival)
    requires ItemsReady(f) && f.ward.run.None?
    ensures ItemsReady(SetTarget(f, id, onArrival)) && SetTarget(f, id, onArrival).ward.run.None?
  {
    if f.ward.target.Some? {
      FlownsPlus(f.sent, Envelope(f.id, Ack(f.ward.target.value.command, Rejected)));
    }
    hide FlownsOk, Noted, ReachedExactly;
  }

  lemma ManoeuvreItems(f: Flight, id: Id, onArrival: Arrival)
    requires ItemsReady(f)
    ensures ItemsReady(Answered(SetTarget(Interrupted(f), id, onArrival), id, Executing))
  {
    hide ItemsReady, Interrupted, SetTarget;
    InterruptedItems(f);
    TargetItems(Interrupted(f), id, onArrival);
    var g := SetTarget(Interrupted(f), id, onArrival);
    AnsweredItems(g, g.ward, id, Executing);
  }

  /** A mission just started: nothing has been announced, and nothing is behind. */
  lemma FreshItems(f: Flight, id: Id, mission: Mission)
    requires ItemsReady(f)
    ensures var run := MissionRun(mission, 0, mission.repeatCount, id, false, false, [], |f.sent| + 1, {});
      FlyReady(Answered(f.(ward := f.ward.(run := Some(run), inAir := true)), id, Executing))
  {
    var run := MissionRun(mission, 0, mission.repeatCount, id, false, false, [], |f.sent| + 1, {});
    var g := Answered(f.(ward := f.ward.(run := Some(run), inAir := true)), id, Executing);
    FlownsPlus(f.sent, Envelope(f.id, Ack(id, Executing)));
    assert RunOk(run) by {
      assert Indices(0) == [];
    }
    assert g.sent[run.since..] == [];
    hide FlownsOk, RunOk;
  }

  /** A mission taken up again: its item is announced once more. */
  lemma ResumedItems(f: Flight, id: Id)
    requires ItemsReady(f) && f.ward.run.Some? && f.ward.target.None?
    ensures ItemsReady(Fly(Answered(f.(ward := f.ward.(run := Some(f.ward.run.value.(paused := false, start := id)))), id, Executing)))
  {
    var run := f.ward.run.value.(paused := false, start := id);
    var (ack, out) := (Ack(id, Executing), Progress(run.mission.id, run.mission.items[run.itemIndex].seqNo, |run.mission.items|, false));
    var g := Answered(f.(ward := f.ward.(run := Some(run))), id, Executing);
    FlownsPlus(f.sent, Envelope(f.id, ack));
    FlownsPlus(g.sent, Envelope(f.id, out));
    assert Fly(g).sent == g.sent + [Envelope(f.id, out)] && Fly(g).ward.run == Some(run) by {
      hide Noted, FlownsOk, ReachedExactly, Advance;
    }
    AnnouncedAgain(f.sent, f.id, f.ward.run.value, run, run.passed + [run.itemIndex], ack, out);
    hide Noted, FlownsOk, Fly;
  }

  lemma AnnouncedAgain(sent: seq<Envelope>, w: Id, before: MissionRun, run: MissionRun, steps: seq<nat>, ack: Out, out: Out)
    requires Noted(sent, w, before, steps) && run.mission == before.mission && run.since == before.since
    requires ack.Ack? && ack.status == Executing && Opens(out, run.mission)
    ensures Noted(sent + [Envelope(w, ack)] + [Envelope(w, out)], w, run, steps)
  {
    var log := Log(sent, run.since, w);
    LogPlus(sent, run.since, Envelope(w, ack), w);
    LogPlus(sent + [Envelope(w, ack)], run.since, Envelope(w, out), w);
    OpenedPlus(log, ack, run.mission);
    OpenedPlus(log + [ack], out, run.mission);
    hide Log, Opened, Skipped, SeqNos, Resumed;
  }

  lemma StartedItems(f: Flight, id: Id, mission: Option<Mission>)
    requires Ready(f) && ItemsReady(f)
    ensures ItemsReady(Started(f, id, mission))
  {
    if mission.None? || !f.ward.armed {
      hide ItemsReady;
      AnsweredItems(f, f.ward, id, Rejected);
    } else if f.ward.run.Some? && f.ward.run.value.paused {
      assert f.ward.target.None?;
      hide ItemsReady, Fly, Ready;
      ResumedItems(f, id);
    } else {
      hide ItemsReady, Fly, Ready, FlyReady;
      FreshItems(f, id, mission.value);
      var run := MissionRun(mission.value, 0, mission.value.repeatCount, id, false, false, [], |f.sent| + 1, {});
      FlyItems(Answered(f.(ward := f.ward.(run := Some(run), inAir := true)), id, Executing));
    }
  }

  lemma CommandedItems(f: Flight, id: Id, action: Action, mission: Option<Mission>, batteryLow: bool)
    requires Ready(f) && ItemsReady(f)
    ensures ItemsReady(Commanded(f, id, action, mission, batteryLow))
  {
    assert !f.ward.inAir ==> f.ward.run.None? by {
      hide ItemsReady;
    }
    assert ItemsReady(f.(ward := f.ward.(inAir := true))) by {
      hide Ready, Noted, FlownsOk, ReachedExactly;
    }
    hide Ready, ItemsReady, Started, SetTarget, Interrupted;
    AnsweredItems(f, f.ward, id, Rejected);
    match action
    case Arm => AnsweredItems(f, f.ward.(armed := true), id, Success);
    case Disarm(_) =>
      InterruptedItems(f);
      var g := Interrupted(f);
      AnsweredItems(g, StopMotion(g.ward).(inAir := false, armed := false), id, Success);
    case Takeoff =>
      if !f.ward.inAir {
        var g := f.(ward := f.ward.(inAir := true));
        TargetItems(g, id, Hold);
        AnsweredItems(SetTarget(g, id, Hold), SetTarget(g, id, Hold).ward, id, Executing);
      }
    case LandNow => ManoeuvreItems(f, id, Land);
    case ReturnToLaunch => ManoeuvreItems(f, id, Land);
    case Goto(_) => ManoeuvreItems(f, id, Hold);
    case StartMission => StartedItems(f, id, mission);
    case PauseMission =>
      if f.ward.run.Some? {
        PauseItems(f, id);
      }
    case SetHome(_) => AnsweredItems(f, f.ward, id, Success);
    case NoAction =>
  }

  // ----- Ticks -----

  lemma ItemBehind(f: Flight, g: Flight)
    requires Ready(f) && ItemsReady(f) && f.ward.run.Some? && !f.ward.run.value.paused
    requires g.id == f.id && g.sent == f.sent && g.ward.run.Some? && !g.ward.run.value.holding
    requires g.ward.run.value == f.ward.run.value.(holding := false, reached := f.ward.run.value.reached + {|f.ward.run.value.passed|})
    ensures ItemsReady(Advance(g))
  {
    var run := f.ward.run.value;
    assert RunOk(g.ward.run.value) by {
      hide ItemsReady;
    }
    assert AdvanceReady(g) by {
      hide RunOk, FlownsOk, Ready, Log, Opened, Skipped, SeqNos, Resumed;
    }
    hide Ready, ItemsReady, AdvanceReady, Advance;
    AdvanceItems(g);
  }

  lemma HoldEndedItems(f: Flight, holdOver: bool)
    requires Ready(f) && ItemsReady(f)
    ensures ItemsReady(HoldEnded(f, holdOver))
  {
    if f.ward.run.Some? && f.ward.run.value.holding {
      var run := f.ward.run.value;
      assert |run.passed| in run.reached by {
        hide Noted, FlownsOk, Ready;
      }
      assert run.reached + {|run.passed|} == run.reached;
      hide Ready, ItemsReady, Advance;
      if HoldEnded(f, holdOver) != f {
        ItemBehind(f, f.(ward := f.ward.(run := Some(run.(holding := false)))));
      }
    }
  }

  lemma HoldingItems(f: Flight, ward: Ward)
    requires ItemsReady(f) && f.ward.run.Some? && f.ward.run.value.mission.items[f.ward.run.value.itemIndex].hold
    requires ward.run == Some(AtItsItem(f.ward.run.value).(holding := true))
    ensures ItemsReady(f.(ward := ward))
  {
    hide FlownsOk, Log, Opened, Skipped, SeqNos, Resumed;
  }

  lemma MovedItems(f: Flight, reading: Reading)
    requires Ready(f) && ItemsReady(f)
    ensures ItemsReady(Moved(f, reading))
  {
    var g := f.(ward := StopMotion(f.ward));
    if f.ward.patrolling || f.ward.target.None? || !reading.reached {
    } else if f.ward.run.None? {
      assert FlownsOk(f.sent);
      hide Ready, FlownsOk, Noted, ReachedExactly, Advance;
      var target := f.ward.target.value;
      match target.onArrival
      case MissionItem =>
      case Hold => AnsweredItems(f, g.ward, target.command, Success);
      case Land =>
        if reading.grounded {
          AnsweredItems(f, g.ward.(inAir := false, armed := false), target.command, Success);
        }
    } else {
      var run := f.ward.run.value;
      assert f.ward.target == Some(Target(run.start, MissionItem)) && !run.paused by {
        hide ItemsReady;
      }
      assert CanFlyTo(run.mission.items, run.itemIndex) && (run.holding ==> run.mission.items[run.itemIndex].hold) by {
        hide Ready, Noted, FlownsOk, ReachedExactly;
      }
      hide Ready, ItemsReady, Advance;
      if run.mission.items[run.itemIndex].hold {
        HoldingItems(f, g.ward.(run := Some(AtItsItem(run).(holding := true))));
      } else {
        ItemBehind(f, g.(ward := g.ward.(run := Some(AtItsItem(run)))));
      }
    }
  }

  lemma TickedItems(f: Flight, reading: Reading)
    requires Ready(f) && ItemsReady(f)
    ensures ItemsReady(Ticked(f, reading))
  {
    HoldEndedMoves(f, reading.holdOver);
    HoldEndedItems(f, reading.holdOver);
    var g := HoldEnded(f, reading.holdOver);
    assert Ready(g) by {
      hide WardOk, TrailsOk, FinishesOk, ItemsReady;
    }
    hide Ready, ItemsReady, HoldEnded, Moved, Moves;
    MovedItems(g, reading);
  }

  // ----- A ward only speaks of itself -----

  /** g came of f by messages about its own ward. */
  ghost predicate Speaks(f: Flight, g: Flight) {
    && g.id == f.id && f.sent <= g.sent
    && forall i :: |f.sent| <= i < |g.sent| ==> g.sent[i].ward == f.id
  }

  lemma {:induction false} FlySpeaks(f: Flight)
    ensures Speaks(f, Fly(f))
    decreases PassesLeft(f.ward), ItemsAhead(f.ward), 1
  {
    if f.ward.run.Some? && !f.ward.run.value.paused {
      var run := f.ward.run.value;
      if !CanFlyTo(run.mission.items, run.itemIndex) {
        AdvanceSpeaks(if run.itemIndex < |run.mission.items| then Say(f, ItemSkipped(run.mission.items[run.itemIndex].seqNo)) else f);
      }
    }
    hide Advance;
  }

  lemma {:induction false} AdvanceSpeaks(f: Flight)
    ensures Speaks(f, Advance(f))
    decreases PassesLeft(f.ward), ItemsAhead(f.ward), 0
  {
    if f.ward.run.Some? {
      var run := PastItem(f.ward.run.value);
      if run.itemIndex < |run.mission.items| {
        FlySpeaks(f.(ward := f.ward.(run := Some(run))));
      } else if run.passesLeft > 0 {
        FlySpeaks(f.(ward := f.ward.(run := Some(run.(passesLeft := run.passesLeft - 1, itemIndex := 0)))));
      }
    }
    hide Fly;
  }

  lemma StartedSpeaks(f: Flight, id: Id, mission: Option<Mission>)
    ensures Speaks(f, Started(f, id, mission))
  {
    if mission.Some? && f.ward.armed {
      if f.ward.run.Some? && f.ward.run.value.paused {
        FlySpeaks(Answered(f.(ward := f.ward.(run := Some(f.ward.run.value.(paused := false, start := id)))), id, Executing));
      } else {
        var run := MissionRun(mission.value, 0, mission.value.repeatCount, id, false, false, [], |f.sent| + 1, {});
        FlySpeaks(Answered(f.(ward := f.ward.(run := Some(run), inAir := true)), id, Executing));
      }
    }
    hide Fly;
  }

  lemma CommandedSpeaks(f: Flight, id: Id, action: Action, mission: Option<Mission>, batteryLow: bool)
    ensures Speaks(f, Commanded(f, id, action, mission, batteryLow))
  {
    if action.StartMission? {
      StartedSpeaks(f, id, mission);
    }
    hide Started;
  }

  lemma TickedSpeaks(f: Flight, reading: Reading)
    ensures Speaks(f, Ticked(f, reading))
  {
    var g := HoldEnded(f, reading.holdOver);
    if g != f {
      AdvanceSpeaks(f.(ward := f.ward.(run := Some(f.ward.run.value.(holding := false)))));
    }
    if g.ward.run.Some? {
      AdvanceSpeaks(g.(ward := StopMotion(g.ward).(run := Some(AtItsItem(g.ward.run.value)))));
    }
    assert Speaks(f, g) by {
      hide Advance;
    }
    hide Advance, HoldEnded;
  }

  // ----- Over every run -----

  ghost predicate ItemsInv(s: State) {
    FlownsOk(s.sent) && forall w :: w in s.wards ==> ItemsOk(At(s, w))
  }

  lemma OthersNoted(f: Flight, g: Flight, other: Ward, w: Id)
    requires Speaks(f, g) && w != f.id && ItemsOk(Flight(w, other, f.sent))
    ensures ItemsOk(Flight(w, other, g.sent))
  {
    if other.run.Some? {
      var run := other.run.value;
      var more := g.sent[|f.sent|..];
      assert g.sent == f.sent + more;
      assert Noted(f.sent, w, run, run.passed + [run.itemIndex]);
      LogOfOthers(f.sent, more, run.since, w);
      hide Log, Opened, Skipped, SeqNos, Resumed, ReachedExactly;
      assert Noted(g.sent, w, run, run.passed + [run.itemIndex]);
    }
  }

  lemma PutItems(s: State, w: Id, g: Flight)
    requires ItemsInv(s) && w in s.wards && Speaks(At(s, w), g) && ItemsReady(g)
    ensures ItemsInv(Put(s, w, g))
  {
    assert g.id == w;
    hide FlownsOk, ItemsOk, Speaks;
    var t := Put(s, w, g);
    forall v | v in t.wards ensures ItemsOk(At(t, v)) {
      if v != w {
        assert ItemsOk(At(s, v));
        OthersNoted(At(s, w), g, s.wards[v], v);
      }
    }
  }

  lemma ReadyAt(s: State, w: Id)
    requires Inv(s) && ItemsInv(s) && w in s.wards
    ensures Ready(At(s, w)) && ItemsReady(At(s, w))
  {
    hide WardOk, TrailsOk, FinishesOk, ItemsOk, FlownsOk;
  }

  lemma StrangerItems(s: State, w: Id, message: Envelope)
    requires ItemsInv(s) && w !in s.wards && message.ward == w && !message.out.MissionFinished?
    ensures ItemsInv(s.(sent := s.sent + [message]))
  {
    FlownsPlus(s.sent, message);
    hide FlownsOk, ItemsOk;
    var t := s.(sent := s.sent + [message]);
    forall v | v in t.wards ensures ItemsOk(At(t, v)) {
      assert ItemsOk(At(s, v));
      OthersNoted(Flight(w, SPAWNED, s.sent), Flight(w, SPAWNED, t.sent), s.wards[v], v);
    }
  }

  lemma WardsItems(s: State, e: Event)
    requires ItemsInv(s) && (e.Spawn? || e.Despawn? || e.Upload?)
    ensures ItemsInv(Step(s, e))
  {
    hide FlownsOk, Noted, ReachedExactly;
    var t := Step(s, e);
    forall v | v in t.wards ensures ItemsOk(At(t, v)) {
      if v in s.wards {
        assert ItemsOk(At(s, v));
      }
    }
  }

  lemma StepItems(s: State, e: Event)
    requires Inv(s) && ItemsInv(s)
    ensures ItemsInv(Step(s, e))
  {
    hide Inv, ItemsInv, Ready, ItemsReady, Speaks, Commanded, Ticked;
    match e
    case Do(w, action, batteryLow) =>
      if w in s.wards {
        ReadyAt(s, w);
        CommandedItems(At(s, w), s.nextCommand, action, MissionOf(s, w), batteryLow);
        CommandedSpeaks(At(s, w), s.nextCommand, action, MissionOf(s, w), batteryLow);
        PutItems(s, w, Commanded(At(s, w), s.nextCommand, action, MissionOf(s, w), batteryLow));
        Counted(Put(s, w, Commanded(At(s, w), s.nextCommand, action, MissionOf(s, w), batteryLow)));
      } else {
        StrangerItems(s, w, Envelope(w, Ack(s.nextCommand, Rejected)));
        Counted(s.(sent := s.sent + [Envelope(w, Ack(s.nextCommand, Rejected))]));
      }
    case Tick(w, reading) =>
      if w in s.wards {
        ReadyAt(s, w);
        TickedItems(At(s, w), reading);
        TickedSpeaks(At(s, w), reading);
        PutItems(s, w, Ticked(At(s, w), reading));
      }
    case _ => WardsItems(s, e);
  }

  lemma Counted(s: State)
    requires ItemsInv(s)
    ensures ItemsInv(s.(nextCommand := s.nextCommand + 1))
  {
    var t := s.(nextCommand := s.nextCommand + 1);
    hide ItemsOk, FlownsOk;
    forall v | v in t.wards ensures ItemsOk(At(t, v)) {
      assert At(t, v) == At(s, v);
    }
  }

  lemma {:induction false} StepsItems(s: State, events: seq<Event>)
    requires Inv(s) && ItemsInv(s)
    ensures Inv(Steps(s, events)) && ItemsInv(Steps(s, events))
    decreases events
  {
    hide Inv, ItemsInv, Step;
    if events != [] {
      StepKeeps(s, events[0]);
      StepItems(s, events[0]);
      StepsItems(Step(s, events[0]), events[1..]);
    }
  }

  /** Over every run: a ward on a mission has an item it can fly to; it heads for that item, holds there or
      is paused, and says so of exactly the items of its mission, in order. And no mission is reported
      finished before each of its items that can be flown to has been announced and reached once per pass. */
  lemma EveryItem(events: seq<Event>)
    ensures var t := Steps(START, events);
      && (forall i :: 0 <= i < |t.sent| && t.sent[i].out.MissionFinished? ==> FlownOk(t.sent, i))
      && (forall w :: w in t.wards && t.wards[w].run.Some? ==>
            var run := t.wards[w].run.value;
            && CanFlyTo(run.mission.items, run.itemIndex)
            && Noted(t.sent, w, run, run.passed + [run.itemIndex])
            && ReachedExactly(run, run.holding)
            && (t.wards[w].target.Some? ==> t.wards[w].target.value == Target(run.start, MissionItem)))
  {
    assert ItemsInv(START) && Inv(START);
    StepsItems(START, events);
    var t := Steps(START, events);
    hide Step, Steps, FlownOk, Noted, ReachedExactly, FinishOk, RunOk, Trail, Acks;
    forall w | w in t.wards && t.wards[w].run.Some?
      ensures t.wards[w].target.Some? ==> t.wards[w].target.value == Target(t.wards[w].run.value.start, MissionItem)
    {
      assert WardOk(At(t, w));
    }
    forall w | w in t.wards ensures ItemsOk(At(t, w)) {
    }
  }

  lemma {:induction false} TicksItems(f: Flight, k: nat)
    requires Ready(f) && ItemsReady(f)
    ensures ItemsReady(Ticks(f, k))
    decreases k
  {
    if k > 0 {
      TickedMoves(f, FAIR);
      TickedItems(f, FAIR);
      hide WardOk, TrailsOk, FinishesOk, ItemsReady, Ticked;
      TicksItems(Ticked(f, FAIR), k - 1);
    }
  }

  /** Left alone, a mission is flown whole: within twice as many ticks as it has items to pass it is
      reported finished, after every item that can be flown to was announced and reached on every pass. */
  lemma FlownWhole(f: Flight, k: nat)
    requires Ready(f) && ItemsReady(f) && Underway(f) && k >= Work(f.ward)
    ensures var g := Ticks(f, k);
      && g.ward.run.None? && JustFinished(g, f.ward.run.value)
      && FlownOk(g.sent, |g.sent| - 2)
  {
    FlownToTheEnd(f, k);
    TicksItems(f, k);
    hide Ready, Ticks, FlownOk;
  }
}

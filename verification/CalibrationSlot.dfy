/** A ward's calibration executor: one calibration at a time, whoever asks. Each step is one stretch of a
    thread that no other thread can cut into. */
module CalibrationSlot {
  import opened Options
  import opened Acknowledgements

  type Id = int

  datatype Status = Running | Success | Failed | Cancelled | Rejected

  /** Ended: its last message is out, the slot not yet free. */
  datatype Worker = Idle | Working(id: Id) | Ended(id: Id) | Gone

  /** seen, admitted, dropped: every request id, those given the slot, those thrown away at shutdown. */
  datatype State = State(
    slot: Option<Id>,
    queue: seq<Id>,
    worker: Worker,
    stopping: bool,
    sent: seq<Ack<Status>>,
    seen: set<Id>,
    admitted: set<Id>,
    dropped: set<Id>)

  const START := State(None, [], Idle, false, [], {}, {}, {})

  datatype Event =
    | Ask(id: Id, known: bool)
    | RequestStop
    | Take
    | Report
    | End(status: Status)
    | Release
    | Shutdown

  function Said(s: State, id: Id, status: Status): State {
    s.(sent := s.sent + [Ack(id, status)])
  }

  /** An event that the threads cannot take now changes nothing. Request ids are the console's, and new. */
  function Step(s: State, e: Event): State {
    match e
    case Ask(id, known) =>
      if id in s.seen then s
      else
        var t := s.(seen := s.seen + {id});
        if !known || s.slot.Some? then Said(t, id, Rejected)
        else t.(slot := Some(id), queue := s.queue + [id], admitted := s.admitted + {id})
    case RequestStop => s.(stopping := true)
    case Take =>
      if s.worker.Idle? && !s.stopping && s.queue != [] then s.(worker := Working(s.queue[0]), queue := s.queue[1..]) else s
    case Report => if s.worker.Working? then Said(s, s.worker.id, Running) else s
    case End(status) =>
      if s.worker.Working? && (status == Success || status == Failed || status == Cancelled) then
        Said(s.(worker := Ended(s.worker.id)), s.worker.id, status)
      else s
    case Release => if s.worker.Ended? then s.(worker := Idle, slot := None) else s
    case Shutdown =>
      if s.worker.Idle? && s.stopping then
        s.(worker := Gone, dropped := s.dropped + (set id | id in s.queue), queue := [], slot := None)
      else s
  }

  function Steps(s: State, events: seq<Event>): State
    decreases events
  {
    if events == [] then s else Steps(Step(s, events[0]), events[1..])
  }

  class CalibrationExecutor {
    var runningRequest: Option<Id>
    var queue: seq<Id>
    var stopping: bool
    var sent: seq<Ack<Status>>
    ghost var worker: Worker
    ghost var seen: set<Id>
    ghost var admitted: set<Id>
    ghost var dropped: set<Id>

    ghost function View(): State
      reads this
    {
      State(runningRequest, queue, worker, stopping, sent, seen, admitted, dropped)
    }

    constructor ()
      ensures View() == START
    {
      runningRequest, queue, stopping, sent := None, [], false, [];
      worker, seen, admitted, dropped := Idle, {}, {}, {};
    }

    method EnqueueStart(id: Id, known: bool)
      requires id !in seen
      modifies this
      ensures View() == Step(old(View()), Ask(id, known))
    {
      seen := seen + {id};
      if !known {
        sent := sent + [Ack(id, Rejected)];
        return;
      }
      if runningRequest.Some? {
        sent := sent + [Ack(id, Rejected)];
        return;
      }
      runningRequest := Some(id);
      queue := queue + [id];
      admitted := admitted + {id};
    }

    method Stop()
      modifies this
      ensures View() == Step(old(View()), RequestStop)
    {
      stopping := true;
    }

    /** The worker, woken with the lock. */
    method WakeUp() returns (job: Option<Id>)
      requires worker.Idle? && (stopping || queue != [])
      modifies this
      ensures View() == Step(old(View()), if job.Some? then Take else Shutdown)
      ensures job.Some? <==> !stopping
    {
      if stopping {
        dropped := dropped + (set id | id in queue);
        queue := [];
        runningRequest := None;
        worker := Gone;
        return None;
      }
      job := Some(queue[0]);
      worker := Working(queue[0]);
      queue := queue[1..];
    }

    /** The worker, with no lock: the vehicle reports as often as it likes, then the result is sent. */
    method Execute(id: Id, reports: nat, status: Status)
      requires worker == Working(id) && (status == Success || status == Failed || status == Cancelled)
      modifies this
      ensures View() == Step(Steps(old(View()), seq(reports, _ => Report)), End(status))
    {
      ghost var all: seq<Event> := seq(reports, _ => Report);
      for i := 0 to reports
        invariant worker == Working(id)
        invariant Steps(View(), all[i..]) == Steps(old(View()), all)
      {
        sent := sent + [Ack(id, Running)];
        assert all[i..][0] == Report && all[i..][1..] == all[i + 1..];
      }
      assert all[reports..] == [];
      sent := sent + [Ack(id, status)];
      worker := Ended(id);
    }

    method FreeSlot()
      requires worker.Ended?
      modifies this
      ensures View() == Step(old(View()), Release)
    {
      runningRequest := None;
      worker := Idle;
    }
  }

  // ----- Over every run -----

  predicate AllRunning(told: seq<Status>) {
    forall i :: 0 <= i < |told| ==> told[i] == Running
  }

  /** Any number of reports, then one result. */
  predicate Completed(told: seq<Status>) {
    && told != []
    && AllRunning(told[..|told| - 1])
    && told[|told| - 1] in {Success, Failed, Cancelled}
  }

  /** Who is being worked on, the time between the last message and the freed slot included. */
  function Busy(worker: Worker): seq<Id> {
    match worker
    case Working(id) => [id]
    case Ended(id) => [id]
    case _ => []
  }

  /** The slot is held exactly while one request is queued or worked on, and never by two. */
  ghost predicate SlotOk(s: State) {
    Busy(s.worker) + s.queue == if s.slot.Some? then [s.slot.value] else []
  }

  ghost predicate ToldOk(s: State, id: Id) {
    if id !in s.seen then id !in s.admitted && Told(s.sent, id) == []
    else if id !in s.admitted then Told(s.sent, id) == [Rejected]
    else if id in s.dropped || id in s.queue then Told(s.sent, id) == []
    else if s.worker == Working(id) then AllRunning(Told(s.sent, id))
    else Completed(Told(s.sent, id))
  }

  ghost predicate Inv(s: State) {
    && SlotOk(s)
    && (forall id :: ToldOk(s, id))
    && (s.slot.Some? ==> s.slot.value in s.admitted && s.slot.value !in s.dropped)
    && s.admitted <= s.seen && s.dropped <= s.admitted
    && (s.worker.Ended? ==> Completed(Told(s.sent, s.worker.id)))
  }

  /** Whoever is worked on has the slot, and nobody is queued behind. */
  lemma BusyAlone(s: State)
    requires SlotOk(s) && Busy(s.worker) != []
    ensures s.queue == [] && s.slot == Some(s.worker.id)
  {
    var all := Busy(s.worker) + s.queue;
    assert |all| == 1 + |s.queue| && all[0] == s.worker.id;
  }

  lemma QueuedAlone(s: State)
    requires SlotOk(s) && Busy(s.worker) == []
    ensures if s.slot.Some? then s.queue == [s.slot.value] else s.queue == []
  {
    assert Busy(s.worker) + s.queue == s.queue;
  }

  /** What one message says: a start is refused, or the one worked on hears a report or its result. */
  predicate Says(s: State, t: State, id: Id, status: Status) {
    && t == s.(sent := s.sent + [Ack(id, status)], seen := t.seen, worker := t.worker)
    && match status
       case Rejected => id !in s.seen && t.seen == s.seen + {id} && t.worker == s.worker
       case Running => s.worker == Working(id) && t.worker == s.worker && t.seen == s.seen
       case _ => s.worker == Working(id) && t.worker == Ended(id) && t.seen == s.seen
  }

  lemma SaidKeeps(s: State, t: State, id: Id, status: Status)
    requires Inv(s) && Says(s, t, id, status)
    ensures Inv(t)
  {
    hide Told, Completed, AllRunning;
    ToldPlus(s.sent, Ack(id, status));
    SaidSlot(s, t, id, status);
    hide SlotOk;
    assert ToldOk(s, id);
    SaidToOne(Told(s.sent, id), status);
    forall i ensures ToldOk(t, i) {
      assert ToldOk(s, i);
      if i != id {
        SaidToOthers(s, t, id, status, i);
      }
    }
  }

  lemma SaidSlot(s: State, t: State, id: Id, status: Status)
    requires SlotOk(s) && Says(s, t, id, status)
    ensures SlotOk(t)
    ensures s.worker.Working? || s.worker.Ended? ==> s.queue == [] && s.slot == Some(s.worker.id)
  {
    if s.worker.Working? || s.worker.Ended? {
      BusyAlone(s);
    }
  }

  lemma SaidToOthers(s: State, t: State, id: Id, status: Status, i: Id)
    requires Says(s, t, id, status) && i != id && Told(t.sent, i) == Told(s.sent, i)
    ensures ToldOk(t, i) <==> ToldOk(s, i)
  {
    hide Told, Completed, AllRunning;
  }

  lemma SaidToOne(told: seq<Status>, status: Status)
    ensures AllRunning(told) && status == Running ==> AllRunning(told + [status])
    ensures AllRunning(told) && status in {Success, Failed, Cancelled} ==> Completed(told + [status])
  {
    assert (told + [status])[..|told|] == told;
  }

  lemma StepKeeps(s: State, e: Event)
    requires Inv(s)
    ensures Inv(Step(s, e))
  {
    var t := Step(s, e);
    match e
    case Ask(id, known) =>
      if id !in s.seen && (!known || s.slot.Some?) {
        SaidKeeps(s, t, id, Rejected);
      } else {
        hide Told;
        forall i ensures ToldOk(t, i) {
          assert ToldOk(s, i);
        }
      }
    case Report =>
      if s.worker.Working? {
        SaidKeeps(s, t, s.worker.id, Running);
      }
    case End(status) =>
      if t != s {
        SaidKeeps(s, t, s.worker.id, status);
      }
    case RequestStop => TakeKeeps(s);
    case Take => TakeKeeps(s);
    case Release => ReleaseKeeps(s);
    case Shutdown => ShutdownKeeps(s);
  }

  lemma TakeKeeps(s: State)
    requires Inv(s)
    ensures Inv(Step(s, Take)) && Inv(Step(s, RequestStop))
  {
    SlotMoves(s, Take);
    SlotMoves(s, RequestStop);
    assert AllRunning([]);
    var t := Step(s, Take);
    if Busy(s.worker) == [] {
      QueuedAlone(s);
    }
    hide Told, SlotOk, AllRunning, Completed;
    forall i ensures ToldOk(t, i) && ToldOk(Step(s, RequestStop), i) {
      assert ToldOk(s, i);
    }
  }

  lemma ReleaseKeeps(s: State)
    requires Inv(s)
    ensures Inv(Step(s, Release))
  {
    SlotMoves(s, Release);
    hide Told, SlotOk, AllRunning, Completed;
    forall i ensures ToldOk(Step(s, Release), i) {
      assert ToldOk(s, i);
    }
  }

  lemma ShutdownKeeps(s: State)
    requires Inv(s)
    ensures Inv(Step(s, Shutdown))
  {
    SlotMoves(s, Shutdown);
    if Busy(s.worker) == [] {
      QueuedAlone(s);
    }
    hide Told, SlotOk, AllRunning, Completed;
    forall i ensures ToldOk(Step(s, Shutdown), i) {
      assert ToldOk(s, i);
    }
  }

  lemma SlotMoves(s: State, e: Event)
    requires SlotOk(s) && (e.RequestStop? || e.Take? || e.Release? || e.Shutdown?)
    ensures SlotOk(Step(s, e))
  {
    if Busy(s.worker) != [] {
      BusyAlone(s);
    } else {
      QueuedAlone(s);
    }
  }

  lemma {:induction false} StepsKeep(s: State, events: seq<Event>)
    requires Inv(s)
    ensures Inv(Steps(s, events))
    decreases events
  {
    hide Inv, Step;
    if events != [] {
      StepKeeps(s, events[0]);
      StepsKeep(Step(s, events[0]), events[1..]);
    }
  }

  /** Whatever the threads do: the slot is held by at most one request, exactly while that one is queued
      or worked on; a refused request is told so and nothing else; and an admitted one hears nothing while
      it is queued, reports while it is worked on, and then one result. Those thrown away at shutdown, and
      one admitted after it, stay at nothing. */
  lemma EveryRun(events: seq<Event>)
    ensures var t := Steps(START, events);
      && |Busy(t.worker)| + |t.queue| == (if t.slot.Some? then 1 else 0)
      && (forall id :: ToldOk(t, id))
      && (t.worker.Gone? || t.dropped != {} ==> t.stopping)
  {
    assert Inv(START);
    StepsKeep(START, events);
    StopsOnlyWhenAsked(START, events);
    var t := Steps(START, events);
    assert |Busy(t.worker) + t.queue| == |Busy(t.worker)| + |t.queue|;
  }

  /** A start is refused exactly if its calibration is unknown or the slot is held; otherwise it gets the
      slot at once, and hears nothing yet. */
  lemma AskedExactly(s: State, id: Id, known: bool)
    requires Inv(s) && id !in s.seen
    ensures var t := Step(s, Ask(id, known));
      if known && s.slot == None then t.slot == Some(id) && id in t.queue && Told(t.sent, id) == []
      else t.slot == s.slot && id !in t.queue && Told(t.sent, id) == [Rejected]
  {
    assert ToldOk(s, id);
    assert id !in Busy(s.worker) + s.queue;
    assert id !in s.queue by {
      assert forall i :: 0 <= i < |s.queue| ==> s.queue[i] == (Busy(s.worker) + s.queue)[|Busy(s.worker)| + i];
    }
    ToldPlus(s.sent, Ack(id, Rejected));
    hide Told;
  }

  /** Its result is the one the vehicle gave, and comes once. */
  lemma ResultTold(s: State, status: Status)
    requires Inv(s) && s.worker.Working? && status in {Success, Failed, Cancelled}
    ensures var (id, t) := (s.worker.id, Step(s, End(status)));
      Told(t.sent, id) == Told(s.sent, id) + [status] && Completed(Told(t.sent, id)) && t.worker == Ended(id)
  {
    ToldPlus(s.sent, Ack(s.worker.id, status));
    assert ToldOk(s, s.worker.id);
    BusyAlone(s);
    SaidToOne(Told(s.sent, s.worker.id), status);
    hide Told, Completed, AllRunning;
  }

  predicate OnlyOnStop(s: State) {
    s.worker.Gone? || s.dropped != {} ==> s.stopping
  }

  /** Nothing is thrown away before a stop has been asked for, and nothing is begun after. */
  lemma {:induction false} StopsOnlyWhenAsked(s: State, events: seq<Event>)
    requires OnlyOnStop(s)
    ensures var t := Steps(s, events);
      OnlyOnStop(t) && (s.stopping && !s.worker.Working? ==> t.stopping && !t.worker.Working?)
    decreases events
  {
    if events != [] {
      StopsOnlyWhenAsked(Step(s, events[0]), events[1..]);
    }
  }

  /** A calibration comes through when the slot is free, and frees it again; and an idle worker that is to
      stop goes, and the slot with it. */
  lemma ComesThrough(s: State, id: Id, status: Status)
    requires Inv(s) && s.worker.Idle? && s.slot == None && !s.stopping && id !in s.seen
    requires status in {Success, Failed, Cancelled}
    ensures var t := Step(Step(Step(Step(s, Ask(id, true)), Take), End(status)), Release);
      Told(t.sent, id) == [status] && t.worker.Idle? && t.slot == None && t.queue == []
    ensures Step(Step(s, RequestStop), Shutdown).worker.Gone?
  {
    hide Inv, Told;
    AskedExactly(s, id, true);
    NobodyQueued(s, id);
    ToldPlus(s.sent, Ack(id, status));
    assert [id][1..] == [] && [] + [id] == [id];
  }

  lemma NobodyQueued(s: State, id: Id)
    requires Inv(s) && s.worker.Idle? && s.slot == None && id !in s.seen
    ensures s.queue == [] && Told(s.sent, id) == []
  {
    QueuedAlone(s);
    assert ToldOk(s, id);
    hide Told;
  }
}

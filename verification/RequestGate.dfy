/** The gate every OpenAIP request of the console passes: one at a time, spaced out, and all backing off
    together. The asynchronous loop is cut at its two awaits: the pause, and the task itself. */
module RequestGate {
  const MIN_REQUEST_GAP_MS := 2500
  const FAILURE_COOLDOWN_MS := 10000

  type Id = int

  /** Where the loop is. Dead: a task failed and took the loop with it, still marked as running. */
  datatype Loop = Idle | Pausing(until: int) | Awaiting(task: Id) | Dead

  datatype Start = Start(task: Id, at: int)

  /** asked, starts: every task ever handed in, and every start, in order. */
  datatype State = State(
    queue: seq<Id>,
    cooldownUntil: int,
    lastStart: int,
    loop: Loop,
    clock: int,
    asked: seq<Id>,
    starts: seq<Start>)

  const START := State([], 0, 0, Idle, 0, [], [])

  function Max(a: int, b: int): int {
    if a >= b then a else b
  }

  function Started(s: State): State
    requires s.queue != []
  {
    s.(queue := s.queue[1..], lastStart := s.clock, loop := Awaiting(s.queue[0]),
       starts := s.starts + [Start(s.queue[0], s.clock)])
  }

  /** One turn of the loop: done, pause first, or start the next task. */
  function Turned(s: State): State {
    var wait := Max(0, Max(s.cooldownUntil - s.clock, s.lastStart + MIN_REQUEST_GAP_MS - s.clock));
    if s.queue == [] then s.(loop := Idle)
    else if wait > 0 then s.(loop := Pausing(s.clock + wait))
    else Started(s)
  }

  datatype Event = Enqueue(task: Id) | NoteFailure | PauseOver | TaskDone | TaskRejects

  /** An event that cannot happen now changes nothing; a pause never ends early. */
  function Step(s: State, e: Event, now: int): State {
    if now < s.clock then s
    else
      var t := s.(clock := now);
      match e
      case Enqueue(task) =>
        var u := t.(queue := t.queue + [task], asked := t.asked + [task]);
        if u.loop.Idle? then Turned(u) else u
      case NoteFailure => t.(cooldownUntil := now + FAILURE_COOLDOWN_MS)
      case PauseOver => if t.loop.Pausing? && now >= t.loop.until && t.queue != [] then Started(t) else t
      case TaskDone => if t.loop.Awaiting? then Turned(t) else t
      case TaskRejects => if t.loop.Awaiting? then t.(loop := Dead) else t
  }

  function Steps(s: State, events: seq<(Event, int)>): State
    decreases events
  {
    if events == [] then s else Steps(Step(s, events[0].0, events[0].1), events[1..])
  }

  class OpenAipRequestGate {
    var queue: seq<Id>
    var cooldownUntil: int
    var lastStart: int
    var draining: bool
    ghost var loop: Loop
    ghost var clock: int
    ghost var asked: seq<Id>
    ghost var starts: seq<Start>

    ghost function View(): State
      reads this
    {
      State(queue, cooldownUntil, lastStart, loop, clock, asked, starts)
    }

    /** The flag is up from the moment the loop starts until it has run dry. */
    ghost predicate Valid()
      reads this
    {
      draining <==> !loop.Idle?
    }

    constructor ()
      ensures Valid() && View() == START
    {
      queue, cooldownUntil, lastStart, draining := [], 0, 0, false;
      loop, clock, asked, starts := Idle, 0, [], [];
    }

    method Add(task: Id, now: int)
      requires Valid() && now >= clock
      modifies this
      ensures Valid() && View() == Step(old(View()), Enqueue(task), now)
    {
      clock := now;
      queue := queue + [task];
      asked := asked + [task];
      if draining {
        return;
      }
      draining := true;
      var wait := Turn(now);
    }

    method Fail(now: int)
      requires Valid() && now >= clock
      modifies this
      ensures Valid() && View() == Step(old(View()), NoteFailure, now)
    {
      clock := now;
      cooldownUntil := now + FAILURE_COOLDOWN_MS;
    }

    /** The head of the loop, up to its first await; wait is how long to pause, if at all. */
    method Turn(now: int) returns (wait: int)
      requires draining && now == clock
      modifies this
      ensures Valid() && View() == Turned(old(View()))
      ensures loop.Pausing? ==> wait > 0 && loop.until == now + wait
    {
      wait := 0;
      if |queue| == 0 {
        draining := false;
        loop := Idle;
        return;
      }
      wait := Max(0, Max(cooldownUntil - now, lastStart + MIN_REQUEST_GAP_MS - now));
      if wait > 0 {
        loop := Pausing(now + wait);
        return;
      }
      var task := StartNext(now);
    }

    method StartNext(now: int) returns (task: Id)
      requires draining && now == clock && queue != []
      modifies this
      ensures Valid() && View() == Started(old(View())) && task == old(queue)[0]
    {
      task := queue[0];
      queue := queue[1..];
      lastStart := now;
      loop := Awaiting(task);
      starts := starts + [Start(task, now)];
    }

    method Resume(now: int) returns (task: Id)
      requires Valid() && loop.Pausing? && now >= loop.until && now >= clock && queue != []
      modifies this
      ensures Valid() && View() == Step(old(View()), PauseOver, now)
    {
      clock := now;
      task := StartNext(now);
    }

    method Finish(now: int)
      requires Valid() && loop.Awaiting? && now >= clock
      modifies this
      ensures Valid() && View() == Step(old(View()), TaskDone, now)
    {
      clock := now;
      var wait := Turn(now);
    }
  }

  // ----- Over every run -----

  function Tasks(starts: seq<Start>): (tasks: seq<Id>)
    ensures |tasks| == |starts|
    ensures forall i :: 0 <= i < |tasks| ==> tasks[i] == starts[i].task
  {
    seq(|starts|, i requires 0 <= i < |starts| => starts[i].task)
  }

  ghost predicate Spaced(starts: seq<Start>) {
    forall i, j :: 0 <= i <= j < |starts| ==> starts[j].at - starts[i].at >= 2500 * (j - i)
  }

  ghost predicate Inv(s: State) {
    && Spaced(s.starts)
    && (s.starts != [] ==> s.starts[|s.starts| - 1].at == s.lastStart <= s.clock)
    && (s.loop.Pausing? ==> s.queue != [] && (s.starts != [] ==> s.loop.until >= s.lastStart + 2500))
    && (s.loop.Idle? ==> s.queue == [])
    && s.asked == Tasks(s.starts) + s.queue
  }

  lemma StartedKeeps(s: State)
    requires Inv(s.(loop := Dead)) && s.queue != [] && s.starts != [] ==> s.clock >= s.lastStart + 2500
    requires Inv(s.(loop := Dead)) && s.queue != []
    ensures Inv(Started(s))
  {
    var t := Started(s);
    var n := |s.starts|;
    forall i, j | 0 <= i <= j < |t.starts| ensures t.starts[j].at - t.starts[i].at >= 2500 * (j - i) {
      if i < j == n {
        assert s.starts[n - 1].at - s.starts[i].at >= 2500 * (n - 1 - i);
      }
    }
    assert Tasks(t.starts) == Tasks(s.starts) + [s.queue[0]];
  }

  lemma TurnedKeeps(s: State)
    requires Inv(s.(loop := Dead))
    ensures Inv(Turned(s))
  {
    var wait := Max(0, Max(s.cooldownUntil - s.clock, s.lastStart + MIN_REQUEST_GAP_MS - s.clock));
    if s.queue != [] && wait <= 0 {
      StartedKeeps(s);
    }
  }

  lemma StepKeeps(s: State, e: Event, now: int)
    requires Inv(s)
    ensures Inv(Step(s, e, now))
  {
    if now >= s.clock {
      var t := s.(clock := now);
      match e
      case Enqueue(task) =>
        var u := t.(queue := t.queue + [task], asked := t.asked + [task]);
        assert u.asked == Tasks(u.starts) + u.queue;
        if u.loop.Idle? {
          TurnedKeeps(u);
        }
      case PauseOver =>
        if t.loop.Pausing? && now >= t.loop.until && t.queue != [] {
          StartedKeeps(t);
        }
      case TaskDone =>
        if t.loop.Awaiting? {
          TurnedKeeps(t);
        }
      case _ =>
    }
  }

  lemma {:induction false} StepsKeep(s: State, events: seq<(Event, int)>)
    requires Inv(s)
    ensures Inv(Steps(s, events))
    decreases events
  {
    hide Inv, Step;
    if events != [] {
      StepKeeps(s, events[0].0, events[0].1);
      StepsKeep(Step(s, events[0].0, events[0].1), events[1..]);
    }
  }

  /** The loop never pauses longer than it must: until the later of the gap and the cooldown it knows of. */
  lemma PauseExactly(s: State)
    ensures var due := if s.cooldownUntil >= s.lastStart + 2500 then s.cooldownUntil else s.lastStart + 2500;
      if s.queue == [] then Turned(s).loop.Idle?
      else if s.clock < due then Turned(s).loop == Pausing(due)
      else Turned(s).loop == Awaiting(s.queue[0]) && Turned(s).starts == s.starts + [Start(s.queue[0], s.clock)]
  {
  }

  function CountWithin(starts: seq<Start>, from: int): nat {
    if starts == [] then 0
    else (if from <= starts[0].at < from + 6000 then 1 else 0) + CountWithin(starts[1..], from)
  }

  lemma {:induction false} CountFrom(starts: seq<Start>, from: int, first: int, room: nat)
    requires Spaced(starts)
    requires forall i :: 0 <= i < |starts| ==> starts[i].at >= first + 2500 * i
    requires first + 2500 * room >= from + 6000
    ensures CountWithin(starts, from) <= room
    decreases starts
  {
    if starts != [] {
      forall i, j | 0 <= i <= j < |starts[1..]| ensures starts[1..][j].at - starts[1..][i].at >= 2500 * (j - i) {
        assert starts[j + 1].at - starts[i + 1].at >= 2500 * (j - i);
      }
      CountFrom(starts[1..], from, first + 2500, if room > 0 then room - 1 else 0);
    }
  }

  /** No window of six seconds holds more than three starts. */
  lemma {:induction false} AtMostThree(starts: seq<Start>, from: int)
    requires Spaced(starts)
    ensures CountWithin(starts, from) <= 3
    decreases starts
  {
    if starts != [] {
      forall i, j | 0 <= i <= j < |starts[1..]| ensures starts[1..][j].at - starts[1..][i].at >= 2500 * (j - i) {
        assert starts[j + 1].at - starts[i + 1].at >= 2500 * (j - i);
      }
      if starts[0].at < from {
        AtMostThree(starts[1..], from);
      } else {
        CountFrom(starts, from, starts[0].at, 3);
      }
    }
  }

  /** After a task has rejected, nothing ever starts again. */
  lemma {:induction false} DeadForEver(s: State, events: seq<(Event, int)>)
    requires s.loop.Dead?
    ensures Steps(s, events).loop.Dead? && Steps(s, events).starts == s.starts
    decreases events
  {
    if events != [] {
      DeadForEver(Step(s, events[0].0, events[0].1), events[1..]);
    }
  }

  predicate NoRejection(events: seq<(Event, int)>) {
    forall i :: 0 <= i < |events| ==> !events[i].0.TaskRejects?
  }

  /** And nothing else stops the gate. */
  lemma {:induction false} NeverDies(s: State, events: seq<(Event, int)>)
    requires !s.loop.Dead? && NoRejection(events)
    ensures !Steps(s, events).loop.Dead?
    decreases events
  {
    if events != [] {
      NeverDies(Step(s, events[0].0, events[0].1), events[1..]);
    }
  }

  /** Whatever is asked, fails or finishes, and when: starts are at least the gap apart each, however many
      lie between, so that no window of six seconds holds more than three; tasks start once each and in
      the order they were handed in; and while a task waits, the loop is under way, unless a task rejected. */
  lemma EveryRun(events: seq<(Event, int)>)
    ensures var t := Steps(START, events);
      && Spaced(t.starts)
      && (forall from :: CountWithin(t.starts, from) <= 3)
      && t.asked == Tasks(t.starts) + t.queue
      && (t.queue != [] && NoRejection(events) ==> t.loop.Pausing? || t.loop.Awaiting?)
  {
    assert Inv(START);
    StepsKeep(START, events);
    var t := Steps(START, events);
    forall from ensures CountWithin(t.starts, from) <= 3 {
      AtMostThree(t.starts, from);
    }
    if NoRejection(events) {
      NeverDies(START, events);
    }
  }

  // ----- Starts inside a cooldown -----

  /** This step starts a task before the cooldown in force is over. */
  predicate Early(s: State, e: Event, now: int) {
    |Step(s, e, now).starts| > |s.starts| && now < s.cooldownUntil
  }

  predicate NeverEarly(s: State, events: seq<(Event, int)>)
    decreases events
  {
    events == [] ||
    (!Early(s, events[0].0, events[0].1) && NeverEarly(Step(s, events[0].0, events[0].1), events[1..]))
  }

  /** No failure is noted while the loop pauses. */
  predicate NoFailureInPause(s: State, events: seq<(Event, int)>)
    decreases events
  {
    events == [] ||
    (!(events[0].0.NoteFailure? && s.loop.Pausing?) && NoFailureInPause(Step(s, events[0].0, events[0].1), events[1..]))
  }

  /** A pause lasts at least as long as the cooldown. */
  predicate Heeds(s: State) {
    s.loop.Pausing? ==> s.cooldownUntil <= s.loop.until
  }

  lemma {:induction false} HeededRun(s: State, events: seq<(Event, int)>)
    requires Heeds(s) && NoFailureInPause(s, events)
    ensures NeverEarly(s, events)
    decreases events
  {
    if events != [] {
      HeededRun(Step(s, events[0].0, events[0].1), events[1..]);
    }
  }

  /** As long as failures are noted only outside of pauses, no start ever falls into a cooldown. */
  lemma NoEarlyStart(events: seq<(Event, int)>)
    requires NoFailureInPause(START, events)
    ensures NeverEarly(START, events)
  {
    HeededRun(START, events);
  }

  /** What is remembered was not noted in the future. */
  predicate Timely(s: State) {
    && s.lastStart <= s.clock && s.cooldownUntil <= s.clock + FAILURE_COOLDOWN_MS
    && (s.loop.Pausing? ==> s.queue != [] && s.loop.until <= s.clock + FAILURE_COOLDOWN_MS)
  }

  lemma {:induction false} TimelyRun(s: State, events: seq<(Event, int)>)
    requires Timely(s)
    ensures Timely(Steps(s, events))
    decreases events
  {
    if events != [] {
      TimelyRun(Step(s, events[0].0, events[0].1), events[1..]);
    }
  }

  /** In every reachable pause: it may end early exactly while the cooldown then in force goes on; and a
      failure noted during it makes its punctual end early, always but for one instant: when the cooldown
      would end with the pause anyway. */
  lemma OverrunExactly(events: seq<(Event, int)>, noted: int, now: int)
    requires var s := Steps(START, events); s.loop.Pausing? && s.clock <= noted <= s.loop.until
    ensures var s := Steps(START, events); now >= s.loop.until ==> (Early(s, PauseOver, now) <==> now < s.cooldownUntil)
    ensures var s := Steps(START, events);
      Early(Step(s, NoteFailure, noted), PauseOver, s.loop.until) <==> noted + 10_000 != s.loop.until
  {
    TimelyRun(START, events);
    hide Steps;
  }

  /** A failure noted during the pause does not lengthen it: the next start falls into the cooldown. */
  lemma CooldownCanBeOverrun()
    ensures var s := Steps(START, [(Enqueue(1), 5000), (TaskDone, 5100), (Enqueue(2), 5200), (NoteFailure, 5300), (PauseOver, 7500)]);
      s.starts == [Start(1, 5000), Start(2, 7500)] && s.cooldownUntil == 15300
  {
    var a := Step(START, Enqueue(1), 5000);
    var b := Step(a, TaskDone, 5100);
    var c := Step(b, Enqueue(2), 5200);
    var d := Step(c, NoteFailure, 5300);
    assert a.starts == [Start(1, 5000)] && c.loop == Pausing(7500);
    assert Step(d, PauseOver, 7500).starts == [Start(1, 5000), Start(2, 7500)];
    var rest := [(PauseOver, 7500)];
    assert Steps(d, rest) == Step(d, PauseOver, 7500);
    assert Steps(c, [(NoteFailure, 5300)] + rest) == Steps(d, rest);
    assert Steps(b, [(Enqueue(2), 5200), (NoteFailure, 5300)] + rest) == Steps(c, [(NoteFailure, 5300)] + rest);
  }
}

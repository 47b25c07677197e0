/** A ward's command executor: any number of threads hand commands in, one worker carries them out.
    Each step below is one stretch of a thread that no other thread can cut into. */
module CommandQueue {
  import opened Acknowledgements

  type Id = int

  const AUTHORITY_WINDOW_MS := 5000
  const UINT64_VALUES := 0x1_0000_0000_0000_0000

  type Word64 = x: int | 0 <= x < UINT64_VALUES

  datatype Action = NotSet | Arm | Disarm | Takeoff | Land | Rtl | Goto | StartMission | PauseMission | SetHome

  datatype Command = Command(id: Id, action: Action, timestamp: int)

  datatype Status = Accepted | Success | Rejected

  /** Idle: between commands. Taken: off the queue. Acting: the vehicle has been asked. Draining: the
      worker holds the lock and refuses what is left, this many already. */
  datatype Worker = Idle | Taken(command: Command) | Acting(command: Command) | Draining(refused: int) | Gone

  /** A command let through to the vehicle, and the gateway's clock when it was. */
  datatype Deed = Deed(command: Command, now: int)

  /** entering: acknowledged, but its thread has yet to put it on the queue.
      pushed, acks, deeds: everything that has happened, in order. */
  datatype State = State(
    queue: seq<Command>,
    entering: map<Id, Command>,
    worker: Worker,
    stopping: bool,
    seen: set<Id>,
    pushed: seq<Command>,
    acks: seq<Ack<Status>>,
    deeds: seq<Deed>)

  const START := State([], map[], Idle, false, {}, [], [], [])

  predicate Gated(action: Action) {
    action == Arm || action == Disarm || action == Takeoff || action == Land || action == Rtl
  }

  /** Subtraction of 64-bit unsigned integers. */
  function Minus64(a: Word64, b: Word64): Word64 {
    (a - b) % UINT64_VALUES
  }

  function Drift(now: Word64, timestamp: Word64): Word64 {
    if now > timestamp then Minus64(now, timestamp) else Minus64(timestamp, now)
  }

  datatype Event =
    | HandIn(command: Command)
    | Push(id: Id)
    | RequestStop
    | Take
    | Dispatch(now: Word64)
    | Answer(success: bool)
    | StartDraining
    | RefuseNext
    | StopDraining

  function Acked(s: State, id: Id, status: Status): State {
    s.(acks := s.acks + [Ack(id, status)])
  }

  predicate Stale(command: Command, now: Word64) {
    Gated(command.action) && 0 <= command.timestamp < UINT64_VALUES && Drift(now, command.timestamp) > AUTHORITY_WINDOW_MS
  }

  /** An event that the threads cannot take now changes nothing. Command ids are the console's, and new. */
  function Step(s: State, e: Event): State {
    match e
    case HandIn(c) =>
      if c.id in s.seen || !(0 <= c.timestamp < UINT64_VALUES) then s
      else
        var t := s.(seen := s.seen + {c.id});
        if c.action == NotSet then Acked(t, c.id, Rejected)
        else Acked(t.(entering := t.entering[c.id := c]), c.id, Accepted)
    case Push(id) =>
      if id in s.entering && !s.worker.Draining? then
        var c := s.entering[id];
        s.(entering := s.entering - {id}, queue := s.queue + [c], pushed := s.pushed + [c])
      else s
    case RequestStop => s.(stopping := true)
    case Take =>
      if s.worker.Idle? && s.queue != [] && !s.stopping then s.(worker := Taken(s.queue[0]), queue := s.queue[1..]) else s
    case Dispatch(now) =>
      if !s.worker.Taken? then s
      else if Stale(s.worker.command, now) then Acked(s.(worker := Idle), s.worker.command.id, Rejected)
      else s.(worker := Acting(s.worker.command), deeds := s.deeds + [Deed(s.worker.command, now)])
    case Answer(success) =>
      if s.worker.Acting? then Acked(s.(worker := Idle), s.worker.command.id, if success then Success else Rejected) else s
    case StartDraining =>
      if s.worker.Idle? && s.stopping then s.(worker := Draining(0)) else s
    case RefuseNext =>
      if s.worker.Draining? && 0 <= s.worker.refused < |s.queue| then
        Acked(s.(worker := Draining(s.worker.refused + 1)), s.queue[s.worker.refused].id, Rejected)
      else s
    case StopDraining =>
      if s.worker.Draining? && s.worker.refused == |s.queue| then s.(worker := Gone, queue := []) else s
  }

  function Steps(s: State, events: seq<Event>): State
    decreases events
  {
    if events == [] then s else Steps(Step(s, events[0]), events[1..])
  }

  class CommandExecutor {
    var queue: seq<Command>
    var entering: map<Id, Command>
    var worker: Worker
    var stopping: bool
    var acks: seq<Ack<Status>>
    ghost var seen: set<Id>
    ghost var pushed: seq<Command>
    ghost var deeds: seq<Deed>

    ghost function View(): State
      reads this
    {
      State(queue, entering, worker, stopping, seen, pushed, acks, deeds)
    }

    constructor ()
      ensures View() == START
    {
      queue, entering, worker, stopping, acks := [], map[], Idle, false, [];
      seen, pushed, deeds := {}, [], [];
    }

    /** The calling thread, up to where it asks for the lock. */
    method Enqueue(command: Command)
      requires command.id !in seen && 0 <= command.timestamp < UINT64_VALUES
      modifies this
      ensures View() == Step(old(View()), HandIn(command))
    {
      seen := seen + {command.id};
      if command.action == NotSet {
        acks := acks + [Ack(command.id, Rejected)];
        return;
      }
      acks := acks + [Ack(command.id, Accepted)];
      entering := entering[command.id := command];
    }

    /** The calling thread, with the lock. */
    method PushBack(id: Id)
      requires id in entering && !worker.Draining?
      modifies this
      ensures View() == Step(old(View()), Push(id))
    {
      queue := queue + [entering[id]];
      pushed := pushed + [entering[id]];
      entering := entering - {id};
    }

    method Stop()
      modifies this
      ensures View() == Step(old(View()), RequestStop)
    {
      stopping := true;
    }

    /** The worker, woken with the lock: takes the next command, or starts refusing. */
    method WakeUp() returns (took: bool)
      requires worker.Idle? && (stopping || queue != [])
      modifies this
      ensures View() == Step(old(View()), if took then Take else StartDraining)
      ensures took == !stopping
    {
      if stopping {
        worker := Draining(0);
        return false;
      }
      worker := Taken(queue[0]);
      queue := queue[1..];
      return true;
    }

    method CheckAuthority(now: Word64)
      requires worker.Taken? && 0 <= worker.command.timestamp < UINT64_VALUES
      modifies this
      ensures View() == Step(old(View()), Dispatch(now))
    {
      var command := worker.command;
      if Gated(command.action) {
        var timestamp := command.timestamp;
        var drift := if now > timestamp then Minus64(now, timestamp) else Minus64(timestamp, now);
        if drift > AUTHORITY_WINDOW_MS {
          worker := Idle;
          acks := acks + [Ack(command.id, Rejected)];
          return;
        }
      }
      worker := Acting(command);
      deeds := deeds + [Deed(command, now)];
    }

    method Report(success: bool)
      requires worker.Acting?
      modifies this
      ensures View() == Step(old(View()), Answer(success))
    {
      acks := acks + [Ack(worker.command.id, if success then Success else Rejected)];
      worker := Idle;
    }

    method RefuseOne()
      requires worker.Draining? && 0 <= worker.refused < |queue|
      modifies this
      ensures View() == Step(old(View()), RefuseNext)
    {
      acks := acks + [Ack(queue[worker.refused].id, Rejected)];
      worker := Draining(worker.refused + 1);
    }

    method Leave()
      requires worker.Draining? && worker.refused == |queue|
      modifies this
      ensures View() == Step(old(View()), StopDraining)
    {
      queue := [];
      worker := Gone;
    }
  }
}

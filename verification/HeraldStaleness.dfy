/** Trackers that only ever post messages: announced once each, taken to be gone after a silence, and
    flagged when their samples go back in time. Any number of threads bring messages in; one checks. Each
    step below is one stretch that no other thread can cut into. */
module HeraldStaleness {
  import opened Options

  type Id = int
  type Thread = int

  datatype Sample = Sample(ward: Id, timestamp: int, received: int)

  /** A message on its way in: whether its thread still has to announce the ward. */
  datatype Arrival = Arrival(sample: Sample, first: bool)

  datatype LastSeen = LastSeen(timestamp: int, connected: bool, at: int, markedStale: bool)

  datatype Record = Record(sample: Sample, at: int)

  /** before: how many messages had been taken in by then. */
  datatype Mark = Mark(ward: Id, at: int, before: int)

  datatype Out =
    | WardInfo(ward: Id)
    | WardState(ward: Id, connected: bool)
    | OutOfOrder(record: int)
    | ClockSkew(record: int)

  /** arriving: messages before they are taken in. publishing: those taken in, but not yet sent on.
      due: wards found silent, not yet sent on. records, marks, sent: everything so far, in order. */
  datatype State = State(
    timeout: int,
    clock: int,
    known: set<Id>,
    lastSeen: map<Id, LastSeen>,
    arriving: map<Thread, Arrival>,
    publishing: set<int>,
    flagged: set<int>,
    due: seq<Id>,
    records: seq<Record>,
    marks: seq<Mark>,
    sent: seq<Out>)

  function Start(timeout: int): State {
    State(timeout, 0, {}, map[], map[], {}, {}, [], [], [], [])
  }

  datatype Event =
    | Arrive(thread: Thread, sample: Sample)
    | Announce(thread: Thread)
    | TakeIn(thread: Thread, now: int)
    | Publish(record: int)
    | MarkIfSilent(ward: Id, now: int)
    | SendNextDue

  /** An event that cannot happen now changes nothing; the steady clock never goes back. */
  function Step(s: State, e: Event): State {
    match e
    case Arrive(thread, sample) =>
      if thread in s.arriving then s
      else
        s.(arriving := s.arriving[thread := Arrival(sample, sample.ward !in s.known)],
           known := s.known + {sample.ward})
    case Announce(thread) =>
      if thread in s.arriving && s.arriving[thread].first then
        s.(arriving := s.arriving[thread := s.arriving[thread].(first := false)],
           sent := s.sent + [WardInfo(s.arriving[thread].sample.ward)])
      else s
    case TakeIn(thread, now) =>
      if thread !in s.arriving || s.arriving[thread].first || now < s.clock then s
      else
        var sample := s.arriving[thread].sample;
        var late := sample.ward in s.lastSeen && sample.timestamp < s.lastSeen[sample.ward].timestamp;
        s.(clock := now,
           arriving := s.arriving - {thread},
           lastSeen := s.lastSeen[sample.ward := LastSeen(sample.timestamp, true, now, false)],
           publishing := s.publishing + {|s.records|},
           flagged := if late then s.flagged + {|s.records|} else s.flagged,
           records := s.records + [Record(sample, now)])
    case Publish(k) =>
      if k !in s.publishing || !(0 <= k < |s.records|) then s
      else
        var sample := s.records[k].sample;
        s.(publishing := s.publishing - {k},
           sent := s.sent
                   + (if k in s.flagged then [OutOfOrder(k)] else [])
                   + (if sample.timestamp > sample.received then [ClockSkew(k)] else [])
                   + [WardState(sample.ward, true)])
    case MarkIfSilent(w, now) =>
      if w !in s.lastSeen || now < s.clock then s
      else if s.lastSeen[w].markedStale || now - s.lastSeen[w].at < s.timeout then s.(clock := now)
      else
        s.(clock := now,
           lastSeen := s.lastSeen[w := s.lastSeen[w].(markedStale := true, connected := false)],
           due := s.due + [w],
           marks := s.marks + [Mark(w, now, |s.records|)])
    case SendNextDue =>
      if s.due == [] then s
      else
        var w := s.due[0];
        s.(due := s.due[1..],
           sent := if w in s.lastSeen && s.lastSeen[w].markedStale then s.sent + [WardState(w, false)] else s.sent)
  }

  function Steps(s: State, events: seq<Event>): State
    decreases events
  {
    if events == [] then s else Steps(Step(s, events[0]), events[1..])
  }

  function Marks(wards: seq<Id>, now: int): (events: seq<Event>)
    ensures |events| == |wards|
  {
    seq(|wards|, i requires 0 <= i < |wards| => MarkIfSilent(wards[i], now))
  }

  class HeraldWardManager {
    const staleTimeout: int
    var knownWards: set<Id>
    var lastSeen: map<Id, LastSeen>
    var due: seq<Id>
    var sent: seq<Out>
    ghost var clock: int
    ghost var arriving: map<Thread, Arrival>
    ghost var publishing: set<int>
    ghost var flagged: set<int>
    ghost var records: seq<Record>
    ghost var marks: seq<Mark>

    ghost function View(): State
      reads this
    {
      State(staleTimeout, clock, knownWards, lastSeen, arriving, publishing, flagged, due, records, marks, sent)
    }

    constructor (timeout: int)
      ensures View() == Start(timeout)
    {
      staleTimeout := timeout;
      knownWards, lastSeen, due, sent := {}, map[], [], [];
      clock, arriving, publishing, flagged, records, marks := 0, map[], {}, {}, [], [];
    }

    /** Ingest, first stretch with the lock. */
    method FirstSight(thread: Thread, sample: Sample) returns (first: bool)
      requires thread !in arriving
      modifies this
      ensures View() == Step(old(View()), Arrive(thread, sample))
      ensures first == (sample.ward !in old(knownWards))
    {
      first := sample.ward !in knownWards;
      arriving := arriving[thread := Arrival(sample, first)];
      knownWards := knownWards + {sample.ward};
    }

    method AnnounceWard(thread: Thread, ward: Id)
      requires thread in arriving && arriving[thread].first && arriving[thread].sample.ward == ward
      modifies this
      ensures View() == Step(old(View()), Announce(thread))
    {
      sent := sent + [WardInfo(ward)];
      arriving := arriving[thread := arriving[thread].(first := false)];
    }

    /** Ingest, second stretch with the lock: previous is the time of the sample this one replaces. */
    method Remember(thread: Thread, sample: Sample, now: int) returns (previous: Option<int>)
      requires thread in arriving && arriving[thread] == Arrival(sample, false) && now >= clock
      modifies this
      ensures View() == Step(old(View()), TakeIn(thread, now))
      ensures previous == if sample.ward in old(lastSeen) then Some(old(lastSeen)[sample.ward].timestamp) else None
    {
      previous := None;
      if sample.ward in lastSeen {
        previous := Some(lastSeen[sample.ward].timestamp);
      }
      lastSeen := lastSeen[sample.ward := LastSeen(sample.timestamp, true, now, false)];
      if previous.Some? && sample.timestamp < previous.value {
        flagged := flagged + {|records|};
      }
      clock, arriving, publishing := now, arriving - {thread}, publishing + {|records|};
      records := records + [Record(sample, now)];
    }

    /** Ingest, last stretch. */
    method SendOn(k: int, sample: Sample, previous: Option<int>)
      requires k in publishing && 0 <= k < |records| && records[k].sample == sample
      requires k in flagged <==> previous.Some? && sample.timestamp < previous.value
      modifies this
      ensures View() == Step(old(View()), Publish(k))
    {
      ghost var before := sent;
      if previous.Some? && sample.timestamp < previous.value {
        sent := sent + [OutOfOrder(k)];
      }
      if sample.timestamp > sample.received {
        sent := sent + [ClockSkew(k)];
      }
      sent := sent + [WardState(sample.ward, true)];
      publishing := publishing - {k};
    }

    /** The checker's sweep, with the lock: wards lists what has ever been heard of. */
    method Sweep(wards: seq<Id>, now: int)
      requires now >= clock && forall i :: 0 <= i < |wards| ==> wards[i] in lastSeen
      modifies this
      ensures View() == Steps(old(View()), Marks(wards, now))
    {
      ghost var events := Marks(wards, now);
      for i := 0 to |wards|
        invariant clock <= now
        invariant forall j :: 0 <= j < |wards| ==> wards[j] in lastSeen
        invariant Steps(View(), events[i..]) == Steps(old(View()), events)
      {
        var w := wards[i];
        assert events[i..][0] == MarkIfSilent(w, now) && events[i..][1..] == events[i + 1..];
        clock := now;
        if !lastSeen[w].markedStale && now - lastSeen[w].at >= staleTimeout {
          lastSeen := lastSeen[w := lastSeen[w].(markedStale := true, connected := false)];
          due := due + [w];
          marks := marks + [Mark(w, now, |records|)];
        }
      }
      assert events[|wards|..] == [];
    }

    /** The checker, for one ward of its sweep: looks again before it sends. */
    method SendDue()
      requires due != []
      modifies this
      ensures View() == Step(old(View()), SendNextDue)
    {
      var w := due[0];
      due := due[1..];
      if w !in lastSeen || !lastSeen[w].markedStale {
        return;
      }
      sent := sent + [WardState(w, false)];
    }
  }
}

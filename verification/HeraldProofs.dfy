/** What every interleaving of the threads keeps. */
module HeraldProofs {
  import opened Options
  import opened HeraldStaleness

  // ----- Over every run -----

  /** The last of these messages that came from a ward. */
  function Latest(records: seq<Record>, w: Id): Option<Record> {
    if records == [] then None
    else if records[|records| - 1].sample.ward == w then Some(records[|records| - 1])
    else Latest(records[..|records| - 1], w)
  }

  lemma LatestPlus(records: seq<Record>, r: Record)
    ensures forall w :: Latest(records + [r], w) == if r.sample.ward == w then Some(r) else Latest(records, w)
  {
    assert (records + [r])[..|records|] == records;
  }

  lemma {:induction false} LatestIsLast(records: seq<Record>, w: Id, k: nat)
    requires k < |records| && records[k].sample.ward == w
    requires forall i, j :: 0 <= i <= j < |records| ==> records[i].at <= records[j].at
    ensures Latest(records, w).Some? && records[k].at <= Latest(records, w).value.at
  {
    var n := |records| - 1;
    if records[n].sample.ward != w {
      LatestIsLast(records[..n], w, k);
    }
  }

  /** A message whose time is before that of the ward's message before it. */
  predicate Descends(records: seq<Record>, k: nat)
    requires k < |records|
  {
    var previous := Latest(records[..k], records[k].sample.ward);
    previous.Some? && records[k].sample.timestamp < previous.value.sample.timestamp
  }

  /** What is stored for a ward is its latest message, and it is marked exactly if stored as gone. */
  ghost predicate SeenOk(lastSeen: map<Id, LastSeen>, records: seq<Record>) {
    forall w ::
      var latest := Latest(records, w);
      && (w in lastSeen <==> latest.Some?)
      && (w in lastSeen ==>
            && lastSeen[w].timestamp == latest.value.sample.timestamp
            && lastSeen[w].at == latest.value.at
            && lastSeen[w].markedStale == !lastSeen[w].connected)
  }

  ghost predicate ClockOk(records: seq<Record>, clock: int) {
    && (forall i, j :: 0 <= i <= j < |records| ==> records[i].at <= records[j].at)
    && (forall i :: 0 <= i < |records| ==> records[i].at <= clock)
  }

  predicate HeardSince(records: seq<Record>, w: Id, from: int) {
    exists k :: from <= k < |records| && 0 <= k && records[k].sample.ward == w
  }

  predicate HeardBetween(records: seq<Record>, w: Id, from: int, to: int) {
    exists k :: from <= k < to && 0 <= k < |records| && records[k].sample.ward == w
  }

  /** A mark comes after a silence of at least the timeout. */
  predicate Silent(records: seq<Record>, m: Mark, timeout: int) {
    forall k :: 0 <= k < m.before && k < |records| && records[k].sample.ward == m.ward ==> m.at - records[k].at >= timeout
  }

  ghost predicate MarksOk(marks: seq<Mark>, records: seq<Record>, lastSeen: map<Id, LastSeen>, timeout: int) {
    && (forall i :: 0 <= i < |marks| ==> marks[i].before <= |records| && marks[i].ward in lastSeen)
    && (forall i :: 0 <= i < |marks| ==> Silent(records, marks[i], timeout))
    && (forall i, j :: 0 <= i < j < |marks| && marks[i].ward == marks[j].ward ==>
          HeardBetween(records, marks[i].ward, marks[i].before, marks[j].before))
    && (forall i :: 0 <= i < |marks| && !lastSeen[marks[i].ward].markedStale ==>
          HeardSince(records, marks[i].ward, marks[i].before))
  }

  predicate RecordFlag(flagged: set<int>, records: seq<Record>, k: int) {
    k in flagged <==> 0 <= k < |records| && Descends(records, k)
  }

  /** Exactly the messages that go back in time are flagged. */
  ghost predicate FlagsOk(flagged: set<int>, publishing: set<int>, records: seq<Record>) {
    && (forall k :: RecordFlag(flagged, records, k))
    && (forall k :: k in publishing ==> 0 <= k < |records|)
  }

  function Count(sent: seq<Out>, out: Out): nat {
    if sent == [] then 0
    else Count(sent[..|sent| - 1], out) + if sent[|sent| - 1] == out then 1 else 0
  }

  lemma CountPlus(sent: seq<Out>, o: Out)
    ensures forall out :: Count(sent + [o], out) == Count(sent, out) + if o == out then 1 else 0
  {
    assert (sent + [o])[..|sent|] == sent;
  }

  /** Each flag is sent once, as soon as its message has been sent on. */
  ghost predicate FlagsSent(flagged: set<int>, publishing: set<int>, sent: seq<Out>) {
    forall k :: Count(sent, OutOfOrder(k)) == if k in flagged && k !in publishing then 1 else 0
  }

  predicate Owes(arriving: map<Thread, Arrival>, t: Thread, w: Id) {
    t in arriving && arriving[t].first && arriving[t].sample.ward == w
  }

  /** Each ward is announced once, by the thread that saw it first. */
  ghost predicate InfosSent(known: set<Id>, arriving: map<Thread, Arrival>, sent: seq<Out>) {
    && (forall t, u, w :: Owes(arriving, t, w) && Owes(arriving, u, w) ==> t == u)
    && (forall t, w :: Owes(arriving, t, w) ==> w in known && Count(sent, WardInfo(w)) == 0)
    && (forall w :: w !in known ==> Count(sent, WardInfo(w)) == 0)
    && (forall w :: w in known && !(exists t :: Owes(arriving, t, w)) ==> Count(sent, WardInfo(w)) == 1)
  }

  ghost predicate Inv(s: State) {
    && SeenOk(s.lastSeen, s.records)
    && ClockOk(s.records, s.clock)
    && MarksOk(s.marks, s.records, s.lastSeen, s.timeout)
    && FlagsOk(s.flagged, s.publishing, s.records)
    && FlagsSent(s.flagged, s.publishing, s.sent)
    && InfosSent(s.known, s.arriving, s.sent)
  }

  // ----- Announcements -----

  lemma ArriveInfos(s: State, t: Thread, sample: Sample)
    requires InfosSent(s.known, s.arriving, s.sent)
    ensures var u := Step(s, Arrive(t, sample)); InfosSent(u.known, u.arriving, u.sent)
  {
    var u := Step(s, Arrive(t, sample));
    if t !in s.arriving {
      assert forall x, w :: Owes(u.arriving, x, w) <==>
        Owes(s.arriving, x, w) || (x == t && w == sample.ward && sample.ward !in s.known);
      hide Count;
      forall w | w in u.known && !(exists x :: Owes(u.arriving, x, w)) ensures Count(u.sent, WardInfo(w)) == 1 {
        assert !Owes(u.arriving, t, w);
        assert forall x :: Owes(s.arriving, x, w) ==> Owes(u.arriving, x, w);
      }
    }
  }

  lemma AnnounceInfos(s: State, t: Thread)
    requires InfosSent(s.known, s.arriving, s.sent) && t in s.arriving && s.arriving[t].first
    ensures var u := Step(s, Announce(t)); InfosSent(u.known, u.arriving, u.sent)
  {
    hide InfosSent, Owes, Count;
    var u := Step(s, Announce(t));
    CountPlus(s.sent, WardInfo(s.arriving[t].sample.ward));
    OwesNoMore(s.arriving, t);
    OneAnnounced(s.known, s.arriving, u.arriving, s.sent, u.sent, t, s.arriving[t].sample.ward);
  }

  lemma OwesNoMore(arriving: map<Thread, Arrival>, t: Thread)
    requires t in arriving && arriving[t].first
    ensures forall v :: Owes(arriving, t, v) <==> v == arriving[t].sample.ward
    ensures forall x, v :: Owes(arriving[t := arriving[t].(first := false)], x, v) <==> Owes(arriving, x, v) && x != t
  {
  }

  lemma OneAnnounced(known: set<Id>, arriving: map<Thread, Arrival>, later: map<Thread, Arrival>,
                     sent: seq<Out>, more: seq<Out>, t: Thread, w: Id)
    requires InfosSent(known, arriving, sent)
    requires Owes(arriving, t, w) && forall v :: Owes(arriving, t, v) ==> v == w
    requires forall x, v :: Owes(later, x, v) <==> Owes(arriving, x, v) && x != t
    requires forall v :: Count(more, WardInfo(v)) == Count(sent, WardInfo(v)) + if v == w then 1 else 0
    ensures InfosSent(known, later, more)
  {
    hide Count, Owes;
    forall v | v in known && !(exists x :: Owes(later, x, v)) ensures Count(more, WardInfo(v)) == 1 {
      if v != w {
        assert forall x :: Owes(arriving, x, v) ==> x != t && Owes(later, x, v);
      }
    }
  }

  lemma OtherInfos(known: set<Id>, arriving: map<Thread, Arrival>, later: map<Thread, Arrival>, sent: seq<Out>, more: seq<Out>)
    requires InfosSent(known, arriving, sent)
    requires forall t, w :: Owes(arriving, t, w) <==> Owes(later, t, w)
    requires forall w :: Count(more, WardInfo(w)) == Count(sent, WardInfo(w))
    ensures InfosSent(known, later, more)
  {
    hide Count, Owes;
  }

  // ----- Taking a message in -----

  lemma {:induction false} LatestOfPrefix(records: seq<Record>, r: Record, k: nat)
    requires k < |records|
    ensures Descends(records + [r], k) == Descends(records, k)
  {
    assert (records + [r])[..k] == records[..k];
  }

  lemma TakeInSeen(s: State, sample: Sample, now: int)
    requires SeenOk(s.lastSeen, s.records)
    ensures SeenOk(s.lastSeen[sample.ward := LastSeen(sample.timestamp, true, now, false)], s.records + [Record(sample, now)])
  {
    LatestPlus(s.records, Record(sample, now));
    hide Latest;
  }

  lemma TakeInFlags(s: State, t: Thread, now: int)
    requires SeenOk(s.lastSeen, s.records) && FlagsOk(s.flagged, s.publishing, s.records) && FlagsSent(s.flagged, s.publishing, s.sent)
    requires t in s.arriving && !s.arriving[t].first && now >= s.clock
    ensures var u := Step(s, TakeIn(t, now)); FlagsOk(u.flagged, u.publishing, u.records) && FlagsSent(u.flagged, u.publishing, u.sent)
  {
    var u := Step(s, TakeIn(t, now));
    var sample := s.arriving[t].sample;
    var n := |s.records|;
    assert u.records[..n] == s.records;
    assert Descends(u.records, n) <==> sample.ward in s.lastSeen && sample.timestamp < s.lastSeen[sample.ward].timestamp by {
      hide Latest;
    }
    hide Latest, Count, SeenOk;
    forall k ensures RecordFlag(u.flagged, u.records, k) {
      assert RecordFlag(s.flagged, s.records, k);
      if 0 <= k < n {
        LatestOfPrefix(s.records, u.records[n], k);
      }
    }
    hide Descends;
    forall k ensures Count(u.sent, OutOfOrder(k)) == if k in u.flagged && k !in u.publishing then 1 else 0 {
      assert RecordFlag(s.flagged, s.records, k);
    }
  }

  lemma TakeInMarks(s: State, t: Thread, now: int)
    requires MarksOk(s.marks, s.records, s.lastSeen, s.timeout)
    requires t in s.arriving && !s.arriving[t].first && now >= s.clock
    ensures var u := Step(s, TakeIn(t, now)); MarksOk(u.marks, u.records, u.lastSeen, u.timeout)
  {
    var u := Step(s, TakeIn(t, now));
    var n := |s.records|;
    forall i | 0 <= i < |u.marks| ensures Silent(u.records, u.marks[i], u.timeout) {
      assert Silent(s.records, s.marks[i], s.timeout);
    }
    forall i, j | 0 <= i < j < |u.marks| && u.marks[i].ward == u.marks[j].ward
      ensures HeardBetween(u.records, u.marks[i].ward, u.marks[i].before, u.marks[j].before)
    {
      var k :| s.marks[i].before <= k < s.marks[j].before && 0 <= k < n && s.records[k].sample.ward == s.marks[i].ward;
      assert u.records[k].sample.ward == s.marks[i].ward;
    }
    forall i | 0 <= i < |u.marks| && !u.lastSeen[u.marks[i].ward].markedStale
      ensures HeardSince(u.records, u.marks[i].ward, u.marks[i].before)
    {
      if u.marks[i].ward == s.arriving[t].sample.ward {
        assert u.records[n].sample.ward == u.marks[i].ward;
      } else {
        var k :| s.marks[i].before <= k < n && 0 <= k && s.records[k].sample.ward == s.marks[i].ward;
        assert u.records[k].sample.ward == s.marks[i].ward;
      }
    }
  }

  // ----- Marking -----

  lemma MarkMarks(s: State, w: Id, now: int)
    requires Inv(s) && w in s.lastSeen && now >= s.clock && !s.lastSeen[w].markedStale && now - s.lastSeen[w].at >= s.timeout
    ensures var u := Step(s, MarkIfSilent(w, now)); MarksOk(u.marks, u.records, u.lastSeen, u.timeout)
  {
    var u := Step(s, MarkIfSilent(w, now));
    var m := Mark(w, now, |s.records|);
    forall k | 0 <= k < |s.records| && s.records[k].sample.ward == w ensures now - s.records[k].at >= s.timeout {
      LatestIsLast(s.records, w, k);
    }
    assert Silent(s.records, m, s.timeout);
    hide Silent, Latest, FlagsOk, FlagsSent, InfosSent;
    forall i | 0 <= i < |s.marks| && s.marks[i].ward == w
      ensures HeardBetween(s.records, w, s.marks[i].before, |s.records|)
    {
      var k :| s.marks[i].before <= k < |s.records| && 0 <= k && s.records[k].sample.ward == w;
      assert s.records[k].sample.ward == w;
    }
    hide HeardBetween, HeardSince;
  }

  // ----- Steps -----

  lemma ArriveKeeps(s: State, t: Thread, sample: Sample)
    requires Inv(s)
    ensures Inv(Step(s, Arrive(t, sample)))
  {
    ArriveInfos(s, t, sample);
    hide SeenOk, ClockOk, MarksOk, FlagsOk, Count, InfosSent;
  }

  lemma AnnounceKeeps(s: State, t: Thread)
    requires Inv(s) && t in s.arriving && s.arriving[t].first
    ensures Inv(Step(s, Announce(t)))
  {
    AnnounceInfos(s, t);
    CountPlus(s.sent, WardInfo(s.arriving[t].sample.ward));
    hide SeenOk, ClockOk, MarksOk, FlagsOk, Count, InfosSent;
  }

  lemma TakeInKeeps(s: State, t: Thread, now: int)
    requires Inv(s) && t in s.arriving && !s.arriving[t].first && now >= s.clock
    ensures Inv(Step(s, TakeIn(t, now)))
  {
    var u := Step(s, TakeIn(t, now));
    TakeInSeen(s, s.arriving[t].sample, now);
    TakeInFlags(s, t, now);
    TakeInMarks(s, t, now);
    OtherInfos(s.known, s.arriving, u.arriving, s.sent, u.sent);
    hide SeenOk, MarksOk, FlagsOk, FlagsSent, Count, InfosSent;
  }

  lemma PublishCounts(sent: seq<Out>, k: int, late: bool, skewed: bool, w: Id)
    ensures var more := sent + (if late then [OutOfOrder(k)] else []) + (if skewed then [ClockSkew(k)] else []) + [WardState(w, true)];
      && (forall v :: Count(more, WardInfo(v)) == Count(sent, WardInfo(v)))
      && (forall j :: Count(more, OutOfOrder(j)) == Count(sent, OutOfOrder(j)) + if j == k && late then 1 else 0)
  {
    var a := sent + if late then [OutOfOrder(k)] else [];
    var b := a + if skewed then [ClockSkew(k)] else [];
    CountPlus(sent, OutOfOrder(k));
    CountPlus(a, ClockSkew(k));
    CountPlus(b, WardState(w, true));
    assert !late ==> a == sent;
    assert !skewed ==> b == a;
    hide Count;
  }

  lemma PublishFlags(flagged: set<int>, publishing: set<int>, records: seq<Record>, sent: seq<Out>, k: int, more: seq<Out>)
    requires FlagsOk(flagged, publishing, records) && FlagsSent(flagged, publishing, sent) && k in publishing
    requires forall j :: Count(more, OutOfOrder(j)) == Count(sent, OutOfOrder(j)) + if j == k && k in flagged then 1 else 0
    ensures FlagsOk(flagged, publishing - {k}, records) && FlagsSent(flagged, publishing - {k}, more)
  {
    hide Count, RecordFlag;
  }

  lemma PublishKeeps(s: State, k: int)
    requires Inv(s) && k in s.publishing && 0 <= k < |s.records|
    ensures Inv(Step(s, Publish(k)))
  {
    hide Count, SeenOk, ClockOk, MarksOk, FlagsOk, FlagsSent, InfosSent, Owes;
    var u := Step(s, Publish(k));
    var sample := s.records[k].sample;
    PublishCounts(s.sent, k, k in s.flagged, sample.timestamp > sample.received, sample.ward);
    OtherInfos(s.known, s.arriving, u.arriving, s.sent, u.sent);
    PublishFlags(s.flagged, s.publishing, s.records, s.sent, k, u.sent);
  }

  lemma MarkKeeps(s: State, w: Id, now: int)
    requires Inv(s) && w in s.lastSeen && now >= s.clock
    ensures Inv(Step(s, MarkIfSilent(w, now)))
  {
    if !s.lastSeen[w].markedStale && now - s.lastSeen[w].at >= s.timeout {
      MarkMarks(s, w, now);
      hide MarksOk, FlagsOk, Count, InfosSent, Latest;
    } else {
      hide SeenOk, MarksOk, FlagsOk, FlagsSent, InfosSent;
    }
  }

  lemma SendDueKeeps(s: State)
    requires Inv(s) && s.due != []
    ensures Inv(Step(s, SendNextDue))
  {
    hide SeenOk, ClockOk, MarksOk, FlagsOk, InfosSent, Count, Owes;
    CountPlus(s.sent, WardState(s.due[0], false));
    var t := Step(s, SendNextDue);
    OtherInfos(s.known, s.arriving, t.arriving, s.sent, t.sent);
  }

  lemma StepKeeps(s: State, e: Event)
    requires Inv(s)
    ensures Inv(Step(s, e))
  {
    hide Inv;
    match e
    case Arrive(t, sample) => ArriveKeeps(s, t, sample);
    case Announce(t) =>
      if t in s.arriving && s.arriving[t].first {
        AnnounceKeeps(s, t);
      }
    case TakeIn(t, now) =>
      if t in s.arriving && !s.arriving[t].first && now >= s.clock {
        TakeInKeeps(s, t, now);
      }
    case Publish(k) =>
      if k in s.publishing && 0 <= k < |s.records| {
        PublishKeeps(s, k);
      }
    case MarkIfSilent(w, now) =>
      if w in s.lastSeen && now >= s.clock {
        MarkKeeps(s, w, now);
      }
    case SendNextDue =>
      if s.due != [] {
        SendDueKeeps(s);
      }
  }

  lemma {:induction false} StepsKeep(s: State, events: seq<Event>)
    requires Inv(s)
    ensures Inv(Steps(s, events))
    decreases events
  {
    hide Inv, Step;
    if events != [] {
      StepKeeps(s, events[0]);
      StepsKeep(Step(s, events[0]), events[1..]);
    }
  }

  /** The flag of a message has been sent once if it goes back in time and has been sent on, else never. */
  ghost predicate FlaggedOnce(t: State, k: int) {
    Count(t.sent, OutOfOrder(k)) == if 0 <= k < |t.records| && k !in t.publishing && Descends(t.records, k) then 1 else 0
  }

  /** However messages, announcements and sweeps interleave: a ward is marked exactly if it is stored as
      gone; a mark means a silence of at least the timeout, and the next one that it was heard in between;
      each ward is announced once; and a message is flagged exactly if it goes back in time, once. */
  lemma EveryRun(timeout: int, events: seq<Event>)
    ensures var t := Steps(Start(timeout), events);
      && (forall w :: w in t.lastSeen ==> t.lastSeen[w].markedStale == !t.lastSeen[w].connected)
      && (forall i :: 0 <= i < |t.marks| ==> Silent(t.records, t.marks[i], t.timeout))
      && (forall i, j :: 0 <= i < j < |t.marks| && t.marks[i].ward == t.marks[j].ward ==>
            HeardBetween(t.records, t.marks[i].ward, t.marks[i].before, t.marks[j].before))
      && (forall w :: Count(t.sent, WardInfo(w)) <= 1)
      && (forall w :: w in t.known && !(exists x :: Owes(t.arriving, x, w)) ==> Count(t.sent, WardInfo(w)) == 1)
      && (forall k :: FlaggedOnce(t, k))
  {
    assert Inv(Start(timeout));
    StepsKeep(Start(timeout), events);
    InvSays(Steps(Start(timeout), events));
  }

  lemma InvSays(t: State)
    requires Inv(t)
    ensures forall w :: w in t.lastSeen ==> t.lastSeen[w].markedStale == !t.lastSeen[w].connected
    ensures forall i :: 0 <= i < |t.marks| ==> Silent(t.records, t.marks[i], t.timeout)
    ensures forall i, j :: 0 <= i < j < |t.marks| && t.marks[i].ward == t.marks[j].ward ==>
      HeardBetween(t.records, t.marks[i].ward, t.marks[i].before, t.marks[j].before)
    ensures forall w :: Count(t.sent, WardInfo(w)) <= 1
    ensures forall w :: w in t.known && !(exists x :: Owes(t.arriving, x, w)) ==> Count(t.sent, WardInfo(w)) == 1
    ensures forall k :: FlaggedOnce(t, k)
  {
    hide Latest, Count, Silent, HeardBetween, HeardSince, Owes, Descends;
    forall k ensures FlaggedOnce(t, k) {
      assert RecordFlag(t.flagged, t.records, k);
    }
    forall w ensures Count(t.sent, WardInfo(w)) <= 1 {
      if x :| Owes(t.arriving, x, w) {
      }
    }
  }

  /** A sweep leaves no ward unmarked that has been silent for the timeout. */
  lemma {:induction false} SweepMarksAll(s: State, wards: seq<Id>, now: int)
    requires now >= s.clock
    ensures var t := Steps(s, Marks(wards, now));
      && t.timeout == s.timeout && t.lastSeen.Keys == s.lastSeen.Keys
      && (forall w :: w in s.lastSeen && s.lastSeen[w].markedStale ==> t.lastSeen[w].markedStale)
      && (forall w :: w in s.lastSeen ==> t.lastSeen[w].at == s.lastSeen[w].at)
      && (forall w :: w in s.lastSeen && w in wards && now - s.lastSeen[w].at >= s.timeout ==> t.lastSeen[w].markedStale)
    decreases wards
  {
    if wards != [] {
      var events := Marks(wards, now);
      assert events[1..] == Marks(wards[1..], now);
      SweepMarksAll(Step(s, events[0]), wards[1..], now);
    }
  }
}

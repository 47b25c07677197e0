/** The states and warnings sent on for messages: which, how many of each, and when. */
module HeraldStates {
  import opened HeraldStaleness
  import opened HeraldProofs

  /** How many of a ward's first n messages have been sent on. */
  function SentOn(records: seq<Record>, publishing: set<int>, w: Id, n: nat): nat
    requires n <= |records|
  {
    if n == 0 then 0
    else SentOn(records, publishing, w, n - 1) + if records[n - 1].sample.ward == w && n - 1 !in publishing then 1 else 0
  }

  function MarksOf(marks: seq<Mark>, w: Id): nat {
    if marks == [] then 0
    else MarksOf(marks[..|marks| - 1], w) + if marks[|marks| - 1].ward == w then 1 else 0
  }

  function DueOf(due: seq<Id>, w: Id): nat {
    if due == [] then 0 else (if due[0] == w then 1 else 0) + DueOf(due[1..], w)
  }

  predicate Skewed(records: seq<Record>, k: int) {
    0 <= k < |records| && records[k].sample.timestamp > records[k].sample.received
  }

  ghost predicate Below(publishing: set<int>, records: seq<Record>) {
    forall k :: k in publishing ==> 0 <= k < |records|
  }

  ghost predicate StatesOk(sent: seq<Out>, records: seq<Record>, publishing: set<int>) {
    forall w :: Count(sent, WardState(w, true)) == SentOn(records, publishing, w, |records|)
  }

  ghost predicate SkewsOk(sent: seq<Out>, records: seq<Record>, publishing: set<int>) {
    forall k :: Count(sent, ClockSkew(k)) == if Skewed(records, k) && k !in publishing then 1 else 0
  }

  ghost predicate GoneOk(sent: seq<Out>, due: seq<Id>, marks: seq<Mark>) {
    forall w :: Count(sent, WardState(w, false)) + DueOf(due, w) <= MarksOf(marks, w)
  }

  /** One state for each message sent on; a warning with those whose time is ahead of the gateway's; and a
      ward is sent as gone at most once for each time it was found silent. */
  ghost predicate Reported(s: State) {
    && Below(s.publishing, s.records)
    && StatesOk(s.sent, s.records, s.publishing)
    && SkewsOk(s.sent, s.records, s.publishing)
    && GoneOk(s.sent, s.due, s.marks)
  }

  lemma {:induction false} SentOnLess(records: seq<Record>, publishing: set<int>, w: Id, n: nat, k: int)
    requires n <= |records| && k in publishing && 0 <= k < |records|
    ensures SentOn(records, publishing - {k}, w, n)
         == SentOn(records, publishing, w, n) + if k < n && records[k].sample.ward == w then 1 else 0
  {
    if n > 0 {
      SentOnLess(records, publishing, w, n - 1, k);
    }
  }

  lemma {:induction false} SentOnMore(records: seq<Record>, publishing: set<int>, w: Id, n: nat, r: Record)
    requires n <= |records| && |records| !in publishing
    ensures SentOn(records + [r], publishing + {|records|}, w, n) == SentOn(records, publishing, w, n)
  {
    if n > 0 {
      SentOnMore(records, publishing, w, n - 1, r);
    }
  }

  lemma MarksPlus(marks: seq<Mark>, m: Mark)
    ensures forall w :: MarksOf(marks + [m], w) == MarksOf(marks, w) + if m.ward == w then 1 else 0
  {
    assert (marks + [m])[..|marks|] == marks;
  }

  lemma {:induction false} DuePlus(due: seq<Id>, v: Id, w: Id)
    ensures DueOf(due + [v], w) == DueOf(due, w) + if v == w then 1 else 0
    decreases due
  {
    if due == [] {
      assert due + [v] == [v];
    } else {
      assert (due + [v])[1..] == due[1..] + [v];
      DuePlus(due[1..], v, w);
    }
  }

  lemma PublishedCounts(sent: seq<Out>, k: int, late: bool, skewed: bool, w: Id)
    ensures var more := sent + (if late then [OutOfOrder(k)] else []) + (if skewed then [ClockSkew(k)] else []) + [WardState(w, true)];
      && (forall v, b :: Count(more, WardState(v, b)) == Count(sent, WardState(v, b)) + if v == w && b then 1 else 0)
      && (forall j :: Count(more, ClockSkew(j)) == Count(sent, ClockSkew(j)) + if j == k && skewed then 1 else 0)
  {
    var a := sent + if late then [OutOfOrder(k)] else [];
    var b := a + if skewed then [ClockSkew(k)] else [];
    CountPlus(sent, OutOfOrder(k));
    CountPlus(a, ClockSkew(k));
    CountPlus(b, WardState(w, true));
    assert !late ==> a == sent;
    assert !skewed ==> b == a;
    hide Count;
  }

  lemma PublishReports(s: State, k: int)
    requires Reported(s) && k in s.publishing
    ensures Reported(Step(s, Publish(k)))
  {
    hide Below, StatesOk, SkewsOk, GoneOk, Count;
    InBounds(s.publishing, s.records, k);
    var sample := s.records[k].sample;
    var t := Step(s, Publish(k));
    PublishedCounts(s.sent, k, k in s.flagged, sample.timestamp > sample.received, sample.ward);
    assert Skewed(s.records, k) <==> sample.timestamp > sample.received;
    hide Skewed;
    OneMoreState(s.sent, t.sent, s.records, s.publishing, k);
    OneMoreSkew(s.sent, t.sent, s.records, s.publishing, k);
    SameGone(s.sent, t.sent, s.due, s.marks);
  }

  lemma InBounds(publishing: set<int>, records: seq<Record>, k: int)
    requires Below(publishing, records) && k in publishing
    ensures 0 <= k < |records| && Below(publishing - {k}, records)
  {
  }

  lemma OneMoreState(sent: seq<Out>, more: seq<Out>, records: seq<Record>, publishing: set<int>, k: int)
    requires StatesOk(sent, records, publishing) && k in publishing && 0 <= k < |records|
    requires forall v :: Count(more, WardState(v, true)) == Count(sent, WardState(v, true)) + if v == records[k].sample.ward then 1 else 0
    ensures StatesOk(more, records, publishing - {k})
  {
    hide Count, SentOn;
    forall w ensures Count(more, WardState(w, true)) == SentOn(records, publishing - {k}, w, |records|) {
      SentOnLess(records, publishing, w, |records|, k);
    }
  }

  lemma OneMoreSkew(sent: seq<Out>, more: seq<Out>, records: seq<Record>, publishing: set<int>, k: int)
    requires SkewsOk(sent, records, publishing) && k in publishing
    requires forall j :: Count(more, ClockSkew(j)) == Count(sent, ClockSkew(j)) + if j == k && Skewed(records, k) then 1 else 0
    ensures SkewsOk(more, records, publishing - {k})
  {
    hide Count, Skewed;
  }

  lemma SameGone(sent: seq<Out>, more: seq<Out>, due: seq<Id>, marks: seq<Mark>)
    requires GoneOk(sent, due, marks)
    requires forall v :: Count(more, WardState(v, false)) == Count(sent, WardState(v, false))
    ensures GoneOk(more, due, marks)
  {
    hide Count, DueOf, MarksOf;
  }

  lemma SameRest(sent: seq<Out>, more: seq<Out>, records: seq<Record>, publishing: set<int>)
    requires StatesOk(sent, records, publishing) && SkewsOk(sent, records, publishing)
    requires forall v :: Count(more, WardState(v, true)) == Count(sent, WardState(v, true))
    requires forall j :: Count(more, ClockSkew(j)) == Count(sent, ClockSkew(j))
    ensures StatesOk(more, records, publishing) && SkewsOk(more, records, publishing)
  {
    hide Count, SentOn, Skewed;
  }

  lemma TakeInReports(s: State, t: Thread, now: int)
    requires Reported(s) && t in s.arriving && !s.arriving[t].first && now >= s.clock
    ensures Reported(Step(s, TakeIn(t, now)))
  {
    hide GoneOk;
    OneMoreRecord(s.sent, s.records, s.publishing, Record(s.arriving[t].sample, now));
    hide StatesOk, SkewsOk, Below;
  }

  lemma OneMoreRecord(sent: seq<Out>, records: seq<Record>, publishing: set<int>, r: Record)
    requires Below(publishing, records) && StatesOk(sent, records, publishing) && SkewsOk(sent, records, publishing)
    ensures var (n, later) := (|records|, records + [r]);
      && Below(publishing + {n}, later) && StatesOk(sent, later, publishing + {n}) && SkewsOk(sent, later, publishing + {n})
  {
    var (n, later) := (|records|, records + [r]);
    assert n !in publishing;
    hide Count;
    forall w ensures Count(sent, WardState(w, true)) == SentOn(later, publishing + {n}, w, n + 1) {
      SentOnMore(records, publishing, w, n, r);
    }
    hide SentOn;
    assert forall k :: 0 <= k < n ==> later[k] == records[k];
  }

  lemma MarkReports(s: State, w: Id, now: int)
    requires Reported(s)
    ensures Reported(Step(s, MarkIfSilent(w, now)))
  {
    hide StatesOk, SkewsOk, Below, Count;
    OneMoreMark(s.sent, s.due, s.marks, Mark(w, now, |s.records|));
    hide GoneOk;
  }

  lemma OneMoreMark(sent: seq<Out>, due: seq<Id>, marks: seq<Mark>, m: Mark)
    requires GoneOk(sent, due, marks)
    ensures GoneOk(sent, due + [m.ward], marks + [m])
  {
    MarksPlus(marks, m);
    hide Count, MarksOf;
    forall v ensures Count(sent, WardState(v, false)) + DueOf(due + [m.ward], v) <= MarksOf(marks + [m], v) {
      DuePlus(due, m.ward, v);
    }
  }

  lemma DueReports(s: State)
    requires Reported(s) && s.due != []
    ensures Reported(Step(s, SendNextDue))
  {
    hide StatesOk, SkewsOk, GoneOk, Below, Count;
    var t := Step(s, SendNextDue);
    CountPlus(s.sent, WardState(s.due[0], false));
    SameRest(s.sent, t.sent, s.records, s.publishing);
    OneDueLess(s.sent, t.sent, s.due, s.marks);
  }

  lemma OneDueLess(sent: seq<Out>, more: seq<Out>, due: seq<Id>, marks: seq<Mark>)
    requires GoneOk(sent, due, marks) && due != []
    requires forall v :: Count(more, WardState(v, false)) <= Count(sent, WardState(v, false)) + if v == due[0] then 1 else 0
    ensures GoneOk(more, due[1..], marks)
  {
    assert forall v :: DueOf(due, v) == (if due[0] == v then 1 else 0) + DueOf(due[1..], v);
    hide Count, DueOf, MarksOf;
  }

  lemma StepReports(s: State, e: Event)
    requires Reported(s)
    ensures Reported(Step(s, e))
  {
    hide Reported, Count;
    match e
    case Arrive(t, sample) => ArriveReports(s, t, sample);
    case Announce(t) => AnnounceReports(s, t);
    case TakeIn(t, now) =>
      if t in s.arriving && !s.arriving[t].first && now >= s.clock {
        TakeInReports(s, t, now);
      }
    case Publish(k) =>
      if k in s.publishing {
        PublishReports(s, k);
      }
    case MarkIfSilent(w, now) => MarkReports(s, w, now);
    case SendNextDue =>
      if s.due != [] {
        DueReports(s);
      }
  }

  lemma ArriveReports(s: State, t: Thread, sample: Sample)
    requires Reported(s)
    ensures Reported(Step(s, Arrive(t, sample)))
  {
    hide Below, StatesOk, SkewsOk, GoneOk;
  }

  lemma AnnounceReports(s: State, t: Thread)
    requires Reported(s)
    ensures Reported(Step(s, Announce(t)))
  {
    hide Below, StatesOk, SkewsOk, GoneOk, Count;
    if t in s.arriving {
      var u := Step(s, Announce(t));
      CountPlus(s.sent, WardInfo(s.arriving[t].sample.ward));
      SameRest(s.sent, u.sent, s.records, s.publishing);
      SameGone(s.sent, u.sent, s.due, s.marks);
    }
  }

  lemma {:induction false} StepsReport(s: State, events: seq<Event>)
    requires Reported(s)
    ensures Reported(Steps(s, events))
    decreases events
  {
    hide Reported, Step;
    if events != [] {
      StepReports(s, events[0]);
      StepsReport(Step(s, events[0]), events[1..]);
    }
  }

  /** Over every interleaving: each message is sent on as one state of a ward that is there; a warning goes
      with it exactly if its time is ahead of the gateway's; and a ward is sent as gone no more often than
      it was found silent. */
  lemma EveryMessage(timeout: int, events: seq<Event>)
    ensures var t := Steps(Start(timeout), events);
      && (forall w :: Count(t.sent, WardState(w, true)) == SentOn(t.records, t.publishing, w, |t.records|))
      && (forall k :: Count(t.sent, ClockSkew(k)) == if Skewed(t.records, k) && k !in t.publishing then 1 else 0)
      && (forall w :: Count(t.sent, WardState(w, false)) <= MarksOf(t.marks, w))
  {
    StepsReport(Start(timeout), events);
    hide Steps, Count, SentOn, MarksOf;
  }

  /** When the checker comes to a ward it found silent, it sends it as gone exactly if nothing has been
      heard of it since: its latest message is as old as the timeout. */
  lemma GoneExactly(s: State)
    requires Inv(s) && s.due != []
    ensures var (w, t) := (s.due[0], Step(s, SendNextDue));
      && t.due == s.due[1..]
      && (t.sent == if w in s.lastSeen && !s.lastSeen[w].connected then s.sent + [WardState(w, false)] else s.sent)
  {
    hide ClockOk, MarksOk, FlagsOk, FlagsSent, InfosSent, Latest;
  }

  /** A message of a ward nobody else is just bringing in goes through: announced if the ward is new, stored
      as the ward's latest, and sent on. */
  lemma GoesThrough(s: State, t: Thread, sample: Sample, now: int)
    requires Reported(s) && t !in s.arriving && now >= s.clock
    ensures var a := Step(s, Arrive(t, sample));
      var b := Step(Step(Step(a, Announce(t)), TakeIn(t, now)), Publish(|s.records|));
      && b.records == s.records + [Record(sample, now)] && t !in b.arriving && b.publishing == s.publishing
      && sample.ward in b.lastSeen && b.lastSeen[sample.ward] == LastSeen(sample.timestamp, true, now, false)
      && |b.sent| > 0 && b.sent[|b.sent| - 1] == WardState(sample.ward, true)
      && (sample.ward !in s.known ==> |b.sent| > |s.sent| && b.sent[|s.sent|] == WardInfo(sample.ward))
  {
    hide Reported;
    assert |s.records| !in s.publishing by {
      PublishingBelow(s);
    }
  }

  lemma PublishingBelow(s: State)
    requires Reported(s)
    ensures forall k :: k in s.publishing ==> 0 <= k < |s.records|
  {
    hide StatesOk, SkewsOk, GoneOk;
  }

  /** A ward found silent is reported as gone as soon as the checker has sent what it found before. */
  lemma SilenceIsReported(s: State, w: Id, now: int)
    requires Inv(s) && w in s.lastSeen && s.lastSeen[w].connected && now >= s.clock && now - s.lastSeen[w].at >= s.timeout
    ensures var t := Step(s, MarkIfSilent(w, now));
      && t.due == s.due + [w] && t.sent == s.sent && !t.lastSeen[w].connected
      && t.marks == s.marks + [Mark(w, now, |s.records|)]
      && (s.due == [] ==> Step(t, SendNextDue).sent == s.sent + [WardState(w, false)])
  {
    hide ClockOk, MarksOk, FlagsOk, FlagsSent, InfosSent, Latest;
  }
}

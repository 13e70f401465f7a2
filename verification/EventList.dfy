/** The simulator's clock: pending events in time order, ties in order of insertion. */
module EventList {

  type Time = nat
  type SourceId = nat

  datatype Pending = Pending(when: Time, source: SourceId)

  ghost predicate Sorted(p: seq<Pending>) { forall i, j :: 0 <= i < j < |p| ==> p[i].when <= p[j].when }

  /** Insertion into a multimap: after every event that is not later. */
  function Insert(p: seq<Pending>, e: Pending): seq<Pending> {
    if p == [] || e.when < p[0].when then [e] + p else [p[0]] + Insert(p[1..], e)
  }

  /** Erases the first event of a source, if it has one. */
  function Cancel(p: seq<Pending>, source: SourceId): seq<Pending> {
    if p == [] then []
    else if p[0].source == source then p[1..]
    else [p[0]] + Cancel(p[1..], source)
  }

  /** The times at which a source has events pending. */
  function TimesOf(p: seq<Pending>, source: SourceId): multiset<Time> {
    if p == [] then multiset{}
    else TimesOf(p[1..], source) + (if p[0].source == source then multiset{p[0].when} else multiset{})
  }

  /** No event is pending in the past. */
  ghost predicate InFuture(p: seq<Pending>, now: Time) { forall i :: 0 <= i < |p| ==> now <= p[i].when }

  lemma SortedCons(e: Pending, p: seq<Pending>)
    ensures Sorted([e] + p) <==> Sorted(p) && InFuture(p, e.when)
  {
    var q := [e] + p;
    if Sorted(q) {
      forall i, j | 0 <= i < j < |p| ensures p[i].when <= p[j].when { assert q[i + 1].when <= q[j + 1].when; }
      forall i | 0 <= i < |p| ensures e.when <= p[i].when { assert q[0].when <= q[i + 1].when; }
    }
  }

  lemma {:induction false} InsertKeepsOrder(p: seq<Pending>, e: Pending, now: Time)
    requires Sorted(p) && InFuture(p, now) && now <= e.when
    ensures Sorted(Insert(p, e)) && InFuture(Insert(p, e), now)
  {
    if p == [] || e.when < p[0].when {
      assert p != [] ==> InFuture(p, p[0].when);
      SortedCons(e, p);
    } else {
      assert p == [p[0]] + p[1..];
      SortedCons(p[0], p[1..]);
      InsertKeepsOrder(p[1..], e, p[0].when);
      SortedCons(p[0], Insert(p[1..], e));
    }
  }

  lemma {:induction false} InsertSchedules(p: seq<Pending>, e: Pending)
    ensures forall s :: TimesOf(Insert(p, e), s) ==
                        TimesOf(p, s) + (if s == e.source then multiset{e.when} else multiset{})
  {
    if p == [] || e.when < p[0].when {
      assert ([e] + p)[1..] == p;
    } else {
      InsertSchedules(p[1..], e);
      assert Insert(p, e)[1..] == Insert(p[1..], e);
    }
  }

  /** An event goes behind every event already due at the same time. */
  lemma {:induction false} InsertIsStable(p: seq<Pending>, e: Pending) returns (k: nat)
    requires Sorted(p)
    ensures k <= |p| && Insert(p, e) == p[..k] + [e] + p[k..]
    ensures forall i :: 0 <= i < |p| ==> (i < k <==> p[i].when <= e.when)
  {
    k := 0;
    if p != [] && p[0].when <= e.when {
      assert p == [p[0]] + p[1..];
      SortedCons(p[0], p[1..]);
      var j := InsertIsStable(p[1..], e);
      k := j + 1;
      assert p[..k] == [p[0]] + p[1..][..j] && p[k..] == p[1..][j..];
    }
  }

  lemma {:induction false} CancelKeepsOrder(p: seq<Pending>, source: SourceId, now: Time)
    requires Sorted(p) && InFuture(p, now)
    ensures Sorted(Cancel(p, source)) && InFuture(Cancel(p, source), now)
  {
    if p != [] {
      assert p == [p[0]] + p[1..];
      SortedCons(p[0], p[1..]);
      if p[0].source != source {
        CancelKeepsOrder(p[1..], source, p[0].when);
        SortedCons(p[0], Cancel(p[1..], source));
      }
    }
  }

  lemma {:induction false} CancelLeavesOthers(p: seq<Pending>, source: SourceId, other: SourceId)
    requires other != source
    ensures TimesOf(Cancel(p, source), other) == TimesOf(p, other)
  {
    if p != [] && p[0].source != source {
      CancelLeavesOthers(p[1..], source, other);
      assert Cancel(p, source)[1..] == Cancel(p[1..], source);
    }
  }

  lemma {:induction false} CancelTakesOne(p: seq<Pending>, source: SourceId) returns (t: Time)
    requires Sorted(p)
    ensures if TimesOf(p, source) == multiset{} then Cancel(p, source) == p
            else t in TimesOf(p, source) && TimesOf(Cancel(p, source), source) == TimesOf(p, source) - multiset{t}
    ensures forall u :: u in TimesOf(p, source) ==> t <= u
  {
    t := 0;
    if p != [] {
      assert p == [p[0]] + p[1..];
      SortedCons(p[0], p[1..]);
      if p[0].source == source {
        t := p[0].when;
        TimesInFuture(p[1..], source, t);
      } else {
        t := CancelTakesOne(p[1..], source);
        assert Cancel(p, source)[1..] == Cancel(p[1..], source);
      }
    }
  }

  /** Cancelling erases a source's earliest event, `t`, and touches no other source. */
  lemma CancelRemovesEarliest(p: seq<Pending>, source: SourceId) returns (t: Time)
    requires Sorted(p)
    ensures forall s :: s != source ==> TimesOf(Cancel(p, source), s) == TimesOf(p, s)
    ensures if TimesOf(p, source) == multiset{} then Cancel(p, source) == p
            else t in TimesOf(p, source) && TimesOf(Cancel(p, source), source) == TimesOf(p, source) - multiset{t}
    ensures forall u :: u in TimesOf(p, source) ==> t <= u
  {
    forall s | s != source ensures TimesOf(Cancel(p, source), s) == TimesOf(p, s) {
      CancelLeavesOthers(p, source, s);
    }
    t := CancelTakesOne(p, source);
  }

  lemma {:induction false} CancelSkips(p: seq<Pending>, source: SourceId, i: nat)
    requires i <= |p| && forall j :: 0 <= j < i ==> p[j].source != source
    ensures Cancel(p, source) == p[..i] + Cancel(p[i..], source)
  {
    if i == 0 {
      assert p[0..] == p;
    } else {
      assert p[1..][i - 1..] == p[i..];
      assert p[..i] == [p[0]] + p[1..][..i - 1];
      CancelSkips(p[1..], source, i - 1);
    }
  }

  lemma {:induction false} TimesInFuture(p: seq<Pending>, source: SourceId, now: Time)
    requires InFuture(p, now)
    ensures forall t :: t in TimesOf(p, source) ==> now <= t
  {
    if p != [] { TimesInFuture(p[1..], source, now); }
  }

  /** Taking the first event: it is the earliest of all, and only its source loses it. */
  lemma PopTakesEarliest(p: seq<Pending>, now: Time)
    requires Sorted(p) && InFuture(p, now) && p != []
    ensures Sorted(p[1..]) && InFuture(p[1..], p[0].when) && now <= p[0].when
    ensures TimesOf(p, p[0].source) == TimesOf(p[1..], p[0].source) + multiset{p[0].when}
    ensures forall s :: s != p[0].source ==> TimesOf(p, s) == TimesOf(p[1..], s)
    ensures forall s, t :: t in TimesOf(p, s) ==> p[0].when <= t
  {
    assert p == [p[0]] + p[1..];
    SortedCons(p[0], p[1..]);
    forall s ensures forall t :: t in TimesOf(p, s) ==> p[0].when <= t {
      TimesInFuture(p[1..], s, p[0].when);
    }
  }

  /** An event that comes before all events of other sources is the next. */
  lemma NextIs(p: seq<Pending>, source: SourceId, t: Time)
    requires Sorted(p) && TimesOf(p, source) == multiset{t}
    requires forall s, u :: s != source && u in TimesOf(p, s) ==> t < u
    ensures p != [] && p[0] == Pending(t, source)
  {
    var e := p[0];
    PopTakesEarliest(p, 0);
    assert e.when in TimesOf(p, e.source);
    assert t in TimesOf(p, source);
  }

  /** What scheduling an event adds: an event at or after the end time is not kept; 0 means no end. */
  function Upcoming(when: Time, endTime: Time): multiset<Time> {
    if endTime == 0 || when < endTime then multiset{when} else multiset{}
  }

  /** What `doNextEvent` runs. */
  datatype Turn = Idle | Trigger(target: nat) | Event(source: SourceId)

  class EventList {
    var endTime: Time                 // 0 means no end
    var lastEventTime: Time
    var pendingSources: seq<Pending>
    var pendingTriggers: seq<nat>

    ghost predicate Valid()
      reads this`pendingSources, this`lastEventTime
    {
      Sorted(pendingSources) && InFuture(pendingSources, lastEventTime)
    }

    function Times(source: SourceId): multiset<Time>
      reads this`pendingSources
    {
      TimesOf(pendingSources, source)
    }

    constructor (endTime: Time)
      ensures Valid() && this.endTime == endTime && lastEventTime == 0
      ensures pendingSources == [] && pendingTriggers == []
    {
      this.endTime, lastEventTime, pendingSources, pendingTriggers := endTime, 0, [], [];
    }

    function Now(): Time
      reads this`lastEventTime
    {
      lastEventTime
    }

    /** Picks what runs next. Triggers come first, the newest of them, and take no time; events come in time
        order, and the clock moves to theirs before they run. */
    method DoNextEvent() returns (turn: Turn)
      requires Valid()
      modifies this
      ensures Valid() && endTime == old(endTime) && old(lastEventTime) <= lastEventTime
      ensures old(pendingTriggers) != [] ==>
                var n := |old(pendingTriggers)| - 1;
                turn == Trigger(old(pendingTriggers)[n]) && pendingTriggers == old(pendingTriggers)[..n]
                && pendingSources == old(pendingSources) && lastEventTime == old(lastEventTime)
      ensures old(pendingTriggers) == [] ==> pendingTriggers == []
      ensures old(pendingTriggers) == [] && old(pendingSources) == [] ==>
                turn == Idle && pendingSources == [] && lastEventTime == old(lastEventTime)
      ensures old(pendingTriggers) == [] && old(pendingSources) != [] ==>
                var e := old(pendingSources)[0];
                && turn == Event(e.source) && lastEventTime == e.when
                && old(Times(e.source)) == Times(e.source) + multiset{e.when}
                && forall s :: s != e.source ==> Times(s) == old(Times(s))
      ensures forall s, t :: t in old(Times(s)) ==> lastEventTime <= t
    {
      forall s ensures forall t :: t in Times(s) ==> lastEventTime <= t {
        TimesInFuture(pendingSources, s, lastEventTime);
      }
      if pendingTriggers != [] {
        var target := pendingTriggers[|pendingTriggers| - 1];
        pendingTriggers := pendingTriggers[..|pendingTriggers| - 1];
        return Trigger(target);
      }
      if pendingSources == [] {
        return Idle;
      }
      PopTakesEarliest(pendingSources, lastEventTime);
      var nextEventTime, nextSource := pendingSources[0].when, pendingSources[0].source;
      pendingSources := pendingSources[1..];
      assert nextEventTime >= lastEventTime;
      lastEventTime := nextEventTime;
      return Event(nextSource);
    }

    /** An event at or after the end time is silently not kept. */
    method SourceIsPending(source: SourceId, when: Time)
      requires Valid() && when >= Now()
      modifies this`pendingSources
      ensures Valid() && Times(source) == old(Times(source)) + Upcoming(when, endTime)
      ensures forall s :: s != source ==> Times(s) == old(Times(s))
      ensures pendingSources ==
                if endTime == 0 || when < endTime then Insert(old(pendingSources), Pending(when, source))
                else old(pendingSources)
    {
      if endTime == 0 || when < endTime {
        InsertKeepsOrder(pendingSources, Pending(when, source), lastEventTime);
        InsertSchedules(pendingSources, Pending(when, source));
        pendingSources := Insert(pendingSources, Pending(when, source));
      }
    }

    method SourceIsPendingRel(source: SourceId, timeFromNow: Time)
      requires Valid()
      modifies this`pendingSources
      ensures Valid() && Times(source) == old(Times(source)) + Upcoming(Now() + timeFromNow, endTime)
      ensures forall s :: s != source ==> Times(s) == old(Times(s))
    {
      SourceIsPending(source, Now() + timeFromNow);
    }

    method TriggerIsPending(target: nat)
      modifies this`pendingTriggers
      ensures pendingTriggers == old(pendingTriggers) + [target]
    {
      pendingTriggers := pendingTriggers + [target];
    }

    /** Erases the source's earliest event. */
    method CancelPendingSource(source: SourceId)
      requires Valid()
      modifies this`pendingSources
      ensures Valid() && pendingSources == Cancel(old(pendingSources), source)
      ensures forall s :: s != source ==> Times(s) == old(Times(s))
      ensures old(Times(source)) == multiset{} ==> Times(source) == multiset{}
      ensures forall t :: old(Times(source)) == multiset{t} ==> Times(source) == multiset{}
    {
      ghost var was := pendingSources;
      var i := 0;
      while i < |pendingSources| && pendingSources[i].source != source
        invariant i <= |pendingSources|
        invariant forall j :: 0 <= j < i ==> pendingSources[j].source != source
      {
        i := i + 1;
      }
      CancelSkips(pendingSources, source, i);
      if i < |pendingSources| {
        assert pendingSources[i..][1..] == pendingSources[i + 1..];
        pendingSources := pendingSources[..i] + pendingSources[i + 1..];
      } else {
        assert pendingSources[..i] == pendingSources && pendingSources[i..] == [];
      }
      assert pendingSources == Cancel(was, source);
      CancelKeepsOrder(was, source, lastEventTime);
      ghost var earliest := CancelRemovesEarliest(was, source);
    }

    /** Leaves a source that had at most one event with exactly the new one. */
    method ReschedulePendingSource(source: SourceId, when: Time)
      requires Valid() && when >= Now()
      modifies this`pendingSources
      ensures Valid()
      ensures forall s :: s != source ==> Times(s) == old(Times(s))
      ensures old(Times(source)) == multiset{} || (exists t :: old(Times(source)) == multiset{t}) ==>
                Times(source) == Upcoming(when, endTime)
    {
      CancelPendingSource(source);
      SourceIsPending(source, when);
    }
  }
}

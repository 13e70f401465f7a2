/**
 What a `CompositeQueue` does with each packet, said without its own functions: which way an arrival goes, how long
 its service takes, what leaves, and how the phantom queue fills and drains.
 */
module QueueOutcomes {
  import opened Arith
  import opened WeightedService
  import opened CompositeQueue

  /** Kept whole, stored as a header, sent back or dropped. */
  datatype Way = Whole | Header | Back | Gone

  /** The packet as it may enter the high FIFO. */
  function HeaderOf(p: Packet, failedLink: bool): Packet {
    if p.header then p
    else p.(header := true, trimmed := true, size := 64, failed := p.failed || failedLink)
  }

  /** The way a packet has to go, from the bytes the FIFOs hold. */
  function WayOf(low: nat, high: nat, p: Packet, failedLink: bool, setup: Setup): Way {
    if !p.header && !failedLink && low + p.size <= setup.maxSize then Whole
    else if !p.header && !failedLink && setup.dropWhenFull then Gone
    else if high + HeaderOf(p, failedLink).size <= 2000 * setup.maxSize then Header
    else if p.returnable && !p.bounced then Back
    else Gone
  }

  /** Nothing but the arrival has been logged, on the way it went. */
  ghost predicate LoggedAs(l: Log, m: Log, id: nat, way: Way) {
    && m.arrived == l.arrived + [id]
    && m.inLow == (if way == Whole then l.inLow + [id] else l.inLow)
    && m.inHigh == (if way == Header then l.inHigh + [id] else l.inHigh)
    && m.bounced == (if way == Back then l.bounced + [id] else l.bounced)
    && m.dropped == (if way == Gone then l.dropped + [id] else l.dropped)
    && m.outLow == l.outLow && m.outHigh == l.outHigh
  }

  /** What has become of a packet that went one way, given what would be stored. */
  ghost predicate WentOneWay(q: Queue, r: Queue, way: Way, p: Packet, h: Packet) {
    && r.b.low == (if way == Whole then q.b.low + [p] else q.b.low)
    && r.b.high == (if way == Header then q.b.high + [h] else q.b.high)
    && LoggedAs(q.log, r.log, p.id, way)
  }

  lemma LowGoes(q: Queue, p: Packet, h: Packet, setup: Setup)
    ensures WentOneWay(q, EnterLow(q, p, setup), Whole, p, h)
  {
  }

  lemma HighGoes(q: Queue, p: Packet, h: Packet, setup: Setup)
    requires h.id == p.id && h.returnable == p.returnable && h.bounced == p.bounced
    ensures WentOneWay(q, EnterHigh(q, h, setup),
                       if q.b.sizeHigh + h.size <= 2000 * setup.maxSize then Header
                       else if p.returnable && !p.bounced then Back else Gone, p, h)
  {
  }

  lemma FillGoesOn(q: Queue, bytes: nat, r: Queue, way: Way, p: Packet, h: Packet, setup: Setup)
    requires WentOneWay(FillOutside(q, bytes, setup), r, way, p, h)
    ensures WentOneWay(q, r, way, p, h)
  {
  }

  /** A whole packet that fits is kept whole, behind all others; every other packet leaves LOW alone, and is put
      behind the headers, trimmed, exactly when there is room for it. */
  lemma ArrivalGoesItsWay(q: Queue, p: Packet, failedLink: bool, setup: Setup)
    requires Invariant(q, setup)
    ensures WentOneWay(q, Step(q, Receive(p, failedLink), setup),
                       WayOf(Bytes(q.b.low), Bytes(q.b.high), p, failedLink, setup), p, HeaderOf(p, failedLink))
  {
    ArrivalGoes(q, p, failedLink, Bytes(q.b.low), Bytes(q.b.high), setup);
  }

  lemma ArrivalGoes(q: Queue, p: Packet, failedLink: bool, low: nat, high: nat, setup: Setup)
    requires q.b.sizeLow == low && q.b.sizeHigh == high
    ensures WentOneWay(q, Arrive(q, p, failedLink, setup), WayOf(low, high, p, failedLink, setup), p,
                       HeaderOf(p, failedLink))
  {
    var h := HeaderOf(p, failedLink);
    if p.header || failedLink {
      HighGoes(q, p, h, setup);
    } else if low + p.size <= setup.maxSize {
      var r := FillOutside(q, p.size, setup);
      LowGoes(r, p, h, setup);
      FillGoesOn(q, p.size, EnterLow(r, p, setup), Whole, p, h, setup);
    } else {
      var r := FillOutside(q, FULL_SIZE, setup);
      if setup.dropWhenFull {
        assert WentOneWay(r, Overflow(r, p, setup), Gone, p, h);
      } else {
        HighGoes(r, p, h, setup);
      }
      FillGoesOn(q, FULL_SIZE, Overflow(r, p, setup), WayOf(low, high, p, failedLink, setup), p, h, setup);
    }
  }

  /** The ids of the arrivals of a run that go one way, in order. */
  ghost function WentBy(way: Way, ops: seq<Op>, setup: Setup): seq<nat> {
    if ops == [] then []
    else
      var front, op := ops[..|ops| - 1], ops[|ops| - 1];
      WentBy(way, front, setup) + (if GoesBy(way, front, op, setup) then [op.packet.id] else [])
  }

  ghost predicate GoesBy(way: Way, ops: seq<Op>, op: Op, setup: Setup) {
    var q := Run(ops, setup);
    op.Receive? && WayOf(Bytes(q.b.low), Bytes(q.b.high), op.packet, op.failedLink, setup) == way
  }

  ghost predicate Sorted(l: Log, ops: seq<Op>, setup: Setup) {
    && l.inLow == WentBy(Whole, ops, setup) && l.inHigh == WentBy(Header, ops, setup)
    && l.bounced == WentBy(Back, ops, setup) && l.dropped == WentBy(Gone, ops, setup)
  }

  /** One way that an arrival, if it is one, has gone. */
  ghost predicate SortedOn(l: Log, m: Log, op: Op, low: nat, high: nat, setup: Setup) {
    if op.Receive? then LoggedAs(l, m, op.packet.id, WayOf(low, high, op.packet, op.failedLink, setup))
    else m.inLow == l.inLow && m.inHigh == l.inHigh && m.bounced == l.bounced && m.dropped == l.dropped
  }

  lemma WakeLogsNoArrival(q: Queue, setup: Setup)
    requires RunsPhantom(q, setup) || Ready(q)
    ensures var l, m := q.log, Wake(q, setup).log;
            m.inLow == l.inLow && m.inHigh == l.inHigh && m.bounced == l.bounced && m.dropped == l.dropped
  {
  }

  lemma StepSorts(q: Queue, op: Op, r: Queue, low: nat, high: nat, setup: Setup)
    requires r == Step(q, op, setup) && q.b.sizeLow == low && q.b.sizeHigh == high
    ensures SortedOn(q.log, r.log, op, low, high, setup)
  {
    match op
    case Receive(p, failedLink) => ArrivalGoes(q, p, failedLink, low, high, setup);
    case NextEvent => if q.t.now in q.t.events && (RunsPhantom(q, setup) || Ready(q)) { WakeLogsNoArrival(q, setup); }
    case Pass(_) =>
  }

  lemma SortedOnAgain(ops: seq<Op>, op: Op, l: Log, m: Log, setup: Setup)
    requires Sorted(l, ops, setup)
    requires var q := Run(ops, setup); SortedOn(l, m, op, Bytes(q.b.low), Bytes(q.b.high), setup)
    ensures Sorted(m, ops + [op], setup)
  {
    var all := ops + [op];
    assert all[..|all| - 1] == ops;
  }

  /** In every run each FIFO has taken exactly the arrivals it should, and exactly the others were sent back or
      dropped, each by what the queue held when it came. */
  lemma {:induction false} EveryArrivalGoesItsWay(ops: seq<Op>, setup: Setup)
    ensures Sorted(Run(ops, setup).log, ops, setup)
  {
    if ops != [] {
      var front, op := ops[..|ops| - 1], ops[|ops| - 1];
      assert front + [op] == ops;
      var q := Run(front, setup);
      EveryArrivalGoesItsWay(front, setup);
      RunKeeps(front, setup);
      StepSorts(q, op, Run(ops, setup), Bytes(q.b.low), Bytes(q.b.high), setup);
      SortedOnAgain(front, op, q.log, Run(ops, setup).log, setup);
    }
  }

  /** A packet is trimmed only for a reason: what is in the high FIFO came as a header, over a failed link, or when
      it did not fit. */
  lemma {:induction false} TrimmedForAReason(ops: seq<Op>, setup: Setup, id: nat) returns (n: nat)
    requires id in Run(ops, setup).log.inHigh
    ensures n < |ops| && ops[n].Receive? && ops[n].packet.id == id
    ensures ops[n].packet.header || ops[n].failedLink
            || Bytes(Run(ops[..n], setup).b.low) + ops[n].packet.size > setup.maxSize
  {
    EveryArrivalGoesItsWay(ops, setup);
    if ops != [] {
      var front, op := ops[..|ops| - 1], ops[|ops| - 1];
      EveryArrivalGoesItsWay(front, setup);
      if GoesBy(Header, front, op, setup) && op.packet.id == id {
        n := |front|;
      } else {
        n := TrimmedForAReason(front, setup, id);
        assert front[..n] == ops[..n];
      }
    }
  }

  // ---- Service ----

  /** The packet in service. */
  function Head(q: Queue): Packet
    requires Ready(q)
  {
    if q.serv == Low then q.b.low[0] else q.b.high[0]
  }

  /** A decision starts a service of the packet chosen, which takes its transmission time; without one the service
      in progress goes on with the same packet. */
  ghost predicate Serves(q: Queue, r: Queue, setup: Setup) {
    if r.log.choices == q.log.choices then
      && r.t.serviceAt == q.t.serviceAt && r.t.servicePlanned == q.t.servicePlanned
      && (Ready(r) ==> Ready(q) && Head(r) == Head(q))
    else
      && Ready(r) && r.t.serviceAt == r.t.now + DrainTime(Head(r), setup)
      && r.t.servicePlanned == q.t.servicePlanned + [r.t.serviceAt]
  }

  lemma StartServesHead(q: Queue, r: Queue, setup: Setup)
    requires (q.serv != Nobody ==> Ready(q)) && Busy(r.b) && q.b.low <= r.b.low && q.b.high <= r.b.high
    requires r.serv == q.serv && r.t == q.t && r.log.choices == q.log.choices
    ensures Serves(q, Started(r, setup), setup)
  {
    if r.serv == Nobody { assert Begin(r, setup).log.choices != q.log.choices; }
  }

  lemma LowServes(q: Queue, p: Packet, setup: Setup)
    requires q.serv != Nobody ==> Ready(q)
    ensures Serves(q, EnterLow(q, p, setup), setup)
  {
    StartServesHead(q, q.(b := PushLow(q.b, p), log := LogLow(q.log, p.id)), setup);
  }

  lemma HighServes(q: Queue, p: Packet, setup: Setup)
    requires q.serv != Nobody ==> Ready(q)
    ensures Serves(q, EnterHigh(q, p, setup), setup)
  {
    if q.b.sizeHigh + p.size <= HighLimit(setup) {
      StartServesHead(q, q.(b := PushHigh(q.b, p), log := LogHigh(q.log, p.id)), setup);
    }
  }

  lemma ArrivalServes(q: Queue, p: Packet, failedLink: bool, setup: Setup)
    requires q.serv != Nobody ==> Ready(q)
    ensures Serves(q, Arrive(q, p, failedLink, setup), setup)
  {
    if p.header {
      HighServes(q, p, setup);
    } else if failedLink {
      HighServes(q, Strip(p).(failed := true), setup);
    } else if q.b.sizeLow + p.size <= setup.maxSize {
      LowServes(FillOutside(q, p.size, setup), p, setup);
    } else if !setup.dropWhenFull {
      HighServes(FillOutside(q, FULL_SIZE, setup), Strip(p), setup);
    }
  }

  /** The next service starts when one ends, and the phantom queue does not change it. */
  lemma CompleteServes(q: Queue, setup: Setup)
    requires Ready(q)
    ensures Serves(q, Complete(q, setup), setup)
  {
    var d := Depart(q, setup);
    assert d.serv == Nobody && d.t == q.t && d.log.choices == q.log.choices;
    if Busy(d.b) { StartServesHead(d, d, setup); }
  }

  lemma EventServes(q: Queue, setup: Setup)
    requires (q.serv != Nobody ==> Ready(q)) && (RunsPhantom(q, setup) || Ready(q))
    ensures Serves(q, Wake(q, setup), setup)
  {
    var t := q.t.(events := q.t.events - multiset{q.t.now}, serviceRun := q.t.serviceRun + [q.t.now]);
    if !RunsPhantom(q, setup) { CompleteServes(q.(t := t), setup); }
  }

  lemma StepServes(q: Queue, op: Op, r: Queue, setup: Setup)
    requires (q.serv != Nobody ==> Ready(q)) && r == Step(q, op, setup)
    ensures Serves(q, r, setup)
  {
    if op.Receive? {
      ArrivalServes(q, op.packet, op.failedLink, setup);
    } else if op.NextEvent? && q.t.now in q.t.events && (RunsPhantom(q, setup) || Ready(q)) {
      EventServes(q, setup);
      NextEventWakes(q, setup);
    }
  }

  /** The time of the last decision of a run. */
  ghost function StartedAt(ops: seq<Op>, setup: Setup): nat {
    if ops == [] then 0
    else
      var q, r := Run(ops[..|ops| - 1], setup), Run(ops, setup);
      if r.log.choices == q.log.choices then StartedAt(ops[..|ops| - 1], setup) else r.t.now
  }

  ghost predicate InService(q: Queue, start: nat, setup: Setup) {
    q.serv != Nobody ==> Ready(q) && q.t.serviceAt == start + DrainTime(Head(q), setup)
  }

  lemma ServesOn(q: Queue, r: Queue, start: nat, setup: Setup)
    requires InService(q, start, setup) && Serves(q, r, setup) && (r.serv != Nobody ==> Ready(r))
    ensures InService(r, if r.log.choices == q.log.choices then start else r.t.now, setup)
  {
  }

  lemma {:induction false} RunServes(ops: seq<Op>, setup: Setup)
    ensures InService(Run(ops, setup), StartedAt(ops, setup), setup)
  {
    RunKeeps(ops, setup);
    if ops != [] {
      var front, r := ops[..|ops| - 1], Run(ops, setup);
      RunServes(front, setup);
      RunKeeps(front, setup);
      StepServes(Run(front, setup), ops[|ops| - 1], r, setup);
      ServesOn(Run(front, setup), r, StartedAt(front, setup), setup);
    }
  }

  /** In every run the service in progress ends when the bytes of its packet have been sent, counted from the
      decision that started it. */
  lemma ServiceTakesItsTime(ops: seq<Op>, setup: Setup)
    requires Run(ops, setup).serv != Nobody
    ensures var q := Run(ops, setup);
            Ready(q) && q.t.serviceAt == StartedAt(ops, setup) + Head(q).size * setup.psPerByte
  {
    RunServes(ops, setup);
  }

  /** What leaves is the packet in service, changed in its mark at most. A mark is made only for a whole packet, or
      for a header that is neither feedback nor trimmed. */
  lemma ServedIsHead(q: Queue, mark: bool)
    requires Ready(q)
    ensures var p, out := Head(q), Served(q, mark);
            && out == p.(marked := out.marked)
            && (out.marked <==> p.marked || (mark && (q.serv == Low || (p.kind == OtherKind && !p.trimmed))))
  {
  }

  // ---- The phantom queue ----

  /** It ticks every `phantomDrain` from the end of the first service on. */
  ghost predicate Ticks(t: Timer, setup: Setup) {
    && (forall i :: 0 < i < |t.phantomPlanned| ==>
          t.phantomPlanned[i] == t.phantomPlanned[i - 1] + setup.phantomDrain)
    && (t.phantomPlanned == [] <==> !setup.usePhantom || t.serviceRun == [])
    && (t.phantomPlanned != [] ==> t.phantomPlanned[0] == t.serviceRun[0] + setup.phantomDrain)
    && (t.firstTime <==> t.phantomPlanned == [])
  }

  lemma TickKeepsTicks(t: Timer, working: bool, setup: Setup)
    requires Timed(t, working, setup) && Ticks(t, setup) && !t.firstTime && t.phantomNext == t.now
    ensures Ticks(PlanPhantom(t.(events := t.events - multiset{t.now}, phantomRun := t.phantomRun + [t.now]), setup),
                  setup)
  {
    assert t.phantomPlanned[|t.phantomPlanned| - 1] == t.phantomNext;
  }

  lemma FirstTickTicks(t: Timer, setup: Setup)
    requires t.phantomPlanned == [] && t.serviceRun == [t.now] && setup.usePhantom
    ensures Ticks(PlanPhantom(t, setup), setup)
  {
  }

  lemma SameTicks(t: Timer, u: Timer, setup: Setup)
    requires Ticks(t, setup) && u.phantomPlanned == t.phantomPlanned && u.firstTime == t.firstTime
    requires t.serviceRun <= u.serviceRun && (t.serviceRun == [] <==> u.serviceRun == [])
    ensures Ticks(u, setup)
  {
  }

  lemma ServiceKeepsTicks(q: Queue, setup: Setup)
    requires Ready(q) && Ticks(q.t, setup) && q.t.now in q.t.events && !RunsPhantom(q, setup)
    ensures Ticks(Wake(q, setup).t, setup)
  {
    var t := q.t.(events := q.t.events - multiset{q.t.now}, serviceRun := q.t.serviceRun + [q.t.now]);
    var r := Restart(Depart(q.(t := t), setup), setup);
    assert r.t.serviceRun == t.serviceRun && r.t.phantomPlanned == t.phantomPlanned && r.t.now == t.now;
    if t.firstTime && setup.usePhantom {
      FirstTickTicks(r.t, setup);
    } else {
      assert Wake(q, setup) == r;
      SameTicks(q.t.(serviceRun := t.serviceRun), r.t, setup);
    }
  }

  lemma ArrivalKeepsTicks(q: Queue, p: Packet, failedLink: bool, setup: Setup)
    requires Ticks(q.t, setup)
    ensures Ticks(Arrive(q, p, failedLink, setup).t, setup)
  {
    SameTicks(q.t, Arrive(q, p, failedLink, setup).t, setup);
  }

  lemma EventKeepsTicks(q: Queue, setup: Setup)
    requires Timed(q.t, q.serv != Nobody, setup) && Ticks(q.t, setup) && q.t.now in q.t.events
    requires if RunsPhantom(q, setup) then PhantomDue(q) else Ready(q)
    ensures Ticks(Wake(q, setup).t, setup)
  {
    if RunsPhantom(q, setup) { TickKeepsTicks(q.t, q.serv != Nobody, setup); } else { ServiceKeepsTicks(q, setup); }
  }

  lemma StepKeepsTicks(q: Queue, op: Op, r: Queue, setup: Setup)
    requires r == Step(q, op, setup) && Timed(q.t, q.serv != Nobody, setup) && Ticks(q.t, setup)
    requires q.t.now in q.t.events ==> if RunsPhantom(q, setup) then PhantomDue(q) else Ready(q)
    ensures Ticks(r.t, setup)
  {
    if op.Receive? {
      ArrivalKeepsTicks(q, op.packet, op.failedLink, setup);
    } else if op.NextEvent? && q.t.now in q.t.events {
      EventKeepsTicks(q, setup);
      NextEventWakes(q, setup);
    }
  }

  /** In every run the phantom queue, if it is used, starts when the first service ends, and ticks at even
      intervals from then on. */
  lemma {:induction false} TicksAreEven(ops: seq<Op>, setup: Setup)
    ensures Ticks(Run(ops, setup).t, setup)
  {
    if ops != [] {
      var front := ops[..|ops| - 1];
      var q := Run(front, setup);
      TicksAreEven(front, setup);
      RunKeeps(front, setup);
      if q.t.now in q.t.events { ClockTellsEventsApart(q, setup); }
      StepKeepsTicks(q, ops[|ops| - 1], Run(ops, setup), setup);
    }
  }

  function AtMost(x: nat, limit: nat): nat { if x > limit then limit else x }

  /** The bytes an arrival adds to a phantom queue that is not in series: its own if it is kept whole, and those of
      a full packet if it does not fit. */
  function ArrivalAdds(q: Queue, p: Packet, failedLink: bool, setup: Setup): nat {
    if setup.phantomInSeries || p.header || failedLink then 0
    else if Bytes(q.b.low) + p.size <= setup.maxSize then p.size else 4160
  }

  /** The bytes a departure adds to one in series: a header counts as a full packet if it stands for one. */
  function DepartureAdds(q: Queue, setup: Setup): nat
    requires Ready(q)
  {
    var p := Head(q);
    if !setup.phantomInSeries then 0
    else if q.serv == Low then p.size
    else if p.kind != NdpAck && (p.kind == NdpNack || p.kind == UecNack || p.trimmed) then 4160 else 0
  }

  /** How full the phantom queue is after one step: what came in is capped, and a tick takes a full packet out. */
  ghost predicate PhantomMoves(q: Queue, op: Op, r: Queue, setup: Setup) {
    match op
    case Pass(_) => r.phantom == q.phantom
    case Receive(p, failedLink) =>
      r.phantom == AtMost(q.phantom + ArrivalAdds(q, p, failedLink, setup), setup.phantomMax)
    case NextEvent =>
      if q.t.now !in q.t.events then r.phantom == q.phantom
      else if PhantomDue(q) then r.phantom == AfterTick(q.phantom)
      else
        && Ready(q)
        && var filled := AtMost(q.phantom + DepartureAdds(q, setup), setup.phantomMax);
           r.phantom == if q.t.firstTime && setup.usePhantom then AfterTick(filled) else filled
  }

  function AfterTick(x: nat): nat { if x < 4160 then 0 else x - 4160 }

  lemma ArrivalMovesPhantom(q: Queue, p: Packet, failedLink: bool, low: nat, setup: Setup)
    requires q.phantom <= setup.phantomMax && q.b.sizeLow == low
    ensures var adds := if setup.phantomInSeries || p.header || failedLink then 0
                        else if low + p.size <= setup.maxSize then p.size else 4160;
            Arrive(q, p, failedLink, setup).phantom == AtMost(q.phantom + adds, setup.phantomMax)
  {
  }

  lemma ServiceMovesPhantom(q: Queue, setup: Setup)
    requires Ready(q) && q.phantom <= setup.phantomMax
    ensures var filled := AtMost(q.phantom + DepartureAdds(q, setup), setup.phantomMax);
            Complete(q, setup).phantom == if q.t.firstTime && setup.usePhantom then AfterTick(filled) else filled
  {
    var d := Depart(q, setup);
    assert d.t == q.t && Restart(d, setup).phantom == d.phantom && Restart(d, setup).t.firstTime == q.t.firstTime;
  }

  lemma EventMovesPhantom(q: Queue, setup: Setup)
    requires q.phantom <= setup.phantomMax && q.t.now in q.t.events
    requires (RunsPhantom(q, setup) <==> PhantomDue(q)) && (!RunsPhantom(q, setup) ==> Ready(q))
    ensures PhantomMoves(q, NextEvent, Wake(q, setup), setup)
  {
    if !RunsPhantom(q, setup) {
      var t := q.t.(events := q.t.events - multiset{q.t.now}, serviceRun := q.t.serviceRun + [q.t.now]);
      ServiceMovesPhantom(q.(t := t), setup);
    }
  }

  lemma StepMovesPhantom(q: Queue, op: Op, r: Queue, setup: Setup)
    requires Invariant(q, setup) && q.phantom <= setup.phantomMax && r == Step(q, op, setup)
    ensures PhantomMoves(q, op, r, setup)
  {
    if op.Receive? {
      ArrivalMovesPhantom(q, op.packet, op.failedLink, Bytes(q.b.low), setup);
    } else if op.NextEvent? && q.t.now in q.t.events {
      ClockTellsEventsApart(q, setup);
      EventMovesPhantom(q, setup);
      NextEventWakes(q, setup);
    }
  }

  lemma PhantomStaysBelow(q: Queue, op: Op, r: Queue, setup: Setup)
    requires q.phantom <= setup.phantomMax && PhantomMoves(q, op, r, setup)
    ensures r.phantom <= setup.phantomMax
  {
  }

  /** In every run the phantom queue is within its limit, and every step fills and drains it as it should. */
  lemma {:induction false} PhantomIsKept(ops: seq<Op>, op: Op, setup: Setup)
    ensures Run(ops, setup).phantom <= setup.phantomMax
    ensures PhantomMoves(Run(ops, setup), op, Step(Run(ops, setup), op, setup), setup)
    decreases |ops|
  {
    RunKeeps(ops, setup);
    if ops != [] {
      var front, last := ops[..|ops| - 1], ops[|ops| - 1];
      PhantomIsKept(front, last, setup);
      PhantomStaysBelow(Run(front, setup), last, Run(ops, setup), setup);
    }
    StepMovesPhantom(Run(ops, setup), op, Step(Run(ops, setup), op, setup), setup);
  }
}

/**
 `CompositeQueue`: a FIFO of whole packets and a FIFO of headers behind one server, with a phantom queue
 whose timer shares the server's callback.
 */
module CompositeQueue {
  import opened Arith
  import opened WeightedService
  import opened EventList

  const HEADER_SIZE: Size := 64
  const FULL_SIZE: nat := 4160      // 4096 + 64

  datatype Kind = NdpAck | NdpNack | UecNack | NdpPull | OtherKind

  datatype Packet = Packet(
    id: nat,
    size: Size,
    header: bool,
    bounced: bool,
    returnable: bool,      // has a reverse route
    failed: bool,
    trimmed: bool,
    marked: bool,          // ECN
    kind: Kind)

  function Strip(p: Packet): Packet { p.(header := true, trimmed := true, size := HEADER_SIZE) }

  datatype Setup = Setup(
    maxSize: nat,
    ratio: Ratio,
    psPerByte: Size,
    endTime: nat,          // events at or after it are not kept; 0 means no end
    usePhantom: bool,
    phantomInSeries: bool,
    phantomMax: nat,
    phantomDrain: Size,
    dropWhenFull: bool)

  /** Headers may take far more room than the queue is said to have. */
  function HighLimit(setup: Setup): nat { 2000 * setup.maxSize }

  function DrainTime(p: Packet, setup: Setup): (t: nat)
    ensures t > 0
  {
    MulStrict(0, p.size, setup.psPerByte);
    p.size * setup.psPerByte
  }

  datatype Serv = Nobody | Low | High

  /** The two FIFOs, oldest packet first, with their byte counters. */
  datatype Buffers = Buffers(low: seq<Packet>, high: seq<Packet>, sizeLow: int, sizeHigh: int)

  /** The clock, the events pending for this queue, and the two uses it makes of them. */
  datatype Timer = Timer(
    now: nat,
    events: multiset<nat>,
    serviceAt: nat,
    firstTime: bool,           // the phantom queue has not started draining
    phantomNext: nat,
    servicePlanned: seq<nat>, serviceRun: seq<nat>,
    phantomPlanned: seq<nat>, phantomRun: seq<nat>)

  /** What has happened to every packet so far, by id, and every choice of the server. */
  datatype Log = Log(
    arrived: seq<nat>,
    inLow: seq<nat>, inHigh: seq<nat>,
    outLow: seq<nat>, outHigh: seq<nat>,
    bounced: seq<nat>, dropped: seq<nat>,
    choices: seq<Choice>)

  datatype Queue = Queue(b: Buffers, serv: Serv, crt: nat, phantom: nat, t: Timer, log: Log)

  function Init(): Queue {
    Queue(Buffers([], [], 0, 0), Nobody, 0, 0,
          Timer(0, multiset{}, 0, true, 0, [], [], [], []),
          Log([], [], [], [], [], [], [], []))
  }

  // ---- The operations ----

  function PlanService(t: Timer, after: nat, setup: Setup): Timer {
    var at := t.now + after;
    t.(events := t.events + Upcoming(at, setup.endTime), serviceAt := at, servicePlanned := t.servicePlanned + [at])
  }

  function PlanPhantom(t: Timer, setup: Setup): Timer {
    var at := t.now + setup.phantomDrain;
    t.(events := t.events + Upcoming(at, setup.endTime), firstTime := false, phantomNext := at,
       phantomPlanned := t.phantomPlanned + [at])
  }

  predicate Busy(b: Buffers) { b.low != [] || b.high != [] }

  /** `beginService`. */
  function Begin(q: Queue, setup: Setup): Queue
    requires Busy(q.b)
  {
    var lowBusy, highBusy := q.b.low != [], q.b.high != [];
    var high := ServesHigh(q.crt, highBusy, lowBusy, setup.ratio);
    q.(crt := NextCrt(q.crt, highBusy, lowBusy, setup.ratio),
       serv := if high then High else Low,
       t := PlanService(q.t, DrainTime(if high then q.b.high[0] else q.b.low[0], setup), setup),
       log := q.log.(choices := q.log.choices + [Choice(highBusy, lowBusy, high)]))
  }

  function Started(q: Queue, setup: Setup): Queue
    requires Busy(q.b)
  {
    if q.serv == Nobody then Begin(q, setup) else q
  }

  /** The phantom queue is capped. */
  function Fill(q: Queue, bytes: nat, setup: Setup): Queue {
    q.(phantom := if q.phantom + bytes > setup.phantomMax then setup.phantomMax else q.phantom + bytes)
  }

  function PushLow(b: Buffers, p: Packet): Buffers { b.(low := b.low + [p], sizeLow := b.sizeLow + p.size) }

  function PushHigh(b: Buffers, p: Packet): Buffers { b.(high := b.high + [p], sizeHigh := b.sizeHigh + p.size) }

  function LogLow(l: Log, id: nat): Log { l.(arrived := l.arrived + [id], inLow := l.inLow + [id]) }

  function LogHigh(l: Log, id: nat): Log { l.(arrived := l.arrived + [id], inHigh := l.inHigh + [id]) }

  function LogBounced(l: Log, id: nat): Log { l.(arrived := l.arrived + [id], bounced := l.bounced + [id]) }

  function LogDropped(l: Log, id: nat): Log { l.(arrived := l.arrived + [id], dropped := l.dropped + [id]) }

  function EnterLow(q: Queue, p: Packet, setup: Setup): Queue {
    Started(q.(b := PushLow(q.b, p), log := LogLow(q.log, p.id)), setup)
  }

  function EnterHigh(q: Queue, p: Packet, setup: Setup): Queue {
    if q.b.sizeHigh + p.size > HighLimit(setup) then
      q.(log := if p.returnable && !p.bounced then LogBounced(q.log, p.id) else LogDropped(q.log, p.id))
    else
      Started(q.(b := PushHigh(q.b, p), log := LogHigh(q.log, p.id)), setup)
  }

  /** `receivePacket`. */
  function Arrive(q: Queue, p: Packet, failedLink: bool, setup: Setup): Queue {
    if p.header then EnterHigh(q, p, setup)
    else if failedLink then EnterHigh(q, Strip(p).(failed := true), setup)
    else ArriveWhole(q, p, setup)
  }

  /** A whole packet is queued if it fits, and else trimmed or dropped. */
  function ArriveWhole(q: Queue, p: Packet, setup: Setup): Queue {
    if q.b.sizeLow + p.size <= setup.maxSize then EnterLow(FillOutside(q, p.size, setup), p, setup)
    else Overflow(FillOutside(q, FULL_SIZE, setup), p, setup)
  }

  /** A phantom queue that is not in series counts a packet when it arrives. */
  function FillOutside(q: Queue, bytes: nat, setup: Setup): Queue {
    if setup.phantomInSeries then q else Fill(q, bytes, setup)
  }

  function Overflow(q: Queue, p: Packet, setup: Setup): Queue {
    if setup.dropWhenFull then q.(log := LogDropped(q.log, p.id)) else EnterHigh(q, Strip(p), setup)
  }

  /** `decreasePhantom`. */
  function Drain(q: Queue, setup: Setup): Queue {
    q.(phantom := if q.phantom < FULL_SIZE then 0 else q.phantom - FULL_SIZE, t := PlanPhantom(q.t, setup))
  }

  predicate Ready(q: Queue) {
    (q.serv == Low ==> q.b.low != []) && (q.serv == High ==> q.b.high != []) && q.serv != Nobody
  }

  /** The packet the server is done with leaves its FIFO. */
  function Depart(q: Queue, setup: Setup): Queue
    requires Ready(q)
  {
    if q.serv == Low then
      var p := q.b.low[0];
      var r := q.(b := q.b.(low := q.b.low[1..], sizeLow := q.b.sizeLow - p.size), serv := Nobody,
                  log := q.log.(outLow := q.log.outLow + [p.id]));
      if setup.phantomInSeries then Fill(r, p.size, setup) else r
    else
      var p := q.b.high[0];
      var r := q.(b := q.b.(high := q.b.high[1..], sizeHigh := q.b.sizeHigh - p.size), serv := Nobody,
                  log := q.log.(outHigh := q.log.outHigh + [p.id]));
      if setup.phantomInSeries && p.kind != NdpAck && (p.kind == NdpNack || p.kind == UecNack || p.trimmed)
      then Fill(r, FULL_SIZE, setup) else r
  }

  function Restart(q: Queue, setup: Setup): Queue { if Busy(q.b) then Begin(q, setup) else q }

  function StartPhantom(q: Queue, setup: Setup): Queue {
    if q.t.firstTime && setup.usePhantom then Drain(q, setup) else q
  }

  /** `completeService`. */
  function Complete(q: Queue, setup: Setup): Queue
    requires Ready(q)
  {
    StartPhantom(Restart(Depart(q, setup), setup), setup)
  }

  /** The packet that `completeService` sends on; `mark` is the outcome of `decide_ECN`, which draws at random. */
  function Served(q: Queue, mark: bool): Packet
    requires Ready(q)
  {
    var p := if q.serv == Low then q.b.low[0] else q.b.high[0];
    var decides := q.serv == Low || (p.kind == OtherKind && !p.trimmed);
    if decides && mark then p.(marked := true) else p
  }

  predicate RunsPhantom(q: Queue, setup: Setup) { q.t.now == q.t.phantomNext && setup.usePhantom }

  /** `doNextEvent`, for an event at the present time, whose kind is not known. */
  function Wake(q: Queue, setup: Setup): Queue
    requires RunsPhantom(q, setup) || Ready(q)
  {
    var t := q.t.(events := q.t.events - multiset{q.t.now});
    if RunsPhantom(q, setup) then
      Drain(q.(t := t.(phantomRun := t.phantomRun + [t.now])), setup)
    else
      Complete(q.(t := t.(serviceRun := t.serviceRun + [t.now])), setup)
  }

  /** A wake takes one event at the present time away. */
  lemma WakeTakesEvent(q: Queue, setup: Setup)
    requires RunsPhantom(q, setup) || Ready(q)
    ensures var t := q.t;
            Wake(q.(t := t.(events := t.events + multiset{t.now})), setup) ==
            if RunsPhantom(q, setup) then Drain(q.(t := t.(phantomRun := t.phantomRun + [t.now])), setup)
            else Complete(q.(t := t.(serviceRun := t.serviceRun + [t.now])), setup)
  {
    assert q.t.events + multiset{q.t.now} - multiset{q.t.now} == q.t.events;
  }

  // ---- What every operation keeps ----

  function Bytes(s: seq<Packet>): nat {
    if s == [] then 0 else Bytes(s[..|s| - 1]) + s[|s| - 1].size
  }

  function Ids(s: seq<Packet>): seq<nat> { seq(|s|, i requires 0 <= i < |s| => s[i].id) }

  lemma {:induction false} BytesOfTail(s: seq<Packet>)
    requires s != []
    ensures Bytes(s) == s[0].size + Bytes(s[1..])
  {
    if |s| > 1 {
      BytesOfTail(s[..|s| - 1]);
      assert s[..|s| - 1][1..] == s[1..][..|s| - 2];
    } else {
      assert s[..0] == [] == s[1..];
    }
  }

  /** A FIFO: its bytes are counted and bounded, it holds one kind of packet, and what it has let out and
      still holds is what it took in, in order. */
  ghost predicate Fifo(s: seq<Packet>, bytes: int, limit: nat, headers: bool, ins: seq<nat>, outs: seq<nat>) {
    && bytes == Bytes(s) <= limit
    && (forall i :: 0 <= i < |s| ==> s[i].header == headers)
    && ins == outs + Ids(s)
  }

  /** The first sequence is the second with some elements left out. */
  ghost predicate Subsequence(a: seq<nat>, b: seq<nat>) {
    if a == [] then true
    else if b == [] then false
    else (a[|a| - 1] == b[|b| - 1] && Subsequence(a[..|a| - 1], b[..|b| - 1])) || Subsequence(a, b[..|b| - 1])
  }

  /** Every arrival went one way, and each FIFO took its share in order of arrival. */
  ghost predicate Conserved(l: Log) {
    && multiset(l.arrived) == multiset(l.inLow) + multiset(l.inHigh) + multiset(l.bounced) + multiset(l.dropped)
    && Subsequence(l.inLow, l.arrived) && Subsequence(l.inHigh, l.arrived)
  }

  ghost predicate Accounted(b: Buffers, log: Log, setup: Setup) {
    && Fifo(b.low, b.sizeLow, setup.maxSize, false, log.inLow, log.outLow)
    && Fifo(b.high, b.sizeHigh, HighLimit(setup), true, log.inHigh, log.outHigh)
    && Conserved(log)
  }

  /** The server works exactly when there is work, and has chosen by `beginService` every time. */
  ghost predicate Serving(q: Queue, setup: Setup) {
    && (q.serv == Nobody <==> !Busy(q.b))
    && (q.serv != Nobody ==> Ready(q))
    && Follows(q.log.choices, setup.ratio)
    && q.crt == CrtAfter(q.log.choices, setup.ratio)
  }

  function ServiceEvents(t: Timer, working: bool, setup: Setup): multiset<nat> {
    if working then Upcoming(t.serviceAt, setup.endTime) else multiset{}
  }

  function PhantomEvents(t: Timer, setup: Setup): multiset<nat> {
    if t.firstTime then multiset{} else Upcoming(t.phantomNext, setup.endTime)
  }

  /** The pending events are the service in progress and the phantom tick, and nothing else; every planned
      time but the pending one has been run, once, when it came. */
  ghost predicate Timed(t: Timer, working: bool, setup: Setup) {
    && t.events == ServiceEvents(t, working, setup) + PhantomEvents(t, setup)
    && t.servicePlanned == t.serviceRun + (if working then [t.serviceAt] else [])
    && t.phantomPlanned == t.phantomRun + (if t.firstTime then [] else [t.phantomNext])
    && (working ==> t.serviceAt > 0)
    && (if t.firstTime then t.phantomNext == 0 else t.phantomNext > 0 && setup.usePhantom)
    && forall e :: e in t.events ==> t.now <= e
  }

  ghost predicate Invariant(q: Queue, setup: Setup) {
    && Accounted(q.b, q.log, setup)
    && Serving(q, setup)
    && Timed(q.t, q.serv != Nobody, setup)
  }

  lemma PlanServiceTimed(t: Timer, after: nat, setup: Setup)
    requires Timed(t, false, setup) && after > 0
    ensures Timed(PlanService(t, after, setup), true, setup)
  {
  }

  lemma PlanPhantomTimed(t: Timer, working: bool, setup: Setup)
    requires Timed(t, working, setup) && t.firstTime && setup.usePhantom
    ensures Timed(PlanPhantom(t, setup), working, setup)
  {
  }

  /** What a start of service needs. */
  ghost predicate MayServe(q: Queue, setup: Setup) {
    && Busy(q.b) && (q.serv != Nobody ==> Ready(q))
    && Follows(q.log.choices, setup.ratio) && q.crt == CrtAfter(q.log.choices, setup.ratio)
  }

  lemma BeginServes(q: Queue, setup: Setup)
    requires MayServe(q, setup) && q.serv == Nobody
    ensures Serving(Begin(q, setup), setup)
  {
    var lowBusy, highBusy := q.b.low != [], q.b.high != [];
    var high := ServesHigh(q.crt, highBusy, lowBusy, setup.ratio);
    FollowsSnoc(q.log.choices, Choice(highBusy, lowBusy, high), setup.ratio);
  }

  lemma StartServes(q: Queue, setup: Setup)
    requires MayServe(q, setup)
    ensures Serving(Started(q, setup), setup)
  {
    if q.serv == Nobody { BeginServes(q, setup); }
  }

  lemma StartIsTimed(q: Queue, setup: Setup)
    requires Busy(q.b) && Timed(q.t, q.serv != Nobody, setup)
    ensures Timed(Started(q, setup).t, Started(q, setup).serv != Nobody, setup)
  {
    if q.serv == Nobody {
      var high := ServesHigh(q.crt, q.b.high != [], q.b.low != [], setup.ratio);
      PlanServiceTimed(q.t, DrainTime(if high then q.b.high[0] else q.b.low[0], setup), setup);
    }
  }

  lemma ChoicesKeepAccounts(b: Buffers, log: Log, choices: seq<Choice>, setup: Setup)
    requires Accounted(b, log, setup)
    ensures Accounted(b, log.(choices := choices), setup)
  {
  }

  lemma StartIsAccounted(q: Queue, setup: Setup)
    requires Busy(q.b) && Accounted(q.b, q.log, setup)
    ensures Accounted(Started(q, setup).b, Started(q, setup).log, setup)
  {
    var r := Started(q, setup);
    ChoicesKeepAccounts(q.b, q.log, r.log.choices, setup);
    assert r.b == q.b && r.log == q.log.(choices := r.log.choices);
  }

  lemma StartKeeps(q: Queue, setup: Setup)
    requires Accounted(q.b, q.log, setup) && MayServe(q, setup) && Timed(q.t, q.serv != Nobody, setup)
    ensures Invariant(Started(q, setup), setup)
  {
    StartServes(q, setup);
    StartIsTimed(q, setup);
    StartIsAccounted(q, setup);
  }

  lemma FifoPush(s: seq<Packet>, bytes: int, limit: nat, headers: bool, ins: seq<nat>, outs: seq<nat>, p: Packet)
    requires Fifo(s, bytes, limit, headers, ins, outs) && p.header == headers && bytes + p.size <= limit
    ensures Fifo(s + [p], bytes + p.size, limit, headers, ins + [p.id], outs)
  {
    assert (s + [p])[..|s|] == s;
    assert Ids(s + [p]) == Ids(s) + [p.id];
    assert outs + (Ids(s) + [p.id]) == outs + Ids(s) + [p.id];
  }

  lemma FifoPop(s: seq<Packet>, bytes: int, limit: nat, headers: bool, ins: seq<nat>, outs: seq<nat>)
    requires Fifo(s, bytes, limit, headers, ins, outs) && s != []
    ensures Fifo(s[1..], bytes - s[0].size, limit, headers, ins, outs + [s[0].id])
  {
    BytesOfTail(s);
    assert Ids(s) == [s[0].id] + Ids(s[1..]);
    assert outs + ([s[0].id] + Ids(s[1..])) == outs + [s[0].id] + Ids(s[1..]);
  }

  lemma SubsequencePush(a: seq<nat>, b: seq<nat>, x: nat)
    requires Subsequence(a, b)
    ensures Subsequence(a, b + [x]) && Subsequence(a + [x], b + [x])
  {
    assert (a + [x])[..|a|] == a && (b + [x])[..|b|] == b;
  }

  lemma OneMoreEachWay(all: multiset<nat>, a: multiset<nat>, b: multiset<nat>, c: multiset<nat>, d: multiset<nat>,
                       one: multiset<nat>)
    requires all == a + b + c + d
    ensures all + one == (a + one) + b + c + d
    ensures all + one == a + (b + one) + c + d
    ensures all + one == a + b + (c + one) + d
    ensures all + one == a + b + c + (d + one)
  {
  }

  lemma LogsConserve(l: Log, id: nat)
    requires Conserved(l)
    ensures Conserved(LogLow(l, id)) && Conserved(LogHigh(l, id))
    ensures Conserved(LogBounced(l, id)) && Conserved(LogDropped(l, id))
  {
    OneMoreEachWay(multiset(l.arrived), multiset(l.inLow), multiset(l.inHigh), multiset(l.bounced),
                   multiset(l.dropped), multiset{id});
    SubsequencePush(l.inLow, l.arrived, id);
    SubsequencePush(l.inHigh, l.arrived, id);
  }

  lemma PushLowKeepsAccounts(b: Buffers, log: Log, p: Packet, setup: Setup)
    requires Accounted(b, log, setup) && !p.header && b.sizeLow + p.size <= setup.maxSize
    ensures Accounted(PushLow(b, p), LogLow(log, p.id), setup)
  {
    assert Conserved(LogLow(log, p.id)) by { LogsConserve(log, p.id); }
    FifoPush(b.low, b.sizeLow, setup.maxSize, false, log.inLow, log.outLow, p);
  }

  lemma PushHighKeepsAccounts(b: Buffers, log: Log, p: Packet, setup: Setup)
    requires Accounted(b, log, setup) && p.header && b.sizeHigh + p.size <= HighLimit(setup)
    ensures Accounted(PushHigh(b, p), LogHigh(log, p.id), setup)
  {
    assert Conserved(LogHigh(log, p.id)) by { LogsConserve(log, p.id); }
    FifoPush(b.high, b.sizeHigh, HighLimit(setup), true, log.inHigh, log.outHigh, p);
  }

  lemma EnterLowKeeps(q: Queue, p: Packet, setup: Setup)
    requires Invariant(q, setup) && !p.header && q.b.sizeLow + p.size <= setup.maxSize
    ensures Invariant(EnterLow(q, p, setup), setup)
  {
    PushLowKeepsAccounts(q.b, q.log, p, setup);
    StartKeeps(q.(b := PushLow(q.b, p), log := LogLow(q.log, p.id)), setup);
  }

  lemma StoreHighKeeps(q: Queue, p: Packet, setup: Setup)
    requires Invariant(q, setup) && p.header && q.b.sizeHigh + p.size <= HighLimit(setup)
    ensures Invariant(Started(q.(b := PushHigh(q.b, p), log := LogHigh(q.log, p.id)), setup), setup)
  {
    PushHighKeepsAccounts(q.b, q.log, p, setup);
    StartKeeps(q.(b := PushHigh(q.b, p), log := LogHigh(q.log, p.id)), setup);
  }

  lemma DropKeeps(q: Queue, id: nat, setup: Setup)
    requires Invariant(q, setup)
    ensures Invariant(q.(log := LogDropped(q.log, id)), setup) && Invariant(q.(log := LogBounced(q.log, id)), setup)
  {
    LogsConserve(q.log, id);
  }

  lemma EnterHighKeeps(q: Queue, p: Packet, setup: Setup)
    requires Invariant(q, setup) && p.header
    ensures Invariant(EnterHigh(q, p, setup), setup)
  {
    if q.b.sizeHigh + p.size > HighLimit(setup) {
      DropKeeps(q, p.id, setup);
    } else {
      StoreHighKeeps(q, p, setup);
    }
  }

  lemma FillKeeps(q: Queue, bytes: nat, setup: Setup)
    requires Invariant(q, setup)
    ensures Invariant(FillOutside(q, bytes, setup), setup)
  {
  }

  lemma OverflowKeeps(q: Queue, p: Packet, setup: Setup)
    requires Invariant(q, setup)
    ensures Invariant(Overflow(q, p, setup), setup)
  {
    if setup.dropWhenFull { DropKeeps(q, p.id, setup); } else { EnterHighKeeps(q, Strip(p), setup); }
  }

  lemma ArriveWholeKeeps(q: Queue, p: Packet, setup: Setup)
    requires Invariant(q, setup) && !p.header
    ensures Invariant(ArriveWhole(q, p, setup), setup)
  {
    if q.b.sizeLow + p.size <= setup.maxSize {
      FillKeeps(q, p.size, setup);
      var r := FillOutside(q, p.size, setup);
      EnterLowKeeps(r, p, setup);
      assert ArriveWhole(q, p, setup) == EnterLow(r, p, setup);
    } else {
      FillKeeps(q, FULL_SIZE, setup);
      var r := FillOutside(q, FULL_SIZE, setup);
      OverflowKeeps(r, p, setup);
      assert ArriveWhole(q, p, setup) == Overflow(r, p, setup);
    }
  }

  lemma ArriveKeeps(q: Queue, p: Packet, failedLink: bool, setup: Setup)
    requires Invariant(q, setup)
    ensures Invariant(Arrive(q, p, failedLink, setup), setup)
  {
    if p.header {
      EnterHighKeeps(q, p, setup);
    } else if failedLink {
      EnterHighKeeps(q, Strip(p).(failed := true), setup);
    } else {
      ArriveWholeKeeps(q, p, setup);
    }
  }

  lemma PopAccounted(q: Queue, setup: Setup)
    requires Accounted(q.b, q.log, setup) && Ready(q)
    ensures Accounted(Depart(q, setup).b, Depart(q, setup).log, setup)
  {
    if q.serv == Low {
      FifoPop(q.b.low, q.b.sizeLow, setup.maxSize, false, q.log.inLow, q.log.outLow);
    } else {
      FifoPop(q.b.high, q.b.sizeHigh, HighLimit(setup), true, q.log.inHigh, q.log.outHigh);
    }
  }

  // ---- The two uses of one callback ----

  /** The time at which the service in progress is to end has come. */
  predicate ServiceDue(q: Queue) { q.serv != Nobody && q.t.serviceAt == q.t.now }

  /** The time for the next phantom tick has come. */
  predicate PhantomDue(q: Queue) { !q.t.firstTime && q.t.phantomNext == q.t.now }

  /** The test on the clock tells the two events apart: when one of them wakes the queue, it runs the phantom
      tick exactly when that is due, and otherwise the service is due and has a packet to serve. */
  lemma ClockTellsEventsApart(q: Queue, setup: Setup)
    requires Invariant(q, setup) && q.t.now in q.t.events
    ensures RunsPhantom(q, setup) <==> PhantomDue(q)
    ensures !RunsPhantom(q, setup) ==> ServiceDue(q) && Ready(q)
  {
  }

  lemma TakeOne(a: multiset<nat>, b: multiset<nat>)
    ensures a + b - b == a && b + a - b == a
  {
  }

  lemma PhantomTickTaken(t: Timer, working: bool, setup: Setup)
    requires Timed(t, working, setup) && t.now in t.events && t.now == t.phantomNext && setup.usePhantom
    ensures !t.firstTime && t.events - multiset{t.now} == ServiceEvents(t, working, setup)
  {
    assert PhantomEvents(t, setup) == multiset{t.now};
    TakeOne(ServiceEvents(t, working, setup), multiset{t.now});
  }

  lemma PhantomTickTimed(t: Timer, working: bool, setup: Setup)
    requires Timed(t, working, setup) && t.now in t.events && t.now == t.phantomNext && setup.usePhantom
    ensures var r := t.(events := t.events - multiset{t.now}, phantomRun := t.phantomRun + [t.now]);
            Timed(PlanPhantom(r, setup), working, setup)
  {
    PhantomTickTaken(t, working, setup);
  }

  lemma ServiceEndTimed(t: Timer, setup: Setup)
    requires Timed(t, true, setup) && t.now in t.events && t.serviceAt == t.now
    ensures Timed(t.(events := t.events - multiset{t.now}, serviceRun := t.serviceRun + [t.now]), false, setup)
  {
    assert ServiceEvents(t, true, setup) == multiset{t.now};
    TakeOne(PhantomEvents(t, setup), multiset{t.now});
  }

  lemma RestartKeeps(d: Queue, setup: Setup)
    requires Accounted(d.b, d.log, setup) && d.serv == Nobody && Timed(d.t, false, setup)
    requires Follows(d.log.choices, setup.ratio) && d.crt == CrtAfter(d.log.choices, setup.ratio)
    ensures Invariant(Restart(d, setup), setup)
  {
    if Busy(d.b) { StartKeeps(d, setup); }
  }

  lemma StartPhantomKeeps(q: Queue, setup: Setup)
    requires Invariant(q, setup)
    ensures Invariant(StartPhantom(q, setup), setup)
  {
    if q.t.firstTime && setup.usePhantom { PlanPhantomTimed(q.t, q.serv != Nobody, setup); }
  }

  lemma ServiceKeeps(q: Queue, setup: Setup)
    requires Invariant(q, setup) && q.t.now in q.t.events && !RunsPhantom(q, setup)
    ensures ServiceDue(q) && Ready(q) && Invariant(Wake(q, setup), setup)
  {
    ClockTellsEventsApart(q, setup);
    var r := q.(t := q.t.(events := q.t.events - multiset{q.t.now}, serviceRun := q.t.serviceRun + [q.t.now]));
    ServiceEndTimed(q.t, setup);
    PopAccounted(r, setup);
    var d := Depart(r, setup);
    assert d.t == r.t && d.serv == Nobody && d.crt == q.crt && d.log.choices == q.log.choices;
    RestartKeeps(d, setup);
    StartPhantomKeeps(Restart(d, setup), setup);
  }

  lemma WakeKeeps(q: Queue, setup: Setup)
    requires Invariant(q, setup) && q.t.now in q.t.events
    ensures RunsPhantom(q, setup) || Ready(q)
    ensures Invariant(Wake(q, setup), setup)
  {
    if RunsPhantom(q, setup) {
      PhantomTickTimed(q.t, q.serv != Nobody, setup);
    } else {
      ServiceKeeps(q, setup);
    }
  }

  // ---- Runs ----

  datatype Op =
    | Receive(packet: Packet, failedLink: bool)
    | NextEvent                   // an event of this queue that is due now
    | Pass(until: nat)            // time passes; the event list never skips an event

  function Step(q: Queue, op: Op, setup: Setup): Queue {
    match op
    case Receive(p, failedLink) => Arrive(q, p, failedLink, setup)
    case NextEvent => if q.t.now in q.t.events && (RunsPhantom(q, setup) || Ready(q)) then Wake(q, setup) else q
    case Pass(until) =>
      if q.t.now <= until && forall e :: e in q.t.events ==> until <= e then q.(t := q.t.(now := until)) else q
  }

  function Run(ops: seq<Op>, setup: Setup): Queue {
    if ops == [] then Init() else Step(Run(ops[..|ops| - 1], setup), ops[|ops| - 1], setup)
  }

  lemma InitKeeps(setup: Setup)
    ensures Invariant(Init(), setup)
  {
    assert Ids([]) == [];
  }

  lemma PassKeeps(q: Queue, until: nat, setup: Setup)
    requires Invariant(q, setup) && q.t.now <= until && forall e :: e in q.t.events ==> until <= e
    ensures Invariant(q.(t := q.t.(now := until)), setup)
  {
  }

  lemma StepKeeps(q: Queue, op: Op, setup: Setup)
    requires Invariant(q, setup)
    ensures Invariant(Step(q, op, setup), setup)
  {
    match op
    case Receive(p, failedLink) => ArriveKeeps(q, p, failedLink, setup);
    case NextEvent => if q.t.now in q.t.events { WakeKeeps(q, setup); }
    case Pass(until) =>
  }

  lemma {:induction false} RunKeeps(ops: seq<Op>, setup: Setup)
    ensures Invariant(Run(ops, setup), setup)
  {
    if ops == [] {
      InitKeeps(setup);
    } else {
      RunKeeps(ops[..|ops| - 1], setup);
      StepKeeps(Run(ops[..|ops| - 1], setup), ops[|ops| - 1], setup);
    }
  }

  /** In every run, every packet received is exactly once queued, served, bounced or dropped; each FIFO takes
      and serves its packets in the order of arrival; the counters are the bytes queued, within their limits;
      and the server is idle exactly when both FIFOs are empty. */
  lemma PacketsAreConserved(ops: seq<Op>, setup: Setup)
    ensures var q := Run(ops, setup);
            && multiset(q.log.arrived) ==
               multiset(Ids(q.b.low)) + multiset(Ids(q.b.high)) + multiset(q.log.outLow) + multiset(q.log.outHigh)
               + multiset(q.log.bounced) + multiset(q.log.dropped)
            && q.log.inLow == q.log.outLow + Ids(q.b.low) && q.log.inHigh == q.log.outHigh + Ids(q.b.high)
            && Subsequence(q.log.inLow, q.log.arrived) && Subsequence(q.log.inHigh, q.log.arrived)
            && q.b.sizeLow == Bytes(q.b.low) <= setup.maxSize && q.b.sizeHigh == Bytes(q.b.high) <= HighLimit(setup)
            && (q.serv == Nobody <==> q.b.low == [] && q.b.high == [])
  {
    RunKeeps(ops, setup);
    var q := Run(ops, setup);
    assert multiset(q.log.inLow) == multiset(q.log.outLow) + multiset(Ids(q.b.low));
    assert multiset(q.log.inHigh) == multiset(q.log.outHigh) + multiset(Ids(q.b.high));
  }

  /** In every run, at most one service event and one phantom event are pending; when an event comes due, the
      test on the clock picks the right use of it; and every event planned before has run exactly once, at its
      own time. */
  lemma DispatchIsExact(ops: seq<Op>, setup: Setup)
    ensures var q := Run(ops, setup);
            && q.t.events <= (if q.serv == Nobody then multiset{} else multiset{q.t.serviceAt})
                             + (if q.t.firstTime then multiset{} else multiset{q.t.phantomNext})
            && (q.t.now in q.t.events ==>
                  (RunsPhantom(q, setup) <==> PhantomDue(q)) && (!RunsPhantom(q, setup) ==> ServiceDue(q) && Ready(q)))
            && q.t.servicePlanned == q.t.serviceRun + (if q.serv == Nobody then [] else [q.t.serviceAt])
            && q.t.phantomPlanned == q.t.phantomRun + (if q.t.firstTime then [] else [q.t.phantomNext])
  {
    RunKeeps(ops, setup);
    var q := Run(ops, setup);
    if q.t.now in q.t.events { ClockTellsEventsApart(q, setup); }
  }

  /** When both come due at the same instant, both run: the phantom tick first, then the service. */
  lemma SameInstantRunsBoth(q: Queue, setup: Setup)
    requires Invariant(q, setup) && ServiceDue(q) && PhantomDue(q) && q.t.now in q.t.events
    ensures RunsPhantom(q, setup)
    ensures var r := Wake(q, setup);
            && Invariant(r, setup) && r.t.now == q.t.now
            && r.t.phantomRun == q.t.phantomRun + [q.t.now] && r.t.serviceRun == q.t.serviceRun
            && r.t.now in r.t.events && !RunsPhantom(r, setup) && ServiceDue(r) && Ready(r)
  {
    WakeKeeps(q, setup);
    var r := Wake(q, setup);
    assert Upcoming(q.t.now, setup.endTime) == multiset{q.t.now};
    assert ServiceEvents(r.t, true, setup) == multiset{q.t.now};
  }

  /** In every run, while the low FIFO has packets at most `ratio.high` services in a row start for HIGH. */
  lemma LowIsBypassedBriefly(ops: seq<Op>, setup: Setup, lo: nat, hi: nat)
    requires var cs := Run(ops, setup).log.choices;
             lo <= hi <= |cs| && forall i :: lo <= i < hi ==> cs[i].lowBusy && cs[i].high
    ensures hi - lo <= setup.ratio.high
  {
    RunKeeps(ops, setup);
    BoundedBypass(Run(ops, setup).log.choices, setup.ratio, lo, hi);
  }

  // ---- The object ----

  /** The two rings are held as the sequences that `CircularBuffer` is proved to stand for. */
  class CompositeQueue {
    const setup: Setup
    const source: SourceId
    const eventList: EventList
    var enqueuedLow: seq<Packet>
    var enqueuedHigh: seq<Packet>
    var queuesizeLow: int
    var queuesizeHigh: int
    var serv: Serv
    var crt: nat
    var currentQueuesizePhantom: nat
    var firstTime: bool
    var decreasePhantomNext: nat
    ghost var serviceAt: nat
    ghost var servicePlanned: seq<nat>
    ghost var serviceRun: seq<nat>
    ghost var phantomPlanned: seq<nat>
    ghost var phantomRun: seq<nat>
    ghost var log: Log

    ghost predicate Valid()
      reads this, eventList
    {
      eventList.Valid() && eventList.endTime == setup.endTime
    }

    ghost function TimerView(): Timer
      reads this, eventList
    {
      Timer(eventList.lastEventTime, eventList.Times(source), serviceAt, firstTime, decreasePhantomNext,
            servicePlanned, serviceRun, phantomPlanned, phantomRun)
    }

    ghost function View(): Queue
      reads this, eventList
    {
      Queue(Buffers(enqueuedLow, enqueuedHigh, queuesizeLow, queuesizeHigh),
            serv, crt, currentQueuesizePhantom, TimerView(), log)
    }

    constructor (setup: Setup, source: SourceId, eventList: EventList)
      requires eventList.Valid() && eventList.endTime == setup.endTime
      requires eventList.lastEventTime == 0 && eventList.Times(source) == multiset{}
      ensures Valid() && View() == Init()
      ensures this.setup == setup && this.source == source && this.eventList == eventList
    {
      this.setup, this.source, this.eventList := setup, source, eventList;
      enqueuedLow, enqueuedHigh := [], [];
      queuesizeLow, queuesizeHigh, serv, crt := 0, 0, Nobody, 0;
      currentQueuesizePhantom, firstTime, decreasePhantomNext := 0, true, 0;
      serviceAt, servicePlanned, serviceRun, phantomPlanned, phantomRun := 0, [], [], [], [];
      log := Init().log;
    }

    /** Schedules the end of a service. */
    method ScheduleService(after: nat)
      requires Valid()
      modifies this`serviceAt, this`servicePlanned, eventList`pendingSources
      ensures Valid() && TimerView() == PlanService(old(TimerView()), after, setup)
    {
      eventList.SourceIsPendingRel(source, after);
      serviceAt := eventList.Now() + after;
      servicePlanned := servicePlanned + [serviceAt];
    }

    /** Picks the FIFO to serve next. */
    method ChooseQueue()
      requires Valid() && Busy(View().b)
      modifies this`crt, this`serv, this`log
      ensures Valid()
      ensures var highBusy, lowBusy := enqueuedHigh != [], enqueuedLow != [];
              var high := ServesHigh(old(crt), highBusy, lowBusy, setup.ratio);
              && crt == NextCrt(old(crt), highBusy, lowBusy, setup.ratio) && serv == (if high then High else Low)
              && log == old(log).(choices := old(log).choices + [Choice(highBusy, lowBusy, high)])
    {
      ghost var highBusy, lowBusy := enqueuedHigh != [], enqueuedLow != [];
      if enqueuedHigh != [] && enqueuedLow != [] {
        crt := crt + 1;
        if crt >= setup.ratio.high + setup.ratio.low {
          crt := 0;
        }
        serv := if crt < setup.ratio.high then High else Low;
      } else {
        serv := if enqueuedHigh != [] then High else Low;
      }
      log := log.(choices := log.choices + [Choice(highBusy, lowBusy, serv == High)]);
    }

    method BeginService()
      requires Valid() && Busy(View().b)
      modifies this, eventList`pendingSources
      ensures Valid() && View() == Begin(old(View()), setup)
    {
      ghost var before := View();
      ChooseQueue();
      assert View() == Begin(before, setup).(t := before.t);
      ScheduleService(DrainTime(if serv == High then enqueuedHigh[0] else enqueuedLow[0], setup));
    }

    method StartIfIdle()
      requires Valid() && Busy(View().b)
      modifies this, eventList`pendingSources
      ensures Valid() && View() == Started(old(View()), setup)
    {
      if serv == Nobody {
        BeginService();
      }
    }

    method FillPhantom(bytes: nat)
      requires Valid()
      modifies this`currentQueuesizePhantom
      ensures Valid() && View() == Fill(old(View()), bytes, setup)
    {
      currentQueuesizePhantom := currentQueuesizePhantom + bytes;
      if currentQueuesizePhantom > setup.phantomMax {
        currentQueuesizePhantom := setup.phantomMax;
      }
    }

    method SchedulePhantom()
      requires Valid()
      modifies this`phantomPlanned, this`firstTime, this`decreasePhantomNext, eventList`pendingSources
      ensures Valid() && TimerView() == PlanPhantom(old(TimerView()), setup)
    {
      eventList.SourceIsPendingRel(source, setup.phantomDrain);
      decreasePhantomNext := eventList.Now() + setup.phantomDrain;
      firstTime := false;
      phantomPlanned := phantomPlanned + [decreasePhantomNext];
    }

    method DecreasePhantom()
      requires Valid()
      modifies this, eventList`pendingSources
      ensures Valid() && View() == Drain(old(View()), setup)
    {
      SchedulePhantom();
      var size: int := currentQueuesizePhantom - FULL_SIZE;
      if size < 0 {
        size := 0;
      }
      currentQueuesizePhantom := size;
    }

    /** Pushes a whole packet. */
    method StoreLow(pkt: Packet)
      requires Valid()
      modifies this, eventList`pendingSources
      ensures Valid() && View() == EnterLow(old(View()), pkt, setup)
    {
      enqueuedLow := enqueuedLow + [pkt];
      queuesizeLow := queuesizeLow + pkt.size;
      log := LogLow(log, pkt.id);
      assert View() == old(View()).(b := PushLow(old(View()).b, pkt), log := LogLow(old(log), pkt.id));
      StartIfIdle();
    }

    /** Pushes a header, or bounces or drops it when even headers do not fit. */
    method StoreHigh(pkt: Packet)
      requires Valid()
      modifies this, eventList`pendingSources
      ensures Valid() && View() == EnterHigh(old(View()), pkt, setup)
    {
      if queuesizeHigh + pkt.size > HighLimit(setup) {
        Refuse(pkt);
      } else {
        enqueuedHigh := enqueuedHigh + [pkt];
        queuesizeHigh := queuesizeHigh + pkt.size;
        log := LogHigh(log, pkt.id);
        assert View() == old(View()).(b := PushHigh(old(View()).b, pkt), log := LogHigh(old(log), pkt.id));
        StartIfIdle();
      }
    }

    method Refuse(pkt: Packet)
      requires Valid()
      modifies this`log
      ensures Valid() && log == if pkt.returnable && !pkt.bounced then LogBounced(old(log), pkt.id)
                                else LogDropped(old(log), pkt.id)
    {
      if pkt.returnable && !pkt.bounced {
        log := LogBounced(log, pkt.id);
      } else {
        log := LogDropped(log, pkt.id);
      }
    }

    method ReceivePacket(pkt: Packet, failedLink: bool)
      requires Valid()
      modifies this, eventList`pendingSources
      ensures Valid() && View() == Arrive(old(View()), pkt, failedLink, setup)
    {
      if failedLink && !pkt.header {
        StoreHigh(Strip(pkt).(failed := true));
      } else if !pkt.header {
        if queuesizeLow + pkt.size <= setup.maxSize {
          if !setup.phantomInSeries {
            FillPhantom(pkt.size);
          }
          StoreLow(pkt);
        } else {
          if !setup.phantomInSeries {
            FillPhantom(FULL_SIZE);
          }
          if setup.dropWhenFull {
            log := LogDropped(log, pkt.id);
          } else {
            StoreHigh(Strip(pkt));
          }
        }
      } else {
        StoreHigh(pkt);
      }
    }

    method TakeLow() returns (pkt: Packet)
      requires Valid() && Ready(View()) && serv == Low
      modifies this
      ensures Valid() && View() == Depart(old(View()), setup) && pkt == Served(old(View()), false)
    {
      pkt := enqueuedLow[0];
      enqueuedLow := enqueuedLow[1..];
      queuesizeLow := queuesizeLow - pkt.size;
      serv := Nobody;
      log := log.(outLow := log.outLow + [pkt.id]);
      if setup.phantomInSeries {
        FillPhantom(pkt.size);
      }
    }

    method TakeHigh() returns (pkt: Packet)
      requires Valid() && Ready(View()) && serv == High
      modifies this
      ensures Valid() && View() == Depart(old(View()), setup) && pkt == Served(old(View()), false)
    {
      pkt := enqueuedHigh[0];
      enqueuedHigh := enqueuedHigh[1..];
      queuesizeHigh := queuesizeHigh - pkt.size;
      serv := Nobody;
      log := log.(outHigh := log.outHigh + [pkt.id]);
      if setup.phantomInSeries && pkt.kind != NdpAck && (pkt.kind == NdpNack || pkt.kind == UecNack || pkt.trimmed) {
        FillPhantom(FULL_SIZE);
      }
    }

    method CompleteService(mark: bool) returns (pkt: Packet)
      requires Valid() && Ready(View())
      modifies this, eventList`pendingSources
      ensures Valid() && View() == Complete(old(View()), setup)
      ensures pkt == Served(old(View()), mark)
    {
      var low := serv == Low;
      if low {
        pkt := TakeLow();
      } else {
        pkt := TakeHigh();
      }
      if mark && (low || (pkt.kind == OtherKind && !pkt.trimmed)) {
        pkt := pkt.(marked := true);
      }
      if enqueuedHigh != [] || enqueuedLow != [] {
        BeginService();
      }
      if firstTime && setup.usePhantom {
        DecreasePhantom();
      }
    }

    /** The state this queue was in before the event list took the event that is running. */
    ghost function BeforeEvent(): Queue
      reads this, eventList
    {
      var t := TimerView();
      View().(t := t.(events := t.events + multiset{t.now}))
    }

    /** Runs an event that the event list has just taken: the phantom tick or the end of a service, by the test
        on the clock. `mark` is the outcome of `decide_ECN`. */
    method DoNextEvent(mark: bool) returns (sent: seq<Packet>)
      requires Valid() && Invariant(BeforeEvent(), setup)
      modifies this, eventList`pendingSources
      ensures Valid() && Invariant(View(), setup)
      ensures RunsPhantom(old(BeforeEvent()), setup) || Ready(old(BeforeEvent()))
      ensures View() == Wake(old(BeforeEvent()), setup)
      ensures sent == if RunsPhantom(old(BeforeEvent()), setup) then [] else [Served(old(BeforeEvent()), mark)]
    {
      WakeKeeps(BeforeEvent(), setup);
      sent := Dispatch(mark);
    }

    method Dispatch(mark: bool) returns (sent: seq<Packet>)
      requires Valid() && (RunsPhantom(BeforeEvent(), setup) || Ready(BeforeEvent()))
      modifies this, eventList`pendingSources
      ensures Valid() && View() == Wake(old(BeforeEvent()), setup)
      ensures sent == if RunsPhantom(old(BeforeEvent()), setup) then [] else [Served(old(BeforeEvent()), mark)]
    {
      WakeTakesEvent(View(), setup);
      if eventList.Now() == decreasePhantomNext && setup.usePhantom {
        RunPhantom();
        return [];
      }
      var pkt := RunService(mark);
      return [pkt];
    }

    method RunPhantom()
      requires Valid()
      modifies this, eventList`pendingSources
      ensures Valid()
      ensures var t := old(TimerView());
              View() == Drain(old(View()).(t := t.(phantomRun := t.phantomRun + [t.now])), setup)
    {
      phantomRun := phantomRun + [eventList.lastEventTime];
      DecreasePhantom();
    }

    method RunService(mark: bool) returns (pkt: Packet)
      requires Valid() && Ready(View())
      modifies this, eventList`pendingSources
      ensures Valid() && pkt == Served(old(View()), mark)
      ensures var t := old(TimerView());
              View() == Complete(old(View()).(t := t.(serviceRun := t.serviceRun + [t.now])), setup)
    {
      serviceRun := serviceRun + [eventList.lastEventTime];
      pkt := CompleteService(mark);
    }
  }

  /** The queue at a later time. */
  function At(q: Queue, now: nat): Queue { q.(t := q.t.(now := now)) }

  /** Lets the event list move on to its next event; says whether it is the queue's own. By the two lemmas
      below, running it with `DoNextEvent` if it is, and nothing if it is not, follows the runs above. */
  method MoveOn(queue: CompositeQueue) returns (own: bool)
    requires queue.Valid()
    modifies queue.eventList
    ensures queue.Valid() && old(queue.eventList.lastEventTime) <= queue.eventList.lastEventTime
    ensures forall e :: e in old(queue.eventList.Times(queue.source)) ==> queue.eventList.lastEventTime <= e
    ensures own ==> queue.BeforeEvent() == At(old(queue.View()), queue.eventList.lastEventTime)
    ensures !own ==> queue.View() == At(old(queue.View()), queue.eventList.lastEventTime)
  {
    var turn := queue.eventList.DoNextEvent();
    own := turn == Event(queue.source);
  }

  lemma OtherEventIsStep(q: Queue, now: nat, setup: Setup)
    requires q.t.now <= now && forall e :: e in q.t.events ==> now <= e
    ensures At(q, now) == Step(q, Pass(now), setup)
  {
  }

  lemma OwnEventIsStep(q: Queue, now: nat, setup: Setup)
    requires Invariant(q, setup) && q.t.now <= now && forall e :: e in q.t.events ==> now <= e
    requires now in q.t.events
    ensures Invariant(At(q, now), setup) && (RunsPhantom(At(q, now), setup) || Ready(At(q, now)))
    ensures Wake(At(q, now), setup) == Step(Step(q, Pass(now), setup), NextEvent, setup)
  {
    OtherEventIsStep(q, now, setup);
    PassKeeps(q, now, setup);
    ClockTellsEventsApart(At(q, now), setup);
    NextEventWakes(At(q, now), setup);
  }

  lemma NextEventWakes(q: Queue, setup: Setup)
    requires q.t.now in q.t.events && (RunsPhantom(q, setup) || Ready(q))
    ensures Step(q, NextEvent, setup) == Wake(q, setup)
  {
  }
}

/**
 The objects at work: a `BBRSrc` with its pacer on the event list, a `BBRSink`, and a network between them.
 Whatever happens, they are in a state of a run of `BbrSystem`, so what holds in every run holds of them.
 */
module BbrTransfer {
  import opened Arith
  import opened BbrSender
  import BbrPacing
  import opened BbrPacedSender
  import opened BbrHandlers
  import opened BbrSource
  import S = BbrSystem
  import Sink = BbrSink
  import E = EventList

  type Message = Sink.Message

  // ---- Calls of the source as steps of the system ----

  /** The packets on the wire, as messages. */
  function DataOf(packets: seq<Packet>): multiset<Message> {
    if packets == [] then multiset{}
    else DataOf(packets[..|packets| - 1]) + multiset{Sink.Data(packets[|packets| - 1].seqno)}
  }

  lemma Regroup(a: multiset<Message>, b: multiset<Message>, c: multiset<Message>)
    ensures a + b + c == a + (b + c)
  {
  }

  lemma DataOfOneMore(packets: seq<Packet>, p: Packet)
    ensures DataOf(packets + [p]) == DataOf(packets) + multiset{Sink.Data(p.seqno)}
  {
    assert (packets + [p])[..|packets|] == packets;
  }

  lemma {:induction false} DataOfConcat(a: seq<Packet>, b: seq<Packet>)
    ensures DataOf(a + b) == DataOf(a) + DataOf(b)
    decreases |b|
  {
    if b == [] {
      assert a + b == a;
    } else {
      var front, last := b[..|b| - 1], b[|b| - 1];
      assert a + b == (a + front) + [last] && b == front + [last];
      DataOfConcat(a, front);
      DataOfOneMore(a + front, last);
      DataOfOneMore(front, last);
      Regroup(DataOf(a), DataOf(front), multiset{Sink.Data(last.seqno)});
    }
  }

  /** What has been sent between two states. */
  function NewData(p: Paced, q: Paced): multiset<Message>
    requires p.outbox <= q.outbox
  {
    DataOf(q.outbox[|p.outbox|..])
  }

  lemma NewDataOn(p: Paced, q: Paced, r: Paced)
    requires p.outbox <= q.outbox <= r.outbox
    ensures NewData(p, r) == NewData(p, q) + NewData(q, r)
  {
    var a, b, c := q.outbox[|p.outbox|..], r.outbox[|q.outbox|..], r.outbox[|p.outbox|..];
    assert c == a + b;
    DataOfConcat(a, b);
    assert NewData(p, r) == DataOf(c) && NewData(p, q) == DataOf(a) && NewData(q, r) == DataOf(b);
  }

  ghost predicate Leads(s: S.System, p: Paced, q: Paced, t: S.System) {
    && S.Reachable(t) && p.outbox <= q.outbox
    && t == s.(src := q.s, net := s.net + NewData(p, q))
  }

  lemma OneDeed(s: S.System, p: Paced, d: Deed) returns (t: S.System)
    requires S.Reachable(s) && s.src == p.s && !p.s.aborted && May(p, d) && Outgoing(d)
    ensures Leads(s, p, Next(p, d), t) && !Next(p, d).s.aborted
  {
    var q := Next(p, d);
    t := s;
    assert p.outbox[|p.outbox|..] == [];
    if d.Do? {
      t := S.Step(s, S.Source(d.action));
      S.ReachableStep(s, S.Source(d.action));
      if IsSend(d.action) {
        var packet := q.outbox[|p.outbox|];
        assert q.outbox[|p.outbox|..] == [packet];
        assert DataOf([packet]) == multiset{Sink.Data(packet.seqno)} by { assert [packet][..0] == []; }
      }
    }
  }

  /** A call that sends is a run of the system in which only the source acts. */
  lemma {:induction false} DeedsAreRun(s: S.System, p: Paced, deeds: seq<Deed>, states: seq<Paced>, q: Paced)
    returns (t: S.System)
    requires S.Reachable(s) && s.src == p.s && !p.s.aborted
    requires Follows(p, deeds, states, q) && AllOutgoing(deeds)
    ensures Leads(s, p, q, t) && !q.s.aborted
    decreases |deeds|
  {
    if deeds == [] {
      assert p.outbox[|p.outbox|..] == [];
      t := s;
    } else {
      var n := |deeds| - 1;
      FollowsFront(p, deeds, states, q);
      assert Outgoing(deeds[n]);
      var mid := DeedsAreRun(s, p, deeds[..n], states[..n + 1], states[n]);
      t := OneDeed(mid, states[n], deeds[n]);
      NewDataOn(p, states[n], q);
    }
  }

  lemma EmitsIsRun(s: S.System, p: Paced, q: Paced) returns (t: S.System)
    requires S.Reachable(s) && s.src == p.s && !p.s.aborted && Emits(p, q)
    ensures Leads(s, p, q, t) && !q.s.aborted
  {
    var deeds, states :| Follows(p, deeds, states, q) && AllOutgoing(deeds);
    t := DeedsAreRun(s, p, deeds, states, q);
  }

  lemma AckIsRun(s: S.System, p: Paced, mid: Paced, q: Paced, seqno: nat, ackno: nat) returns (t: S.System)
    requires S.Reachable(s) && s.src == p.s && !p.s.aborted && Sink.Ack(seqno, ackno) in s.net
    requires Emits(Marked(p, seqno, ackno), mid) && Emits(Settled(mid, ackno), q)
    ensures S.Reachable(t) && p.outbox <= q.outbox && t.src == q.s && t.sink == s.sink
    ensures t.net == s.net - multiset{Sink.Ack(seqno, ackno)} + NewData(p, q)
  {
    var m := Sink.Ack(seqno, ackno);
    S.AcksAreHarmless(s, seqno, ackno);
    AckSettlesFirst(p, mid, q, seqno, ackno);
    var acked := S.Step(s, S.ToSource(m));
    S.ReachableStep(s, S.ToSource(m));
    t := EmitsIsRun(acked, Acked(p, seqno, ackno), q);
  }

  lemma AckNeverAborts(s: S.System, seqno: nat, ackno: nat)
    requires S.Reachable(s) && !s.src.aborted && Sink.Ack(seqno, ackno) in s.net
    ensures !MarkReceived(s.src, seqno, ackno).aborted
  {
    S.AcksAreHarmless(s, seqno, ackno);
  }

  lemma NackIsRun(s: S.System, p: Paced, q: Paced, seqno: nat, ackno: nat) returns (t: S.System)
    requires S.Reachable(s) && s.src == p.s && !p.s.aborted && Sink.Nack(seqno, ackno) in s.net && s.sink.trimming
    requires NackExpected(p.s, seqno) && Emits(Nacked(p, seqno), q)
    ensures S.Reachable(t) && p.outbox <= q.outbox && t.src == q.s && t.sink == s.sink
    ensures t.net == s.net - multiset{Sink.Nack(seqno, ackno)} + NewData(p, q)
  {
    var m := Sink.Nack(seqno, ackno);
    var nacked := S.Step(s, S.ToSource(m));
    S.ReachableStep(s, S.ToSource(m));
    t := EmitsIsRun(nacked, Nacked(p, seqno), q);
  }

  lemma RestartIsRun(s: S.System, p: Paced, q: Paced) returns (t: S.System)
    requires S.Reachable(s) && s.src == p.s && !p.s.aborted && Emits(Restarted(p), q)
    ensures Leads(s, p, q, t)
  {
    var begun := S.Step(s, S.Source(Restart));
    S.ReachableStep(s, S.Source(Restart));
    t := EmitsIsRun(begun, Restarted(p), q);
  }

  lemma PenaltyIsRun(s: S.System, p: Paced) returns (t: S.System)
    requires S.Reachable(s) && s.src == p.s && !p.s.aborted && p.s.highestSent != 0
    ensures S.Reachable(t) && t == s.(src := Penalized(p).s)
  {
    t := S.Step(s, S.Source(TimerPenalty));
    S.ReachableStep(s, S.Source(TimerPenalty));
  }

  lemma ArrivalIsRun(s: S.System, m: Message) returns (t: S.System)
    requires S.Reachable(s) && m in s.net && (m.Data? || m.Header?) && !s.src.aborted
    ensures S.Reachable(t) && t.src == s.src && t.sink == Sink.Receive(s.sink, m.seqno, m.Header?).0
    ensures t.net == s.net - multiset{m} + Answered(s.sink, m)
  {
    t := S.Step(s, S.ToSink(m));
    S.ReachableStep(s, S.ToSink(m));
  }

  /** What the sink relies on, of every data packet or header on the wire. */
  lemma WireIsSane(s: S.System, m: Message)
    requires S.Reachable(s) && m in s.net && (m.Data? || m.Header?)
    ensures Sink.WellFormed(s.sink) && Sink.FirstByte(m.seqno, s.sink.size)
  {
    S.ReachableInvariant(s);
    assert S.Sane(s, m);
  }

  /** What the sink answers to a packet. */
  function Answered(s: Sink.Sink, m: Message): multiset<Message>
    requires m.Data? || m.Header?
  {
    var out := Sink.Receive(s, m.seqno, m.Header?).1;
    if out.Reply? then multiset{out.message} else multiset{}
  }

  // ---- The objects ----

  class Transfer {
    const src: BbrSrc
    const sink: Sink.BbrSink
    var net: multiset<Message>
    ghost var sys: S.System
    ghost var duplicated: bool         // the network has copied a message

    constructor (src: BbrSrc)
      requires src.Valid() && !src.aborted && src.pacer == null
      ensures this.src == src && Valid() && net == multiset{} && !duplicated && fresh(sink)
      ensures sink.View() == Sink.Init(src.mss, true)
    {
      this.src := src;
      sink := new Sink.BbrSink(src.mss, true);
      net, duplicated := multiset{}, false;
      sys := S.Init(src.mss, src.flowSize, src.bdp, src.startingCwnd, true);
      new;
      S.InitIsReachable(sys);
    }

    /** The objects are in a state of a run of the system. */
    ghost predicate Tracked()
      reads this, src, sink
    {
      && S.Reachable(sys) && sys.src == src.View() && sys.sink == sink.View() && sys.net == net
      && sink.trimming && sink.size == src.mss
    }

    ghost predicate Valid()
      reads this, src, src.pacer, src.events, sink
    {
      Tracked() && src.Valid() && !src.aborted && (src.pacer == null ==> net == multiset{})
    }

    /** The flow is declared finished exactly when everything was sent and nothing is left to acknowledge, which is
        when the cumulative acks cover it; then the sink has it all. */
    lemma FinishesExactly()
      requires Valid() && src.flowSize > 0
      ensures src.flowFinished <==> sys.ackedUpTo >= src.flowSize
      ensures src.flowFinished <==> src.highestSent >= src.flowSize && src.sent == []
      ensures src.flowFinished ==> sink.cumulativeAck == src.highestSent
    {
      S.FinishedExactly(sys);
      if src.flowFinished { S.FinishedMeansDelivered(sys); }
    }

    /** A data packet or a header arrives at the sink, and its answer is put on the wire. */
    method ToSink(m: Message)
      requires Valid() && m in net && (m.Data? || m.Header?)
      modifies this`net, this`sys, sink
      ensures Valid()
      ensures sink.View() == Sink.Receive(old(sink.View()), m.seqno, m.Header?).0
      ensures net == old(net) - multiset{m} + Answered(old(sink.View()), m)
    {
      WireIsSane(sys, m);
      ghost var after := ArrivalIsRun(sys, m);
      var answer := Answer(m);
      Settle(after, net - multiset{m} + answer);
    }

    /** The wire after a step, and the state of the run it was. */
    method Settle(ghost after: S.System, wire: multiset<Message>)
      requires S.Reachable(after) && after.src == src.View() && after.sink == sink.View() && after.net == wire
      requires sink.trimming && sink.size == src.mss
      modifies this`net, this`sys
      ensures Tracked() && net == wire
    {
      sys, net := after, wire;
    }

    method Answer(m: Message) returns (answer: multiset<Message>)
      requires (m.Data? || m.Header?) && Sink.WellFormed(sink.View()) && Sink.FirstByte(m.seqno, sink.size)
      modifies sink
      ensures sink.View() == Sink.Receive(old(sink.View()), m.seqno, m.Header?).0
      ensures answer == Answered(old(sink.View()), m)
    {
      var out := sink.ReceivePacket(m.seqno, m.Header?);
      answer := if out.Reply? then multiset{out.message} else multiset{};
    }

    /** The network trims a data packet to its header. */
    method Trim(seqno: nat)
      requires Valid() && Sink.Data(seqno) in net
      modifies this`net, this`sys
      ensures Valid() && net == old(net) - multiset{Sink.Data(seqno)} + multiset{Sink.Header(seqno)}
    {
      S.ReachableStep(sys, S.Trim(seqno));
      sys := S.Step(sys, S.Trim(seqno));
      net := net - multiset{Sink.Data(seqno)} + multiset{Sink.Header(seqno)};
    }

    method Lose(m: Message)
      requires Valid() && m in net
      modifies this`net, this`sys
      ensures Valid() && net == old(net) - multiset{m}
    {
      S.ReachableStep(sys, S.Lose(m));
      sys := S.Step(sys, S.Lose(m));
      net := net - multiset{m};
    }

    method Duplicate(m: Message)
      requires Valid() && m in net
      modifies this`net, this`sys, this`duplicated
      ensures Valid() && net == old(net) + multiset{m} && duplicated
    {
      S.ReachableStep(sys, S.Duplicate(m));
      sys, duplicated := S.Step(sys, S.Duplicate(m)), true;
      net := net + multiset{m};
    }

    /** The packets that have left since `before`, put on the wire. */
    function NewOnWire(n: nat): multiset<Message>
      requires n <= |src.outbox|
      reads src`outbox
    {
      DataOf(src.outbox[n..])
    }

    /** An ack arrives at the source. It never makes the source abort. */
    method AckToSource(seqno: nat, ackno: nat, window: Window)
      requires Valid() && src.pacer != null && Sink.Ack(seqno, ackno) in net
      modifies this`net, this`sys, src`sent, src`highestSent, src`cwnd, src`nackRtxPending, src`rtxPending,
               src`rtxTimeoutPending, src`rtxTimeout, src`rtoMargin, src`pacedPacket, src`outbox,
               src`aborted, src`pacingDelay, src`flowFinished, src.pacer, src.events`pendingSources
      ensures Valid() && old(src.outbox) <= src.outbox
      ensures net == old(net) - multiset{Sink.Ack(seqno, ackno)} + NewOnWire(|old(src.outbox)|)
      ensures window.Open? && old(src.pacer.IsPending()) ==>
                var d := MarkedAt(old(src.Whole()), seqno, ackno);
                !Finishes(d.p, ackno) ==>
                  src.Whole() == SendAll(SettledAt(d, ackno)) && src.pacer.Waits() == old(src.pacer.Waits())
      ensures src.events.Times(src.id) == old(src.events.Times(src.id)) + src.AfterPacket()
      ensures forall s :: s != src.pacerId && s != src.id ==> src.events.Times(s) == old(src.events.Times(s))
      ensures old(src.Alone()) ==> src.Alone()
    {
      var n := |src.outbox|;
      ghost var after := TakeAck(seqno, ackno, window);
      Settle(after, net - multiset{Sink.Ack(seqno, ackno)} + NewOnWire(n));
    }

    method TakeAck(seqno: nat, ackno: nat, window: Window) returns (ghost after: S.System)
      requires Valid() && src.pacer != null && Sink.Ack(seqno, ackno) in net
      modifies src`sent, src`highestSent, src`cwnd, src`nackRtxPending, src`rtxPending,
               src`rtxTimeoutPending, src`rtxTimeout, src`rtoMargin, src`pacedPacket, src`outbox,
               src`aborted, src`pacingDelay, src`flowFinished, src.pacer, src.events`pendingSources
      ensures src.Valid() && !src.aborted && src.pacer != null && old(src.outbox) <= src.outbox
      ensures S.Reachable(after) && after.src == src.View() && after.sink == sys.sink
      ensures after.net == sys.net - multiset{Sink.Ack(seqno, ackno)} + NewOnWire(|old(src.outbox)|)
      ensures window.Open? && old(src.pacer.IsPending()) ==>
                var d := MarkedAt(old(src.Whole()), seqno, ackno);
                !Finishes(d.p, ackno) ==>
                  src.Whole() == SendAll(SettledAt(d, ackno)) && src.pacer.Waits() == old(src.pacer.Waits())
      ensures src.events.Times(src.id) == old(src.events.Times(src.id)) + src.AfterPacket()
      ensures forall s :: s != src.pacerId && s != src.id ==> src.events.Times(s) == old(src.events.Times(s))
      ensures old(src.Alone()) ==> src.Alone()
    {
      ghost var before := src.Books();
      AckNeverAborts(sys, seqno, ackno);
      ghost var mid := src.ReceivePacket(Sink.Ack(seqno, ackno), window);
      after := AckIsRun(sys, before, mid, src.Books(), seqno, ackno);
    }

    /** A nack arrives at the source. */
    method NackToSource(seqno: nat, ackno: nat)
      requires Valid() && src.pacer != null && Sink.Nack(seqno, ackno) in net
      modifies this`net, this`sys, src`sent, src`highestSent, src`cwnd, src`nackRtxPending, src`rtxPending,
               src`rtxTimeoutPending, src`rtxTimeout, src`rtoMargin, src`pacedPacket, src`outbox,
               src`aborted, src`pacingDelay, src`flowFinished, src.pacer, src.events`pendingSources
      ensures Tracked() && old(src.outbox) <= src.outbox
      ensures src.aborted <==> !NackExpected(old(src.View()), seqno)
      ensures !src.aborted ==> Valid()
      ensures net == old(net) - multiset{Sink.Nack(seqno, ackno)} + NewOnWire(|old(src.outbox)|)
      ensures !src.aborted && old(src.pacer.IsPending()) ==>
                src.Whole() == NackTakenAt(old(src.Whole()), seqno) && src.pacer.Waits() == old(src.pacer.Waits())
      ensures !src.aborted ==> src.events.Times(src.id) == old(src.events.Times(src.id)) + src.AfterPacket()
      ensures forall s :: s != src.pacerId && s != src.id ==> src.events.Times(s) == old(src.events.Times(s))
      ensures old(src.Alone()) ==> src.Alone()
    {
      var n := |src.outbox|;
      ghost var after := TakeNack(seqno, ackno);
      Settle(after, net - multiset{Sink.Nack(seqno, ackno)} + NewOnWire(n));
    }

    method TakeNack(seqno: nat, ackno: nat) returns (ghost after: S.System)
      requires Valid() && src.pacer != null && Sink.Nack(seqno, ackno) in net
      modifies src`sent, src`highestSent, src`cwnd, src`nackRtxPending, src`rtxPending,
               src`rtxTimeoutPending, src`rtxTimeout, src`rtoMargin, src`pacedPacket, src`outbox,
               src`aborted, src`pacingDelay, src`flowFinished, src.pacer, src.events`pendingSources
      ensures src.aborted <==> !NackExpected(old(src.View()), seqno)
      ensures !src.aborted ==> src.Valid()
      ensures src.pacer != null && old(src.outbox) <= src.outbox
      ensures S.Reachable(after) && after.src == src.View() && after.sink == sys.sink
      ensures after.net == sys.net - multiset{Sink.Nack(seqno, ackno)} + NewOnWire(|old(src.outbox)|)
      ensures !src.aborted && old(src.pacer.IsPending()) ==>
                src.Whole() == NackTakenAt(old(src.Whole()), seqno) && src.pacer.Waits() == old(src.pacer.Waits())
      ensures !src.aborted ==> src.events.Times(src.id) == old(src.events.Times(src.id)) + src.AfterPacket()
      ensures forall s :: s != src.pacerId && s != src.id ==> src.events.Times(s) == old(src.events.Times(s))
      ensures old(src.Alone()) ==> src.Alone()
    {
      ghost var before := src.Books();
      ghost var mid := src.ReceivePacket(Sink.Nack(seqno, ackno), Open);
      if src.aborted {
        after := S.Step(sys, S.ToSource(Sink.Nack(seqno, ackno)));
        S.ReachableStep(sys, S.ToSource(Sink.Nack(seqno, ackno)));
        assert NewOnWire(|before.outbox|) == multiset{};
      } else {
        after := NackIsRun(sys, before, src.Books(), seqno, ackno);
      }
    }

    /** The first start, by a trigger. */
    method Activate()
      requires Valid() && src.pacer == null
      modifies this`net, this`sys, src`sent, src`highestSent, src`cwnd, src`nackRtxPending, src`rtxPending,
               src`rtxTimeoutPending, src`rtxTimeout, src`rtoMargin, src`pacedPacket, src`outbox,
               src`rto, src`maxCwnd, src`started, src`pacer, src.events`pendingSources
      ensures Valid() && src.pacer != null && fresh(src.pacer) && old(src.outbox) <= src.outbox
      ensures net == old(net) + NewOnWire(|old(src.outbox)|)
      ensures src.pacingDelay > 0 && HasRoom(RestartedAt(src.Newborn()).p.s) ==>
                && src.Whole() == RestartedAt(src.Newborn())
                && src.pacer.Waits() == Wait(src.pacingDelay, src.events.Now() + src.pacingDelay)
      ensures forall s :: s != src.pacerId ==> src.events.Times(s) == old(src.events.Times(s))
      ensures old(src.Alone()) ==> src.Alone()
    {
      var n := |src.outbox|;
      ghost var before := src.Newborn().p;
      src.StartFlow();
      ghost var after := RestartIsRun(sys, before, src.Books());
      Settle(after, net + NewOnWire(n));
    }

    /** A later start, by a trigger. */
    method Reactivate()
      requires Valid() && src.pacer != null
      modifies this`net, this`sys, src`sent, src`highestSent, src`cwnd, src`nackRtxPending, src`rtxPending,
               src`rtxTimeoutPending, src`rtxTimeout, src`rtoMargin, src`pacedPacket, src`outbox,
               src`rto, src`maxCwnd, src`started, src`pacer, src.pacer, src.events`pendingSources
      ensures Valid() && src.pacer == old(src.pacer) && old(src.outbox) <= src.outbox
      ensures net == old(net) + NewOnWire(|old(src.outbox)|)
      ensures old(src.pacer.IsPending()) ==>
                src.Whole() == SendAll(RestartedAt(old(src.Whole()))) && src.pacer.Waits() == old(src.pacer.Waits())
      ensures src.Covered() <==> old(NoneWaiting(src.sent))
      ensures forall s :: s != src.pacerId ==> src.events.Times(s) == old(src.events.Times(s))
      ensures old(src.Alone()) ==> src.Alone()
    {
      var n := |src.outbox|;
      ghost var before := src.Books();
      src.StartFlow();
      ghost var after := RestartIsRun(sys, before, src.Books());
      Settle(after, net + NewOnWire(n));
    }

    /** The simulator runs the next event: the pacer's, the source's own, or another. */
    method RunNext() returns (turn: E.Turn)
      requires Valid()
      modifies this`net, this`sys, src`sent, src`highestSent, src`cwnd, src`nackRtxPending, src`rtxPending,
               src`rtxTimeoutPending, src`rtxTimeout, src`rtoMargin, src`pacedPacket, src`outbox,
               src`rto, src`maxCwnd, src`started, src`pacer, src.pacer, src.events
      ensures Valid() && old(src.events.Now()) <= src.events.Now()
    {
      turn := src.NextTurn();
      if turn.Event? && turn.source == src.pacerId {
        FirePacer();
      } else if turn.Event? && turn.source == src.id {
        if src.pacer == null {
          Activate();
        } else {
          Reactivate();
        }
      }
    }

    /** The pacer's event has just been taken. */
    method FirePacer()
      requires Tracked() && !src.aborted
      requires src.pacer != null && src.Core() && !src.pacer.firing && src.pacer.Silent() && src.pacer.IsPending()
      requires src.events.Now() == src.pacer.nextSend
      requires BbrPacing.Clear(src.pacer.hist, src.pacer.interpacketDelay, src.pacer.nextSend)
      modifies this`net, this`sys, src`sent, src`highestSent, src`cwnd, src`nackRtxPending, src`rtxPending,
               src`rtxTimeoutPending, src`rtxTimeout, src`rtoMargin, src`pacedPacket, src`outbox, src.pacer,
               src.events`pendingSources
      ensures Valid() && src.pacer != null && old(src.outbox) <= src.outbox
      ensures net == old(net) + NewOnWire(|old(src.outbox)|)
      ensures src.Whole() == PacedAt(old(src.Whole()), old(src.pacer.interpacketDelay))
      ensures src.pacer.Waits() ==
                Wait(old(src.pacer.interpacketDelay), src.events.Now() + old(src.pacer.interpacketDelay))
      ensures src.Covered() == old(src.Covered())
      ensures forall s :: s != src.pacerId ==> src.events.Times(s) == old(src.events.Times(s))
      ensures old(src.Alone()) ==> src.Alone()
    {
      var n := |src.outbox|;
      ghost var after := TakeFiring();
      Settle(after, net + NewOnWire(n));
    }

    method TakeFiring() returns (ghost after: S.System)
      requires Tracked() && !src.aborted
      requires src.pacer != null && src.Core() && !src.pacer.firing && src.pacer.Silent() && src.pacer.IsPending()
      requires src.events.Now() == src.pacer.nextSend
      requires BbrPacing.Clear(src.pacer.hist, src.pacer.interpacketDelay, src.pacer.nextSend)
      modifies src`sent, src`highestSent, src`cwnd, src`nackRtxPending, src`rtxPending,
               src`rtxTimeoutPending, src`rtxTimeout, src`rtoMargin, src`pacedPacket, src`outbox, src.pacer,
               src.events`pendingSources
      ensures src.Valid() && src.pacer != null && !src.aborted && old(src.outbox) <= src.outbox
      ensures S.Reachable(after) && after.src == src.View() && after.sink == sys.sink
      ensures after.net == sys.net + NewOnWire(|old(src.outbox)|)
      ensures src.Whole() == PacedAt(old(src.Whole()), old(src.pacer.interpacketDelay))
      ensures src.pacer.Waits() ==
                Wait(old(src.pacer.interpacketDelay), src.events.Now() + old(src.pacer.interpacketDelay))
      ensures src.Covered() == old(src.Covered())
      ensures forall s :: s != src.pacerId ==> src.events.Times(s) == old(src.events.Times(s))
      ensures old(src.Alone()) ==> src.Alone()
    {
      ghost var before := src.Books();
      src.RunPacer();
      after := EmitsIsRun(sys, before, src.Books());
    }

    /** The timer hook, as the scanner calls it. */
    method Hook(period: nat)
      requires Valid()
      modifies this`sys, src`cwnd, src`rtxTimeoutPending, src.events`pendingSources
      ensures Valid()
    {
      if src.pacer == null {
        src.RtxTimerHook(period);
      } else {
        HookStarted(period);
      }
    }

    method HookStarted(period: nat)
      requires Valid() && src.pacer != null
      modifies this`sys, src`cwnd, src`rtxTimeoutPending, src.events`pendingSources
      ensures Valid() && src.pacer.Waits() == old(src.pacer.Waits())
      ensures if HookIsDue(old(src.Whole()), period) then
                && src.Whole() == PenalizedAt(old(src.Whole()))
                && src.events.Times(src.id) == old(src.events.Times(src.id)) +
                     E.Upcoming(src.Overdue(), src.events.endTime)
              else src.Whole() == old(src.Whole()) && src.events.Times(src.id) == old(src.events.Times(src.id))
      ensures forall s :: s != src.id ==> src.events.Times(s) == old(src.events.Times(s))
      ensures old(src.Alone()) ==> src.Alone()
    {
      ghost var after := TakeHook(period);
      sys := after;
    }

    method TakeHook(period: nat) returns (ghost after: S.System)
      requires Valid() && src.pacer != null
      modifies src`cwnd, src`rtxTimeoutPending, src.events`pendingSources
      ensures src.Valid() && !src.aborted && src.pacer.Waits() == old(src.pacer.Waits())
      ensures S.Reachable(after) && after.src == src.View() && after.sink == sys.sink && after.net == sys.net
      ensures if HookIsDue(old(src.Whole()), period) then
                && src.Whole() == PenalizedAt(old(src.Whole()))
                && src.events.Times(src.id) == old(src.events.Times(src.id)) +
                     E.Upcoming(src.Overdue(), src.events.endTime)
              else src.Whole() == old(src.Whole()) && src.events.Times(src.id) == old(src.events.Times(src.id))
      ensures forall s :: s != src.id ==> src.events.Times(s) == old(src.events.Times(s))
      ensures old(src.Alone()) ==> src.Alone()
    {
      ghost var before := src.Whole();
      src.RtxTimerHook(period);
      after := sys;
      if HookIsDue(before, period) {
        after := PenaltyIsRun(sys, before.p);
      }
    }
  }
}

/**
 Two runs of the objects, step by step. In the first a nack arrives for a packet that was acked, and an
 assertion fails; in the second a restart leaves an entry waiting that nothing asks for any more.
 */
module BbrScenes {
  import opened BbrSender
  import opened BbrPacing
  import opened BbrPacedSender
  import opened BbrHandlers
  import opened BbrSource
  import opened BbrTransfer
  import Sink = BbrSink
  import E = EventList

  /** Source, pacer, sink and network, with nothing else on the event list; `self` are the source's own events. */
  datatype Scene = Scene(desk: Desk, wait: Wait, self: multiset<nat>, sink: Sink.Sink, net: multiset<Message>)

  ghost predicate Undisturbed(t: Transfer)
    reads t, t.src, t.src.events
  {
    t.src.Alone() && !t.duplicated
  }

  ghost function Shot(t: Transfer): Scene
    reads t, t.src, t.src.pacer, t.src.events, t.sink
    requires t.src.pacer != null
  {
    Scene(t.src.Whole(), t.src.pacer.Waits(), t.src.events.Times(t.src.id), t.sink.View(), t.net)
  }

  ghost predicate Shows(t: Transfer, sc: Scene)
    reads t, t.src, t.src.pacer, t.src.events, t.sink
  {
    Undisturbed(t) && t.src.pacer != null && Shot(t) == sc && sc.wait.delay > 0
  }

  // ---- What the steps do to a scene ----

  function NewSince(d: Desk, e: Desk): multiset<Message> {
    if |d.p.outbox| <= |e.p.outbox| then DataOf(e.p.outbox[|d.p.outbox|..]) else multiset{}
  }

  ghost function FiredScene(sc: Scene): Scene {
    var d := PacedAt(TickedAt(sc.desk, sc.wait.until), sc.wait.delay);
    sc.(desk := d, wait := Wait(sc.wait.delay, sc.wait.until + sc.wait.delay), net := sc.net + NewSince(sc.desk, d))
  }

  function HookScene(sc: Scene): Scene {
    var d := PenalizedAt(sc.desk);
    sc.(desk := d, self := sc.self + multiset{if d.f.rtx > d.p.now then d.f.rtx else d.p.now})
  }

  ghost function RestartScene(sc: Scene, now: nat): Scene {
    var d := SendAll(RestartedAt(TickedAt(sc.desk, now)));
    sc.(desk := d, self := sc.self - multiset{now}, net := sc.net + NewSince(sc.desk, d))
  }

  /** Dealing with a packet may end with a start being scheduled. */
  function Later(d: Desk): multiset<nat> {
    if d.f.timedOut && Unacked(d.p.s) < d.p.s.cwnd then multiset{d.p.now} else multiset{}
  }

  function Received(sc: Scene, m: Message, d: Desk): Scene {
    sc.(desk := d, net := sc.net - multiset{m} + NewSince(sc.desk, d), self := sc.self + Later(d))
  }

  ghost function AckScene(sc: Scene, seqno: nat, ackno: nat): Scene {
    Received(sc, Sink.Ack(seqno, ackno), SendAll(SettledAt(MarkedAt(sc.desk, seqno, ackno), ackno)))
  }

  ghost function NackScene(sc: Scene, seqno: nat, ackno: nat): Scene {
    Received(sc, Sink.Nack(seqno, ackno), NackTakenAt(sc.desk, seqno))
  }

  function TrimScene(sc: Scene, seqno: nat): Scene {
    sc.(net := sc.net - multiset{Sink.Data(seqno)} + multiset{Sink.Header(seqno)})
  }

  function SinkScene(sc: Scene, m: Message): Scene
    requires m.Data? || m.Header?
  {
    sc.(sink := Sink.Receive(sc.sink, m.seqno, m.Header?).0, net := sc.net - multiset{m} + Answered(sc.sink, m))
  }

  // ---- The objects take the steps ----

  lemma PacerIsNext(t: Transfer, sc: Scene)
    requires t.Valid() && Shows(t, sc) && forall u :: u in sc.self ==> sc.wait.until < u
    ensures t.src.events.pendingSources != []
    ensures t.src.events.pendingSources[0] == E.Pending(sc.wait.until, t.src.pacerId)
  {
    t.src.PacerHasOneEvent();
    var p := t.src.events.pendingSources;
    assert t.src.events.Times(t.src.pacerId) == multiset{sc.wait.until};
    forall s, u | s != t.src.pacerId && u in E.TimesOf(p, s) ensures sc.wait.until < u {
      assert E.TimesOf(p, s) == t.src.events.Times(s);
    }
    E.NextIs(p, t.src.pacerId, sc.wait.until);
  }

  /** The pacer's event is the next. */
  method PacerTurn(t: Transfer, ghost sc: Scene)
    requires t.Valid() && Shows(t, sc) && forall u :: u in sc.self ==> sc.wait.until < u
    modifies t`net, t`sys, t.src`sent, t.src`highestSent, t.src`cwnd, t.src`nackRtxPending, t.src`rtxPending,
             t.src`rtxTimeoutPending, t.src`rtxTimeout, t.src`rtoMargin, t.src`pacedPacket, t.src`outbox,
             t.src.pacer, t.src.events
    ensures t.Valid() && Shows(t, FiredScene(sc))
  {
    TakePacerEvent(t, sc);
    ghost var d := PacedAt(TickedAt(sc.desk, sc.wait.until), sc.wait.delay);
    t.FirePacer();
    ShowsFired(t, sc, d);
  }

  lemma ShowsFired(t: Transfer, sc: Scene, d: Desk)
    requires Undisturbed(t) && t.src.pacer != null && sc.wait.delay > 0
    requires t.src.Whole() == d == PacedAt(TickedAt(sc.desk, sc.wait.until), sc.wait.delay)
    requires t.src.pacer.Waits() == Wait(sc.wait.delay, sc.wait.until + sc.wait.delay)
    requires t.src.events.Times(t.src.id) == sc.self && t.sink.View() == sc.sink
    requires t.net == sc.net + NewSince(sc.desk, d)
    ensures Shows(t, FiredScene(sc))
  {
  }

  method TakePacerEvent(t: Transfer, ghost sc: Scene)
    requires t.Valid() && Shows(t, sc) && forall u :: u in sc.self ==> sc.wait.until < u
    modifies t.src.events
    ensures t.Tracked() && !t.src.aborted && Undisturbed(t)
    ensures t.src.pacer != null && t.src.Core() && !t.src.pacer.firing && t.src.pacer.Silent()
    ensures t.src.pacer.IsPending() && t.src.events.Now() == t.src.pacer.nextSend
    ensures Clear(t.src.pacer.hist, t.src.pacer.interpacketDelay, t.src.pacer.nextSend)
    ensures Shot(t) == sc.(desk := TickedAt(sc.desk, sc.wait.until))
  {
    PacerIsNext(t, sc);
    var turn := t.src.NextTurn();
    assert turn == E.Event(t.src.pacerId);
  }

  /** The source's own event is the next: a restart. */
  method OwnTurn(t: Transfer, ghost sc: Scene, ghost now: nat)
    requires t.Valid() && Shows(t, sc) && sc.self == multiset{now} && now < sc.wait.until
    modifies t`net, t`sys, t.src`sent, t.src`highestSent, t.src`cwnd, t.src`nackRtxPending, t.src`rtxPending,
             t.src`rtxTimeoutPending, t.src`rtxTimeout, t.src`rtoMargin, t.src`pacedPacket, t.src`outbox,
             t.src`rto, t.src`maxCwnd, t.src`started, t.src`pacer, t.src.pacer, t.src.events
    ensures t.Valid() && Shows(t, RestartScene(sc, now))
    ensures t.src.Covered() <==> NoneWaiting(sc.desk.p.s.sent)
  {
    OwnIsNext(t, sc, now);
    var turn := t.src.NextTurn();
    assert turn == E.Event(t.src.id);
    assert t.src.Whole() == TickedAt(sc.desk, now) && t.net == sc.net;
    t.Reactivate();
  }

  lemma OwnIsNext(t: Transfer, sc: Scene, now: nat)
    requires t.Valid() && Shows(t, sc) && sc.self == multiset{now} && now < sc.wait.until
    ensures t.src.events.pendingSources != []
    ensures t.src.events.pendingSources[0] == E.Pending(now, t.src.id)
  {
    t.src.PacerHasOneEvent();
    var p := t.src.events.pendingSources;
    assert t.src.events.Times(t.src.pacerId) == multiset{sc.wait.until};
    forall s, u | s != t.src.id && u in E.TimesOf(p, s) ensures now < u {
      assert E.TimesOf(p, s) == t.src.events.Times(s);
    }
    E.NextIs(p, t.src.id, now);
  }

  /** The timer hook finds the timer overdue. */
  method HookTurn(t: Transfer, ghost sc: Scene, period: nat)
    requires t.Valid() && Shows(t, sc) && HookIsDue(sc.desk, period)
    modifies t`sys, t.src`cwnd, t.src`rtxTimeoutPending, t.src.events`pendingSources
    ensures t.Valid() && Shows(t, HookScene(sc))
  {
    t.HookStarted(period);
  }

  method TrimTurn(t: Transfer, ghost sc: Scene, seqno: nat)
    requires t.Valid() && Shows(t, sc) && Sink.Data(seqno) in sc.net
    modifies t`net, t`sys
    ensures t.Valid() && Shows(t, TrimScene(sc, seqno))
  {
    t.Trim(seqno);
  }

  method SinkTurn(t: Transfer, ghost sc: Scene, m: Message)
    requires t.Valid() && Shows(t, sc) && m in sc.net && (m.Data? || m.Header?)
    modifies t`net, t`sys, t.sink
    ensures t.Valid() && Shows(t, SinkScene(sc, m))
  {
    t.ToSink(m);
  }

  method AckTurn(t: Transfer, ghost sc: Scene, seqno: nat, ackno: nat)
    requires t.Valid() && Shows(t, sc) && Sink.Ack(seqno, ackno) in sc.net
    requires !Finishes(MarkedAt(sc.desk, seqno, ackno).p, ackno)
    modifies t`net, t`sys, t.src`sent, t.src`highestSent, t.src`cwnd, t.src`nackRtxPending, t.src`rtxPending,
             t.src`rtxTimeoutPending, t.src`rtxTimeout, t.src`rtoMargin, t.src`pacedPacket, t.src`outbox,
             t.src`aborted, t.src`pacingDelay, t.src`flowFinished, t.src.pacer, t.src.events`pendingSources
    ensures t.Valid() && Shows(t, AckScene(sc, seqno, ackno))
  {
    ghost var d := SendAll(SettledAt(MarkedAt(sc.desk, seqno, ackno), ackno));
    t.AckToSource(seqno, ackno, Open);
    Arrived(t, sc, Sink.Ack(seqno, ackno), d);
  }

  lemma AfterPacketIs(t: Transfer, d: Desk)
    requires t.src.pacer != null && t.src.Whole() == d && t.src.events.endTime == 0
    ensures t.src.AfterPacket() == Later(d)
  {
  }

  lemma Arrived(t: Transfer, sc: Scene, m: Message, d: Desk)
    requires Undisturbed(t) && t.src.pacer != null && sc.wait.delay > 0
    requires t.src.Whole() == d && t.src.pacer.Waits() == sc.wait && t.sink.View() == sc.sink
    requires t.src.events.Times(t.src.id) == sc.self + t.src.AfterPacket()
    requires t.net == sc.net - multiset{m} + NewSince(sc.desk, d)
    ensures Shows(t, Received(sc, m, d))
  {
    AfterPacketIs(t, d);
  }

  method NackTurn(t: Transfer, ghost sc: Scene, seqno: nat, ackno: nat)
    requires t.Valid() && Shows(t, sc) && Sink.Nack(seqno, ackno) in sc.net && NackExpected(sc.desk.p.s, seqno)
    modifies t`net, t`sys, t.src`sent, t.src`highestSent, t.src`cwnd, t.src`nackRtxPending, t.src`rtxPending,
             t.src`rtxTimeoutPending, t.src`rtxTimeout, t.src`rtoMargin, t.src`pacedPacket, t.src`outbox,
             t.src`aborted, t.src`pacingDelay, t.src`flowFinished, t.src.pacer, t.src.events`pendingSources
    ensures t.Valid() && Shows(t, NackScene(sc, seqno, ackno))
  {
    ghost var d := NackTakenAt(sc.desk, seqno);
    t.NackToSource(seqno, ackno);
    Arrived(t, sc, Sink.Nack(seqno, ackno), d);
  }

  // ---- A flow of three packets of one byte, paced by 16, with a round trip of 16 and an RTO of 48 ----

  function Entry(timer: nat, seqno: nat): SentPacket { SentPacket(timer, seqno, false, false, false) }

  function Flow(sent: seq<SentPacket>, highestSent: nat, cwnd: nat, pending: nat, outbox: seq<Packet>, token: bool,
                hist: seq<Pace>, lastSend: nat, now: nat): Paced
  {
    Paced(Sender(1, 3, 3, sent, highestSent, cwnd, pending, true, false, false),
          outbox, token, hist, lastSend, now, 2, 16)
  }

  const NoneReceived: Sink.Sink := Sink.Sink(1, true, 0, [])

  const Sends1: seq<Pace> := [Fired(16, 16), Sent(16)]
  const Sends2: seq<Pace> := Sends1 + [Fired(32, 16), Sent(32)]
  const Sends3: seq<Pace> := Sends2 + [Fired(48, 16), Sent(48)]
  const Out1: seq<Packet> := [Packet(1, false, 16)]
  const Out2: seq<Packet> := Out1 + [Packet(2, false, 32)]
  const Out3: seq<Packet> := Out2 + [Packet(3, false, 48)]

  const Begun: Scene :=
    Scene(Desk(Flow([], 0, 3, 0, [], false, [], 0, 0), Flags(false, false, 2, 0)),
          Wait(16, 16), multiset{}, NoneReceived, multiset{})

  const OneSent: Scene :=
    Scene(Desk(Flow([Entry(66, 1)], 1, 3, 0, Out1, false, Sends1, 16, 16), Flags(false, false, 2, 66)),
          Wait(16, 32), multiset{}, NoneReceived, multiset{Sink.Data(1)})

  const TwoSent: Scene :=
    Scene(Desk(Flow([Entry(66, 1), Entry(82, 2)], 2, 3, 0, Out2, false, Sends2, 32, 32), Flags(false, false, 2, 66)),
          Wait(16, 48), multiset{}, NoneReceived, multiset{Sink.Data(1), Sink.Data(2)})

  const AllSent: Scene :=
    Scene(Desk(Flow([Entry(66, 1), Entry(82, 2), Entry(98, 3)], 3, 3, 0, Out3, false, Sends3, 48, 48),
               Flags(false, false, 2, 66)),
          Wait(16, 64), multiset{}, NoneReceived, multiset{Sink.Data(1), Sink.Data(2), Sink.Data(3)})

  /** A firing that finds nothing to send is kept. */
  const Saved: Scene :=
    Scene(Desk(Flow([Entry(66, 1), Entry(82, 2), Entry(98, 3)], 3, 3, 0, Out3, true, Sends3 + [Fired(64, 16)], 64, 64),
               Flags(false, false, 2, 66)),
          Wait(16, 80), multiset{}, NoneReceived, multiset{Sink.Data(1), Sink.Data(2), Sink.Data(3)})

  lemma FirstIsSent()
    ensures FiredScene(Begun) == OneSent
  {
    var d := FiredAt(TickedAt(Begun.desk, 16), 16);
    assert Count([], InFlight) == 0;
    assert MaySendNew(d.p);
    assert Earliest([Entry(66, 1)]) == 66;
    assert SendAll(d) == SendOneNew(d);
    assert d.p.hist + [Sent(16)] == Sends1;
    assert NewSince(Begun.desk, OneSent.desk) == multiset{Sink.Data(1)} by {
      assert Out1[0..] == Out1 && Out1[..0] == [];
    }
  }

  lemma DataOfOne(outbox: seq<Packet>, more: seq<Packet>, p: Packet)
    requires more == outbox + [p]
    ensures DataOf(more[|outbox|..]) == multiset{Sink.Data(p.seqno)}
  {
    assert more[|outbox|..] == [p];
    assert [p][..0] == [];
  }

  lemma SecondIsSent()
    ensures FiredScene(OneSent) == TwoSent
  {
    var d := FiredAt(TickedAt(OneSent.desk, 32), 16);
    assert [Entry(66, 1)][..0] == [];
    assert Unacked(d.p.s) == 1;
    assert SendAll(d) == SendOneNew(d);
    assert d.p.hist + [Sent(32)] == Sends2;
    DataOfOne(Out1, Out2, Packet(2, false, 32));
  }

  lemma ThirdIsSent()
    ensures FiredScene(TwoSent) == AllSent
  {
    var d := FiredAt(TickedAt(TwoSent.desk, 48), 16);
    assert [Entry(66, 1), Entry(82, 2)][..1] == [Entry(66, 1)] && [Entry(66, 1)][..0] == [];
    assert Unacked(d.p.s) == 2;
    assert SendAll(d) == SendOneNew(d);
    assert d.p.hist + [Sent(48)] == Sends3;
    DataOfOne(Out2, Out3, Packet(3, false, 48));
  }

  lemma FiringIsSaved()
    ensures FiredScene(AllSent) == Saved
  {
    var d := FiredAt(TickedAt(AllSent.desk, 64), 16);
    assert SendAll(d) == d;
    assert Out3[|Out3|..] == [];
  }

  // ---- First run: a nack for a packet that was acked ----

  const Sends4: seq<Pace> := Sends3 + [Fired(64, 16)]

  /** The hook has found the timer of packet 1 overdue; packet 2 was trimmed, packet 3 delivered, and packet 1
      is still on its way. */
  const Answered23: Scene :=
    Scene(Desk(Flow([Entry(66, 1), Entry(82, 2), Entry(98, 3)], 3, 1, 0, Out3, true, Sends4, 64, 64),
               Flags(false, true, 2, 66)),
          Wait(16, 80), multiset{66}, Sink.Sink(1, true, 0, [3]),
          multiset{Sink.Data(1), Sink.Nack(2, 2), Sink.Ack(3, 3)})

  /** The nack found no room in the window, so the flag is up. */
  const NackTaken: Scene :=
    Scene(Desk(Flow([Entry(66, 1), Entry(82, 2).(nacked := true), Entry(98, 3)], 3, 1, 1, Out3, true, Sends4, 64, 64),
               Flags(true, true, 2, 66)),
          Wait(16, 80), multiset{66}, Sink.Sink(1, true, 0, [3]), multiset{Sink.Data(1), Sink.Ack(3, 3)})

  /** The ack made room: the scan timed packet 1 out and sent it again. */
  const TwoCopies: Scene :=
    Scene(Desk(Flow([Entry(114, 1), Entry(82, 2).(nacked := true), Entry(98, 3).(acked := true)], 3, 1, 1,
                    Out3 + [Packet(1, true, 64)], false, Sends4 + [Sent(64)], 64, 64),
               Flags(true, false, 8, 114)),
          Wait(16, 80), multiset{66}, Sink.Sink(1, true, 0, [3]), multiset{Sink.Data(1), Sink.Data(1)})

  /** The slow copy was trimmed and answered with a nack; the other was delivered and answered with an ack. */
  const BothAnswered: Scene :=
    TwoCopies.(sink := Sink.Sink(1, true, 1, [3]), net := multiset{Sink.Nack(1, 1), Sink.Ack(1, 1)})

  /** The ack came first and removed the entry. */
  const EntryGone: Scene :=
    Scene(Desk(Flow([Entry(82, 2).(nacked := true), Entry(98, 3).(acked := true)], 3, 1, 1,
                    Out3 + [Packet(1, true, 64)], false, Sends4 + [Sent(64)], 64, 64),
               Flags(true, false, 8, 0)),
          Wait(16, 80), multiset{66}, Sink.Sink(1, true, 1, [3]), multiset{Sink.Nack(1, 1)})

  function Flying(e: SentPacket): nat { if InFlight(e) then 1 else 0 }

  lemma CountTwo(a: SentPacket, b: SentPacket)
    ensures Count([a, b], InFlight) == Flying(a) + Flying(b)
  {
    assert [a, b][..1] == [a] && [a][..0] == [];
    assert Count([], InFlight) == 0;
    assert Count([a], InFlight) == Flying(a);
  }

  lemma CountThree(a: SentPacket, b: SentPacket, c: SentPacket)
    ensures Count([a, b, c], InFlight) == Flying(a) + Flying(b) + Flying(c)
  {
    assert [a, b, c][..2] == [a, b];
    CountTwo(a, b);
  }

  function Sooner(t: nat, e: SentPacket): nat { if InFlight(e) && (e.timer < t || t == 0) then e.timer else t }

  lemma EarliestOfTwo(a: SentPacket, b: SentPacket)
    ensures Earliest([a, b]) == Sooner(Sooner(0, a), b)
  {
    assert [a, b][..1] == [a] && [a][..0] == [];
    assert Earliest([a]) == Sooner(0, a);
  }

  lemma EarliestOfThree(a: SentPacket, b: SentPacket, c: SentPacket)
    ensures Earliest([a, b, c]) == Sooner(Sooner(Sooner(0, a), b), c)
  {
    assert [a, b, c][..2] == [a, b];
    EarliestOfTwo(a, b);
  }

  lemma IndexOfLast(a: SentPacket, b: SentPacket, c: SentPacket)
    requires a.seqno != c.seqno && b.seqno != c.seqno
    ensures IndexOf([a, b, c], c.seqno) == 2
  {
    assert [a, b, c][2] == c;
  }

  lemma NackIsTaken()
    ensures NackScene(Answered23, 2, 2) == NackTaken
  {
    var d := Answered23.desk;
    var sent := d.p.s.sent;
    assert sent[1..] == [Entry(82, 2), Entry(98, 3)] && sent[1..][0] == Entry(82, 2);
    assert IndexOf(sent, 2) == 1;
    var e := NackedAt(d, 2);
    var marked := e.p.s.sent;
    assert marked == [Entry(66, 1), Entry(82, 2).(nacked := true), Entry(98, 3)];
    CountThree(Entry(66, 1), Entry(82, 2).(nacked := true), Entry(98, 3));
    assert Unacked(e.p.s) == 2;
    assert TryAt(e, 1) == NackTaken.desk;
    assert Out3[|Out3|..] == [];
  }

  /** The ack of packet 3 marks its entry, and nothing else yet. */
  const Marked3: Desk :=
    NackTaken.desk.(p := NackTaken.desk.p.(s := NackTaken.desk.p.s.(
      sent := [Entry(66, 1), Entry(82, 2).(nacked := true), Entry(98, 3).(acked := true)])))

  lemma AckMarksThree()
    ensures MarkedAt(NackTaken.desk, 3, 3) == Marked3 == SettledAt(Marked3, 3) && !Finishes(Marked3.p, 3)
  {
    var n2, a3 := Entry(82, 2).(nacked := true), Entry(98, 3).(acked := true);
    IndexOfLast(Entry(66, 1), n2, Entry(98, 3));
    assert MarkedAt(NackTaken.desk, 3, 3).p.s.sent == [Entry(66, 1), n2, a3];
    EarliestOfThree(Entry(66, 1), n2, a3);
  }

  lemma ScanMakesRoom()
    ensures SendAll(Marked3) == TwoCopies.desk
  {
    var d0 := Marked3.(f := Marked3.f.(asked := false));
    ScanTwoCopies(d0);
    ScanIsFold(d0);
    assert SendNext(Scan(Marked3)) == TwoCopies.desk;
  }

  lemma AckMakesRoom()
    ensures AckScene(NackTaken, 3, 3) == TwoCopies
    ensures !Finishes(MarkedAt(NackTaken.desk, 3, 3).p, 3)
  {
    AckMarksThree();
    ScanMakesRoom();
    DataOfOne(Out3, Out3 + [Packet(1, true, 64)], Packet(1, true, 64));
  }

  lemma ScanTwoCopies(d: Desk)
    requires d == Marked3.(f := Flags(false, true, 2, 66))
    ensures ScanFrom(d, 0) == TwoCopies.desk.(f := Flags(true, true, 8, 114))
  {
    var n2, a3 := Entry(82, 2).(nacked := true), Entry(98, 3).(acked := true);
    var out := Entry(66, 1).(timedOut := true);
    var e := TimeAt(d, 0);
    assert e.p.s.sent == [out, n2, a3];
    CountThree(out, n2, a3);
    assert Unacked(e.p.s) == 0;
    var r := ResendAt(e, 0);
    var again := [Entry(114, 1), n2, a3];
    assert r.p.s.sent == again;
    EarliestOfThree(Entry(114, 1), n2, a3);
    assert TurnAt(d, 0) == r;
    var r2 := r.(f := r.f.(asked := true));
    assert TurnAt(r, 1) == r2;
    assert TurnAt(r2, 2) == r2;
    assert ScanFrom(r2, 3) == r2;
    assert ScanFrom(r2, 2) == r2;
    assert ScanFrom(r, 1) == r2;
  }

  lemma AckRemovesEntry()
    ensures AckScene(BothAnswered, 1, 1) == EntryGone
    ensures !Finishes(MarkedAt(BothAnswered.desk, 1, 1).p, 1)
    ensures !NackExpected(EntryGone.desk.p.s, 1)
  {
    var d := BothAnswered.desk;
    var sent := d.p.s.sent;
    var n2, a3 := Entry(82, 2).(nacked := true), Entry(98, 3).(acked := true);
    assert sent[1..] == [n2, a3];
    assert DropCovered(sent, 1) == [n2, a3];
    EarliestOfTwo(n2, a3);
    var m := MarkedAt(d, 1, 1);
    var s := SettledAt(m, 1);
    assert s == m;
    var d0 := s.(f := s.f.(asked := false));
    var d1 := s;
    assert TurnAt(d0, 0) == d1;
    assert TurnAt(d1, 1) == d1;
    assert ScanFrom(d1, 2) == d1;
    assert ScanFrom(d1, 1) == d1;
    assert ScanFrom(d0, 0) == d1;
    ScanIsFold(d0);
    assert SendAll(s) == EntryGone.desk;
    assert [n2, a3][1..] == [a3] && [a3][1..] == [];
    assert IndexOf([n2, a3], 1) == 2;
    var out := Out3 + [Packet(1, true, 64)];
    assert out[|out|..] == [];
  }

  lemma SwapInThree(a: Message, b: Message, c: Message, d: Message)
    ensures multiset{a, b, c} - multiset{b} + multiset{d} == multiset{a, d, c}
  {
  }

  lemma SwapInTwo(a: Message, b: Message, d: Message)
    ensures multiset{a, b} - multiset{b} + multiset{d} == multiset{a, d}
  {
  }

  lemma SwapTwo(a: Message, b: Message)
    ensures multiset{a, b} == multiset{b, a}
  {
  }

  lemma SwapLast(a: Message, b: Message, c: Message)
    ensures multiset{a, b, c} == multiset{a, c, b}
  {
  }

  const Hooked: Scene := Saved.(desk := PenalizedAt(Saved.desk), self := multiset{66})
  const Trimmed2: Scene := Hooked.(net := multiset{Sink.Data(1), Sink.Header(2), Sink.Data(3)})
  const Answered2: Scene := Hooked.(net := multiset{Sink.Data(1), Sink.Nack(2, 2), Sink.Data(3)})

  lemma HookIsDueNow()
    ensures HookIsDue(Saved.desk, 2) && HookScene(Saved) == Hooked
  {
  }

  lemma TwoIsTrimmed()
    ensures Sink.Data(2) in Hooked.net && TrimScene(Hooked, 2) == Trimmed2
  {
    SwapInThree(Sink.Data(1), Sink.Data(2), Sink.Data(3), Sink.Header(2));
  }

  lemma TwoIsNacked()
    ensures Sink.Header(2) in Trimmed2.net && SinkScene(Trimmed2, Sink.Header(2)) == Answered2
  {
    assert Answered(NoneReceived, Sink.Header(2)) == multiset{Sink.Nack(2, 2)};
    SwapInThree(Sink.Data(1), Sink.Header(2), Sink.Data(3), Sink.Nack(2, 2));
  }

  lemma ThreeIsAcked()
    ensures Sink.Data(3) in Answered2.net && SinkScene(Answered2, Sink.Data(3)) == Answered23
  {
    assert Sink.InsertSorted([], 3) == [3];
    assert Answered(NoneReceived, Sink.Data(3)) == multiset{Sink.Ack(3, 3)};
    SwapLast(Sink.Data(1), Sink.Nack(2, 2), Sink.Data(3));
    SwapInThree(Sink.Data(1), Sink.Data(3), Sink.Nack(2, 2), Sink.Ack(3, 3));
    SwapLast(Sink.Data(1), Sink.Ack(3, 3), Sink.Nack(2, 2));
  }

  const Trimmed1: Scene := TwoCopies.(net := multiset{Sink.Data(1), Sink.Header(1)})
  const Answered1: Scene := TwoCopies.(net := multiset{Sink.Data(1), Sink.Nack(1, 1)})

  lemma OneCopyIsTrimmed()
    ensures Sink.Data(1) in TwoCopies.net && TrimScene(TwoCopies, 1) == Trimmed1
  {
    SwapInTwo(Sink.Data(1), Sink.Data(1), Sink.Header(1));
  }

  lemma OneIsNacked()
    ensures Sink.Header(1) in Trimmed1.net && SinkScene(Trimmed1, Sink.Header(1)) == Answered1
  {
    assert Answered(Trimmed1.sink, Sink.Header(1)) == multiset{Sink.Nack(1, 1)};
    SwapInTwo(Sink.Data(1), Sink.Header(1), Sink.Nack(1, 1));
  }

  lemma OneIsAcked()
    ensures Sink.Data(1) in Answered1.net && SinkScene(Answered1, Sink.Data(1)) == BothAnswered
  {
    var next := Sink.Sink(1, true, 1, [3]);
    assert Sink.Absorb(next) == next;
    assert Answered(Answered1.sink, Sink.Data(1)) == multiset{Sink.Ack(1, 1)};
    SwapTwo(Sink.Data(1), Sink.Nack(1, 1));
    SwapInTwo(Sink.Nack(1, 1), Sink.Data(1), Sink.Ack(1, 1));
  }

  // ---- Second run: a restart while entries wait ----

  const Trimmed: Scene := AllSent.(net := multiset{Sink.Data(1), Sink.Header(2), Sink.Data(3)})
  const NackComes: Scene := AllSent.(net := multiset{Sink.Data(1), Sink.Nack(2, 2), Sink.Data(3)})

  /** The resend of packet 2 finds no unused firing, so the flag is up. */
  const NackWaits: Scene :=
    Scene(Desk(Flow([Entry(66, 1), Entry(82, 2).(nacked := true), Entry(98, 3)], 3, 3, 1, Out3, false, Sends3, 48, 48),
               Flags(true, false, 2, 66)),
          Wait(16, 64), multiset{}, NoneReceived, multiset{Sink.Data(1), Sink.Data(3)})

  /** The hook has shrunk the window and scheduled a start. */
  const HookRan: Scene := NackWaits.(desk := PenalizedAt(NackWaits.desk), self := multiset{66})

  /** The scan has timed packet 1 out, and found no room to resend either. */
  const TwoWait: Scene :=
    Scene(Desk(Flow([Entry(66, 1).(timedOut := true), Entry(82, 2).(nacked := true), Entry(98, 3)], 3, 1, 1, Out3,
                    true, Sends4, 64, 64),
               Flags(true, false, 2, 66)),
          Wait(16, 80), multiset{66}, NoneReceived, multiset{Sink.Data(1), Sink.Data(3)})

  /** The start has put the window back and taken the flag down. */
  const Stranded: Scene :=
    Scene(Desk(Flow([Entry(66, 1).(timedOut := true), Entry(82, 2).(nacked := true), Entry(98, 3)], 3, 3, 1, Out3,
                    true, Sends4, 64, 66),
               Flags(false, false, 2, 0)),
          Wait(16, 80), multiset{}, NoneReceived, multiset{Sink.Data(1), Sink.Data(3)})

  lemma TwoIsTrimmedEarly()
    ensures Sink.Data(2) in AllSent.net && TrimScene(AllSent, 2) == Trimmed
  {
    SwapInThree(Sink.Data(1), Sink.Data(2), Sink.Data(3), Sink.Header(2));
  }

  lemma TwoIsNackedEarly()
    ensures Sink.Header(2) in Trimmed.net && SinkScene(Trimmed, Sink.Header(2)) == NackComes
  {
    assert Answered(NoneReceived, Sink.Header(2)) == multiset{Sink.Nack(2, 2)};
    SwapInThree(Sink.Data(1), Sink.Header(2), Sink.Data(3), Sink.Nack(2, 2));
  }

  lemma TakeMiddle(a: Message, b: Message, c: Message)
    ensures multiset{a, b, c} - multiset{b} + multiset{} == multiset{a, c}
  {
  }

  lemma NackHasToWait()
    ensures NackScene(NackComes, 2, 2) == NackWaits
    ensures Sink.Nack(2, 2) in NackComes.net && NackExpected(NackComes.desk.p.s, 2)
  {
    var d := NackComes.desk;
    assert d.p.s.sent[1..][0] == Entry(82, 2);
    assert IndexOf(d.p.s.sent, 2) == 1;
    var e := NackedAt(d, 2);
    assert e.p.s.sent == NackWaits.desk.p.s.sent;
    assert TryAt(e, 1) == NackWaits.desk;
    assert Out3[|Out3|..] == [];
    TakeMiddle(Sink.Data(1), Sink.Nack(2, 2), Sink.Data(3));
  }

  lemma HookIsDueThen()
    ensures HookIsDue(NackWaits.desk, 18) && HookScene(NackWaits) == HookRan
  {
  }

  lemma ScanFindsNoRoom()
    ensures FiredScene(HookRan) == TwoWait
  {
    var d := FiredAt(TickedAt(HookRan.desk, 64), 16);
    var out, n2 := Entry(66, 1).(timedOut := true), Entry(82, 2).(nacked := true);
    var d0 := d.(f := d.f.(asked := false));
    var e := TimeAt(d0, 0);
    assert e.p.s.sent == [out, n2, Entry(98, 3)];
    CountThree(out, n2, Entry(98, 3));
    assert Unacked(e.p.s) == 1;
    var r := e.(f := e.f.(asked := true));
    assert TurnAt(d0, 0) == r;
    assert TurnAt(r, 1) == r;
    assert TurnAt(r, 2) == r;
    assert ScanFrom(r, 3) == r;
    assert ScanFrom(r, 2) == r;
    assert ScanFrom(r, 1) == r;
    ScanIsFold(d0);
    assert SendAll(d) == r.(f := r.f.(timedOut := false));
    assert Out3[|Out3|..] == [];
  }

  lemma RestartForgets()
    ensures RestartScene(TwoWait, 66) == Stranded
  {
    var d := RestartedAt(TickedAt(TwoWait.desk, 66));
    assert SendAll(d) == d;
    assert Out3[|Out3|..] == [];
  }

  /** The entries of packets 1 and 2 wait, nothing asks for them, and both could be resent at once. */
  lemma StrandedWaits()
    ensures var d := Stranded.desk;
            && Waiting(d.p.s.sent[0]) && Waiting(d.p.s.sent[1]) && !d.f.asked && MayResend(d.p)
            && FiredScene(Stranded).desk.p.s == d.p.s
  {
    var d := Stranded.desk;
    CountThree(d.p.s.sent[0], d.p.s.sent[1], d.p.s.sent[2]);
    assert d.p.s.sent == [d.p.s.sent[0], d.p.s.sent[1], d.p.s.sent[2]];
    assert SendAll(FiredAt(TickedAt(d, 80), 16)) == FiredAt(TickedAt(d, 80), 16);
  }

  // ---- The objects go through the scenes ----

  /** A source, a sink and a network that have just started the flow. */
  method StartTransfer() returns (t: Transfer)
    ensures fresh(t) && fresh(t.src) && fresh(t.src.events) && fresh(t.sink) && fresh(t.src.pacer)
    ensures t.Valid() && Shows(t, Begun)
  {
    t := MakeTransfer();
    Begin(t);
  }

  method Begin(t: Transfer)
    requires t.Valid() && t.src.pacer == null && Undisturbed(t) && t.net == multiset{} && t.src.outbox == []
    requires t.src.Newborn() == Newborn && t.sink.View() == NoneReceived
    requires t.src.pacingDelay == 16 && t.src.events.Now() == 0 && t.src.events.Times(t.src.id) == multiset{}
    modifies t, t.src, t.src.events
    ensures t.Valid() && Shows(t, Begun) && fresh(t.src.pacer)
  {
    NewbornBegins();
    t.Activate();
    assert t.src.Whole() == Begun.desk;
    NothingLeft(t);
  }

  const Newborn: Desk := Desk(Start(Init(1, 3, 3, 1), 0, 2, 16), Flags(false, false, 0, 0))

  lemma NewbornBegins()
    ensures RestartedAt(Newborn) == Begun.desk && HasRoom(Begun.desk.p.s)
  {
    assert Unacked(Begun.desk.p.s) == 0;
  }

  lemma NothingLeft(t: Transfer)
    requires t.src.outbox == []
    ensures t.NewOnWire(0) == multiset{}
  {
    assert t.src.outbox[0..] == [];
  }

  method MakeTransfer() returns (t: Transfer)
    ensures fresh(t) && fresh(t.src) && fresh(t.src.events) && fresh(t.sink)
    ensures t.Valid() && t.src.pacer == null && Undisturbed(t) && t.net == multiset{} && t.src.outbox == []
    ensures t.src.Newborn() == Newborn
    ensures t.src.pacingDelay == 16 && t.src.events.Now() == 0 && t.src.events.Times(t.src.id) == multiset{}
    ensures t.sink.View() == NoneReceived
  {
    var events := new E.EventList(0);
    var src := new BbrSrc(events, 1, 2, 1, 3, 3, 16, 2, 1, 16);
    t := new Transfer(src);
  }

  method SendThree(t: Transfer)
    requires t.Valid() && Shows(t, Begun)
    modifies t, t.src, t.src.pacer, t.src.events
    ensures t.Valid() && Shows(t, AllSent)
  {
    FirstIsSent();
    PacerTurn(t, Begun);
    SecondIsSent();
    PacerTurn(t, OneSent);
    ThirdIsSent();
    PacerTurn(t, TwoSent);
  }

  method AnswerTwoAndThree(t: Transfer)
    requires t.Valid() && Shows(t, Saved)
    modifies t, t.src, t.src.events, t.sink
    ensures t.Valid() && Shows(t, Answered23)
  {
    HookIsDueNow();
    HookTurn(t, Saved, 2);
    TwoIsTrimmed();
    TrimTurn(t, Hooked, 2);
    TwoIsNacked();
    SinkTurn(t, Trimmed2, Sink.Header(2));
    ThreeIsAcked();
    SinkTurn(t, Answered2, Sink.Data(3));
  }

  method AnswerBothCopies(t: Transfer)
    requires t.Valid() && Shows(t, TwoCopies)
    modifies t, t.sink
    ensures t.Valid() && Shows(t, BothAnswered)
  {
    OneCopyIsTrimmed();
    TrimTurn(t, TwoCopies, 1);
    OneIsNacked();
    SinkTurn(t, Trimmed1, Sink.Header(1));
    OneIsAcked();
    SinkTurn(t, Answered1, Sink.Data(1));
  }

  method ResendOne(t: Transfer)
    requires t.Valid() && Shows(t, Answered23)
    modifies t, t.src, t.src.pacer, t.src.events
    ensures t.Valid() && Shows(t, TwoCopies)
  {
    NackIsExpected();
    NackIsTaken();
    NackTurn(t, Answered23, 2, 2);
    AckTakenNext(t);
  }

  lemma NackIsExpected()
    ensures NackExpected(Answered23.desk.p.s, 2)
  {
    assert Answered23.desk.p.s.sent[1..][0] == Entry(82, 2);
    assert IndexOf(Answered23.desk.p.s.sent, 2) == 1;
  }

  method AckTakenNext(t: Transfer)
    requires t.Valid() && Shows(t, NackTaken)
    modifies t, t.src, t.src.pacer, t.src.events
    ensures t.Valid() && Shows(t, TwoCopies)
  {
    AckMakesRoom();
    AckTurn(t, NackTaken, 3, 3);
  }

  /** A run without duplication at the end of which a nack makes the source abort, though it is for a packet
      the sink has and the source has seen acked. */
  method LateNack() returns (t: Transfer)
    ensures t.Tracked() && t.src.aborted && !t.duplicated && Sink.AlreadyReceived(t.sink.View(), 1)
  {
    t := StartTransfer();
    SendThree(t);
    SaveFiring(t);
    AnswerTwoAndThree(t);
    ResendOne(t);
    AnswerBothCopies(t);
    AckThenNack(t);
  }

  method SaveFiring(t: Transfer)
    requires t.Valid() && Shows(t, AllSent)
    modifies t, t.src, t.src.pacer, t.src.events
    ensures t.Valid() && Shows(t, Saved) && t.src.pacer == old(t.src.pacer)
  {
    FiringIsSaved();
    PacerTurn(t, AllSent);
  }

  method AckThenNack(t: Transfer)
    requires t.Valid() && Shows(t, BothAnswered)
    modifies t, t.src, t.src.pacer, t.src.events
    ensures t.Tracked() && t.src.aborted && !t.duplicated && Sink.AlreadyReceived(t.sink.View(), 1)
  {
    AckRemovesEntry();
    AckTurn(t, BothAnswered, 1, 1);
    NackIsLate(t);
  }

  method NackIsLate(t: Transfer)
    requires t.Valid() && Shows(t, EntryGone) && !NackExpected(EntryGone.desk.p.s, 1)
    modifies t, t.src, t.src.pacer, t.src.events
    ensures t.Tracked() && t.src.aborted && !t.duplicated && t.sink.View() == EntryGone.sink
  {
    t.NackToSource(1, 1);
  }

  /** A run at the end of which entries wait that nothing asks for, though they could be resent. */
  method StrandedByRestart() returns (t: Transfer)
    ensures t.Valid() && Shows(t, Stranded) && !t.src.Covered() && !t.src.aborted
  {
    t := StartTransfer();
    SendThree(t);
    LoseTwo(t);
    RestartForgets();
    OwnTurn(t, TwoWait, 66);
    StrandedWaits();
  }

  method LoseTwo(t: Transfer)
    requires t.Valid() && Shows(t, AllSent)
    modifies t, t.src, t.src.pacer, t.src.events, t.sink
    ensures t.Valid() && Shows(t, TwoWait)
  {
    NackTwo(t);
    HookNext(t);
    ScanNext(t);
  }

  method HookNext(t: Transfer)
    requires t.Valid() && Shows(t, NackWaits)
    modifies t, t.src, t.src.pacer, t.src.events
    ensures t.Valid() && Shows(t, HookRan) && t.src.pacer == old(t.src.pacer)
  {
    HookIsDueThen();
    HookTurn(t, NackWaits, 18);
  }

  method ScanNext(t: Transfer)
    requires t.Valid() && Shows(t, HookRan)
    modifies t, t.src, t.src.pacer, t.src.events
    ensures t.Valid() && Shows(t, TwoWait)
  {
    ScanFindsNoRoom();
    PacerTurn(t, HookRan);
  }

  method NackTwo(t: Transfer)
    requires t.Valid() && Shows(t, AllSent)
    modifies t, t.src, t.src.pacer, t.src.events, t.sink
    ensures t.Valid() && Shows(t, NackWaits) && t.src.pacer == old(t.src.pacer)
  {
    TrimTwo(t);
    NackTakenNext(t);
  }

  method NackTakenNext(t: Transfer)
    requires t.Valid() && Shows(t, NackComes)
    modifies t, t.src, t.src.pacer, t.src.events
    ensures t.Valid() && Shows(t, NackWaits) && t.src.pacer == old(t.src.pacer)
  {
    NackHasToWait();
    NackTurn(t, NackComes, 2, 2);
  }

  method TrimTwo(t: Transfer)
    requires t.Valid() && Shows(t, AllSent)
    modifies t, t.sink
    ensures t.Valid() && Shows(t, NackComes)
  {
    TwoIsTrimmedEarly();
    TrimTurn(t, AllSent, 2);
    TwoIsNackedEarly();
    SinkTurn(t, Trimmed, Sink.Header(2));
  }
}

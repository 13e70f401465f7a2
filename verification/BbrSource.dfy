/**
 `BBRSrc` and `BBRPacer` as they run: two objects that call each other, on the simulator's event list.
 Whatever a call does, and however deep the calls nest, it takes only steps of the paced sender; and while the
 pacer waits, it computes exactly what `BbrHandlers` says.
 */
module BbrSource {
  import opened Arith
  import opened BbrSender
  import opened BbrPacing
  import opened BbrPacedSender
  import opened BbrHandlers
  import E = EventList
  import Sink = BbrSink

  /** What the bandwidth model makes of an ack: its window goes on, or ends with a new pacing delay. */
  datatype Window = Open | Closed(delay: nat)

  function NotBefore(now: nat, timeout: nat): nat { if now > timeout then now else timeout }

  /** Schedules a source at a timeout, or now if that is over. */
  method ScheduleNotBefore(events: E.EventList, source: nat, timeout: nat)
    requires events.Valid()
    modifies events`pendingSources
    ensures events.Valid()
    ensures events.Times(source) ==
              old(events.Times(source)) + E.Upcoming(NotBefore(events.Now(), timeout), events.endTime)
    ensures forall s :: s != source ==> events.Times(s) == old(events.Times(s))
  {
    var tooEarly := if events.Now() > timeout then 0 else timeout - events.Now();
    events.SourceIsPendingRel(source, tooEarly);
  }

  method ScheduleIf(events: E.EventList, source: nat, due: bool)
    requires events.Valid()
    modifies events`pendingSources
    ensures events.Valid()
    ensures events.Times(source) ==
              old(events.Times(source)) + if due then E.Upcoming(events.Now(), events.endTime) else multiset{}
    ensures forall s :: s != source ==> events.Times(s) == old(events.Times(s))
  {
    if due { events.SourceIsPendingRel(source, 0); }
  }

  class BbrPacer {
    const flow: BbrSrc
    const events: E.EventList
    const id: E.SourceId
    var interpacketDelay: nat          // zero when the pacer waits for nothing
    var lastSend: nat
    var nextSend: nat
    ghost const born: nat
    ghost var firing: bool             // an event of the pacer is running
    ghost var hist: seq<Pace>

    constructor (events: E.EventList, flow: BbrSrc, id: E.SourceId)
      ensures this.events == events && this.flow == flow && this.id == id
      ensures interpacketDelay == 0 && lastSend == events.Now() == born && hist == [] && !firing
    {
      this.events, this.flow, this.id := events, flow, id;
      interpacketDelay, nextSend, hist := 0, 0, [];
      lastSend, born, firing := events.Now(), events.Now(), false;
    }

    predicate IsPending()
      reads this`interpacketDelay
    {
      interpacketDelay > 0
    }

    function Waits(): Wait
      reads this`interpacketDelay, this`nextSend
    {
      Wait(interpacketDelay, nextSend)
    }

    /** No event of the pacer waits. */
    ghost predicate Silent()
      reads events`pendingSources
    {
      events.Times(id) == multiset{}
    }

    /** At rest: no event, or the one event it waits for, a whole delay after its last firing. */
    ghost predicate Armed()
      reads this`interpacketDelay, this`nextSend, this`hist, events
    {
      if interpacketDelay == 0 then Silent()
      else
        events.Times(id) == E.Upcoming(nextSend, events.endTime) && Clear(hist, interpacketDelay, nextSend)
    }

    /** The last packet or firing was at `lastSend`. */
    ghost predicate Settled()
      reads this`hist, this`lastSend
    {
      Clear(hist, 0, lastSend)
    }

    /** Armed at rest. While an event of the pacer runs nothing else of it waits, and a pacer without delay
        fires only when the flow has none to give it. */
    ghost predicate Poised()
      reads this, events, flow`pacingDelay
    {
      if firing then Silent() && (interpacketDelay == 0 ==> flow.pacingDelay == 0) else Armed() && Settled()
    }

    /** Whether a delay from the last packet has passed already. */
    predicate IsOverdue(delay: nat)
      reads this`lastSend, events`lastEventTime
    {
      lastSend + delay <= events.Now()
    }

    method ScheduleSend(delay: nat)
      requires flow.pacer == this && flow.Core()
      requires Silent() && Settled() && (delay == 0 ==> flow.pacingDelay == 0) && (firing ==> delay == 0)
      modifies flow`sent, flow`highestSent, flow`cwnd, flow`nackRtxPending, flow`rtxPending, flow`rtxTimeoutPending,
               flow`rtxTimeout, flow`rtoMargin, flow`pacedPacket, flow`outbox, this, events`pendingSources
      ensures flow.Ready() && firing == old(firing) && interpacketDelay == delay
      ensures Emits(old(flow.Books()), flow.Books())
      ensures old(lastSend) + delay > events.Now() ==>
                flow.Whole() == old(flow.Whole()) && nextSend == old(lastSend) + delay
      ensures old(lastSend) + delay <= events.Now() ==> old(hist) + [Fired(events.Now(), delay)] <= hist
      ensures flow.Covered() == old(flow.Covered())
      ensures flow.Stalled()
      ensures forall s :: s != id ==> events.Times(s) == old(events.Times(s))
      decreases flow.Work(), if flow.pacedPacket then 0 else 1,
                if IsOverdue(delay) then if flow.pacedPacket then 15 else 3 else 0
    {
      EmitsNothing(flow.Books());
      flow.Keeps();
      interpacketDelay := delay;
      nextSend := lastSend + interpacketDelay;
      if nextSend <= events.Now() {
        nextSend := events.Now();
        DoNextEvent();
        return;
      }
      events.SourceIsPending(id, nextSend);
    }

    /** Also ends the wait for the event. */
    method Cancel()
      requires events.Valid() && Armed()
      modifies this`interpacketDelay, this`nextSend, events`pendingSources
      ensures events.Valid() && interpacketDelay == 0 && Silent()
      ensures forall s :: s != id ==> events.Times(s) == old(events.Times(s))
    {
      interpacketDelay, nextSend := 0, 0;
      events.CancelPendingSource(id);
    }

    method JustSent()
      requires Past(hist, events.Now()) && Poised()
      modifies this`lastSend, this`hist
      ensures lastSend == events.Now() && hist == old(hist) + [Sent(events.Now())] && Poised()
    {
      hist := hist + [Sent(events.Now())];
      lastSend := events.Now();
    }

    method DoNextEvent()
      requires flow.pacer == this && flow.Core()
      requires Silent() && nextSend == events.Now() && Clear(hist, interpacketDelay, events.Now())
      requires interpacketDelay == 0 ==> flow.pacingDelay == 0
      requires firing ==> interpacketDelay == 0
      modifies flow`sent, flow`highestSent, flow`cwnd, flow`nackRtxPending, flow`rtxPending, flow`rtxTimeoutPending,
               flow`rtxTimeout, flow`rtoMargin, flow`pacedPacket, flow`outbox, this, events`pendingSources
      ensures flow.Ready() && firing == old(firing) && interpacketDelay == old(interpacketDelay)
      ensures Emits(old(flow.Books()), flow.Books())
      ensures flow.Covered() == old(flow.Covered())
      ensures old(hist) + [Fired(events.Now(), interpacketDelay)] <= hist
      ensures interpacketDelay > 0 ==>
                && flow.Whole() == PacedAt(old(flow.Whole()), interpacketDelay)
                && nextSend == events.Now() + interpacketDelay
      ensures flow.Stalled()
      ensures forall s :: s != id ==> events.Times(s) == old(events.Times(s))
      decreases flow.Work(), if flow.pacedPacket then 0 else 1, if flow.pacedPacket then 14 else 2
    {
      ghost var before, wasFiring := flow.Books(), firing;
      firing := true;
      assert events.Now() == nextSend;
      Fire();
      firing := wasFiring;
      ghost var rested := flow.Books();
      EmitsProgresses(before, rested);
      Rearm();
    }

    /** The end of a firing: the wait for the next one. */
    method Rearm()
      requires flow.pacer == this && flow.Core() && Silent() && lastSend == events.Now()
      requires interpacketDelay == 0 ==> flow.pacingDelay == 0
      requires firing ==> interpacketDelay == 0
      modifies flow`sent, flow`highestSent, flow`cwnd, flow`nackRtxPending, flow`rtxPending, flow`rtxTimeoutPending,
               flow`rtxTimeout, flow`rtoMargin, flow`pacedPacket, flow`outbox, this, events`pendingSources
      ensures flow.Ready() && firing == old(firing) && interpacketDelay == old(interpacketDelay)
      ensures flow.Whole() == old(flow.Whole())
      ensures interpacketDelay > 0 ==> nextSend == events.Now() + interpacketDelay
      ensures flow.Covered() == old(flow.Covered())
      ensures interpacketDelay > 0 || old(flow.Stalled()) ==> flow.Stalled()
      ensures forall s :: s != id ==> events.Times(s) == old(events.Times(s))
      decreases flow.Work(), if flow.pacedPacket then 0 else 1, 1
    {
      flow.Keeps();
      if interpacketDelay > 0 {
        ScheduleSend(interpacketDelay);
      } else {
        interpacketDelay, nextSend := 0, 0;
      }
    }

    method Fire()
      requires flow.pacer == this && flow.Ready() && firing && Clear(hist, interpacketDelay, events.Now())
      modifies flow`sent, flow`highestSent, flow`cwnd, flow`nackRtxPending, flow`rtxPending, flow`rtxTimeoutPending,
               flow`rtxTimeout, flow`rtoMargin, flow`pacedPacket, flow`outbox, this, events`pendingSources
      ensures flow.Ready() && firing && interpacketDelay == old(interpacketDelay) && lastSend == events.Now()
      ensures Emits(old(flow.Books()), flow.Books()) && (flow.Work() < old(flow.Work()) || flow.pacedPacket)
      ensures flow.Covered() == old(flow.Covered())
      ensures old(hist) + [Fired(events.Now(), interpacketDelay)] <= hist
      ensures interpacketDelay > 0 ==> flow.Whole() == PacedAt(old(flow.Whole()), interpacketDelay)
      ensures flow.Stalled()
      ensures forall s :: s != id ==> events.Times(s) == old(events.Times(s))
      decreases flow.Work(), if flow.pacedPacket then 0 else 1, if flow.pacedPacket then 13 else 1, 1
    {
      ghost var before := flow.Books();
      flow.PacedSend();
      ghost var fired := flow.Books();
      RestedEmits(fired);
      EmitsOn(before, fired, Rested(fired));
      lastSend := events.Now();
      assert flow.Books() == Rested(fired);
      flow.Took(before);
    }
  }

  class BbrSrc {
    const events: E.EventList
    const id: E.SourceId
    const pacerId: E.SourceId
    const mss: Size
    const flowSize: nat
    const bdp: nat
    const baseRtt: Size
    const serviceTime: nat             // of a packet in the host's queue
    const startingCwnd: nat
    var pacer: BbrPacer?               // made by the first start
    var sent: seq<SentPacket>          // std::vector
    var highestSent: nat
    var cwnd: nat
    var maxCwnd: nat
    var nackRtxPending: nat
    var rto: nat
    var rtoMargin: nat
    var rtxTimeout: nat                // zero is timeInf
    var rtxTimeoutPending: bool
    var rtxPending: bool
    var pacedPacket: bool
    var pacingDelay: nat
    var started: bool
    var flowFinished: bool
    var aborted: bool
    var outbox: seq<Packet>

    constructor (events: E.EventList, id: E.SourceId, pacerId: E.SourceId, mss: Size, flowSize: nat, bdp: nat,
                 baseRtt: Size, serviceTime: nat, startingCwnd: nat, pacingDelay: nat)
      requires events.Valid() && id != pacerId && events.Times(pacerId) == multiset{}
      ensures Valid() && this.events == events && this.id == id && this.pacerId == pacerId && pacer == null
      ensures this.mss == mss && this.flowSize == flowSize && this.bdp == bdp && this.startingCwnd == startingCwnd
      ensures this.baseRtt == baseRtt && this.serviceTime == serviceTime && this.pacingDelay == pacingDelay
      ensures View() == Initial() && outbox == [] && !aborted && Covered()
    {
      this.events, this.id, this.pacerId, this.mss, this.flowSize := events, id, pacerId, mss, flowSize;
      this.bdp, this.baseRtt, this.serviceTime, this.startingCwnd := bdp, baseRtt, serviceTime, startingCwnd;
      pacer := null;
      sent, highestSent, cwnd, maxCwnd, nackRtxPending := [], 0, startingCwnd, startingCwnd, 0;
      rto, rtoMargin, rtxTimeout, rtxTimeoutPending, rtxPending := baseRtt, baseRtt / 2, 0, false, false;
      pacedPacket, this.pacingDelay, started, flowFinished, aborted := false, pacingDelay, false, false, false;
      outbox := [];
    }

    ghost function Initial(): Sender { Init(mss, flowSize, bdp, startingCwnd) }

    ghost function View(): Sender
      reads this`sent, this`highestSent, this`cwnd, this`nackRtxPending, this`started, this`flowFinished, this`aborted
    {
      Sender(mss, flowSize, bdp, sent, highestSent, cwnd, nackRtxPending, started, flowFinished, aborted)
    }

    /** Source and pacer together, as the value whose steps they take. */
    ghost function Books(): Paced
      reads this`sent, this`highestSent, this`cwnd, this`nackRtxPending, this`started, this`flowFinished, this`aborted,
            this`pacer, this`outbox, this`pacedPacket, pacer`hist, pacer`lastSend, events`lastEventTime
      requires pacer != null
    {
      Paced(View(), outbox, pacedPacket, pacer.hist, pacer.lastSend, events.Now(), serviceTime, baseRtt)
    }

    /** The same with the flags of the handlers. */
    ghost function Whole(): Desk
      reads this`sent, this`highestSent, this`cwnd, this`nackRtxPending, this`started, this`flowFinished, this`aborted,
            this`pacer, this`outbox, this`pacedPacket, pacer`hist, pacer`lastSend, events`lastEventTime,
            this`rtxPending, this`rtxTimeoutPending, this`rtoMargin, this`rtxTimeout
      requires pacer != null
    {
      Desk(Books(), Flags(rtxPending, rtxTimeoutPending, rtoMargin, rtxTimeout))
    }

    /** What nothing changes after the first start, until an assertion fails. */
    ghost predicate Wired()
      reads this`pacer, this`started, this`aborted, this`maxCwnd, this`rto
    {
      && pacer != null && pacer.flow == this && pacer.events == events && pacer.id == pacerId != id
      && started && !aborted && maxCwnd == bdp && rto == 3 * baseRtt
    }

    /** Whatever has happened so far is a path of the paced sender. */
    ghost predicate Core()
      reads this, pacer, events
    {
      && Wired() && events.Valid() && rtoMargin <= baseRtt
      && Reaches(Start(Initial(), pacer.born, serviceTime, baseRtt), Books())
    }

    /** The invariant within a call. */
    ghost predicate Ready()
      reads this, pacer, events
    {
      Core() && pacer.Poised()
    }

    lemma Keeps()
      requires Core()
      ensures Kept(Books())
    {
      ReachableKept(Initial(), pacer.born, serviceTime, baseRtt, Books());
    }

    /** The invariant between calls. */
    ghost predicate Valid()
      reads this, pacer, events
    {
      events.Valid() && if pacer == null then Unstarted() else Ready() && !pacer.firing
    }

    ghost predicate Unstarted()
      reads this, events
    {
      && events.Times(pacerId) == multiset{} && pacerId != id
      && View() == Initial() && outbox == [] && !pacedPacket
    }

    ghost function Work(): nat
      reads this`sent, this`highestSent, this`cwnd, this`nackRtxPending, this`started, this`flowFinished, this`aborted,
            this`pacer, this`outbox, this`pacedPacket, pacer`hist, pacer`lastSend, events`lastEventTime
      requires pacer != null
    {
      Left(Books())
    }

    /** An entry waits for a resend only while the flag asks for one. */
    ghost predicate Covered()
      reads this`sent, this`rtxPending
    {
      rtxPending || NoneWaiting(sent)
    }

    /** Why no more new packets leave now. */
    ghost predicate Stalled()
      reads this`sent, this`highestSent, this`cwnd, this`nackRtxPending, this`started, this`flowFinished, this`aborted,
            this`pacer, pacer
    {
      highestSent >= flowSize || Unacked(View()) + mss > cwnd || (pacer != null && pacer.IsPending())
    }

    /** A pacer that waits for nothing, and need not fire at once if it is asked. */
    ghost predicate Idle()
      reads this`pacedPacket, this`pacingDelay, this`pacer, pacer, events`lastEventTime
    {
      pacer != null && !pacedPacket && !pacer.IsPending() && pacer.lastSend + pacingDelay > events.Now()
    }

    /** What an idle pacer waits for when it has been asked. */
    ghost function Asked(): Wait
      reads this`pacingDelay, this`pacer, pacer
      requires pacer != null
    {
      Wait(pacingDelay, pacer.lastSend + pacingDelay)
    }

    /** Source and pacer are alone on the event list, which has no end. */
    ghost predicate Alone()
      reads events
    {
      && events.endTime == 0 && events.pendingTriggers == []
      && forall s :: s != id && s != pacerId ==> events.Times(s) == multiset{}
    }

    // ---- Reading the entries ----

    method GetUnacked() returns (missing: nat)
      ensures missing == Unacked(View())
    {
      missing := 0;
      var i := 0;
      while i < |sent|
        invariant i <= |sent|
        invariant missing == Count(sent[..i], InFlight) * mss
      {
        assert sent[..i + 1][..i] == sent[..i];
        if !sent[i].acked && !sent[i].nacked && !sent[i].timedOut {
          assert (Count(sent[..i], InFlight) + 1) * mss == Count(sent[..i], InFlight) * mss + mss;
          missing := missing + mss;
        }
        i := i + 1;
      }
      assert sent[..i] == sent;
    }

    method GetSentPacketIdx(seqno: nat) returns (i: nat)
      ensures i == IndexOf(sent, seqno)
    {
      i := 0;
      while i < |sent|
        invariant i <= |sent|
        invariant IndexOf(sent, seqno) == i + IndexOf(sent[i..], seqno)
      {
        if seqno == sent[i].seqno { return; }
        assert sent[i..][1..] == sent[i + 1..];
        i := i + 1;
      }
    }

    method UpdateRtxTime()
      requires Ready()
      modifies this`rtxTimeout
      ensures Ready() && Books() == old(Books()) && rtxTimeout == Earliest(sent)
    {
      rtxTimeout := EarliestTimer();
    }

    method EarliestTimer() returns (t: nat)
      ensures t == Earliest(sent)
    {
      t := 0;
      var i := 0;
      while i < |sent|
        invariant i <= |sent| && t == Earliest(sent[..i])
      {
        var sp := sent[i];
        assert sent[..i + 1][..i] == sent[..i];
        if !sp.acked && !sp.nacked && !sp.timedOut && (sp.timer < t || t == 0) {
          t := sp.timer;
        }
        i := i + 1;
      }
      assert sent[..i] == sent;
    }

    // ---- Sending ----

    method PacedSend()
      requires Ready() && pacer.firing && Clear(pacer.hist, pacer.interpacketDelay, events.Now())
      modifies this`sent, this`highestSent, this`cwnd, this`nackRtxPending, this`rtxPending, this`rtxTimeoutPending,
               this`rtxTimeout, this`rtoMargin, this`pacedPacket, this`outbox, pacer, events`pendingSources
      ensures Ready() && Emits(old(Books()), Books())
      ensures Work() < old(Work()) || pacedPacket
      ensures pacer.firing && pacer.interpacketDelay == old(pacer.interpacketDelay)
      ensures old(pacer.hist) + [Fired(events.Now(), pacer.interpacketDelay)] <= pacer.hist
      ensures pacer.IsPending() ==> Whole() == SendAll(FiredAt(old(Whole()), pacer.interpacketDelay))
      ensures Stalled()
      ensures Covered() == old(Covered())
      ensures forall s :: s != pacerId ==> events.Times(s) == old(events.Times(s))
      decreases Work(), if pacedPacket then 0 else 1, if pacedPacket then 13 else 1, 0
    {
      ghost var before := Books();
      ghost var desk := Whole();
      pacer.hist := pacer.hist + [Fired(events.Now(), pacer.interpacketDelay)];
      pacedPacket := true;
      FiredEmits(before, pacer.interpacketDelay);
      Took(before);
      ghost var fired := Books();
      assert Whole() == FiredAt(desk, pacer.interpacketDelay);
      SendPackets();
      EmitsOn(before, fired, Books());
      EmitsProgresses(fired, Books());
    }

    lemma Took(before: Paced)
      requires pacer != null && Emits(before, Books())
      requires Reaches(Start(Initial(), pacer.born, serviceTime, baseRtt), before)
      ensures Reaches(Start(Initial(), pacer.born, serviceTime, baseRtt), Books())
    {
      ReachesOn(Start(Initial(), pacer.born, serviceTime, baseRtt), before, Books());
    }

    method SendPackets()
      requires Ready()
      modifies this`sent, this`highestSent, this`cwnd, this`nackRtxPending, this`rtxPending, this`rtxTimeoutPending,
               this`rtxTimeout, this`rtoMargin, this`pacedPacket, this`outbox, pacer, events`pendingSources
      ensures Ready() && Emits(old(Books()), Books()) && pacer.firing == old(pacer.firing)
      ensures pacer.firing ==> pacer.interpacketDelay == old(pacer.interpacketDelay)
      ensures forall s :: s != pacerId ==> events.Times(s) == old(events.Times(s))
      ensures Covered() == old(Covered())
      ensures old(rtxPending) && !old(rtxTimeoutPending) && MayResend(old(Books())) && !old(NoneWaiting(sent)) ==>
                Work() < old(Work())
      ensures old(pacer.IsPending()) ==> Whole() == SendAll(old(Whole())) && pacer.Waits() == old(pacer.Waits())
      ensures old(Idle() && !rtxPending) ==>
                && Whole() == old(Whole())
                && pacer.Waits() == if HasRoom(old(View())) then old(Asked()) else old(pacer.Waits())
      ensures Stalled()
      decreases Work(), if pacedPacket then 0 else 1, 12
    {
      ghost var start := Books();
      EmitsNothing(start);
      if rtxPending {
        RetransmitPacket();
      }
      ghost var mid := Books();
      EmitsProgresses(start, mid);
      SendNewPackets();
      EmitsProgresses(mid, Books());
      EmitsOn(start, mid, Books());
    }

    /** The loop that sends new packets. */
    method SendNewPackets()
      requires Ready()
      modifies this`sent, this`highestSent, this`cwnd, this`nackRtxPending, this`rtxPending, this`rtxTimeoutPending,
               this`rtxTimeout, this`rtoMargin, this`pacedPacket, this`outbox, pacer, events`pendingSources
      ensures Ready() && Emits(old(Books()), Books()) && pacer.firing == old(pacer.firing)
      ensures pacer.firing ==> pacer.interpacketDelay == old(pacer.interpacketDelay)
      ensures forall s :: s != pacerId ==> events.Times(s) == old(events.Times(s))
      ensures Covered() == old(Covered())
      ensures old(pacer.IsPending()) ==> Whole() == SendNext(old(Whole())) && pacer.Waits() == old(pacer.Waits())
      ensures old(Idle()) ==>
                && Whole() == old(Whole())
                && pacer.Waits() == if HasRoom(old(View())) then old(Asked()) else old(pacer.Waits())
      ensures Stalled()
      decreases Work(), if pacedPacket then 0 else 1, 11
    {
      ghost var start := Books();
      ghost var pending, idle := pacer.IsPending(), Idle();
      EmitsNothing(start);
      SendNextOnce(Whole());
      var c := cwnd;
      var more := true;
      while more
        invariant Ready() && Emits(start, Books()) && pacer.firing == old(pacer.firing)
        invariant pacer.firing ==> pacer.interpacketDelay == old(pacer.interpacketDelay)
        invariant Covered() == old(Covered())
        invariant forall s :: s != pacerId ==> events.Times(s) == old(events.Times(s))
        invariant pending ==>
                    && SendNext(Whole()) == SendNext(old(Whole())) && pacer.Waits() == old(pacer.Waits())
                    && (more || Whole() == SendNext(old(Whole())))
        invariant idle ==>
                    && Whole() == old(Whole())
                    && if more then Idle() && Asked() == old(Asked()) && pacer.Waits() == old(pacer.Waits())
                       else pacer.Waits() == if HasRoom(old(View())) then old(Asked()) else old(pacer.Waits())
        invariant if more then cwnd == c else Stalled()
        decreases more, Work()
      {
        ghost var turn := Books();
        EmitsProgresses(start, turn);
        more := SendOne(c);
        EmitsOn(start, turn, Books());
      }
    }

    /** One turn of the loop; false when the loop is left. */
    method SendOne(c: nat) returns (more: bool)
      requires cwnd == c
      requires Ready()
      modifies this`sent, this`highestSent, this`cwnd, this`nackRtxPending, this`rtxPending, this`rtxTimeoutPending,
               this`rtxTimeout, this`rtoMargin, this`pacedPacket, this`outbox, pacer, events`pendingSources
      ensures Ready() && Emits(old(Books()), Books()) && pacer.firing == old(pacer.firing)
      ensures pacer.firing ==> pacer.interpacketDelay == old(pacer.interpacketDelay)
      ensures forall s :: s != pacerId ==> events.Times(s) == old(events.Times(s))
      ensures Covered() == old(Covered())
      ensures if more then cwnd == c && Work() < old(Work()) else Stalled()
      ensures old(pacer.IsPending()) ==>
                && more == MaySendNew(old(Books())) && Whole() == SendNext(old(Whole()))
                && pacer.Waits() == old(pacer.Waits())
      ensures old(Idle()) ==>
                && !more && Whole() == old(Whole())
                && pacer.Waits() == if HasRoom(old(View())) then old(Asked()) else old(pacer.Waits())
      decreases Work(), if pacedPacket then 0 else 1, 10
    {
      EmitsNothing(Books());
      var unacked := GetUnacked();
      more := false;
      if unacked + mss <= c && highestSent < flowSize {
        if pacedPacket {
          SendNewPacket();
          more := true;
        } else {
          AskPacer();
        }
      }
    }

    /** Without a firing to use up, the pacer is asked for one, unless it waits already. */
    method AskPacer()
      requires !pacedPacket
      requires Ready()
      modifies this`sent, this`highestSent, this`cwnd, this`nackRtxPending, this`rtxPending, this`rtxTimeoutPending,
               this`rtxTimeout, this`rtoMargin, this`pacedPacket, this`outbox, pacer, events`pendingSources
      ensures Ready() && Emits(old(Books()), Books()) && pacer.firing == old(pacer.firing)
      ensures pacer.firing ==> pacer.interpacketDelay == old(pacer.interpacketDelay)
      ensures forall s :: s != pacerId ==> events.Times(s) == old(events.Times(s))
      ensures Covered() == old(Covered())
      ensures old(pacer.IsPending()) ==> Whole() == old(Whole()) && pacer.Waits() == old(pacer.Waits())
      ensures old(Idle()) ==> Whole() == old(Whole()) && pacer.Waits() == old(Asked())
      ensures Stalled()
      decreases Work(), if pacedPacket then 0 else 1, 4
    {
      EmitsNothing(Books());
      if !pacer.IsPending() {
        Keeps();
        pacer.ScheduleSend(pacingDelay);
      }
    }

    method SendNewPacket()
      requires Ready() && pacedPacket && Unacked(View()) + mss <= cwnd && highestSent < flowSize
      modifies this`sent, this`highestSent, this`rtxTimeout, this`pacedPacket, this`outbox, pacer`lastSend, pacer`hist
      ensures Ready() && Whole() == SendOneNew(old(Whole()))
      ensures Emits(old(Books()), Books()) && Work() < old(Work())
      ensures Covered() == old(Covered())
    {
      ghost var before := Books();
      SentNewLeavesLess(before);
      SentNewEmits(before);
      PutNew();
      assert Books() == SentNew(before);
      if rtxTimeout == 0 {
        UpdateRtxTime();
      }
    }

    method PutNew()
      requires Ready() && Emits(Books(), SentNew(Books()))
      modifies this`sent, this`highestSent, this`pacedPacket, this`outbox, pacer`lastSend, pacer`hist
      ensures Ready() && Books() == SentNew(old(Books())) && Covered() == old(Covered())
    {
      ghost var before := Books();
      Keeps();
      pacer.JustSent();
      var p := Packet(highestSent + 1, false, events.Now());
      var sp := SentPacket(events.Now() + serviceTime + rto, p.seqno, false, false, false);
      assert NoneWaiting(sent + [sp]) == NoneWaiting(sent) by { AppendWaits(sent, sp); }
      outbox, highestSent, sent, pacedPacket := outbox + [p], highestSent + mss, sent + [sp], false;
      assert Books() == SentNew(before);
      Took(before);
    }

    method ResendPacket(idx: nat) returns (success: bool)
      requires idx < |sent| && !sent[idx].acked && (sent[idx].timedOut || sent[idx].nacked)
      requires Ready()
      modifies this`sent, this`highestSent, this`cwnd, this`nackRtxPending, this`rtxPending, this`rtxTimeoutPending,
               this`rtxTimeout, this`rtoMargin, this`pacedPacket, this`outbox, pacer, events`pendingSources
      ensures Ready() && Emits(old(Books()), Books()) && pacer.firing == old(pacer.firing)
      ensures pacer.firing ==> pacer.interpacketDelay == old(pacer.interpacketDelay)
      ensures forall s :: s != pacerId ==> events.Times(s) == old(events.Times(s))
      ensures old(Covered()) ==> Covered()
      ensures success <==> old(pacedPacket && Unacked(View()) < cwnd)
      ensures success ==> Whole() == ResendAt(old(Whole()), idx) && rtxPending == old(rtxPending)
      ensures old(pacer.IsPending()) ==>
                && (success || Whole() == old(Whole())) && pacer.Waits() == old(pacer.Waits())
      decreases Work(), if pacedPacket then 0 else 1, 5
    {
      EmitsNothing(Books());
      var unacked := GetUnacked();
      success := false;
      if unacked < cwnd {
        if pacedPacket {
          assert !sent[idx].acked;
          ResendNow(idx);
          success := true;
        } else {
          AskPacer();
        }
      }
    }

    /** The part of a resend that sends. */
    method ResendNow(idx: nat)
      requires Ready() && pacedPacket && Unacked(View()) < cwnd
      requires idx < |sent| && !sent[idx].acked && (sent[idx].timedOut || sent[idx].nacked)
      modifies this`sent, this`nackRtxPending, this`rtxTimeout, this`rtoMargin, this`pacedPacket, this`outbox,
               pacer`lastSend, pacer`hist
      ensures Ready() && Whole() == ResendAt(old(Whole()), idx)
      ensures Emits(old(Books()), Books()) && (old(Covered()) ==> Covered())
    {
      ResentEmits(Books(), idx);
      WidenMargin();
      PutBack(idx);
      UpdateRtxTime();
    }

    /** This brings in other entries that are close to timing out. */
    method WidenMargin()
      requires Ready()
      modifies this`rtoMargin
      ensures Ready() && Books() == old(Books()) && rtoMargin == baseRtt / 2
    {
      rtoMargin := baseRtt / 2;
    }

    method PutBack(idx: nat)
      requires Ready() && idx < |sent| && Emits(Books(), Resent(Books(), idx))
      modifies this`sent, this`nackRtxPending, this`pacedPacket, this`outbox, pacer`lastSend, pacer`hist
      ensures Ready() && Books() == Resent(old(Books()), idx)
    {
      ghost var before := Books();
      Keeps();
      pacer.JustSent();
      var p := Packet(sent[idx].seqno, true, events.Now());
      var pending := if sent[idx].nacked then Decrement(nackRtxPending) else nackRtxPending;
      var sp := sent[idx].(nacked := false, timer := events.Now() + serviceTime + rto, timedOut := false);
      outbox, nackRtxPending, sent, pacedPacket := outbox + [p], pending, sent[idx := sp], false;
      assert Books() == Resent(before, idx);
      Took(before);
    }

    method RetransmitPacket()
      requires Ready()
      modifies this`sent, this`highestSent, this`cwnd, this`nackRtxPending, this`rtxPending, this`rtxTimeoutPending,
               this`rtxTimeout, this`rtoMargin, this`pacedPacket, this`outbox, pacer, events`pendingSources
      ensures Ready() && Emits(old(Books()), Books()) && pacer.firing == old(pacer.firing)
      ensures pacer.firing ==> pacer.interpacketDelay == old(pacer.interpacketDelay)
      ensures forall s :: s != pacerId ==> events.Times(s) == old(events.Times(s))
      ensures Covered() && !rtxTimeoutPending
      ensures !old(rtxTimeoutPending) && MayResend(old(Books())) ==> ScanDone(old(Books()), Books())
      ensures old(pacer.IsPending()) ==> Whole() == Scan(old(Whole())) && pacer.Waits() == old(pacer.Waits())
      decreases Work(), if pacedPacket then 0 else 1, 9
    {
      BeginScan();
      ScanEntries();
      EndScan();
    }

    /** The scan itself. */
    method ScanEntries()
      requires !rtxPending
      requires Ready()
      modifies this`sent, this`highestSent, this`cwnd, this`nackRtxPending, this`rtxPending, this`rtxTimeoutPending,
               this`rtxTimeout, this`rtoMargin, this`pacedPacket, this`outbox, pacer, events`pendingSources
      ensures Ready() && Emits(old(Books()), Books()) && pacer.firing == old(pacer.firing)
      ensures pacer.firing ==> pacer.interpacketDelay == old(pacer.interpacketDelay)
      ensures forall s :: s != pacerId ==> events.Times(s) == old(events.Times(s))
      ensures Covered()
      ensures !old(rtxTimeoutPending) && MayResend(old(Books())) ==> ScanDone(old(Books()), Books())
      ensures old(pacer.IsPending()) ==> Whole() == ScanAll(old(Whole())) && pacer.Waits() == old(pacer.Waits())
      decreases Work(), if pacedPacket then 0 else 1, 8, 4
    {
      ghost var start := Whole();
      EmitsNothing(start.p);
      ScansNone(start);
      ScanLoop(start, pacer.IsPending(), pacer.Waits());
      assert sent[..|sent|] == sent;
      if IsQuiet(start) { ScannedAll(start.p, Books()); }
      if old(pacer.IsPending()) {
        ScansAreScan(start, |sent|, Whole());
        ScanAllIs(start, Whole());
      }
    }

    method BeginScan()
      requires Ready()
      modifies this`rtxPending
      ensures Ready() && Whole() == old(Whole()).(f := old(Whole()).f.(asked := false))
    {
      rtxPending := false;
    }

    method EndScan()
      requires Ready()
      modifies this`rtxTimeoutPending
      ensures Ready() && Whole() == old(Whole()).(f := old(Whole()).f.(timedOut := false))
    {
      rtxTimeoutPending := false;
    }

    /** The loop that retransmits. */
    method ScanLoop(ghost start: Desk, ghost pending: bool, ghost wait: Wait)
      requires Scanning(start, pending, wait, 0) && Whole() == start
      modifies this`sent, this`highestSent, this`cwnd, this`nackRtxPending, this`rtxPending, this`rtxTimeoutPending,
               this`rtxTimeout, this`rtoMargin, this`pacedPacket, this`outbox, pacer, events`pendingSources
      ensures Scanning(start, pending, wait, |sent|) && pacer.firing == old(pacer.firing)
      ensures pacer.firing ==> pacer.interpacketDelay == old(pacer.interpacketDelay)
      ensures forall s :: s != pacerId ==> events.Times(s) == old(events.Times(s))
      decreases Work(), if pacedPacket then 0 else 1, 8, 3
    {
      var i := 0;
      while i < |sent|
        invariant Scanning(start, pending, wait, i) && pacer.firing == old(pacer.firing)
        invariant pacer.firing ==> pacer.interpacketDelay == old(pacer.interpacketDelay)
        invariant forall s :: s != pacerId ==> events.Times(s) == old(events.Times(s))
        decreases Unsent(View()), |sent| - i
      {
        ScanEntry(i, start, pending, wait);
        i := i + 1;
      }
    }

    /** How far a scan has come that began at `start`. */
    ghost predicate Scanning(start: Desk, pending: bool, wait: Wait, i: nat)
      reads this, pacer, events
    {
      && Ready() && Emits(start.p, Books())
      && i <= |sent| && (rtxPending || NoneWaiting(sent[..i]))
      && (IsQuiet(start) ==> Scanned(start.p, Books(), i) && (Books() == start.p ==> !rtxTimeoutPending))
      && (pending ==> Scans(start, i, Whole()) && pacer.Waits() == wait && pacer.IsPending())
    }

    /** One turn of the loop that retransmits, in a scan that began at `start`. */
    method ScanEntry(i: nat, ghost start: Desk, ghost pending: bool, ghost wait: Wait)
      requires i < |sent| && Scanning(start, pending, wait, i)
      modifies this`sent, this`highestSent, this`cwnd, this`nackRtxPending, this`rtxPending, this`rtxTimeoutPending,
               this`rtxTimeout, this`rtoMargin, this`pacedPacket, this`outbox, pacer, events`pendingSources
      ensures Scanning(start, pending, wait, i + 1) && pacer.firing == old(pacer.firing)
      ensures pacer.firing ==> pacer.interpacketDelay == old(pacer.interpacketDelay)
      ensures Unsent(View()) < Unsent(old(View())) || (Unsent(View()) == Unsent(old(View())) && |sent| == |old(sent)|)
      ensures forall s :: s != pacerId ==> events.Times(s) == old(events.Times(s))
      decreases Left(start.p), if start.p.token then 0 else 1, 8, 2
    {
      ghost var turn, desk := Books(), Whole();
      EmitsProgresses(start.p, turn);
      RetransmitOne(i);
      EmitsProgresses(turn, Books());
      EmitsOn(start.p, turn, Books());
      if IsQuiet(start) { ScannedOn(start.p, turn, Books(), i); }
      if pending { ScansOn(start, i, desk); }
    }

    method RetransmitOne(i: nat)
      requires i < |sent|
      requires rtxPending || NoneWaiting(sent[..i])
      requires Ready()
      modifies this`sent, this`highestSent, this`cwnd, this`nackRtxPending, this`rtxPending, this`rtxTimeoutPending,
               this`rtxTimeout, this`rtoMargin, this`pacedPacket, this`outbox, pacer, events`pendingSources
      ensures Ready() && Emits(old(Books()), Books()) && pacer.firing == old(pacer.firing)
      ensures pacer.firing ==> pacer.interpacketDelay == old(pacer.interpacketDelay)
      ensures forall s :: s != pacerId ==> events.Times(s) == old(events.Times(s))
      ensures i < |sent| && (rtxPending || NoneWaiting(sent[..i + 1]))
      ensures !old(rtxTimeoutPending) && MayResend(old(Books())) ==>
                if old(Waiting(sent[i])) then Work() < old(Work())
                else Books() == old(Books()) && !rtxTimeoutPending
      ensures old(pacer.IsPending()) ==> Whole() == TurnAt(old(Whole()), i) && pacer.Waits() == old(pacer.Waits())
      decreases Work(), if pacedPacket then 0 else 1, 8, 1
    {
      ghost var before := Books();
      TimeOutIfOverdue(i);
      ghost var mid := Books();
      EmitsProgresses(before, mid);
      ResendIfWaiting(i);
      EmitsOn(before, mid, Books());
    }

    method ResendIfWaiting(i: nat)
      requires i < |sent|
      requires rtxPending || NoneWaiting(sent[..i])
      requires Ready()
      modifies this`sent, this`highestSent, this`cwnd, this`nackRtxPending, this`rtxPending, this`rtxTimeoutPending,
               this`rtxTimeout, this`rtoMargin, this`pacedPacket, this`outbox, pacer, events`pendingSources
      ensures Ready() && Emits(old(Books()), Books()) && pacer.firing == old(pacer.firing)
      ensures pacer.firing ==> pacer.interpacketDelay == old(pacer.interpacketDelay)
      ensures forall s :: s != pacerId ==> events.Times(s) == old(events.Times(s))
      ensures i < |sent| && (rtxPending || NoneWaiting(sent[..i + 1]))
      ensures !old(Waiting(sent[i])) ==> Whole() == old(Whole())
      ensures old(Waiting(sent[i])) && MayResend(old(Books())) ==> Work() < old(Work())
      ensures old(pacer.IsPending()) ==> Whole() == RetryAt(old(Whole()), i) && pacer.Waits() == old(pacer.Waits())
      decreases Work(), if pacedPacket then 0 else 1, 8, 0
    {
      ghost var mid := Books();
      EmitsNothing(mid);
      if !sent[i].acked && (sent[i].timedOut || sent[i].nacked) {
        TryResend(i);
        EmitsProgresses(mid, Books());
        ResentLeavesLess(mid, i);
        if !rtxPending { ResentWaitsNoMore(mid, i); }
      } else if !rtxPending {
        WaitsNot(sent, i);
      }
    }

    method TimeOutIfOverdue(i: nat)
      requires i < |sent| && Ready()
      modifies this`sent, this`cwnd
      ensures Ready() && Emits(old(Books()), Books()) && Whole() == TimeAt(old(Whole()), i)
      ensures if old(rtxTimeoutPending && !sent[i].acked && !sent[i].nacked)
                 && old(sent[i].timer) <= events.Now() + rtoMargin
              then sent == old(sent)[i := old(sent)[i].(timedOut := true)] && cwnd == mss
              else sent == old(sent) && cwnd == old(cwnd)
      ensures |sent| == |old(sent)| && sent[..i] == old(sent[..i])
    {
      EmitsNothing(Books());
      var sp := sent[i];
      if rtxTimeoutPending && !sp.acked && !sp.nacked && sp.timer <= events.Now() + rtoMargin {
        TimeOutEntry(i);
      }
    }

    /** A resend that has to wait is remembered. */
    method TryResend(i: nat)
      requires i < |sent| && !sent[i].acked && (sent[i].timedOut || sent[i].nacked)
      requires Ready()
      modifies this`sent, this`highestSent, this`cwnd, this`nackRtxPending, this`rtxPending, this`rtxTimeoutPending,
               this`rtxTimeout, this`rtoMargin, this`pacedPacket, this`outbox, pacer, events`pendingSources
      ensures Ready() && Emits(old(Books()), Books()) && pacer.firing == old(pacer.firing)
      ensures pacer.firing ==> pacer.interpacketDelay == old(pacer.interpacketDelay)
      ensures forall s :: s != pacerId ==> events.Times(s) == old(events.Times(s))
      ensures rtxPending <==> old(rtxPending) || !MayResend(old(Books()))
      ensures MayResend(old(Books())) ==> Whole() == ResendAt(old(Whole()), i)
      ensures old(pacer.IsPending()) ==> Whole() == TryAt(old(Whole()), i) && pacer.Waits() == old(pacer.Waits())
      decreases Work(), if pacedPacket then 0 else 1, 6
    {
      var success := ResendPacket(i);
      if !success {
        AskForRetransmission();
      }
    }

    method AskForRetransmission()
      requires Ready()
      modifies this`rtxPending
      ensures Ready() && Whole() == old(Whole()).(f := old(Whole()).f.(asked := true))
    {
      rtxPending := true;
    }

    /** An overdue entry shrinks the window and is marked. */
    method TimeOutEntry(i: nat)
      requires Ready() && i < |sent| && !sent[i].acked && !sent[i].nacked && sent[i].timer <= events.Now() + baseRtt
      modifies this`sent, this`cwnd
      ensures Ready() && Books() == TimedOut(old(Books()), i)
      ensures Emits(old(Books()), Books())
    {
      ghost var before := Books();
      cwnd := mss;
      sent := sent[i := sent[i].(timedOut := true)];
      assert Books() == TimedOut(before, i);
      TimedOutEmits(before, i);
      Took(before);
    }

    // ---- Starting ----

    /** `updateParams`. The flags that ask for retransmissions are dropped; the entries keep theirs. */
    method UpdateParams()
      modifies this`rto, this`rtoMargin, this`rtxTimeout, this`rtxTimeoutPending, this`rtxPending,
               this`maxCwnd, this`cwnd
      ensures rto == 3 * baseRtt && rtoMargin == baseRtt / 8 && maxCwnd == cwnd == bdp
      ensures !rtxTimeoutPending && !rtxPending && rtxTimeout == 0
    {
      rto, rtoMargin := baseRtt * 3, baseRtt / 8;
      rtxTimeout, rtxTimeoutPending, rtxPending := 0, false, false;
      maxCwnd, cwnd := bdp, bdp;
    }

    /** A source that has just made its pacer. */
    ghost function Newborn(): Desk
      reads events`lastEventTime
    {
      Desk(Start(Initial(), events.Now(), serviceTime, baseRtt), Flags(false, false, 0, 0))
    }

    /** All of a start but the sending. */
    method Begin()
      requires Valid() && !aborted
      modifies this`sent, this`highestSent, this`cwnd, this`nackRtxPending, this`rtxPending, this`rtxTimeoutPending,
               this`rtxTimeout, this`rtoMargin, this`pacedPacket, this`outbox,
               this`rto, this`maxCwnd, this`started, this`pacer
      ensures Ready() && !pacer.firing
      ensures old(pacer) == null ==>
                && fresh(pacer) && Whole() == RestartedAt(Newborn())
                && !pacer.IsPending() && pacer.lastSend == events.Now()
      ensures old(pacer) != null ==> pacer == old(pacer) && Whole() == RestartedAt(old(Whole()))
      ensures unchanged(events)
      ensures Covered() == old(NoneWaiting(sent))
    {
      if pacer == null {
        MakePacer();
      }
      ghost var before := Books();
      UpdateParams();
      started := true;
      assert Books() == Restarted(before);
      RestartedReaches(Start(Initial(), pacer.born, serviceTime, baseRtt), before);
    }

    method MakePacer()
      requires Valid() && pacer == null
      modifies this`pacer
      ensures fresh(pacer) && pacer.flow == this && pacer.events == events && pacer.id == pacerId
      ensures Books() == Start(Initial(), events.Now(), serviceTime, baseRtt)
      ensures Reaches(Start(Initial(), pacer.born, serviceTime, baseRtt), Books())
      ensures pacer.Poised() && !pacer.firing && !pacer.IsPending() && pacer.lastSend == events.Now()
    {
      pacer := new BbrPacer(events, this, pacerId);
      ReachesItself(Books());
    }

    /** `startflow`: by the first event of the source, by every later one, and by a trigger. An entry that waits
        for a resend when it comes is not asked for after it. */
    method StartFlow()
      requires Valid() && !aborted
      modifies this`sent, this`highestSent, this`cwnd, this`nackRtxPending, this`rtxPending, this`rtxTimeoutPending,
               this`rtxTimeout, this`rtoMargin, this`pacedPacket, this`outbox,
               this`rto, this`maxCwnd, this`started, this`pacer, pacer, events`pendingSources
      ensures Valid() && !aborted && pacer != null && Stalled()
      ensures old(pacer) == null ==>
                && fresh(pacer) && Emits(Restarted(Newborn().p), Books())
                && (pacingDelay > 0 && HasRoom(RestartedAt(Newborn()).p.s) ==>
                      && Whole() == RestartedAt(Newborn())
                      && pacer.Waits() == Wait(pacingDelay, events.Now() + pacingDelay))
      ensures old(pacer) != null ==>
                && pacer == old(pacer) && Emits(Restarted(old(Books())), Books())
                && (old(pacer.IsPending()) ==>
                      Whole() == SendAll(RestartedAt(old(Whole()))) && pacer.Waits() == old(pacer.Waits()))
      ensures Covered() <==> old(NoneWaiting(sent))
      ensures forall s :: s != pacerId ==> events.Times(s) == old(events.Times(s))
      ensures old(Alone()) ==> Alone()
    {
      Begin();
      SendPackets();
    }

    // ---- Feedback ----

    method ReduceCwnd(amount: nat)
      modifies this`cwnd
      ensures cwnd == BbrSender.ReduceCwnd(old(View()), amount)
    {
      if cwnd >= amount + mss {
        cwnd := cwnd - amount;
      } else {
        cwnd := mss;
      }
    }

    method CheckLimitsCwnd()
      requires maxCwnd == bdp
      modifies this`cwnd
      ensures cwnd == CheckLimits(old(View()), old(cwnd))
    {
      if cwnd > maxCwnd {
        cwnd := maxCwnd;
      }
      if cwnd < mss {
        cwnd := mss;
      }
    }

    /** `processNack` up to its resend: `i` is the packet's entry, if the assertions hold. */
    method MarkNacked(seqno: nat) returns (i: nat)
      requires maxCwnd == bdp && !aborted
      modifies this`sent, this`cwnd, this`nackRtxPending, this`aborted
      ensures View() == BbrSender.ProcessNack(old(View()), seqno)
      ensures aborted <==> !NackExpected(old(View()), seqno)
      ensures !aborted ==> i == IndexOf(old(sent), seqno) < |sent| && sent[i].nacked && !sent[i].acked
    {
      ReduceCwnd(0);
      CheckLimitsCwnd();
      i := GetSentPacketIdx(seqno);
      if i == |sent| || sent[i].acked {
        aborted := true;
      } else if !sent[i].nacked {
        sent := sent[i := sent[i].(nacked := true)];
        nackRtxPending := nackRtxPending + 1;
      }
    }

    /** A nack is marked, the window is checked, and the packet is resent now or remembered. */
    method TakeNack(seqno: nat) returns (i: nat)
      requires Valid() && !aborted && pacer != null
      modifies this`sent, this`cwnd, this`nackRtxPending, this`aborted
      ensures aborted <==> !NackExpected(old(View()), seqno)
      ensures aborted ==> View() == BbrSender.ProcessNack(old(View()), seqno)
      ensures !aborted ==>
                && Ready() && !pacer.firing && Whole() == NackedAt(old(Whole()), seqno)
                && i == IndexOf(old(sent), seqno) < |sent| && sent[i].nacked && !sent[i].acked
    {
      ghost var before := Whole();
      i := MarkNacked(seqno);
      if !aborted {
        assert Whole() == NackedAt(before, seqno);
        NackedReaches(Start(Initial(), pacer.born, serviceTime, baseRtt), before.p, seqno);
      }
    }

    method ProcessNack(seqno: nat)
      requires Valid() && !aborted && pacer != null
      modifies this`sent, this`highestSent, this`cwnd, this`nackRtxPending, this`rtxPending, this`rtxTimeoutPending,
               this`rtxTimeout, this`rtoMargin, this`pacedPacket, this`outbox,
               this`aborted, pacer, events`pendingSources
      ensures forall s :: s != pacerId ==> events.Times(s) == old(events.Times(s))
      ensures aborted <==> !NackExpected(old(View()), seqno)
      ensures if aborted then View() == BbrSender.ProcessNack(old(View()), seqno) && outbox == old(outbox)
              else Valid() && Emits(Nacked(old(Books()), seqno), Books())
      ensures !aborted ==>
                var d, i := NackedAt(old(Whole()), seqno), IndexOf(old(sent), seqno);
                && i < |d.p.s.sent|
                && (if MayResend(d.p) then Whole() == ResendAt(d, i) else rtxPending)
                && (old(pacer.IsPending()) ==>
                      Whole() == NackTakenAt(old(Whole()), seqno) && pacer.Waits() == old(pacer.Waits()))
      ensures !aborted && old(Covered()) ==> Covered()
    {
      ghost var d := NackedAt(Whole(), seqno);
      var i := TakeNack(seqno);
      if !aborted {
        assert Whole() == d && pacer.id == pacerId;
        TryResend(i);
      }
    }

    method EraseCovered(ackno: nat)
      modifies this`sent
      ensures sent == DropCovered(old(sent), ackno)
    {
      while sent != [] && (sent[0].seqno <= ackno || sent[0].acked)
        invariant DropCovered(sent, ackno) == DropCovered(old(sent), ackno)
        decreases |sent|
      {
        sent := sent[1..];
      }
    }

    method EraseAcked()
      modifies this`sent
      ensures sent == DropAcked(old(sent))
    {
      while sent != [] && sent[0].acked
        invariant DropAcked(sent) == DropAcked(old(sent))
        decreases |sent|
      {
        sent := sent[1..];
      }
    }

    /** `mark_received`: the cumulative erase, or the mark of one entry. */
    method MarkReceived(seqno: nat, ackno: nat)
      requires !aborted
      modifies this`sent, this`nackRtxPending, this`aborted
      ensures View() == BbrSender.MarkReceived(old(View()), seqno, ackno)
    {
      if seqno == 1 {
        EraseCovered(ackno);
      } else if sent != [] && sent[0].seqno <= ackno {
        var i := GetSentPacketIdx(seqno);
        if i == 0 {
          sent := sent[1..];
          EraseAcked();
        } else if i == |sent| {
          aborted := true;
        } else {
          var sp := sent[i];
          sent := sent[i := SentPacket(sp.timer, sp.seqno, true, false, false)];
          if sp.nacked {
            nackRtxPending := Decrement(nackRtxPending);
          }
        }
      }
    }

    /** `mark_received` with the update of the timer that ends it. */
    method TakeAck(seqno: nat, ackno: nat)
      requires Valid() && !aborted && pacer != null
      modifies this`sent, this`nackRtxPending, this`rtxTimeout, this`aborted
      ensures View() == BbrSender.MarkReceived(old(View()), seqno, ackno)
      ensures !aborted ==> Ready() && Whole() == MarkedAt(old(Whole()), seqno, ackno)
      ensures old(Covered()) ==> Covered()
    {
      var duplicate := seqno != 1 && (sent == [] || sent[0].seqno > ackno);
      MarkAck(seqno, ackno);
      if !aborted && !duplicate {
        UpdateRtxTime();
      }
    }

    method MarkAck(seqno: nat, ackno: nat)
      requires Valid() && !aborted && pacer != null
      modifies this`sent, this`nackRtxPending, this`aborted
      ensures View() == BbrSender.MarkReceived(old(View()), seqno, ackno)
      ensures !aborted ==> Ready() && Books() == Marked(old(Books()), seqno, ackno)
      ensures old(Covered()) ==> Covered()
    {
      ghost var before := Books();
      if NoneWaiting(sent) { MarkReceivedLeavesNoneWaiting(View(), seqno, ackno); }
      MarkReceived(seqno, ackno);
      if !aborted {
        assert Books() == Marked(before, seqno, ackno);
        MarkedReaches(Start(Initial(), pacer.born, serviceTime, baseRtt), before, seqno, ackno);
      }
    }

    /** At the end of a bandwidth window the pacer starts over with a new delay. */
    method Repace(window: Window)
      requires Ready() && !pacer.firing
      modifies this`sent, this`highestSent, this`cwnd, this`nackRtxPending, this`rtxPending, this`rtxTimeoutPending,
               this`rtxTimeout, this`rtoMargin, this`pacedPacket, this`outbox,
               this`pacingDelay, pacer, events`pendingSources
      ensures Ready() && !pacer.firing && Emits(old(Books()), Books())
      ensures pacingDelay == if window.Closed? then window.delay else old(pacingDelay)
      ensures window.Closed? ==> pacer.interpacketDelay == window.delay
      ensures window.Open? ==> Whole() == old(Whole()) && pacer.Waits() == old(pacer.Waits())
      ensures Covered() == old(Covered())
      ensures forall s :: s != pacerId ==> events.Times(s) == old(events.Times(s))
    {
      EmitsNothing(Books());
      if window.Closed? {
        pacingDelay := window.delay;
        pacer.Cancel();
        pacer.ScheduleSend(pacingDelay);
      }
    }

    /** The end of an ack: the flow is finished and the pacer stops, or more is sent. */
    method FinishAck(ackno: nat)
      requires Ready() && !pacer.firing
      modifies this`sent, this`highestSent, this`cwnd, this`nackRtxPending, this`rtxPending, this`rtxTimeoutPending,
               this`rtxTimeout, this`rtoMargin, this`pacedPacket, this`outbox,
               this`flowFinished, pacer, events`pendingSources
      ensures Valid() && Emits(Settled(old(Books()), ackno), Books())
      ensures if Finishes(old(Books()), ackno) then flowFinished && pacer.interpacketDelay == 0 && pacer.Silent()
              else Stalled()
      ensures !Finishes(old(Books()), ackno) && old(pacer.IsPending()) ==>
                Whole() == SendAll(SettledAt(old(Whole()), ackno)) && pacer.Waits() == old(pacer.Waits())
      ensures Covered() == old(Covered())
      ensures forall s :: s != pacerId ==> events.Times(s) == old(events.Times(s))
    {
      EmitsNothing(Settled(Books(), ackno));
      if ackno >= flowSize && sent == [] && !flowFinished {
        Finish(ackno);
      } else {
        RaiseHighest(ackno);
        SendPackets();
      }
    }

    method RaiseHighest(ackno: nat)
      requires Ready() && !Finishes(Books(), ackno)
      modifies this`highestSent
      ensures Ready() && Whole() == SettledAt(old(Whole()), ackno)
    {
      ghost var before := Books();
      if ackno >= highestSent {
        highestSent := ackno;
      }
      assert Books() == Settled(before, ackno);
      SettledReaches(Start(Initial(), pacer.born, serviceTime, baseRtt), before, ackno);
    }

    method Finish(ackno: nat)
      requires Ready() && !pacer.firing && Finishes(Books(), ackno)
      modifies this`flowFinished, pacer`interpacketDelay, pacer`nextSend, events`pendingSources
      ensures Valid() && Books() == Settled(old(Books()), ackno) && flowFinished
      ensures pacer.interpacketDelay == 0 && pacer.Silent()
      ensures forall s :: s != pacerId ==> events.Times(s) == old(events.Times(s))
    {
      ghost var before := Books();
      pacer.Cancel();
      flowFinished := true;
      assert Books() == Settled(before, ackno);
      SettledReaches(Start(Initial(), pacer.born, serviceTime, baseRtt), before, ackno);
    }

    /** An ack. `window` is the new pacing delay if the ack closes a bandwidth window; `mid` is the state when
        the ack settles, after the packets that this lets go. */
    method ProcessAck(seqno: nat, ackno: nat, window: Window) returns (ghost mid: Paced)
      requires Valid() && !aborted && pacer != null
      modifies this`sent, this`highestSent, this`cwnd, this`nackRtxPending, this`rtxPending, this`rtxTimeoutPending,
               this`rtxTimeout, this`rtoMargin, this`pacedPacket, this`outbox, this`aborted,
               this`pacingDelay, this`flowFinished, pacer, events`pendingSources
      ensures aborted <==> BbrSender.MarkReceived(old(View()), seqno, ackno).aborted
      ensures aborted ==> View() == BbrSender.MarkReceived(old(View()), seqno, ackno) && outbox == old(outbox)
      ensures !aborted ==>
                && Valid() && Emits(Marked(old(Books()), seqno, ackno), mid) && Emits(Settled(mid, ackno), Books())
                && (if Finishes(mid, ackno) then flowFinished && !pacer.IsPending() && pacer.Silent() else Stalled())
                && pacingDelay == (if window.Closed? then window.delay else old(pacingDelay))
      ensures !aborted && window.Open? ==>
                var d := MarkedAt(old(Whole()), seqno, ackno);
                && mid == d.p
                && (!Finishes(mid, ackno) && old(pacer.IsPending()) ==>
                      Whole() == SendAll(SettledAt(d, ackno)) && pacer.Waits() == old(pacer.Waits()))
      ensures old(Covered()) ==> Covered()
      ensures forall s :: s != pacerId ==> events.Times(s) == old(events.Times(s))
    {
      mid := Books();
      TakeAck(seqno, ackno);
      if !aborted {
        mid := CarryOn(ackno, window);
      }
    }

    /** The part of an ack that may send. */
    method CarryOn(ackno: nat, window: Window) returns (ghost mid: Paced)
      requires Ready() && !pacer.firing
      modifies this`sent, this`highestSent, this`cwnd, this`nackRtxPending, this`rtxPending, this`rtxTimeoutPending,
               this`rtxTimeout, this`rtoMargin, this`pacedPacket, this`outbox,
               this`pacingDelay, this`flowFinished, pacer, events`pendingSources
      ensures forall s :: s != pacerId ==> events.Times(s) == old(events.Times(s))
      ensures Valid() && Emits(old(Books()), mid) && Emits(Settled(mid, ackno), Books())
      ensures if Finishes(mid, ackno) then flowFinished && !pacer.IsPending() && pacer.Silent() else Stalled()
      ensures pacingDelay == if window.Closed? then window.delay else old(pacingDelay)
      ensures window.Open? ==>
                && mid == old(Books())
                && (!Finishes(mid, ackno) && old(pacer.IsPending()) ==>
                      Whole() == SendAll(SettledAt(old(Whole()), ackno)) && pacer.Waits() == old(pacer.Waits()))
      ensures Covered() == old(Covered())
    {
      Repace(window);
      mid := Books();
      ghost var desk := Whole();
      assert Ready() && pacer.id == pacerId && desk.p == mid;
      FinishAck(ackno);
    }

    /** Any packet that reaches the source. While a timeout is pending and the window has room, the source
        schedules its own event: a start. */
    method ReceivePacket(m: Sink.Message, window: Window) returns (ghost mid: Paced)
      requires Valid() && !aborted && pacer != null
      modifies this`sent, this`highestSent, this`cwnd, this`nackRtxPending, this`rtxPending, this`rtxTimeoutPending,
               this`rtxTimeout, this`rtoMargin, this`pacedPacket, this`outbox, this`aborted,
               this`pacingDelay, this`flowFinished, pacer, events`pendingSources
      ensures match m
              case Ack(seqno, ackno) =>
                && (aborted <==> BbrSender.MarkReceived(old(View()), seqno, ackno).aborted)
                && (!aborted ==>
                      && Emits(Marked(old(Books()), seqno, ackno), mid) && Emits(Settled(mid, ackno), Books())
                      && pacingDelay == (if window.Closed? then window.delay else old(pacingDelay)))
                && (!aborted && window.Open? ==>
                      var d := MarkedAt(old(Whole()), seqno, ackno);
                      && mid == d.p
                      && (!Finishes(mid, ackno) && old(pacer.IsPending()) ==>
                            Whole() == SendAll(SettledAt(d, ackno)) && pacer.Waits() == old(pacer.Waits())))
              case Nack(seqno, _) =>
                && (aborted <==> !NackExpected(old(View()), seqno))
                && (aborted ==> View() == BbrSender.ProcessNack(old(View()), seqno) && outbox == old(outbox))
                && (!aborted ==>
                      var d, i := NackedAt(old(Whole()), seqno), IndexOf(old(sent), seqno);
                      && Emits(d.p, Books()) && i < |d.p.s.sent|
                      && (if MayResend(d.p) then Whole() == ResendAt(d, i) else rtxPending)
                      && (old(pacer.IsPending()) ==>
                            Whole() == NackTakenAt(old(Whole()), seqno) && pacer.Waits() == old(pacer.Waits())))
              case _ => !aborted && Whole() == old(Whole()) && pacer.Waits() == old(pacer.Waits())
      ensures !aborted ==> Valid() && (old(Covered()) ==> Covered())
      ensures !aborted ==>
                events.Times(id) == old(events.Times(id)) + AfterPacket()
      ensures forall s :: s != pacerId && s != id ==> events.Times(s) == old(events.Times(s))
      ensures old(Alone()) ==> Alone()
    {
      mid := Handle(m, window);
      if !aborted {
        StartIfTimedOut();
      }
    }

    /** The switch over the kind of packet. */
    method Handle(m: Sink.Message, window: Window) returns (ghost mid: Paced)
      requires Valid() && !aborted && pacer != null
      modifies this`sent, this`highestSent, this`cwnd, this`nackRtxPending, this`rtxPending, this`rtxTimeoutPending,
               this`rtxTimeout, this`rtoMargin, this`pacedPacket, this`outbox, this`aborted,
               this`pacingDelay, this`flowFinished, pacer, events`pendingSources
      ensures match m
              case Ack(seqno, ackno) =>
                && (aborted <==> BbrSender.MarkReceived(old(View()), seqno, ackno).aborted)
                && (!aborted ==>
                      && Emits(Marked(old(Books()), seqno, ackno), mid) && Emits(Settled(mid, ackno), Books())
                      && pacingDelay == (if window.Closed? then window.delay else old(pacingDelay)))
                && (!aborted && window.Open? ==>
                      var d := MarkedAt(old(Whole()), seqno, ackno);
                      && mid == d.p
                      && (!Finishes(mid, ackno) && old(pacer.IsPending()) ==>
                            Whole() == SendAll(SettledAt(d, ackno)) && pacer.Waits() == old(pacer.Waits())))
              case Nack(seqno, _) =>
                && (aborted <==> !NackExpected(old(View()), seqno))
                && (aborted ==> View() == BbrSender.ProcessNack(old(View()), seqno) && outbox == old(outbox))
                && (!aborted ==>
                      var d, i := NackedAt(old(Whole()), seqno), IndexOf(old(sent), seqno);
                      && Emits(d.p, Books()) && i < |d.p.s.sent|
                      && (if MayResend(d.p) then Whole() == ResendAt(d, i) else rtxPending)
                      && (old(pacer.IsPending()) ==>
                            Whole() == NackTakenAt(old(Whole()), seqno) && pacer.Waits() == old(pacer.Waits())))
              case _ => !aborted && Whole() == old(Whole()) && pacer.Waits() == old(pacer.Waits())
      ensures !aborted ==> Valid() && (old(Covered()) ==> Covered())
      ensures forall s :: s != pacerId ==> events.Times(s) == old(events.Times(s))
      ensures old(Alone()) ==> Alone()
    {
      mid := Books();
      match m {
        case Ack(seqno, ackno) => mid := ProcessAck(seqno, ackno, window);
        case Nack(seqno, _) => ProcessNack(seqno);
        case _ =>
      }
    }

    /** A timeout was acted on, and the window has room again. */
    ghost predicate MayStartOver()
      reads this`sent, this`highestSent, this`cwnd, this`nackRtxPending, this`started, this`flowFinished, this`aborted,
            this`rtxTimeoutPending
    {
      rtxTimeoutPending && Unacked(View()) < cwnd
    }

    lemma StartsOverExactly()
      ensures MayStartOver() <==> rtxTimeoutPending && Count(sent, InFlight) * mss < cwnd
    {
    }

    /** The start that a packet schedules when it has been dealt with. */
    ghost function AfterPacket(): multiset<nat>
      reads this`sent, this`highestSent, this`cwnd, this`nackRtxPending, this`started, this`flowFinished, this`aborted,
            this`rtxTimeoutPending, events
    {
      if MayStartOver() then E.Upcoming(events.Now(), events.endTime) else multiset{}
    }

    method StartIfTimedOut()
      requires Valid() && !aborted && pacer != null
      modifies events`pendingSources
      ensures forall s :: s != id ==> events.Times(s) == old(events.Times(s))
      ensures Valid() && Whole() == old(Whole())
      ensures events.Times(id) == old(events.Times(id)) + AfterPacket()
      ensures old(Alone()) ==> Alone()
    {
      var late := TimeoutIsDue();
      StartIf(late);
    }

    method StartIf(late: bool)
      requires Ready() && !pacer.firing
      modifies events`pendingSources
      ensures forall s :: s != id ==> events.Times(s) == old(events.Times(s))
      ensures Ready() && Whole() == old(Whole())
      ensures events.Times(id) ==
                old(events.Times(id)) + if late then E.Upcoming(events.Now(), events.endTime) else multiset{}
      ensures old(Alone()) ==> Alone()
    {
      ScheduleIf(events, id, late);
      assert events.Times(pacerId) == old(events.Times(pacerId));
      assert Books() == old(Books());
    }

    method TimeoutIsDue() returns (late: bool)
      ensures late == MayStartOver()
    {
      var unacked := GetUnacked();
      late := unacked < cwnd && rtxTimeoutPending;
    }

    // ---- Time ----

    /** `rtx_timer_hook`: an overdue timer shrinks the window and schedules the source itself. The next event
        of the source is then a start. */
    method RtxTimerHook(period: nat)
      requires Valid() && !aborted
      modifies this`cwnd, this`rtxTimeoutPending, events`pendingSources
      ensures Valid() && !aborted
      ensures pacer == null ==> View() == old(View()) && events.Times(id) == old(events.Times(id))
      ensures pacer != null ==>
                if old(highestSent != 0 && rtxTimeout != 0 && events.Now() + period >= rtxTimeout && !rtxTimeoutPending)
                then
                  && Whole() == PenalizedAt(old(Whole())) && cwnd == mss && rtxTimeoutPending
                  && events.Times(id) == old(events.Times(id)) +
                       E.Upcoming(Overdue(), events.endTime)
                else Whole() == old(Whole()) && events.Times(id) == old(events.Times(id))
      ensures forall s :: s != id ==> events.Times(s) == old(events.Times(s))
      ensures old(Alone()) ==> Alone()
    {
      if highestSent != 0 && rtxTimeout != 0 && events.Now() + period >= rtxTimeout && !rtxTimeoutPending {
        ActOnTimeout();
      }
    }

    /** When an overdue source starts again. */
    ghost function Overdue(): nat
      reads this`rtxTimeout, events`lastEventTime
    {
      NotBefore(events.Now(), rtxTimeout)
    }

    method ActOnTimeout()
      requires Valid() && !aborted && highestSent != 0
      modifies this`cwnd, this`rtxTimeoutPending, events`pendingSources
      ensures forall s :: s != id ==> events.Times(s) == old(events.Times(s))
      ensures Valid() && pacer != null && Whole() == PenalizedAt(old(Whole()))
      ensures events.Times(id) == old(events.Times(id)) + E.Upcoming(Overdue(), events.endTime)
      ensures old(Alone()) ==> Alone()
    {
      ApplyPenalty();
      assert Ready() && pacer.id == pacerId;
      ScheduleTimeout();
    }

    method ScheduleTimeout()
      requires Ready() && !pacer.firing
      modifies events`pendingSources
      ensures forall s :: s != id ==> events.Times(s) == old(events.Times(s))
      ensures Ready() && Whole() == old(Whole())
      ensures events.Times(id) == old(events.Times(id)) + E.Upcoming(Overdue(), events.endTime)
      ensures old(Alone()) ==> Alone()
    {
      ScheduleNotBefore(events, id, rtxTimeout);
      assert events.Times(pacerId) == old(events.Times(pacerId));
      assert Books() == old(Books());
    }

    method ApplyPenalty()
      requires Valid() && !aborted && highestSent != 0
      modifies this`cwnd, this`rtxTimeoutPending
      ensures Valid() && pacer != null && Whole() == PenalizedAt(old(Whole()))
    {
      ghost var before := Books();
      rtxTimeoutPending := true;
      ReduceCwnd(mss);                 // apply_timeout_penalty, for a source that trims
      cwnd := mss;
      assert Books() == Penalized(before);
      PenalizedReaches(Start(Initial(), pacer.born, serviceTime, baseRtt), before);
    }

    /** The simulator runs the next event. An event of the pacer comes exactly when the pacer expects it. */
    method RunNext() returns (turn: E.Turn)
      requires Valid() && !aborted
      modifies this`sent, this`highestSent, this`cwnd, this`nackRtxPending, this`rtxPending, this`rtxTimeoutPending,
               this`rtxTimeout, this`rtoMargin, this`pacedPacket, this`outbox,
               this`rto, this`maxCwnd, this`started, this`pacer, pacer, events
      ensures Valid() && !aborted && old(events.Now()) <= events.Now()
      ensures turn.Event? && turn.source == pacerId ==>
                && old(pacer) == pacer != null && events.Now() == old(pacer.nextSend) && Stalled()
                && old(pacer.hist) + [Fired(events.Now(), old(pacer.interpacketDelay))] <= pacer.hist
                && Emits(TickedAt(old(Whole()), events.Now()).p, Books()) && Covered() == old(Covered())
      ensures turn.Event? && turn.source == id ==>
                && started && Stalled() && (Covered() <==> old(NoneWaiting(sent)))
                && (old(pacer) != null ==> Emits(Restarted(TickedAt(old(Whole()), events.Now()).p), Books()))
    {
      turn := NextTurn();
      Dispatch(turn);
    }

    /** What the event just taken does. */
    method Dispatch(turn: E.Turn)
      requires !aborted && (!(turn.Event? && turn.source == pacerId) ==> Valid())
      requires turn.Event? && turn.source == pacerId ==>
                && pacer != null && Core() && !pacer.firing && pacer.Silent()
                && pacer.IsPending() && events.Now() == pacer.nextSend
                && Clear(pacer.hist, pacer.interpacketDelay, pacer.nextSend)
      modifies this`sent, this`highestSent, this`cwnd, this`nackRtxPending, this`rtxPending, this`rtxTimeoutPending,
               this`rtxTimeout, this`rtoMargin, this`pacedPacket, this`outbox,
               this`rto, this`maxCwnd, this`started, this`pacer, pacer, events`pendingSources
      ensures Valid() && !aborted
      ensures old(pacer) != null ==> pacer == old(pacer)
      ensures turn.Event? && turn.source == pacerId ==>
                && pacer == old(pacer) && Stalled() && Covered() == old(Covered())
                && old(pacer.hist) + [Fired(events.Now(), old(pacer.interpacketDelay))] <= pacer.hist
                && Emits(old(Books()), Books()) && Whole() == PacedAt(old(Whole()), old(pacer.interpacketDelay))
                && pacer.Waits() == Wait(old(pacer.interpacketDelay), events.Now() + old(pacer.interpacketDelay))
      ensures turn.Event? && turn.source == id && id != pacerId ==>
                && started && Stalled() && pacer != null && (Covered() <==> old(NoneWaiting(sent)))
                && (old(pacer) != null ==> Emits(Restarted(old(Books())), Books()))
                && (old(pacer) == null ==> fresh(pacer) && Emits(Restarted(Newborn().p), Books()))
                && (old(pacer != null && pacer.IsPending()) ==>
                      Whole() == SendAll(RestartedAt(old(Whole()))) && pacer.Waits() == old(pacer.Waits()))
      ensures !(turn.Event? && (turn.source == pacerId || turn.source == id)) ==>
                View() == old(View()) && outbox == old(outbox) && pacer == old(pacer)
      ensures forall s :: s != pacerId ==> events.Times(s) == old(events.Times(s))
    {
      if turn.Event? && turn.source == pacerId {
        RunPacer();
      } else if turn.Event? && turn.source == id {
        StartFlow();
      }
    }

    method RunPacer()
      requires pacer != null && Core() && !pacer.firing && pacer.Silent() && pacer.IsPending()
      requires events.Now() == pacer.nextSend && Clear(pacer.hist, pacer.interpacketDelay, pacer.nextSend)
      modifies this`sent, this`highestSent, this`cwnd, this`nackRtxPending, this`rtxPending, this`rtxTimeoutPending,
               this`rtxTimeout, this`rtoMargin, this`pacedPacket, this`outbox, pacer, events`pendingSources
      ensures Valid() && Stalled() && Covered() == old(Covered())
      ensures old(pacer.hist) + [Fired(events.Now(), old(pacer.interpacketDelay))] <= pacer.hist
      ensures Emits(old(Books()), Books())
      ensures Whole() == PacedAt(old(Whole()), old(pacer.interpacketDelay))
      ensures pacer.Waits() == Wait(old(pacer.interpacketDelay), events.Now() + old(pacer.interpacketDelay))
      ensures forall s :: s != pacerId ==> events.Times(s) == old(events.Times(s))
      ensures old(Alone()) ==> Alone()
    {
      pacer.DoNextEvent();
    }

    /** The clock moves to the next event. */
    method NextTurn() returns (turn: E.Turn)
      requires Valid() && !aborted
      modifies events
      ensures forall s :: !(turn.Event? && s == turn.source) ==> events.Times(s) == old(events.Times(s))
      ensures old(events.Now()) <= events.Now() && events.endTime == old(events.endTime)
      ensures old(events.pendingTriggers) == [] ==> events.pendingTriggers == []
      ensures old(events.pendingTriggers) == [] && old(events.pendingSources) != [] ==>
                && turn == E.Event(old(events.pendingSources)[0].source)
                && events.Now() == old(events.pendingSources)[0].when
      ensures !(turn.Event? && turn.source == pacerId) ==> Valid()
      ensures turn.Event? && turn.source == pacerId ==>
                && pacer != null && Core() && !pacer.firing && pacer.Silent()
                && pacer.IsPending() && events.Now() == pacer.nextSend
                && Clear(pacer.hist, pacer.interpacketDelay, pacer.nextSend)
      ensures pacer != null ==> Whole() == TickedAt(old(Whole()), events.Now())
      ensures turn.Event? ==> old(events.Times(turn.source)) == events.Times(turn.source) + multiset{events.Now()}
      ensures old(Alone()) ==> Alone()
    {
      turn := events.DoNextEvent();
      if pacer != null {
        TickReaches(Start(Initial(), pacer.born, serviceTime, baseRtt), old(Books()), events.Now());
        assert Books() == old(Books()).(now := events.Now());
        assert Core() && !pacer.firing;
      }
    }

    // ---- What the objects keep, whatever is called ----

    /** The pacer has at most one event, at `nextSend`, a whole delay after its last firing. */
    lemma PacerHasOneEvent()
      requires Valid() && pacer != null
      ensures events.Times(pacerId) ==
              if pacer.IsPending() then E.Upcoming(pacer.nextSend, events.endTime) else multiset{}
      ensures pacer.IsPending() ==> Clear(pacer.hist, pacer.interpacketDelay, pacer.nextSend)
    {
    }

    /** The source has done a run of the sender's specification, and put its packets on the wire. */
    lemma RefinesSender() returns (actions: seq<Action>)
      requires Valid() && pacer != null
      ensures View() == Run(Initial(), actions) && Seqnos(outbox) == Wire(Initial(), actions)
    {
      actions := ReachableRefines(Initial(), pacer.born, serviceTime, baseRtt, Books());
    }

    /** While no delay in force is below `d`, an interval of length T carries at most floor(T / d) + 2 packets. */
    lemma SendsAtBoundedRate(lo: nat, hi: nat, d: Size)
      requires Valid() && pacer != null && Delayed(pacer.hist, d) && lo <= hi
      ensures SentWithin(outbox, lo, hi) <= (hi - lo) / d + 2
    {
      PacketsArePaced(Initial(), pacer.born, serviceTime, baseRtt, Books(), lo, hi, d);
    }

    /** The window is the BDP or one packet, the bytes in flight stay within bounds, and the count of pending
        retransmissions covers the entries flagged nacked. */
    lemma StaysWithinWindow()
      requires Valid() && pacer != null && mss <= bdp
      ensures mss <= cwnd <= bdp && (cwnd == mss || cwnd == bdp)
      ensures Unacked(View()) < bdp + mss && nackRtxPending >= Count(sent, IsNacked)
    {
      var actions := RefinesSender();
      WindowIsBdpOrPacket(mss, flowSize, bdp, startingCwnd, actions);
      ReachableAccounted(Initial(), pacer.born, serviceTime, baseRtt, Books());
    }
  }
}

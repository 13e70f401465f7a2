/**
 Networks that lose, reorder and trim, but do not duplicate, and sources that never time out.
 Then every packet has at most one live copy, and no assertion of the source fails.
 */
module BbrExact {
  import opened Arith
  import opened BbrSender
  import opened BbrSystem
  import Sink = BbrSink

  predicate Quiet(e: Event) {
    !e.Duplicate? && !(e.Source? && e.action.TimeOut?)
  }

  /** Copies of a packet on the wire: whole, trimmed, or as the nack that answers a trimmed one. */
  function Live(s: System, q: nat): nat {
    s.net[Sink.Data(q)] + s.net[Sink.Header(q)] + s.net[Sink.Nack(q, q + s.src.mss - 1)]
  }

  /** At most one copy, and only of a packet the sink lacks; a packet waiting to be resent after a nack
      has none, and the sink lacks it too. */
  ghost predicate OneCopy(s: System) {
    && !s.src.aborted
    && (forall q :: Live(s, q) <= 1)
    && (forall q :: Live(s, q) == 1 ==> !Sink.AlreadyReceived(s.sink, q))
    && forall i :: 0 <= i < |s.src.sent| ==>
         && !s.src.sent[i].timedOut
         && (s.src.sent[i].nacked ==>
               Live(s, s.src.sent[i].seqno) == 0 && !Sink.AlreadyReceived(s.sink, s.src.sent[i].seqno))
  }

  lemma LiveIsFirstByte(s: System, q: nat)
    requires Invariant(s) && Live(s, q) > 0
    ensures Sink.FirstByte(q, s.src.mss) && q + s.src.mss - 1 <= s.src.highestSent
  {
    var d, h, n := Sink.Data(q), Sink.Header(q), Sink.Nack(q, q + s.src.mss - 1);
    if d in s.net { assert Sane(s, d); }
    if h in s.net { assert Sane(s, h); }
    if n in s.net { assert Sane(s, n); }
  }

  lemma NoneBeyondHighest(s: System)
    requires Invariant(s)
    ensures Live(s, s.src.highestSent + 1) == 0 && !Sink.AlreadyReceived(s.sink, s.src.highestSent + 1)
  {
    var q := s.src.highestSent + 1;
    if Live(s, q) > 0 { LiveIsFirstByte(s, q); }
  }

  lemma EntriesAreDistinct(s: Sender, i: nat, j: nat)
    requires Contiguous(s) && i < |s.sent| && j < |s.sent| && i != j
    ensures s.sent[i].seqno != s.sent[j].seqno
  {
    if i < j { MulStrict(i, j, s.mss); } else { MulStrict(j, i, s.mss); }
  }

  lemma SendKeepsOneCopy(s: System, timer: nat)
    requires Invariant(s) && OneCopy(s) && Enabled(s.src, SendNew(timer))
    ensures OneCopy(Act(s, SendNew(timer)))
  {
    var t := Act(s, SendNew(timer));
    NoneBeyondHighest(s);
    assert forall q :: Live(t, q) == if q == s.src.highestSent + 1 then 1 else Live(s, q);
    forall i | 0 <= i < |s.src.sent| ensures s.src.sent[i].seqno != s.src.highestSent + 1 {
      LastByte(s.src, i);
    }
  }

  lemma ResendKeepsOneCopy(s: System, i: nat, timer: nat)
    requires Invariant(s) && OneCopy(s) && Enabled(s.src, Resend(i, timer))
    ensures OneCopy(Act(s, Resend(i, timer)))
  {
    var t, p := Act(s, Resend(i, timer)), s.src.sent[i].seqno;
    assert forall q :: Live(t, q) == if q == p then 1 else Live(s, q);
    forall j | 0 <= j < |s.src.sent| && j != i ensures s.src.sent[j].seqno != p {
      EntriesAreDistinct(s.src, i, j);
    }
  }

  lemma ActKeepsOneCopy(s: System, a: Action)
    requires Invariant(s) && OneCopy(s) && !a.TimeOut?
    ensures OneCopy(Act(s, a))
  {
    if Enabled(s.src, a) {
      match a
      case SendNew(timer) => SendKeepsOneCopy(s, timer);
      case Resend(i, timer) => ResendKeepsOneCopy(s, i, timer);
      case _ => FewerCopies(s, Act(s, a));
    }
  }

  lemma FewerCopies(s: System, t: System)
    requires OneCopy(s) && t.src.sent == s.src.sent && t.src.mss == s.src.mss && t.sink == s.sink && !t.src.aborted
    requires forall q :: Live(t, q) <= Live(s, q)
    ensures OneCopy(t)
  {
  }

  lemma ReceiveMovesCopy(s: System, m: Message)
    requires Invariant(s) && OneCopy(s) && m in s.net && (m.Data? || m.Header?)
    ensures !Sink.AlreadyReceived(s.sink, m.seqno)
    ensures forall q :: Live(Receive(s, m), q) == if q == m.seqno && m.Data? then 0 else Live(s, q)
  {
    assert Sane(s, m);
    assert Live(s, m.seqno) == 1;
    Sink.AnswerMeaning(s.sink, m.seqno, m.Header?);
  }

  lemma ReceiveKeepsOneCopy(s: System, m: Message)
    requires Invariant(s) && OneCopy(s) && m in s.net && (m.Data? || m.Header?)
    ensures OneCopy(Receive(s, m))
  {
    assert Sane(s, m);
    var t := Receive(s, m);
    ReceiveMovesCopy(s, m);
    Sink.ReceiveAddsExactly(s.sink, m.seqno, m.Header?);
    forall q | Live(t, q) == 1 ensures !Sink.AlreadyReceived(t.sink, q) {
      LiveIsFirstByte(s, q);
    }
    forall i | 0 <= i < |s.src.sent| && s.src.sent[i].nacked
      ensures !Sink.AlreadyReceived(t.sink, s.src.sent[i].seqno)
    {
      LastByte(s.src, i);
    }
  }

  /** A live nack is for a packet that no ack covers. */
  lemma NackIsExpected(s: System, q: nat, a: nat)
    requires Invariant(s) && OneCopy(s) && Sink.Nack(q, a) in s.net
    ensures NackExpected(s.src, q)
  {
    assert Sane(s, Sink.Nack(q, a));
    assert Live(s, q) == 1;
    FindEntry(s.src, q);
    var i := IndexOf(s.src.sent, q);
    assert q !in s.early;
  }

  lemma NackKeepsOneCopy(s: System, q: nat, a: nat)
    requires Invariant(s) && OneCopy(s) && Sink.Nack(q, a) in s.net
    ensures OneCopy(Feedback(s, Sink.Nack(q, a)))
  {
    NackIsExpected(s, q, a);
    assert Sane(s, Sink.Nack(q, a));
    assert Live(s, q) == 1;
    var t := Feedback(s, Sink.Nack(q, a));
    assert forall p :: Live(t, p) == if p == q then 0 else Live(s, p);
  }

  lemma AckKeepsOneCopy(s: System, q: nat, a: nat)
    requires Invariant(s) && OneCopy(s) && Sink.Ack(q, a) in s.net
    ensures OneCopy(Feedback(s, Sink.Ack(q, a)))
  {
    var t := Feedback(s, Sink.Ack(q, a));
    AckEffect(s, q, a);
    assert forall p :: Live(t, p) == Live(s, p);
    forall i | 0 <= i < |t.src.sent|
      ensures (t.src.sent[i].acked && !t.src.sent[i].nacked && !t.src.sent[i].timedOut) || t.src.sent[i] in s.src.sent
    {
      AckLeavesOthers(s, q, a, i);
    }
  }

  lemma AckLeavesOthers(s: System, q: nat, a: nat, i: nat)
    requires Invariant(s) && !s.src.aborted && Sink.Ack(q, a) in s.net
    requires i < |MarkReceived(s.src, q, a).sent|
    ensures var e := MarkReceived(s.src, q, a).sent[i];
            (e.acked && !e.nacked && !e.timedOut) || e in s.src.sent
  {
    AckEffect(s, q, a);
    var t := MarkReceived(s.src, q, a);
    if q == 1 {
      var k :| 0 <= k <= |s.src.sent| && t.sent == s.src.sent[k..];
      assert t.sent[i] == s.src.sent[k + i];
    } else if t != s.src && i != IndexOf(s.src.sent, q) {
      assert t.sent[i] == s.src.sent[i];
    }
  }

  lemma NetworkKeepsOneCopy(s: System, e: Event)
    requires OneCopy(s) && (e.Trim? || e.Lose?)
    ensures OneCopy(BbrSystem.Step(s, e))
  {
    FewerCopies(s, BbrSystem.Step(s, e));
  }

  lemma StepKeepsOneCopy(s: System, e: Event)
    requires Invariant(s) && OneCopy(s) && Quiet(e)
    ensures OneCopy(BbrSystem.Step(s, e))
  {
    match e
    case Source(a) => ActKeepsOneCopy(s, a);
    case ToSink(m) => if m in s.net && (m.Data? || m.Header?) { ReceiveKeepsOneCopy(s, m); }
    case ToSource(m) =>
      if m in s.net && m.Ack? { AckKeepsOneCopy(s, m.seqno, m.ackno); }
      if m in s.net && m.Nack? { NackKeepsOneCopy(s, m.seqno, m.ackno); }
    case Trim(p) => NetworkKeepsOneCopy(s, e);
    case Lose(m) => NetworkKeepsOneCopy(s, e);
    case Duplicate(_) =>
  }

  /** In every run without duplication and without timeouts, however much is lost, reordered and trimmed:
      a packet has at most one live copy, a live copy means the sink lacks the packet, and the source never
      aborts, because every nack on the wire meets both assertions of `processNack`. */
  lemma {:induction false} QuietRunsNeverAbort(mss: Size, flowSize: nat, maxCwnd: nat, startingCwnd: nat,
                                               trimming: bool, events: seq<Event>)
    requires forall e :: e in events ==> Quiet(e)
    ensures var s := BbrSystem.Run(BbrSystem.Init(mss, flowSize, maxCwnd, startingCwnd, trimming), events);
            && Invariant(s) && !s.src.aborted
            && (forall q :: Live(s, q) <= 1)
            && (forall q :: Live(s, q) == 1 ==> !Sink.AlreadyReceived(s.sink, q))
            && (forall q, a :: Sink.Nack(q, a) in s.net ==> NackExpected(s.src, q))
            && OneCopy(s)
    decreases |events|
  {
    var init := BbrSystem.Init(mss, flowSize, maxCwnd, startingCwnd, trimming);
    if events != [] {
      var front, e := events[..|events| - 1], events[|events| - 1];
      assert forall f :: f in front ==> f in events;
      QuietRunsNeverAbort(mss, flowSize, maxCwnd, startingCwnd, trimming, front);
      StepKeeps(BbrSystem.Run(init, front), e);
      StepKeepsOneCopy(BbrSystem.Run(init, front), e);
    }
    var s := BbrSystem.Run(init, events);
    forall q, a | Sink.Nack(q, a) in s.net ensures NackExpected(s.src, q) {
      NackIsExpected(s, q, a);
    }
  }
}

/**
 A sender, a sink, and between them a network that loses, reorders, duplicates and trims.
 Every sequence of events is a run; the invariant below holds in every state of every run.
 */
module BbrSystem {
  import opened Arith
  import opened BbrSender
  import Sink = BbrSink

  type Message = Sink.Message

  datatype System = System(
    src: Sender,
    sink: Sink.Sink,
    net: multiset<Message>,
    cumulative: set<nat>,        // every value the sink's cumulative ack has had
    early: set<nat>,             // every packet the sink has acked individually
    ackedUpTo: nat,              // the highest cumulative ack the source has processed
    ackedAlone: set<nat>)        // the individual acks the source has processed

  function Init(mss: Size, flowSize: nat, maxCwnd: nat, startingCwnd: nat, trimming: bool): System {
    System(BbrSender.Init(mss, flowSize, maxCwnd, startingCwnd), Sink.Init(mss, trimming), multiset{},
           {0}, {}, 0, {})
  }

  datatype Event =
    | Source(action: Action)
    | ToSink(message: Message)
    | ToSource(message: Message)
    | Trim(seqno: nat)
    | Lose(message: Message)
    | Duplicate(message: Message)

  /** The packet an action puts on the wire, if it sends one. */
  function Emitted(s: Sender, a: Action): multiset<Message>
    requires Enabled(s, a)
  {
    match a
    case SendNew(_) => multiset{Sink.Data(s.highestSent + 1)}
    case Resend(i, _) => multiset{Sink.Data(s.sent[i].seqno)}
    case _ => multiset{}
  }

  function Act(s: System, a: Action): System {
    if IsFeedback(a) || !Enabled(s.src, a) then s
    else s.(src := Apply(s.src, a), net := s.net + Emitted(s.src, a))
  }

  function Receive(s: System, m: Message): System {
    if m !in s.net || m.Ack? || m.Nack? then s
    else
      var (t, answer) := Sink.Receive(s.sink, m.seqno, m.Header?);
      var net := s.net - multiset{m};
      s.(sink := t,
         net := if answer.Reply? then net + multiset{answer.message} else net,
         cumulative := s.cumulative + {t.cumulativeAck},
         early := if answer.Reply? && answer.message.Ack? && answer.message.seqno != 1
                  then s.early + {answer.message.seqno} else s.early)
  }

  /** A source without trimming ignores nacks. */
  function Feedback(s: System, m: Message): System {
    if m !in s.net || m.Data? || m.Header? then s
    else
      var r := s.(net := s.net - multiset{m});
      if m.Nack? then
        if s.sink.trimming then r.(src := ProcessNack(s.src, m.seqno)) else r
      else
        r.(src := ProcessAck(s.src, m.seqno, m.ackno),
           ackedUpTo := if m.seqno == 1 && m.ackno > s.ackedUpTo then m.ackno else s.ackedUpTo,
           ackedAlone := if m.seqno == 1 then s.ackedAlone else s.ackedAlone + {m.seqno})
  }

  function Step(s: System, e: Event): System {
    if s.src.aborted then s
    else
      match e
      case Source(a) => Act(s, a)
      case ToSink(m) => Receive(s, m)
      case ToSource(m) => Feedback(s, m)
      case Trim(q) =>
        if Sink.Data(q) in s.net then s.(net := s.net - multiset{Sink.Data(q)} + multiset{Sink.Header(q)}) else s
      case Lose(m) => if m in s.net then s.(net := s.net - multiset{m}) else s
      case Duplicate(m) => if m in s.net then s.(net := s.net + multiset{m}) else s
  }

  function Run(s: System, events: seq<Event>): System
    decreases |events|
  {
    if events == [] then s else Step(Run(s, events[..|events| - 1]), events[|events| - 1])
  }

  // ---- The invariant ----

  /** The last byte the entries of the sender start after. */
  function Base(s: Sender): int { s.highestSent - |s.sent| * s.mss }

  /** The entries are a gap-free run of packets that ends at the highest byte sent. */
  ghost predicate Contiguous(s: Sender) {
    && Base(s) >= 0
    && s.highestSent % s.mss == 0 && Base(s) % s.mss == 0
    && forall i :: 0 <= i < |s.sent| ==> s.sent[i].seqno == Base(s) + 1 + i * s.mss
  }

  ghost predicate Sane(s: System, m: Message) {
    var size := s.src.mss;
    match m
    case Ack(q, a) => if q == 1 then a in s.cumulative else q in s.early && a == q + size - 1
    case Nack(q, a) => Sink.FirstByte(q, size) && q + size - 1 <= s.src.highestSent && a == q + size - 1
    case _ => Sink.FirstByte(m.seqno, size) && m.seqno + size - 1 <= s.src.highestSent
  }

  ghost predicate SinkSide(s: System) {
    && s.sink.size == s.src.mss
    && Sink.WellFormed(s.sink)
    && s.sink.cumulativeAck <= s.src.highestSent
    && (forall x :: x in s.sink.received ==> x + s.src.mss - 1 <= s.src.highestSent)
    && 0 in s.cumulative && s.sink.cumulativeAck in s.cumulative
    && (forall h :: h in s.cumulative ==> h % s.src.mss == 0 && h <= s.sink.cumulativeAck)
    && forall x :: x in s.early ==>
         Sink.FirstByte(x, s.src.mss) && x - 1 !in s.cumulative && Sink.AlreadyReceived(s.sink, x)
  }

  ghost predicate SourceSide(s: System) {
    && Contiguous(s.src)
    && Base(s.src) == s.ackedUpTo && s.ackedUpTo in s.cumulative
    && s.ackedAlone <= s.early
    && forall i :: 0 <= i < |s.src.sent| ==> (s.src.sent[i].acked <==> s.src.sent[i].seqno in s.ackedAlone)
  }

  /** Everything was sent, delivered, acked and removed. */
  ghost predicate Complete(s: System) {
    s.src.flowSize <= s.src.highestSent == s.sink.cumulativeAck && s.src.sent == []
  }

  ghost predicate Invariant(s: System) {
    && SinkSide(s)
    && (s.src.finished ==> Complete(s))
    && (!s.src.aborted ==> SourceSide(s))
    && forall m :: m in s.net ==> Sane(s, m)
  }

  // ---- Entries and their positions ----

  lemma LastByte(s: Sender, i: nat)
    requires Contiguous(s) && i < |s.sent|
    ensures s.sent[i].seqno + s.mss - 1 <= s.highestSent
    ensures Sink.FirstByte(s.sent[i].seqno, s.mss)
  {
    MulStrict(i, |s.sent|, s.mss);
    MultipleOf(i, s.mss);
    var b: nat := Base(s);
    assert b == b / s.mss * s.mss;
    assert b + i * s.mss == (b / s.mss + i) * s.mss;
    MultipleOf(b / s.mss + i, s.mss);
  }

  /** A packet beyond the base and sent has exactly one entry, which the search finds; it is the front
      entry only if its predecessor ends at the base. */
  lemma FindEntry(s: Sender, seqno: nat)
    requires Contiguous(s) && Sink.FirstByte(seqno, s.mss)
    requires Base(s) < seqno && seqno + s.mss - 1 <= s.highestSent
    ensures IndexOf(s.sent, seqno) < |s.sent|
    ensures IndexOf(s.sent, seqno) == 0 <==> seqno - 1 == Base(s)
  {
    var k := MultipleIndex(Base(s), seqno - 1, s.mss);
    if k >= |s.sent| { MulMonotone(|s.sent|, k, s.mss); }
    assert s.sent[k].seqno == seqno;
    assert s.sent[0].seqno == Base(s) + 1 + 0 * s.mss;
  }

  lemma EntryBelow(s: Sender, i: nat, k: nat)
    requires Contiguous(s) && i < |s.sent| && k <= |s.sent|
    ensures i < k <==> s.sent[i].seqno <= Base(s) + k * s.mss
    ensures s.sent[i].seqno > Base(s)
  {
    MulMonotone(0, i, s.mss);
    if i < k { MulStrict(i, k, s.mss); } else { MulMonotone(k, i, s.mss); }
  }

  lemma NoEntryBelow(s: Sender, seqno: nat)
    requires Contiguous(s) && seqno <= Base(s)
    ensures IndexOf(s.sent, seqno) == |s.sent|
  {
    var i := IndexOf(s.sent, seqno);
    if i < |s.sent| {
      MulMonotone(0, i, s.mss);
    }
  }

  /** The duplicate test of an individual ack asks whether its packet is below the base. */
  lemma DuplicateMeansBelow(s: Sender, seqno: nat)
    requires Contiguous(s) && Sink.FirstByte(seqno, s.mss) && seqno + s.mss - 1 <= s.highestSent
    ensures IsDuplicateAck(s.sent, seqno + s.mss - 1) <==> seqno <= Base(s)
  {
    if s.sent != [] {
      assert s.sent[0].seqno == Base(s) + 1 + 0 * s.mss;
      if seqno <= Base(s) { MultipleGap(seqno - 1, Base(s), s.mss); }
    }
  }

  /** No front entry is flagged acked. */
  lemma FrontIsNotAcked(s: System)
    requires SinkSide(s) && SourceSide(s) && s.src.sent != []
    ensures !s.src.sent[0].acked
  {
    assert s.src.sent[0].seqno == Base(s.src) + 1 + 0 * s.src.mss;
  }

  /** The cumulative erase loop stops exactly at `ackno`, or leaves the list alone if the ack is old. */
  lemma EraseStopsAtAckno(s: System, ackno: nat) returns (k: nat)
    requires SinkSide(s) && SourceSide(s) && ackno in s.cumulative
    ensures k <= |s.src.sent| && DropCovered(s.src.sent, ackno) == s.src.sent[k..]
    ensures Base(s.src) + k * s.src.mss == if ackno > s.ackedUpTo then ackno else s.ackedUpTo
  {
    var src, stop := s.src, if ackno > s.ackedUpTo then ackno else s.ackedUpTo;
    k := DropCoveredIsSuffix(src.sent, ackno);
    var t := MultipleIndex(Base(src), stop, src.mss);
    if t < |src.sent| { assert src.sent[t].seqno == stop + 1; }
    if k < t { MulStrict(k, t, src.mss); }
  }

  lemma DropKeepsContiguous(s: Sender, k: nat)
    requires Contiguous(s) && k <= |s.sent|
    ensures Contiguous(s.(sent := s.sent[k..])) && Base(s.(sent := s.sent[k..])) == Base(s) + k * s.mss
  {
    var t := s.(sent := s.sent[k..]);
    assert |t.sent| * s.mss == |s.sent| * s.mss - k * s.mss;
    assert (Base(s) + k * s.mss) % s.mss == 0 by {
      var b: nat := Base(s);
      assert b == b / s.mss * s.mss;
      assert b + k * s.mss == (b / s.mss + k) * s.mss;
      MultipleOf(b / s.mss + k, s.mss);
    }
    MulMonotone(0, k, s.mss);
    forall i | 0 <= i < |t.sent| ensures t.sent[i].seqno == Base(t) + 1 + i * s.mss {
      assert t.sent[i] == s.sent[i + k];
      assert (i + k) * s.mss == i * s.mss + k * s.mss;
    }
  }

  lemma UpdateKeepsContiguous(s: Sender, i: nat, e: SentPacket)
    requires Contiguous(s) && i < |s.sent| && e.seqno == s.sent[i].seqno
    ensures Contiguous(s.(sent := s.sent[i := e])) && Base(s.(sent := s.sent[i := e])) == Base(s)
  {
  }

  // ---- Each event keeps it ----

  lemma SendKeepsContiguous(s: Sender, timer: nat)
    requires Contiguous(s) && Enabled(s, SendNew(timer))
    ensures var t := Apply(s, SendNew(timer)); Contiguous(t) && Base(t) == Base(s)
  {
    MulSplits(|s.sent|, 1, s.mss);
    MultipleStep(s.highestSent, s.mss);
  }

  lemma SendKeepsSource(s: System, timer: nat)
    requires Invariant(s) && Enabled(s.src, SendNew(timer))
    ensures SourceSide(s.(src := Apply(s.src, SendNew(timer))))
  {
    var t := s.(src := Apply(s.src, SendNew(timer)));
    MultipleStep(s.src.highestSent, s.src.mss);
    SendKeepsContiguous(s.src, timer);
    assert !Sink.AlreadyReceived(s.sink, s.src.highestSent + 1);
    assert s.src.highestSent + 1 !in s.early;
  }

  lemma UpdateKeepsSource(s: System, a: Action)
    requires Invariant(s) && Enabled(s.src, a) && (a.Resend? || a.TimeOut?)
    ensures SourceSide(s.(src := Apply(s.src, a)))
  {
    UpdateKeepsContiguous(s.src, a.idx, Apply(s.src, a).sent[a.idx]);
  }

  lemma ActKeeps(s: System, a: Action)
    requires Invariant(s) && !s.src.aborted
    ensures Invariant(Act(s, a))
  {
    if !IsFeedback(a) && Enabled(s.src, a) {
      var t := Act(s, a);
      match a {
        case SendNew(timer) =>
          MultipleStep(s.src.highestSent, s.src.mss);
          SendKeepsSource(s, timer);
          assert Sane(t, Sink.Data(s.src.highestSent + 1));
        case Resend(i, _) =>
          UpdateKeepsSource(s, a);
          LastByte(s.src, i);
        case TimeOut(i) => UpdateKeepsSource(s, a);
        case Restart =>
        case TimerPenalty =>
      }
      assert SourceSide(t);
      assert SinkSide(t);
      forall m | m in t.net ensures Sane(t, m) { if m in s.net { assert Sane(s, m); } }
    }
  }

  lemma ReceiveKeeps(s: System, m: Message)
    requires Invariant(s) && !s.src.aborted
    ensures Invariant(Receive(s, m))
  {
    if m in s.net && !m.Ack? && !m.Nack? {
      assert Sane(s, m);
      var t := Receive(s, m);
      var header := m.Header?;
      Sink.AnswerMeaning(s.sink, m.seqno, header);
      SinkKeepsRange(s.sink, m.seqno, header, s.src.highestSent);
      Sink.ReceiveAddsExactly(s.sink, m.seqno, header);
      forall x | x in t.early
        ensures Sink.FirstByte(x, s.src.mss) && x - 1 !in t.cumulative && Sink.AlreadyReceived(t.sink, x)
      {
        if x in s.early {
          assert Sink.AlreadyReceived(t.sink, x);
        }
      }
      forall n | n in t.net ensures Sane(t, n) {
        if n in s.net { assert Sane(s, n); }
      }
    }
  }

  /** The sink holds no packet beyond what was sent. */
  lemma SinkKeepsRange(s: Sink.Sink, seqno: nat, header: bool, highest: nat)
    requires Sink.WellFormed(s) && Sink.FirstByte(seqno, s.size) && seqno + s.size - 1 <= highest
    requires s.cumulativeAck <= highest && forall x :: x in s.received ==> x + s.size - 1 <= highest
    ensures var t := Sink.Receive(s, seqno, header).0;
            && t.cumulativeAck <= highest
            && forall x :: x in t.received ==> x + s.size - 1 <= highest
  {
    if !Sink.AlreadyReceived(s, seqno) && !header {
      if seqno == s.cumulativeAck + 1 {
        AbsorbStaysBelow(s.(cumulativeAck := seqno + s.size - 1), highest);
      } else {
        Sink.InsertSortedInserts(s.received, seqno);
      }
    }
  }

  lemma {:induction false} AbsorbStaysBelow(s: Sink.Sink, highest: nat)
    requires s.cumulativeAck <= highest && forall x :: x in s.received ==> x + s.size - 1 <= highest
    ensures Sink.Absorb(s).cumulativeAck <= highest
    ensures forall x :: x in Sink.Absorb(s).received ==> x + s.size - 1 <= highest
    decreases |s.received|
  {
    if s.received != [] && s.received[0] == s.cumulativeAck + 1 {
      assert s.received[0] in s.received;
      assert forall x :: x in s.received[1..] ==> x in s.received;
      AbsorbStaysBelow(s.(received := s.received[1..], cumulativeAck := s.cumulativeAck + s.size), highest);
    }
  }

  /** What an ack from the network does to the entries: a cumulative one removes exactly those it covers,
      an individual one flags an entry that exists and is not in front, or finds it already removed. */
  lemma AckEffect(s: System, q: nat, a: nat)
    requires Invariant(s) && !s.src.aborted && Sink.Ack(q, a) in s.net
    ensures var t := MarkReceived(s.src, q, a);
            var i := IndexOf(s.src.sent, q);
            && !t.aborted
            && Contiguous(t)
            && Base(t) == (if q == 1 && a > s.ackedUpTo then a else s.ackedUpTo)
            && (q == 1 ==> exists k :: 0 <= k <= |s.src.sent| && t.sent == s.src.sent[k..])
            && (q != 1 ==> if q <= s.ackedUpTo then t == s.src
                           else 0 < i < |s.src.sent| && t.sent == s.src.sent[i := t.sent[i]]
                                && t.sent[i].acked && t.sent[i].seqno == q)
            && t.highestSent == s.src.highestSent >= a
  {
    assert Sane(s, Sink.Ack(q, a));
    if q == 1 {
      var k := EraseStopsAtAckno(s, a);
      DropKeepsContiguous(s.src, k);
    } else {
      assert q in s.early;
      assert q + s.src.mss - 1 <= s.src.highestSent by {
        if q <= s.sink.cumulativeAck { MultipleGap(q - 1, s.sink.cumulativeAck, s.src.mss); }
      }
      DuplicateMeansBelow(s.src, q);
      if q > s.ackedUpTo {
        FindEntry(s.src, q);
        var i := IndexOf(s.src.sent, q);
        UpdateKeepsContiguous(s.src, i, SentPacket(s.src.sent[i].timer, q, true, false, false));
      }
    }
  }

  /** The flags of the entries an ack leaves agree with the individual acks processed. */
  lemma AckFlags(s: System, q: nat, a: nat)
    requires Invariant(s) && !s.src.aborted && Sink.Ack(q, a) in s.net
    ensures var t, alone := MarkReceived(s.src, q, a), if q == 1 then s.ackedAlone else s.ackedAlone + {q};
            forall i :: 0 <= i < |t.sent| ==> (t.sent[i].acked <==> t.sent[i].seqno in alone)
  {
    AckEffect(s, q, a);
    var t, alone := MarkReceived(s.src, q, a), if q == 1 then s.ackedAlone else s.ackedAlone + {q};
    forall i | 0 <= i < |t.sent| ensures t.sent[i].acked <==> t.sent[i].seqno in alone {
      if q == 1 {
        var k :| 0 <= k <= |s.src.sent| && t.sent == s.src.sent[k..];
        assert t.sent[i] == s.src.sent[k + i];
      } else if q <= s.ackedUpTo {
        EntryBelow(s.src, i, 0);
      } else {
        var j := IndexOf(s.src.sent, q);
        if i < j { MulStrict(i, j, s.src.mss); }
        if j < i { MulStrict(j, i, s.src.mss); }
      }
    }
  }

  lemma AckOnlyFinishes(s: Sender, q: nat, a: nat)
    requires !MarkReceived(s, q, a).aborted && a <= MarkReceived(s, q, a).highestSent
    ensures ProcessAck(s, q, a) == MarkReceived(s, q, a).(finished := ProcessAck(s, q, a).finished)
  {
  }

  lemma SourceSideOf(s: System, t: System, r: Sender, q: nat, a: nat)
    requires SourceSide(s) && Sane(s, Sink.Ack(q, a)) && t.src == r.(finished := t.src.finished)
    requires t.cumulative == s.cumulative && t.early == s.early
    requires t.ackedUpTo == (if q == 1 && a > s.ackedUpTo then a else s.ackedUpTo)
    requires t.ackedAlone == if q == 1 then s.ackedAlone else s.ackedAlone + {q}
    requires Contiguous(r) && Base(r) == t.ackedUpTo
    requires forall i :: 0 <= i < |r.sent| ==> (r.sent[i].acked <==> r.sent[i].seqno in t.ackedAlone)
    ensures SourceSide(t)
  {
    assert Contiguous(t.src) && Base(t.src) == Base(r);
  }

  lemma AckKeepsSource(s: System, q: nat, a: nat)
    requires Invariant(s) && !s.src.aborted && Sink.Ack(q, a) in s.net
    ensures var t := Feedback(s, Sink.Ack(q, a));
            !t.src.aborted && t.src.highestSent == s.src.highestSent && SourceSide(t)
  {
    AckEffect(s, q, a);
    AckFlags(s, q, a);
    AckOnlyFinishes(s.src, q, a);
    SourceSideOf(s, Feedback(s, Sink.Ack(q, a)), MarkReceived(s.src, q, a), q, a);
  }

  lemma AckKeepsSink(s: System, q: nat, a: nat)
    requires Invariant(s) && !s.src.aborted && Sink.Ack(q, a) in s.net
    requires Feedback(s, Sink.Ack(q, a)).src.highestSent == s.src.highestSent
    ensures var t := Feedback(s, Sink.Ack(q, a));
            SinkSide(t) && forall m :: m in t.net ==> Sane(t, m)
  {
    var t := Feedback(s, Sink.Ack(q, a));
    forall m | m in t.net ensures Sane(t, m) { assert Sane(s, m); }
  }

  /** An ack finishes the flow only when everything was delivered and acked. */
  lemma AckFinishesComplete(s: System, q: nat, a: nat)
    requires Invariant(s) && !s.src.aborted && Sink.Ack(q, a) in s.net
    ensures var t := Feedback(s, Sink.Ack(q, a)); t.src.finished ==> Complete(t)
  {
    assert Sane(s, Sink.Ack(q, a));
    AckEffect(s, q, a);
  }

  lemma AckKeeps(s: System, q: nat, a: nat)
    requires Invariant(s) && !s.src.aborted && Sink.Ack(q, a) in s.net
    ensures Invariant(Feedback(s, Sink.Ack(q, a)))
  {
    AckKeepsSource(s, q, a);
    AckKeepsSink(s, q, a);
    AckFinishesComplete(s, q, a);
  }

  lemma NackKeepsSource(s: System, q: nat)
    requires SourceSide(s) && !s.src.aborted
    ensures var r := ProcessNack(s.src, q);
            r.highestSent == s.src.highestSent && (!r.aborted ==> SourceSide(s.(src := r)))
  {
    var i := IndexOf(s.src.sent, q);
    if i < |s.src.sent| { UpdateKeepsContiguous(s.src, i, s.src.sent[i].(nacked := true)); }
  }

  /** A nack for a finished flow finds no entry, and leaves what made it complete. */
  lemma NackKeeps(s: System, q: nat, a: nat)
    requires Invariant(s) && !s.src.aborted && Sink.Nack(q, a) in s.net
    ensures Invariant(Feedback(s, Sink.Nack(q, a)))
  {
    var t := Feedback(s, Sink.Nack(q, a));
    NackKeepsSource(s, q);
    forall m | m in t.net ensures Sane(t, m) { assert Sane(s, m); }
  }

  lemma NetKeeps(s: System, net: multiset<Message>)
    requires Invariant(s) && forall m :: m in net ==> Sane(s, m)
    ensures Invariant(s.(net := net))
  {
  }

  lemma StepKeeps(s: System, e: Event)
    requires Invariant(s)
    ensures Invariant(Step(s, e))
  {
    if !s.src.aborted {
      match e
      case Source(a) => ActKeeps(s, a);
      case ToSink(m) => ReceiveKeeps(s, m);
      case ToSource(m) =>
        if m in s.net && m.Ack? { AckKeeps(s, m.seqno, m.ackno); }
        if m in s.net && m.Nack? { NackKeeps(s, m.seqno, m.ackno); }
      case Trim(q) =>
        if Sink.Data(q) in s.net {
          assert Sane(s, Sink.Data(q));
          NetKeeps(s, s.net - multiset{Sink.Data(q)} + multiset{Sink.Header(q)});
        }
      case Lose(m) => NetKeeps(s, s.net - multiset{m});
      case Duplicate(m) => if m in s.net { NetKeeps(s, s.net + multiset{m}); }
    }
  }

  lemma {:induction false} RunKeeps(s: System, events: seq<Event>)
    requires Invariant(s)
    ensures Invariant(Run(s, events))
    decreases |events|
  {
    if events != [] {
      RunKeeps(s, events[..|events| - 1]);
      StepKeeps(Run(s, events[..|events| - 1]), events[|events| - 1]);
    }
  }

  ghost predicate IsInit(s: System) {
    s == Init(s.src.mss, s.src.flowSize, s.src.maxCwnd, s.src.cwnd, s.sink.trimming)
  }

  ghost predicate Taken(states: seq<System>, events: seq<Event>, i: nat) {
    i < |events| && i + 1 < |states| && states[i + 1] == Step(states[i], events[i])
  }

  ghost predicate IsRun(states: seq<System>, events: seq<Event>, s: System) {
    && |states| == |events| + 1 && IsInit(states[0]) && states[|events|] == s
    && forall i :: 0 <= i < |events| ==> Taken(states, events, i)
  }

  /** The states of all runs, for every packet size, flow size, BDP and starting window. */
  ghost predicate Reachable(s: System) { exists states, events :: IsRun(states, events, s) }

  lemma InitIsReachable(s: System)
    requires IsInit(s)
    ensures Reachable(s)
  {
    assert IsRun([s], [], s);
  }

  lemma ReachableStep(s: System, e: Event)
    requires Reachable(s)
    ensures Reachable(Step(s, e))
  {
    var states, events :| IsRun(states, events, s);
    var ss, es := states + [Step(s, e)], events + [e];
    forall i | 0 <= i < |es| ensures Taken(ss, es, i) {
      if i < |events| { assert Taken(states, events, i); }
    }
    assert IsRun(ss, es, Step(s, e));
  }

  lemma {:induction false} IsRunOfInit(states: seq<System>, events: seq<Event>, s: System)
    requires IsRun(states, events, s)
    ensures s == Run(states[0], events)
    decreases |events|
  {
    if events != [] {
      var n := |events| - 1;
      assert Taken(states, events, n);
      var ss, es := states[..n + 1], events[..n];
      forall i | 0 <= i < n ensures Taken(ss, es, i) { assert Taken(states, events, i); }
      IsRunOfInit(ss, es, states[n]);
    }
  }

  lemma ReachableInvariant(s: System)
    requires Reachable(s)
    ensures Invariant(s)
  {
    var states, events :| IsRun(states, events, s);
    IsRunOfInit(states, events, s);
    RunKeeps(states[0], events);
  }

  /** The reachable states are those of the runs. */
  lemma {:induction false} RunIsReachable(init: System, events: seq<Event>)
    requires IsInit(init)
    ensures Reachable(Run(init, events))
    decreases |events|
  {
    if events == [] {
      InitIsReachable(init);
    } else {
      RunIsReachable(init, events[..|events| - 1]);
      ReachableStep(Run(init, events[..|events| - 1]), events[|events| - 1]);
    }
  }

  // ---- What it means for the source ----

  /** The entries are gap-free from the first packet not cumulatively acked to the highest sent, and the
      front one is not flagged acked. */
  lemma EntriesAreGapFree(s: System)
    requires Reachable(s) && !s.src.aborted
    ensures forall i :: 0 <= i < |s.src.sent| ==> s.src.sent[i].seqno == s.ackedUpTo + 1 + i * s.src.mss
    ensures s.ackedUpTo + |s.src.sent| * s.src.mss == s.src.highestSent
    ensures s.src.sent != [] ==> !s.src.sent[0].acked
  {
    ReachableInvariant(s);
    if s.src.sent != [] { FrontIsNotAcked(s); }
  }

  /** A cumulative ack that arrives removes exactly the entries it covers: the loop never runs past
      `ackno`, even when entries beyond it are flagged acked. */
  lemma CumulativeAckIsExact(s: System, ackno: nat) returns (k: nat)
    requires Reachable(s) && !s.src.aborted && Sink.Ack(1, ackno) in s.net
    ensures k <= |s.src.sent| && MarkReceived(s.src, 1, ackno) == s.src.(sent := s.src.sent[k..])
    ensures forall i :: 0 <= i < |s.src.sent| ==> (i < k <==> s.src.sent[i].seqno <= ackno)
  {
    ReachableInvariant(s);
    assert Sane(s, Sink.Ack(1, ackno));
    k := EraseStopsAtAckno(s, ackno);
    if ackno < s.ackedUpTo && k > 0 { MulStrict(0, k, s.src.mss); }
    forall i | 0 <= i < |s.src.sent| ensures i < k <==> s.src.sent[i].seqno <= ackno {
      EntryBelow(s.src, i, k);
    }
  }

  /** An individual ack that arrives is either for a packet already removed, or finds its entry, and never
      in front: the branch for index 0 is dead and the assertion after it holds. */
  lemma IndividualAckFindsItsEntry(s: System, seqno: nat, ackno: nat)
    requires Reachable(s) && !s.src.aborted && Sink.Ack(seqno, ackno) in s.net && seqno != 1
    ensures IsDuplicateAck(s.src.sent, ackno) <==> seqno <= s.ackedUpTo
    ensures !IsDuplicateAck(s.src.sent, ackno) ==> 0 < IndexOf(s.src.sent, seqno) < |s.src.sent|
  {
    ReachableInvariant(s);
    assert Sane(s, Sink.Ack(seqno, ackno));
    AckEffect(s, seqno, ackno);
    DuplicateMeansBelow(s.src, seqno);
  }

  /** It then marks that entry and clears its other marks, and leaves its timer and every other entry alone. */
  lemma IndividualAckIsExact(s: System, seqno: nat, ackno: nat) returns (i: nat)
    requires Reachable(s) && !s.src.aborted && Sink.Ack(seqno, ackno) in s.net && seqno != 1
    ensures var t := MarkReceived(s.src, seqno, ackno);
            if seqno <= s.ackedUpTo then t == s.src
            else
              && i < |s.src.sent| == |t.sent| && s.src.sent[i].seqno == seqno
              && t.sent[i] == SentPacket(s.src.sent[i].timer, seqno, true, false, false)
              && forall j :: 0 <= j < |t.sent| && j != i ==> t.sent[j] == s.src.sent[j]
  {
    IndividualAckFindsItsEntry(s, seqno, ackno);
    i := IndexOf(s.src.sent, seqno);
  }

  /** No ack makes the source abort or raises its highest byte sent. */
  lemma AcksAreHarmless(s: System, seqno: nat, ackno: nat)
    requires Reachable(s) && !s.src.aborted && Sink.Ack(seqno, ackno) in s.net
    ensures !ProcessAck(s.src, seqno, ackno).aborted
    ensures ProcessAck(s.src, seqno, ackno).highestSent == s.src.highestSent >= ackno
  {
    ReachableInvariant(s);
    AckEffect(s, seqno, ackno);
  }

  /** When the source has declared the flow finished, the sink has every byte of it, and nothing is left
      to send or to acknowledge. */
  lemma FinishedMeansDelivered(s: System)
    requires Reachable(s) && s.src.finished
    ensures s.src.flowSize <= s.sink.cumulativeAck == s.src.highestSent && s.src.sent == []
  {
    ReachableInvariant(s);
  }

  /** The sender never sends more than its flow, rounded up to whole packets, and the flow is finished as soon as
      the cumulative acks cover it. */
  ghost predicate FinishesInTime(s: System) {
    !s.src.aborted && s.src.flowSize > 0 ==>
      && s.src.highestSent < s.src.flowSize + s.src.mss
      && (s.src.finished <==> s.ackedUpTo >= s.src.flowSize)
  }

  lemma ActFinishesInTime(s: System, a: Action)
    requires Invariant(s) && !s.src.aborted && FinishesInTime(s)
    ensures FinishesInTime(Act(s, a))
  {
  }

  /** When the cumulative acks cover the flow, no entry is left. */
  lemma CoveredFlowHasNoEntries(s: Sender, acked: nat)
    requires Contiguous(s) && Base(s) == acked && acked >= s.flowSize && s.highestSent < s.flowSize + s.mss
    ensures s.sent == []
  {
    if s.sent != [] { MulMonotone(1, |s.sent|, s.mss); }
  }

  /** What an ack does to the flag, and to the numbers it depends on. */
  lemma AckSettles(s: System, q: nat, a: nat)
    requires Invariant(s) && !s.src.aborted && Sink.Ack(q, a) in s.net
    ensures var t, r := Feedback(s, Sink.Ack(q, a)), MarkReceived(s.src, q, a);
            && t.src.highestSent == s.src.highestSent && t.src.sent == r.sent && Contiguous(t.src)
            && Base(t.src) == t.ackedUpTo == (if q == 1 && a > s.ackedUpTo then a else s.ackedUpTo)
            && (t.src.finished <==> s.src.finished || (a >= s.src.flowSize && t.src.sent == []))
            && a <= t.src.highestSent && t.src.flowSize == s.src.flowSize && t.src.mss == s.src.mss
  {
    AckEffect(s, q, a);
    AckKeepsSource(s, q, a);
  }

  lemma AckFinishesInTime(s: System, q: nat, a: nat)
    requires Invariant(s) && !s.src.aborted && FinishesInTime(s) && Sink.Ack(q, a) in s.net
    ensures FinishesInTime(Feedback(s, Sink.Ack(q, a)))
  {
    var t := Feedback(s, Sink.Ack(q, a));
    AckSettles(s, q, a);
    if s.src.flowSize > 0 && t.ackedUpTo >= s.src.flowSize { CoveredFlowHasNoEntries(t.src, t.ackedUpTo); }
  }

  lemma StepFinishesInTime(s: System, e: Event)
    requires Invariant(s) && FinishesInTime(s)
    ensures FinishesInTime(Step(s, e))
  {
    if !s.src.aborted {
      match e
      case Source(a) => ActFinishesInTime(s, a);
      case ToSource(m) => if m in s.net && m.Ack? { AckFinishesInTime(s, m.seqno, m.ackno); }
      case ToSink(_) =>
      case Trim(_) =>
      case Lose(_) =>
      case Duplicate(_) =>
    }
  }

  lemma {:induction false} RunFinishesInTime(init: System, events: seq<Event>)
    requires IsInit(init)
    ensures FinishesInTime(Run(init, events))
    decreases |events|
  {
    if events != [] {
      RunFinishesInTime(init, events[..|events| - 1]);
      RunKeeps(init, events[..|events| - 1]);
      StepFinishesInTime(Run(init, events[..|events| - 1]), events[|events| - 1]);
    }
  }

  /** The flow is declared finished exactly when the cumulative acks that were processed cover it; then every
      packet was sent and no entry is left. */
  lemma FinishedExactly(s: System)
    requires Reachable(s) && !s.src.aborted && s.src.flowSize > 0
    ensures s.src.finished <==> s.ackedUpTo >= s.src.flowSize
    ensures s.src.finished <==> s.src.highestSent >= s.src.flowSize && s.src.sent == []
    ensures s.src.highestSent < s.src.flowSize + s.src.mss
  {
    ReachableInvariant(s);
    var states, events :| IsRun(states, events, s);
    IsRunOfInit(states, events, s);
    RunFinishesInTime(states[0], events);
  }

  /** Every byte that was sent is covered by the cumulative acks, or acked alone, or waits to be resent, or is
      counted as in flight. */
  lemma BytesSentAreAccounted(s: System)
    requires Reachable(s) && !s.src.aborted
    ensures s.src.highestSent ==
            s.ackedUpTo + Unacked(s.src) + (Count(s.src.sent, IsAcked) + Count(s.src.sent, Waiting)) * s.src.mss
    ensures forall i :: 0 <= i < |s.src.sent| ==> (s.src.sent[i].acked <==> s.src.sent[i].seqno in s.ackedAlone)
  {
    ReachableInvariant(s);
    EntriesAreOneOfThree(s.src.sent);
    MulSplits(Count(s.src.sent, InFlight), Count(s.src.sent, IsAcked) + Count(s.src.sent, Waiting), s.src.mss);
  }

  // ---- The assertions of processNack ----

  /** Exactly when they hold: no ack the source has processed covers the packet. */
  lemma NackExpectedExactly(s: System, seqno: nat, ackno: nat)
    requires Reachable(s) && !s.src.aborted && Sink.Nack(seqno, ackno) in s.net
    ensures NackExpected(s.src, seqno) <==> s.ackedUpTo < seqno && seqno !in s.ackedAlone
  {
    ReachableInvariant(s);
    assert Sane(s, Sink.Nack(seqno, ackno));
    if s.ackedUpTo < seqno {
      FindEntry(s.src, seqno);
    } else {
      NoEntryBelow(s.src, seqno);
    }
  }
}

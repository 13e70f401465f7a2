/** `BBRSink`: the cumulative ack, the sorted list of early packets, and what they stand for. */
module BbrSink {
  import opened Arith

  /** What travels between the two ends of a flow. */
  datatype Message =
    | Data(seqno: nat)
    | Header(seqno: nat)               // a trimmed data packet
    | Ack(seqno: nat, ackno: nat)
    | Nack(seqno: nat, ackno: nat)

  datatype Answer = Silence | Reply(message: Message)

  datatype Sink = Sink(size: Size, trimming: bool, cumulativeAck: nat, received: seq<nat>)

  function Init(size: Size, trimming: bool): Sink { Sink(size, trimming, 0, []) }

  predicate AlreadyReceived(s: Sink, seqno: nat) {
    seqno <= s.cumulativeAck || seqno in s.received
  }

  /** The loop that takes early packets off the front of the list. */
  function Absorb(s: Sink): Sink
    decreases |s.received|
  {
    if s.received != [] && s.received[0] == s.cumulativeAck + 1
    then Absorb(s.(received := s.received[1..], cumulativeAck := s.cumulativeAck + s.size))
    else s
  }

  /** The loop that finds an early packet's place in the sorted list. */
  function InsertSorted(xs: seq<nat>, x: nat): seq<nat> {
    if xs == [] then [x]
    else if x == xs[0] then xs
    else if x < xs[0] then [x] + xs
    else [xs[0]] + InsertSorted(xs[1..], x)
  }

  /** `receivePacket`, for a data packet or its trimmed header: the new state, and the answer if any. */
  function Receive(s: Sink, seqno: nat, header: bool): (Sink, Answer) {
    if AlreadyReceived(s, seqno) then (s, if s.trimming then Reply(Ack(1, s.cumulativeAck)) else Silence)
    else if header then (s, Reply(Nack(seqno, seqno + s.size - 1)))
    else if seqno == s.cumulativeAck + 1 then
      var t := Absorb(s.(cumulativeAck := seqno + s.size - 1));
      (t, Reply(Ack(1, t.cumulativeAck)))
    else (s.(received := InsertSorted(s.received, seqno)), Reply(Ack(seqno, seqno + s.size - 1)))
  }

  // ---- What the state stands for ----

  /** `x` is the first byte of some packet. */
  predicate FirstByte(x: nat, size: Size) { x >= 1 && (x - 1) % size == 0 }

  ghost predicate Increasing(xs: seq<nat>) { forall i, j :: 0 <= i < j < |xs| ==> xs[i] < xs[j] }

  ghost predicate WellFormed(s: Sink) {
    && s.cumulativeAck % s.size == 0
    && Increasing(s.received)
    && forall x :: x in s.received ==> FirstByte(x, s.size) && x > s.cumulativeAck + 1
  }

  /** The sink's state stands for exactly the delivered set. */
  ghost predicate Represents(s: Sink, delivered: set<nat>) {
    && WellFormed(s)
    && (forall x :: x in delivered ==> FirstByte(x, s.size))
    && forall x: nat :: FirstByte(x, s.size) ==> (x in delivered <==> AlreadyReceived(s, x))
  }

  lemma ConsIncreasing(x: nat, xs: seq<nat>)
    ensures Increasing([x] + xs) <==> Increasing(xs) && forall y :: y in xs ==> x < y
  {
    var ys := [x] + xs;
    if Increasing(ys) {
      forall i, j | 0 <= i < j < |xs| ensures xs[i] < xs[j] {
        assert ys[i + 1] < ys[j + 1];
      }
      forall y | y in xs ensures x < y {
        var i :| 0 <= i < |xs| && xs[i] == y;
        assert ys[0] < ys[i + 1];
      }
    }
    if Increasing(xs) && forall y :: y in xs ==> x < y {
      forall i, j | 0 <= i < j < |ys| ensures ys[i] < ys[j] {
        assert xs[j - 1] in xs;
      }
    }
  }

  lemma {:induction false} InsertSortedInserts(xs: seq<nat>, x: nat)
    requires Increasing(xs)
    ensures Increasing(InsertSorted(xs, x))
    ensures forall y :: y in InsertSorted(xs, x) <==> y == x || y in xs
  {
    if xs != [] && x > xs[0] {
      var rest := InsertSorted(xs[1..], x);
      assert xs == [xs[0]] + xs[1..];
      ConsIncreasing(xs[0], xs[1..]);
      InsertSortedInserts(xs[1..], x);
      ConsIncreasing(xs[0], rest);
    } else if xs != [] && x < xs[0] {
      assert forall y :: y in xs ==> x < y;
      ConsIncreasing(x, xs);
    }
  }

  /** Inserting skips a prefix of smaller elements. */
  lemma {:induction false} InsertSortedSkips(xs: seq<nat>, x: nat, i: nat)
    requires i <= |xs| && forall j :: 0 <= j < i ==> xs[j] < x
    ensures InsertSorted(xs, x) == xs[..i] + InsertSorted(xs[i..], x)
  {
    if i == 0 {
      assert xs[0..] == xs;
    } else {
      var rest := xs[1..];
      assert rest[i - 1..] == xs[i..] && xs[..i] == [xs[0]] + rest[..i - 1];
      InsertSortedSkips(rest, x, i - 1);
    }
  }

  lemma AbsorbOneKeeps(s: Sink)
    requires s.cumulativeAck % s.size == 0 && Increasing(s.received)
    requires forall x :: x in s.received ==> FirstByte(x, s.size) && x > s.cumulativeAck
    requires s.received != [] && s.received[0] == s.cumulativeAck + 1
    ensures var t := s.(received := s.received[1..], cumulativeAck := s.cumulativeAck + s.size);
            && t.cumulativeAck % s.size == 0 && Increasing(t.received)
            && (forall x :: x in t.received ==> x in s.received && FirstByte(x, s.size) && x > t.cumulativeAck)
            && forall x: nat :: FirstByte(x, s.size) ==> (AlreadyReceived(t, x) <==> AlreadyReceived(s, x))
  {
    var t := s.(received := s.received[1..], cumulativeAck := s.cumulativeAck + s.size);
    forall x | x in s.received ensures x == s.received[0] || x in s.received[1..] {}
    MultipleStep(s.cumulativeAck, s.size);
    forall x: nat | FirstByte(x, s.size) && x > s.cumulativeAck
      ensures x == s.cumulativeAck + 1 || x > t.cumulativeAck
    {
      if x - 1 > s.cumulativeAck { MultipleGap(s.cumulativeAck, x - 1, s.size); }
    }
    forall x | x in t.received ensures x in s.received && FirstByte(x, s.size) && x > t.cumulativeAck {
      var i :| 0 <= i < |t.received| && t.received[i] == x;
      assert s.received[0] < s.received[i + 1];
    }
  }

  /** Absorbing keeps what is represented, moves the cumulative ack only upwards, and stops where the
      next packet is missing. */
  lemma {:induction false} AbsorbKeeps(s: Sink)
    requires s.cumulativeAck % s.size == 0 && Increasing(s.received)
    requires forall x :: x in s.received ==> FirstByte(x, s.size) && x > s.cumulativeAck
    ensures WellFormed(Absorb(s)) && Absorb(s).cumulativeAck >= s.cumulativeAck
    ensures Absorb(s).size == s.size && Absorb(s).trimming == s.trimming
    ensures forall x :: x in Absorb(s).received ==> x in s.received
    ensures forall x: nat :: FirstByte(x, s.size) ==> (AlreadyReceived(Absorb(s), x) <==> AlreadyReceived(s, x))
    decreases |s.received|
  {
    if s.received != [] {
      assert s.received == [s.received[0]] + s.received[1..];
      forall x | x in s.received ensures x == s.received[0] || x in s.received[1..] {}
      if s.received[0] == s.cumulativeAck + 1 {
        AbsorbOneKeeps(s);
        AbsorbKeeps(s.(received := s.received[1..], cumulativeAck := s.cumulativeAck + s.size));
      } else {
        forall x | x in s.received ensures x > s.cumulativeAck + 1 {
          var i :| 0 <= i < |s.received| && s.received[i] == x;
          assert s.received[0] <= s.received[i];
          assert s.received[0] in s.received;
        }
      }
    }
  }

  /** Receiving a data packet adds exactly that packet; receiving a header adds nothing. */
  lemma ReceiveAddsExactly(s: Sink, seqno: nat, header: bool)
    requires WellFormed(s) && FirstByte(seqno, s.size)
    ensures var t := Receive(s, seqno, header).0;
            && WellFormed(t) && t.size == s.size && t.trimming == s.trimming
            && t.cumulativeAck >= s.cumulativeAck
            && forall x: nat :: FirstByte(x, s.size) ==>
                 (AlreadyReceived(t, x) <==> AlreadyReceived(s, x) || (x == seqno && !header))
  {
    if !AlreadyReceived(s, seqno) && !header {
      if seqno == s.cumulativeAck + 1 {
        var u := s.(cumulativeAck := seqno + s.size - 1);
        MultipleStep(s.cumulativeAck, s.size);
        forall x: nat | FirstByte(x, s.size) && x > s.cumulativeAck ensures x == seqno || x > u.cumulativeAck {
          if x > seqno { MultipleGap(seqno - 1, x - 1, s.size); }
        }
        AbsorbKeeps(u);
      } else {
        InsertSortedInserts(s.received, seqno);
      }
    }
  }

  /** The answers. An individual ack is never for packet 1 or for the packet after the cumulative ack,
      so ack number 1 always means a cumulative ack. A nack is sent only for a packet the sink lacks. */
  lemma AnswerMeaning(s: Sink, seqno: nat, header: bool)
    requires WellFormed(s) && FirstByte(seqno, s.size)
    ensures var (t, out) := Receive(s, seqno, header);
            match out
            case Silence => t == s && !s.trimming && AlreadyReceived(s, seqno)
            case Reply(Ack(q, a)) =>
              if q == 1 then
                a == t.cumulativeAck && (AlreadyReceived(s, seqno) || seqno == s.cumulativeAck + 1)
              else
                q == seqno && a == seqno + s.size - 1 && !header && seqno > s.cumulativeAck + 1
                && seqno in t.received && t.cumulativeAck == s.cumulativeAck
            case Reply(Nack(q, a)) =>
              header && t == s && q == seqno && a == seqno + s.size - 1 && !AlreadyReceived(s, seqno)
            case _ => false
  {
    var (t, out) := Receive(s, seqno, header);
    if !AlreadyReceived(s, seqno) && !header && seqno != s.cumulativeAck + 1 {
      InsertSortedInserts(s.received, seqno);
      assert out == Reply(Ack(seqno, seqno + s.size - 1));
    }
  }

  /** One delivery to the sink. */
  datatype Delivery = Delivery(seqno: nat, header: bool)

  function Run(s: Sink, ds: seq<Delivery>): Sink
    decreases |ds|
  {
    if ds == [] then s
    else Receive(Run(s, ds[..|ds| - 1]), ds[|ds| - 1].seqno, ds[|ds| - 1].header).0
  }

  /** The data packets among some deliveries. */
  ghost function DataIn(ds: seq<Delivery>): set<nat> { set d | d in ds && !d.header :: d.seqno }

  /** For every order, repetition and trimming of packets: the state stands for exactly the data packets
      delivered so far, the list is strictly increasing and never holds the next expected packet, and the
      cumulative ack ends the longest delivered prefix. */
  lemma {:induction false} SinkRefinesDeliveredSet(size: Size, trimming: bool, ds: seq<Delivery>)
    requires forall d :: d in ds ==> FirstByte(d.seqno, size)
    ensures var s := Run(Init(size, trimming), ds);
            && s.size == size
            && Represents(s, DataIn(ds))
            && s.cumulativeAck + 1 !in s.received
            && (forall x: nat :: FirstByte(x, size) && x <= s.cumulativeAck ==> x in DataIn(ds))
            && s.cumulativeAck + 1 !in DataIn(ds)
    decreases |ds|
  {
    if ds != [] {
      var front, d := ds[..|ds| - 1], ds[|ds| - 1];
      assert ds == front + [d];
      SinkRefinesDeliveredSet(size, trimming, front);
      ReceiveAddsExactly(Run(Init(size, trimming), front), d.seqno, d.header);
      assert DataIn(ds) == if d.header then DataIn(front) else DataIn(front) + {d.seqno};
    }
  }

  // ---- What each delivery is answered with, in terms of what was delivered before ----

  /** `a` is the last byte before the first packet missing from `delivered`. */
  ghost predicate EndsPrefix(a: nat, delivered: set<nat>, size: Size) {
    && a % size == 0 && a + 1 !in delivered
    && forall x: nat :: FirstByte(x, size) && x <= a ==> x in delivered
  }

  /** Some packet before `q` is missing. */
  ghost predicate MissesEarlier(delivered: set<nat>, q: nat, size: Size) {
    exists x: nat :: FirstByte(x, size) && x < q && x !in delivered
  }

  ghost predicate IsCumulative(out: Answer, delivered: set<nat>, size: Size) {
    out.Reply? && out.message.Ack? && out.message.seqno == 1 && EndsPrefix(out.message.ackno, delivered, size)
  }

  /** What the sink has to answer to `d` after the deliveries `ds`. */
  ghost predicate RightAnswer(out: Answer, ds: seq<Delivery>, d: Delivery, size: Size, trimming: bool) {
    var last := d.seqno + size - 1;
    if d.seqno in DataIn(ds) then if trimming then IsCumulative(out, DataIn(ds), size) else out == Silence
    else if d.header then out == Reply(Nack(d.seqno, last))
    else if MissesEarlier(DataIn(ds), d.seqno, size) then out == Reply(Ack(d.seqno, last))
    else IsCumulative(out, DataIn(ds + [d]), size)
  }

  ghost function AnswerTo(ds: seq<Delivery>, d: Delivery, size: Size, trimming: bool): Answer {
    Receive(Run(Init(size, trimming), ds), d.seqno, d.header).1
  }

  /** A packet that was delivered before is answered with the cumulative ack, or not at all by a sink without
      trimming; a header of any other with a nack; a new packet alone exactly if one before it is missing, and
      else with the cumulative ack that it makes possible. */
  lemma AnswersExactly(ds: seq<Delivery>, d: Delivery, size: Size, trimming: bool)
    requires FirstByte(d.seqno, size) && forall e :: e in ds ==> FirstByte(e.seqno, size)
    ensures RightAnswer(AnswerTo(ds, d, size, trimming), ds, d, size, trimming)
  {
    var s := Run(Init(size, trimming), ds);
    SinkRefinesDeliveredSet(size, trimming, ds);
    RunKeepsConfig(Init(size, trimming), ds);
    EarlierIsMissing(s, DataIn(ds), d.seqno);
    if d.seqno !in DataIn(ds) && !d.header && d.seqno == s.cumulativeAck + 1 {
      assert (ds + [d])[..|ds|] == ds;
      SinkRefinesDeliveredSet(size, trimming, ds + [d]);
    }
  }

  lemma {:induction false} RunKeepsConfig(s: Sink, ds: seq<Delivery>)
    ensures Run(s, ds).size == s.size && Run(s, ds).trimming == s.trimming
    decreases |ds|
  {
    if ds != [] {
      RunKeepsConfig(s, ds[..|ds| - 1]);
      AbsorbKeepsConfig(Run(s, ds[..|ds| - 1]).(cumulativeAck := ds[|ds| - 1].seqno + s.size - 1));
    }
  }

  lemma {:induction false} AbsorbKeepsConfig(s: Sink)
    ensures Absorb(s).size == s.size && Absorb(s).trimming == s.trimming
    decreases |s.received|
  {
    if s.received != [] && s.received[0] == s.cumulativeAck + 1 {
      AbsorbKeepsConfig(s.(received := s.received[1..], cumulativeAck := s.cumulativeAck + s.size));
    }
  }

  /** A packet that is not delivered misses an earlier one unless it is the next. */
  lemma EarlierIsMissing(s: Sink, delivered: set<nat>, q: nat)
    requires Represents(s, delivered) && s.cumulativeAck + 1 !in delivered && FirstByte(q, s.size)
    requires forall x: nat :: FirstByte(x, s.size) && x <= s.cumulativeAck ==> x in delivered
    ensures q !in delivered ==> (MissesEarlier(delivered, q, s.size) <==> q != s.cumulativeAck + 1)
  {
    assert FirstByte(s.cumulativeAck + 1, s.size);
    if q !in delivered && q != s.cumulativeAck + 1 {
      assert s.cumulativeAck + 1 < q;
    }
  }

  /** How often packet `q` is acked alone. */
  ghost function AloneAcks(ds: seq<Delivery>, q: nat, size: Size, trimming: bool): nat {
    if ds == [] then 0
    else
      var front, d := ds[..|ds| - 1], ds[|ds| - 1];
      AloneAcks(front, q, size, trimming)
      + (if AnswerTo(front, d, size, trimming) == Reply(Ack(q, q + size - 1)) then 1 else 0)
  }

  /** Each packet but the first is acked alone at most once, whatever is delivered, and only if it was delivered. */
  lemma {:induction false} AckedAloneOnce(ds: seq<Delivery>, q: nat, size: Size, trimming: bool)
    requires q != 1 && forall e :: e in ds ==> FirstByte(e.seqno, size)
    ensures AloneAcks(ds, q, size, trimming) <= if q in DataIn(ds) then 1 else 0
  {
    if ds != [] {
      var front, d := ds[..|ds| - 1], ds[|ds| - 1];
      assert ds == front + [d];
      AckedAloneOnce(front, q, size, trimming);
      AnswersExactly(front, d, size, trimming);
      assert DataIn(ds) == if d.header then DataIn(front) else DataIn(front) + {d.seqno};
    }
  }

  // ---- The object ----

  class BbrSink {
    const size: Size          // every data packet has this many bytes
    const trimming: bool      // the source's `supportsTrimming`
    var cumulativeAck: nat
    var received: seq<nat>
    var packets: nat          // bytes of data packets accepted

    function View(): Sink
      reads this
    {
      Sink(size, trimming, cumulativeAck, received)
    }

    constructor (size: Size, trimming: bool)
      ensures View() == Init(size, trimming)
    {
      this.size, this.trimming := size, trimming;
      cumulativeAck, received, packets := 0, [], 0;
    }

    method HasReceived(seqno: nat) returns (found: bool)
      ensures found == AlreadyReceived(View(), seqno)
    {
      if seqno <= cumulativeAck { return true; }
      var i := 0;
      while i < |received|
        invariant i <= |received|
        invariant seqno !in received[..i]
      {
        if seqno == received[i] { return true; }
        i := i + 1;
      }
      assert received[..i] == received;
      return false;
    }

    method Insert(seqno: nat)
      requires Increasing(received)
      modifies this`received
      ensures received == InsertSorted(old(received), seqno)
    {
      if received == [] {
        received := [seqno];
      } else if seqno > received[|received| - 1] {
        InsertSortedSkips(received, seqno, |received|);
        received := received + [seqno];
      } else {
        var i := 0;
        while seqno > received[i]
          invariant i < |received|
          invariant forall j :: 0 <= j < i ==> received[j] < seqno
          decreases |received| - i
        {
          i := i + 1;
        }
        InsertSortedSkips(received, seqno, i);
        if seqno == received[i] {
          assert received == received[..i] + received[i..];
        } else {
          assert received[..i] + ([seqno] + received[i..]) == received[..i] + [seqno] + received[i..];
          received := received[..i] + [seqno] + received[i..];
        }
      }
    }

    /** `receivePacket`. The answer is the packet it sends back, if any. */
    method ReceivePacket(seqno: nat, header: bool) returns (out: Answer)
      requires WellFormed(View()) && FirstByte(seqno, size)
      modifies this
      ensures (View(), out) == Receive(old(View()), seqno, header)
      ensures WellFormed(View())
      ensures packets == old(packets) + (if !header && !AlreadyReceived(old(View()), seqno) then size else 0)
    {
      var have := HasReceived(seqno);
      if have {
        return if trimming then Reply(Ack(1, cumulativeAck)) else Silence;
      }
      if header {
        return Reply(Nack(seqno, seqno + size - 1));
      }
      ghost var before := View();
      packets := packets + size;
      if seqno == cumulativeAck + 1 {
        cumulativeAck := seqno + size - 1;
        ghost var start := View();
        while received != [] && received[0] == cumulativeAck + 1
          invariant Absorb(View()) == Absorb(start)
          invariant packets == old(packets) + size
          decreases |received|
        {
          received := received[1..];
          cumulativeAck := cumulativeAck + size;
        }
        out := Reply(Ack(1, cumulativeAck));
      } else {
        Insert(seqno);
        out := Reply(Ack(seqno, seqno + size - 1));
      }
      ReceiveAddsExactly(before, seqno, header);
    }
  }
}

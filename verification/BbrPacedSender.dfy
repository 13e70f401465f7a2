/**
 The sender with its pacer, as a value that takes one legal step at a time. `BbrSource` shows that the two
 objects that call each other only ever take such steps.
 */
module BbrPacedSender {
  import opened Arith
  import opened BbrSender
  import opened BbrPacing

  /** A data packet as it leaves. */
  datatype Packet = Packet(seqno: nat, resent: bool, ts: nat)

  datatype Paced = Paced(
    s: Sender,
    outbox: seq<Packet>,
    token: bool,                 // the pacer has fired and no packet has left since
    hist: seq<Pace>,
    lastSend: nat,
    now: nat,
    service: nat,                // the time a packet takes in the host's queue
    rtt: Size)

  /** `_rto` after a start. */
  function Rto(p: Paced): nat { 3 * p.rtt }

  /** The timer of a packet that leaves now. */
  function Timer(p: Paced): nat { p.now + p.service + Rto(p) }

  /** No timer set now is due by then; every timer that the margin lets count as overdue is. */
  function Deadline(p: Paced): nat { p.now + p.rtt }

  datatype Deed =
    | Tick(now: nat)
    | Fire(delay: nat)
    | Rest                       // the end of a firing: it counts as a send
    | Do(action: Action)

  predicate IsSend(a: Action) { a.SendNew? || a.Resend? }

  /** Only a firing lets a packet go, and it keeps its delay from the firings before. */
  ghost predicate May(p: Paced, d: Deed) {
    match d
    case Tick(t) => p.now <= t
    case Fire(delay) => Clear(p.hist, delay, p.now)
    case Rest => true
    case Do(a) =>
      && Enabled(p.s, a)
      && (IsSend(a) ==> p.token && a.timer == Timer(p))
      && (a.TimeOut? ==> p.s.sent[a.idx].timer <= Deadline(p))
  }

  /** The first byte of the packet a send puts on the wire. */
  function Carried(s: Sender, a: Action): nat
    requires Enabled(s, a) && IsSend(a)
  {
    if a.SendNew? then s.highestSent + 1 else s.sent[a.idx].seqno
  }

  ghost function Next(p: Paced, d: Deed): Paced
    requires May(p, d)
  {
    match d
    case Tick(t) => p.(now := t)
    case Fire(delay) => p.(hist := p.hist + [Fired(p.now, delay)], token := true)
    case Rest => p.(lastSend := p.now)
    case Do(a) =>
      if IsSend(a) then
        p.(s := Apply(p.s, a), outbox := p.outbox + [Packet(Carried(p.s, a), a.Resend?, p.now)],
           hist := p.hist + [Sent(p.now)], token := false, lastSend := p.now)
      else p.(s := Apply(p.s, a))
  }

  // ---- Paths ----

  ghost predicate Follows(p: Paced, deeds: seq<Deed>, states: seq<Paced>, q: Paced) {
    && |states| == |deeds| + 1 && states[0] == p && states[|deeds|] == q
    && forall i {:trigger deeds[i]} :: 0 <= i < |deeds| ==>
         May(states[i], deeds[i]) && states[i + 1] == Next(states[i], deeds[i])
  }

  /** What a call that sends is made of. */
  predicate Outgoing(d: Deed) {
    d.Fire? || d.Rest? || (d.Do? && (IsSend(d.action) || d.action.TimeOut?))
  }

  ghost predicate AllOutgoing(deeds: seq<Deed>) { forall i :: 0 <= i < |deeds| ==> Outgoing(deeds[i]) }

  ghost predicate Reaches(p: Paced, q: Paced) { exists deeds, states :: Follows(p, deeds, states, q) }

  /** From `p` to `q` by sends and timeouts at one instant. */
  ghost predicate Emits(p: Paced, q: Paced) {
    exists deeds, states :: Follows(p, deeds, states, q) && AllOutgoing(deeds)
  }

  lemma FollowsOn(p: Paced, deeds: seq<Deed>, states: seq<Paced>, q: Paced, d: Deed)
    requires Follows(p, deeds, states, q) && May(q, d)
    ensures Follows(p, deeds + [d], states + [Next(q, d)], Next(q, d))
  {
  }

  lemma ReachesNext(p: Paced, q: Paced, d: Deed)
    requires Reaches(p, q) && May(q, d)
    ensures Reaches(p, Next(q, d))
  {
    var deeds, states :| Follows(p, deeds, states, q);
    FollowsOn(p, deeds, states, q, d);
  }

  lemma EmitsNothing(p: Paced)
    ensures Emits(p, p)
  {
    assert Follows(p, [], [p], p) && AllOutgoing([]);
  }

  lemma EmitsNext(p: Paced, q: Paced, d: Deed)
    requires Emits(p, q) && May(q, d) && Outgoing(d)
    ensures Emits(p, Next(q, d))
  {
    var deeds, states :| Follows(p, deeds, states, q) && AllOutgoing(deeds);
    FollowsOn(p, deeds, states, q, d);
    assert AllOutgoing(deeds + [d]);
  }

  lemma FollowsJoin(p: Paced, d1: seq<Deed>, s1: seq<Paced>, q: Paced, d2: seq<Deed>, s2: seq<Paced>, r: Paced)
    requires Follows(p, d1, s1, q) && Follows(q, d2, s2, r)
    ensures Follows(p, d1 + d2, s1 + s2[1..], r)
  {
    var ds, ss := d1 + d2, s1 + s2[1..];
    forall i {:trigger ds[i]} | 0 <= i < |ds| ensures May(ss[i], ds[i]) && ss[i + 1] == Next(ss[i], ds[i]) {
      if i < |d1| {
        assert ds[i] == d1[i] && ss[i] == s1[i] && ss[i + 1] == s1[i + 1];
      } else {
        assert ds[i] == d2[i - |d1|] && ss[i] == s2[i - |d1|] && ss[i + 1] == s2[i - |d1| + 1];
      }
    }
  }

  lemma EmitsOn(p: Paced, q: Paced, r: Paced)
    requires Emits(p, q) && Emits(q, r)
    ensures Emits(p, r)
  {
    var d1, s1 :| Follows(p, d1, s1, q) && AllOutgoing(d1);
    var d2, s2 :| Follows(q, d2, s2, r) && AllOutgoing(d2);
    FollowsJoin(p, d1, s1, q, d2, s2, r);
    assert AllOutgoing(d1 + d2);
  }

  lemma ReachesOn(p: Paced, q: Paced, r: Paced)
    requires Reaches(p, q) && Emits(q, r)
    ensures Reaches(p, r)
  {
    var d1, s1 :| Follows(p, d1, s1, q);
    var d2, s2 :| Follows(q, d2, s2, r) && AllOutgoing(d2);
    FollowsJoin(p, d1, s1, q, d2, s2, r);
  }

  lemma ReachesItself(p: Paced)
    ensures Reaches(p, p)
  {
    assert Follows(p, [], [p], p);
  }

  // ---- What every path keeps ----

  /** Each packet left when the history says so. */
  ghost predicate Stamped(h: seq<Pace>, outbox: seq<Packet>)
    decreases |h|
  {
    if h == [] then outbox == []
    else
      var front, e, n := h[..|h| - 1], h[|h| - 1], |outbox| - 1;
      if e.Sent? then n >= 0 && outbox[n].ts == e.at && Stamped(front, outbox[..n])
      else Stamped(front, outbox)
  }

  ghost predicate Kept(p: Paced) {
    && Sound(p.hist) && Past(p.hist, p.now) && p.lastSend <= p.now
    && (p.token <==> EndsFired(p.hist))
    && (p.token || Clear(p.hist, 0, p.lastSend))
    && Stamped(p.hist, p.outbox)
  }

  function Start(s: Sender, now: nat, service: nat, rtt: Size): Paced {
    Paced(s, [], false, [], now, now, service, rtt)
  }

  lemma FiredIsSound(h: seq<Pace>, now: nat, delay: nat)
    requires Sound(h) && Past(h, now) && Clear(h, delay, now)
    ensures var g := h + [Fired(now, delay)]; Sound(g) && Past(g, now) && EndsFired(g)
  {
    var g := h + [Fired(now, delay)];
    assert g[..|g| - 1] == h;
  }

  lemma FiredIsStamped(h: seq<Pace>, outbox: seq<Packet>, now: nat, delay: nat)
    requires Stamped(h, outbox)
    ensures Stamped(h + [Fired(now, delay)], outbox)
  {
    var g := h + [Fired(now, delay)];
    assert g[..|g| - 1] == h;
  }

  lemma SentIsSound(h: seq<Pace>, now: nat)
    requires Sound(h) && Past(h, now) && EndsFired(h)
    ensures var g := h + [Sent(now)]; Sound(g) && Past(g, now) && Clear(g, 0, now) && !EndsFired(g)
  {
    var g := h + [Sent(now)];
    assert g[..|g| - 1] == h;
  }

  lemma SentIsStamped(h: seq<Pace>, outbox: seq<Packet>, p: Packet)
    requires Stamped(h, outbox)
    ensures Stamped(h + [Sent(p.ts)], outbox + [p])
  {
    var g, out := h + [Sent(p.ts)], outbox + [p];
    assert g[..|g| - 1] == h && out[..|out| - 1] == outbox;
  }

  lemma FireKeeps(p: Paced, delay: nat)
    requires Kept(p) && May(p, Fire(delay))
    ensures Kept(Next(p, Fire(delay)))
  {
    FiredIsSound(p.hist, p.now, delay);
    FiredIsStamped(p.hist, p.outbox, p.now, delay);
  }

  lemma SendKeeps(p: Paced, a: Action)
    requires Kept(p) && May(p, Do(a)) && IsSend(a)
    ensures Kept(Next(p, Do(a)))
  {
    SentIsSound(p.hist, p.now);
    SentIsStamped(p.hist, p.outbox, Packet(Carried(p.s, a), a.Resend?, p.now));
  }

  lemma NextKeeps(p: Paced, d: Deed)
    requires Kept(p) && May(p, d)
    ensures Kept(Next(p, d))
  {
    match d
    case Fire(delay) => FireKeeps(p, delay);
    case Do(a) => if IsSend(a) { SendKeeps(p, a); }
    case Tick(_) =>
    case Rest =>
  }

  lemma {:induction false} FollowsKeeps(p: Paced, deeds: seq<Deed>, states: seq<Paced>, q: Paced)
    requires Follows(p, deeds, states, q) && Kept(p)
    ensures Kept(q)
    decreases |deeds|
  {
    if deeds != [] {
      var n := |deeds| - 1;
      FollowsFront(p, deeds, states, q);
      FollowsKeeps(p, deeds[..n], states[..n + 1], states[n]);
      NextKeeps(states[n], deeds[n]);
    }
  }

  lemma FollowsFront(p: Paced, deeds: seq<Deed>, states: seq<Paced>, q: Paced)
    requires Follows(p, deeds, states, q) && deeds != []
    ensures var n := |deeds| - 1;
            && Follows(p, deeds[..n], states[..n + 1], states[n])
            && May(states[n], deeds[n]) && q == Next(states[n], deeds[n])
  {
    var n := |deeds| - 1;
    assert deeds[n] == deeds[|deeds| - 1];
    forall i {:trigger deeds[..n][i]} | 0 <= i < n
      ensures May(states[..n + 1][i], deeds[..n][i])
      ensures states[..n + 1][i + 1] == Next(states[..n + 1][i], deeds[..n][i])
    {
      assert deeds[..n][i] == deeds[i];
    }
  }

  lemma ReachableKept(s: Sender, now: nat, service: nat, rtt: Size, q: Paced)
    requires Reaches(Start(s, now, service, rtt), q)
    ensures Kept(q)
  {
    var deeds, states :| Follows(Start(s, now, service, rtt), deeds, states, q);
    FollowsKeeps(Start(s, now, service, rtt), deeds, states, q);
  }

  // ---- What leaves: the packets of the sender's specification, at a bounded rate ----

  function Actions(deeds: seq<Deed>): seq<Action> {
    if deeds == [] then []
    else Actions(deeds[..|deeds| - 1]) + (match deeds[|deeds| - 1] case Do(a) => [a] case _ => [])
  }

  /** The first bytes of the packets a run of the sender puts on the wire. */
  function Wire(s: Sender, actions: seq<Action>): seq<nat>
    decreases |actions|
  {
    if actions == [] then []
    else
      var front, a := actions[..|actions| - 1], actions[|actions| - 1];
      var t := Run(s, front);
      Wire(s, front) + (if Enabled(t, a) && IsSend(a) then [Carried(t, a)] else [])
  }

  function Seqnos(outbox: seq<Packet>): seq<nat> { seq(|outbox|, i requires 0 <= i < |outbox| => outbox[i].seqno) }

  /** Pacing changes when packets leave, not what the sender does: the paced sender is in a state of the
      unpaced one, which put the same packets on the wire in the same order. */
  lemma {:induction false} PacingOnlyDelays(p: Paced, deeds: seq<Deed>, states: seq<Paced>, q: Paced)
    requires Follows(p, deeds, states, q)
    ensures q.s == Run(p.s, Actions(deeds))
    ensures Seqnos(q.outbox) == Seqnos(p.outbox) + Wire(p.s, Actions(deeds))
    decreases |deeds|
  {
    if deeds != [] {
      var n := |deeds| - 1;
      var d, mid, acts := deeds[n], states[n], Actions(deeds[..n]);
      FollowsFront(p, deeds, states, q);
      PacingOnlyDelays(p, deeds[..n], states[..n + 1], mid);
      if d.Do? {
        assert (acts + [d.action])[..|acts|] == acts;
        assert Actions(deeds) == acts + [d.action];
        assert IsSend(d.action) ==> Seqnos(q.outbox) == Seqnos(mid.outbox) + [Carried(mid.s, d.action)];
      } else {
        assert Actions(deeds) == acts;
      }
    }
  }

  lemma ReachableRefines(s: Sender, start: nat, service: nat, rtt: Size, q: Paced) returns (actions: seq<Action>)
    requires Reaches(Start(s, start, service, rtt), q)
    ensures q.s == Run(s, actions) && Seqnos(q.outbox) == Wire(s, actions)
  {
    var p := Start(s, start, service, rtt);
    var deeds, states :| Follows(p, deeds, states, q);
    PacingOnlyDelays(p, deeds, states, q);
    assert Seqnos(p.outbox) == [];
    actions := Actions(deeds);
  }

  lemma ReachableAccounted(s: Sender, start: nat, service: nat, rtt: Size, q: Paced)
    requires Reaches(Start(s, start, service, rtt), q) && Accounted(s) && s.mss <= s.maxCwnd
    ensures Accounted(q.s)
  {
    var actions := ReachableRefines(s, start, service, rtt, q);
    RunKeepsAccounts(s, actions);
  }

  function SentWithin(outbox: seq<Packet>, lo: nat, hi: nat): nat {
    if outbox == [] then 0
    else
      var p := outbox[|outbox| - 1];
      SentWithin(outbox[..|outbox| - 1], lo, hi) + (if lo <= p.ts <= hi then 1 else 0)
  }

  lemma {:induction false} StampedCount(h: seq<Pace>, outbox: seq<Packet>, lo: nat, hi: nat)
    requires Stamped(h, outbox)
    ensures SentWithin(outbox, lo, hi) == Sends(h, lo, hi)
    decreases |h|
  {
    if h != [] {
      var front, e := h[..|h| - 1], h[|h| - 1];
      StampedCount(front, if e.Sent? then outbox[..|outbox| - 1] else outbox, lo, hi);
    }
  }

  /** In every run in which no delay in force was below `d`, an interval of length T carries at most
      floor(T / d) + 2 packets. */
  lemma PacketsArePaced(s: Sender, start: nat, service: nat, rtt: Size, q: Paced, lo: nat, hi: nat, d: Size)
    requires Reaches(Start(s, start, service, rtt), q) && Delayed(q.hist, d) && lo <= hi
    ensures SentWithin(q.outbox, lo, hi) <= (hi - lo) / d + 2
  {
    ReachableKept(s, start, service, rtt, q);
    StampedCount(q.hist, q.outbox, lo, hi);
    RateBound(q.hist, lo, hi, d);
  }

  // ---- Entries that wait for a resend ----

  ghost predicate NoneWaiting(sent: seq<SentPacket>) { forall i :: 0 <= i < |sent| ==> !Waiting(sent[i]) }

  lemma AppendWaits(sent: seq<SentPacket>, e: SentPacket)
    requires !Waiting(e)
    ensures NoneWaiting(sent + [e]) <==> NoneWaiting(sent)
  {
    var g := sent + [e];
    assert forall i :: 0 <= i < |sent| ==> g[i] == sent[i];
  }

  /** An acknowledgment makes no entry wait. */
  lemma MarkReceivedLeavesNoneWaiting(s: Sender, seqno: nat, ackno: nat)
    requires NoneWaiting(s.sent)
    ensures NoneWaiting(MarkReceived(s, seqno, ackno).sent)
  {
    if seqno == 1 {
      var k := DropCoveredIsSuffix(s.sent, ackno);
    } else if s.sent != [] && IndexOf(s.sent, seqno) == 0 {
      var k := DropAckedIsSuffix(s.sent[1..]);
    }
  }

  // ---- The work that is left: what bounds the calls that send ----

  /** An entry that is waiting for a resend, or times out by `deadline`. */
  function Due(deadline: nat): SentPacket -> bool {
    (e: SentPacket) => !e.acked && (e.nacked || e.timedOut || e.timer <= deadline)
  }

  function Unsent(s: Sender): nat { if s.highestSent < s.flowSize then s.flowSize - s.highestSent else 0 }

  function Left(p: Paced): nat { Unsent(p.s) + Count(p.s.sent, Due(Deadline(p))) }

  /** Nothing is taken back or removed, new packets use up unsent bytes, and a firing is given up only for a
      packet, which leaves less work. */
  ghost predicate Progress(p: Paced, q: Paced) {
    && p.now == q.now && p.rtt == q.rtt && p.service == q.service
    && p.s.flowSize == q.s.flowSize && p.s.finished == q.s.finished
    && p.hist <= q.hist && p.outbox <= q.outbox
    && |p.s.sent| <= |q.s.sent| && p.s.highestSent <= q.s.highestSent
    && Unsent(q.s) <= Unsent(p.s)
    && (Unsent(q.s) < Unsent(p.s) || |q.s.sent| == |p.s.sent|)
    && (Left(q) < Left(p) || (Left(q) == Left(p) && (p.token ==> q.token)))
  }

  lemma SendProgresses(p: Paced, a: Action)
    requires May(p, Do(a)) && IsSend(a)
    ensures Progress(p, Next(p, Do(a))) && Left(Next(p, Do(a))) < Left(p)
  {
    var q := Next(p, Do(a));
    if a.SendNew? {
      assert q.s.sent[..|q.s.sent| - 1] == p.s.sent;
    } else {
      CountUpdate(p.s.sent, a.idx, q.s.sent[a.idx], Due(Deadline(p)));
    }
  }

  function WithFinished(p: Paced): Paced { p.(s := p.s.(finished := true)) }

  /** Whether the flow is declared finished makes no difference to sending. */
  lemma FinishedFollows(p: Paced, deeds: seq<Deed>, states: seq<Paced>, q: Paced)
    requires Follows(p, deeds, states, q) && AllOutgoing(deeds)
    ensures Follows(WithFinished(p), deeds, seq(|states|, i requires 0 <= i < |states| => WithFinished(states[i])),
                    WithFinished(q))
  {
    var ss := seq(|states|, i requires 0 <= i < |states| => WithFinished(states[i]));
    forall i {:trigger deeds[i]} | 0 <= i < |deeds| ensures May(ss[i], deeds[i]) && ss[i + 1] == Next(ss[i], deeds[i]) {
      assert Outgoing(deeds[i]);
      FinishedNext(states[i], deeds[i]);
    }
  }

  lemma FinishedNext(p: Paced, d: Deed)
    requires May(p, d) && Outgoing(d)
    ensures May(WithFinished(p), d) && Next(WithFinished(p), d) == WithFinished(Next(p, d))
  {
    assert Unacked(WithFinished(p).s) == Unacked(p.s);
  }

  lemma FinishedEmits(p: Paced, q: Paced)
    requires Emits(p, q)
    ensures Emits(WithFinished(p), WithFinished(q))
  {
    var deeds, states :| Follows(p, deeds, states, q) && AllOutgoing(deeds);
    FinishedFollows(p, deeds, states, q);
  }

  /** An ack for bytes that had been sent may be taken to settle before the packets that leave in the middle
      of it: they neither finish a flow nor take a finished one up again. */
  lemma AckSettlesFirst(p: Paced, m: Paced, q: Paced, seqno: nat, ackno: nat)
    requires !Marked(p, seqno, ackno).s.aborted && ackno <= p.s.highestSent
    requires Emits(Marked(p, seqno, ackno), m) && Emits(Settled(m, ackno), q)
    ensures Emits(Acked(p, seqno, ackno), q)
  {
    var r := Marked(p, seqno, ackno);
    MarkKeepsRest(p.s, seqno, ackno);
    EmitsProgresses(r, m);
    if ackno >= r.s.flowSize && r.s.sent == [] && !r.s.finished {
      FinishedEmits(r, m);
      assert Settled(m, ackno) == WithFinished(m) && Acked(p, seqno, ackno) == WithFinished(r);
    } else {
      assert Settled(m, ackno) == m && Acked(p, seqno, ackno) == r;
    }
    EmitsOn(Acked(p, seqno, ackno), Settled(m, ackno), q);
  }

  lemma MarkKeepsRest(s: Sender, seqno: nat, ackno: nat)
    ensures var t := MarkReceived(s, seqno, ackno);
            t.highestSent == s.highestSent && t.flowSize == s.flowSize && t.finished == s.finished
  {
  }

  // ---- The steps of a call that sends ----

  function SentNew(p: Paced): Paced {
    p.(s := p.s.(sent := p.s.sent + [SentPacket(Timer(p), p.s.highestSent + 1, false, false, false)],
                 highestSent := p.s.highestSent + p.s.mss),
       outbox := p.outbox + [Packet(p.s.highestSent + 1, false, p.now)],
       hist := p.hist + [Sent(p.now)], token := false, lastSend := p.now)
  }

  function Resent(p: Paced, i: nat): Paced
    requires i < |p.s.sent|
  {
    var e := p.s.sent[i];
    p.(s := p.s.(sent := p.s.sent[i := e.(timer := Timer(p), nacked := false, timedOut := false)],
                 nackRtxPending := if e.nacked then Decrement(p.s.nackRtxPending) else p.s.nackRtxPending),
       outbox := p.outbox + [Packet(e.seqno, true, p.now)],
       hist := p.hist + [Sent(p.now)], token := false, lastSend := p.now)
  }

  function TimedOut(p: Paced, i: nat): Paced
    requires i < |p.s.sent|
  {
    p.(s := p.s.(sent := p.s.sent[i := p.s.sent[i].(timedOut := true)], cwnd := p.s.mss))
  }

  lemma EmitsOne(p: Paced, d: Deed)
    requires May(p, d) && Outgoing(d)
    ensures Emits(p, Next(p, d))
  {
    EmitsNothing(p);
    EmitsNext(p, p, d);
  }

  lemma SentNewEmits(p: Paced)
    requires p.s.started && !p.s.aborted && p.token
    requires Unacked(p.s) + p.s.mss <= p.s.cwnd && p.s.highestSent < p.s.flowSize
    ensures Emits(p, SentNew(p))
  {
    EmitsOne(p, Do(SendNew(Timer(p))));
  }

  lemma SentNewLeavesLess(p: Paced)
    requires p.s.highestSent < p.s.flowSize
    ensures Left(SentNew(p)) < Left(p)
  {
    assert SentNew(p).s.sent[..|p.s.sent|] == p.s.sent;
  }

  lemma ResentEmits(p: Paced, i: nat)
    requires p.s.started && !p.s.aborted && p.token
    requires i < |p.s.sent| && !p.s.sent[i].acked && (p.s.sent[i].timedOut || p.s.sent[i].nacked)
    requires Unacked(p.s) < p.s.cwnd
    ensures Emits(p, Resent(p, i))
  {
    EmitsOne(p, Do(Resend(i, Timer(p))));
  }

  lemma ResentLeavesLess(p: Paced, i: nat)
    requires i < |p.s.sent| && Waiting(p.s.sent[i])
    ensures Left(Resent(p, i)) < Left(p)
  {
    CountUpdate(p.s.sent, i, Resent(p, i).s.sent[i], Due(Deadline(p)));
  }

  lemma TimedOutEmits(p: Paced, i: nat)
    requires p.s.started && !p.s.aborted
    requires i < |p.s.sent| && !p.s.sent[i].acked && !p.s.sent[i].nacked && p.s.sent[i].timer <= Deadline(p)
    ensures Emits(p, TimedOut(p, i))
  {
    EmitsOne(p, Do(TimeOut(i)));
  }

  lemma FiredEmits(p: Paced, delay: nat)
    requires Clear(p.hist, delay, p.now)
    ensures Emits(p, p.(hist := p.hist + [Fired(p.now, delay)], token := true))
  {
    EmitsOne(p, Fire(delay));
  }

  function Rested(p: Paced): Paced { p.(lastSend := p.now) }

  lemma RestedEmits(p: Paced)
    ensures Emits(p, Rested(p)) && Left(Rested(p)) == Left(p)
  {
    EmitsOne(p, Rest);
  }

  lemma TimeOutProgresses(p: Paced, i: nat)
    requires May(p, Do(TimeOut(i)))
    ensures Progress(p, Next(p, Do(TimeOut(i))))
  {
    CountUpdate(p.s.sent, i, p.s.sent[i].(timedOut := true), Due(Deadline(p)));
  }

  lemma {:induction false} FollowsProgresses(p: Paced, deeds: seq<Deed>, states: seq<Paced>, q: Paced)
    requires Follows(p, deeds, states, q) && AllOutgoing(deeds)
    ensures Progress(p, q)
    decreases |deeds|
  {
    if deeds != [] {
      var n := |deeds| - 1;
      var mid, d := states[n], deeds[n];
      FollowsFront(p, deeds, states, q);
      FollowsProgresses(p, deeds[..n], states[..n + 1], mid);
      assert Outgoing(d);
      if d.Do? {
        if IsSend(d.action) { SendProgresses(mid, d.action); } else { TimeOutProgresses(mid, d.action.idx); }
      }
    }
  }

  lemma EmitsProgresses(p: Paced, q: Paced)
    requires Emits(p, q)
    ensures Progress(p, q)
  {
    var deeds, states :| Follows(p, deeds, states, q) && AllOutgoing(deeds);
    FollowsProgresses(p, deeds, states, q);
  }

  lemma ResentWaitsNoMore(p: Paced, i: nat)
    requires i < |p.s.sent| && NoneWaiting(p.s.sent[..i])
    ensures NoneWaiting(Resent(p, i).s.sent[..i + 1])
  {
    var sent := Resent(p, i).s.sent;
    assert sent[..i] == p.s.sent[..i];
    WaitsNot(sent, i);
  }

  lemma WaitsNot(sent: seq<SentPacket>, i: nat)
    requires i < |sent| && !Waiting(sent[i]) && NoneWaiting(sent[..i])
    ensures NoneWaiting(sent[..i + 1])
  {
    forall j | 0 <= j < i ensures !Waiting(sent[j]) { assert sent[..i][j] == sent[j]; }
  }

  /** A resend would succeed now. */
  predicate MayResend(p: Paced) { p.token && Unacked(p.s) < p.s.cwnd }

  /** What a scan for resends has done when it comes to entry `i`: nothing, if none before was waiting, or some
      work. */
  ghost predicate Scanned(start: Paced, q: Paced, i: nat) {
    if q == start then i <= |start.s.sent| && NoneWaiting(start.s.sent[..i])
    else Left(q) < Left(start) && !NoneWaiting(start.s.sent)
  }

  lemma ScannedOn(start: Paced, p: Paced, q: Paced, i: nat)
    requires Scanned(start, p, i) && i < |p.s.sent| && Progress(p, q)
    requires p == start ==> if Waiting(p.s.sent[i]) then Left(q) < Left(p) else q == p
    ensures Scanned(start, q, i + 1)
  {
    if p == start && !Waiting(p.s.sent[i]) { WaitsNot(p.s.sent, i); }
  }

  /** A scan does some work if an entry was waiting, and else nothing. */
  ghost predicate ScanDone(start: Paced, q: Paced) {
    if NoneWaiting(start.s.sent) then q == start else Left(q) < Left(start)
  }

  lemma ScannedAll(start: Paced, q: Paced)
    requires Scanned(start, q, |q.s.sent|)
    ensures ScanDone(start, q)
  {
    if q == start { assert start.s.sent[..|q.s.sent|] == start.s.sent; }
  }

  // ---- The other steps ----

  function Restarted(p: Paced): Paced { p.(s := p.s.(cwnd := p.s.maxCwnd, started := true)) }

  function Marked(p: Paced, seqno: nat, ackno: nat): Paced { p.(s := MarkReceived(p.s, seqno, ackno)) }

  function Settled(p: Paced, ackno: nat): Paced { p.(s := Settle(p.s, ackno)) }

  function Acked(p: Paced, seqno: nat, ackno: nat): Paced { p.(s := ProcessAck(p.s, seqno, ackno)) }

  function Nacked(p: Paced, seqno: nat): Paced { p.(s := ProcessNack(p.s, seqno)) }

  function Penalized(p: Paced): Paced { p.(s := p.s.(cwnd := p.s.mss)) }

  lemma RestartedReaches(start: Paced, p: Paced)
    requires Reaches(start, p) && !p.s.aborted
    ensures Reaches(start, Restarted(p))
  {
    ReachesNext(start, p, Do(Restart));
  }

  lemma MarkedReaches(start: Paced, p: Paced, seqno: nat, ackno: nat)
    requires Reaches(start, p) && !p.s.aborted
    ensures Reaches(start, Marked(p, seqno, ackno))
  {
    ReachesNext(start, p, Do(AckIn(seqno, ackno)));
  }

  lemma SettledReaches(start: Paced, p: Paced, ackno: nat)
    requires Reaches(start, p) && !p.s.aborted
    ensures Reaches(start, Settled(p, ackno))
  {
    ReachesNext(start, p, Do(AckEnd(ackno)));
  }

  lemma NackedReaches(start: Paced, p: Paced, seqno: nat)
    requires Reaches(start, p) && !p.s.aborted
    ensures Reaches(start, Nacked(p, seqno))
  {
    ReachesNext(start, p, Do(NackIn(seqno)));
  }

  lemma PenalizedReaches(start: Paced, p: Paced)
    requires Reaches(start, p) && !p.s.aborted && p.s.highestSent != 0
    ensures Reaches(start, Penalized(p))
  {
    ReachesNext(start, p, Do(TimerPenalty));
  }

  lemma TickReaches(start: Paced, p: Paced, now: nat)
    requires Reaches(start, p) && p.now <= now
    ensures Reaches(start, p.(now := now))
  {
    ReachesNext(start, p, Tick(now));
  }
}

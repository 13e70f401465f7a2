/**
 The transfer state of `BBRSrc` as a value, and the atomic actions its handlers are made of.
 Sequence numbers count bytes from 1; a packet is known by its first byte.
 An assertion that fails in the original is the `aborted` flag here: nothing happens after it.
 */
module BbrSender {
  import opened Arith

  datatype SentPacket = SentPacket(timer: nat, seqno: nat, acked: bool, nacked: bool, timedOut: bool)

  datatype Sender = Sender(
    mss: Size,
    flowSize: nat,
    maxCwnd: nat,                // `_maxcwnd`, which every start sets to the BDP
    sent: seq<SentPacket>,
    highestSent: nat,
    cwnd: nat,
    nackRtxPending: nat,         // unsigned in the original
    started: bool,
    finished: bool,
    aborted: bool)

  function Init(mss: Size, flowSize: nat, maxCwnd: nat, startingCwnd: nat): Sender {
    Sender(mss, flowSize, maxCwnd, [], 0, startingCwnd, 0, false, false, false)
  }

  // ---- Counting entries ----

  function Count(sent: seq<SentPacket>, p: SentPacket -> bool): nat {
    if sent == [] then 0 else Count(sent[..|sent| - 1], p) + (if p(sent[|sent| - 1]) then 1 else 0)
  }

  predicate InFlight(e: SentPacket) { !e.acked && !e.nacked && !e.timedOut }

  predicate IsNacked(e: SentPacket) { e.nacked }

  predicate IsAcked(e: SentPacket) { e.acked }

  /** The entry waits for a resend. */
  predicate Waiting(e: SentPacket) { !e.acked && (e.timedOut || e.nacked) }

  /** `get_unacked`. */
  function Unacked(s: Sender): nat { Count(s.sent, InFlight) * s.mss }

  lemma {:induction false} CountConcat(a: seq<SentPacket>, b: seq<SentPacket>, p: SentPacket -> bool)
    ensures Count(a + b, p) == Count(a, p) + Count(b, p)
    decreases |b|
  {
    if b == [] {
      assert a + b == a;
    } else {
      CountConcat(a, b[..|b| - 1], p);
      assert (a + b)[..|a + b| - 1] == a + b[..|b| - 1];
    }
  }

  lemma CountUpdate(sent: seq<SentPacket>, i: nat, e: SentPacket, p: SentPacket -> bool)
    requires i < |sent|
    ensures Count(sent[i := e], p) ==
            Count(sent, p) - (if p(sent[i]) then 1 else 0) + (if p(e) then 1 else 0)
  {
    assert sent == sent[..i] + [sent[i]] + sent[i + 1..];
    assert sent[i := e] == sent[..i] + [e] + sent[i + 1..];
    CountConcat(sent[..i] + [sent[i]], sent[i + 1..], p);
    CountConcat(sent[..i] + [e], sent[i + 1..], p);
  }

  lemma CountDrop(sent: seq<SentPacket>, k: nat, p: SentPacket -> bool)
    requires k <= |sent|
    ensures Count(sent[k..], p) <= Count(sent, p)
  {
    assert sent == sent[..k] + sent[k..];
    CountConcat(sent[..k], sent[k..], p);
  }

  /** Every entry is in flight, or acked, or waits. */
  lemma {:induction false} EntriesAreOneOfThree(sent: seq<SentPacket>)
    ensures |sent| == Count(sent, InFlight) + Count(sent, IsAcked) + Count(sent, Waiting)
  {
    if sent != [] { EntriesAreOneOfThree(sent[..|sent| - 1]); }
  }

  // ---- Window ----

  /** `reduce_cwnd`. */
  function ReduceCwnd(s: Sender, amount: nat): nat {
    if s.cwnd >= amount + s.mss then s.cwnd - amount else s.mss
  }

  /** `check_limits_cwnd`, applied to a window. */
  function CheckLimits(s: Sender, cwnd: nat): nat {
    var c := if cwnd > s.maxCwnd then s.maxCwnd else cwnd;
    if c < s.mss then s.mss else c
  }

  /** Unsigned 32-bit decrement, which wraps at zero. */
  function Decrement(n: nat): nat { if n == 0 then 0xFFFF_FFFF else n - 1 }

  // ---- Acknowledgments ----

  /** The cumulative erase loop: entries covered by `ackno`, or already acked, leave from the front. */
  function DropCovered(sent: seq<SentPacket>, ackno: nat): seq<SentPacket> {
    if sent != [] && (sent[0].seqno <= ackno || sent[0].acked) then DropCovered(sent[1..], ackno) else sent
  }

  function DropAcked(sent: seq<SentPacket>): seq<SentPacket> {
    if sent != [] && sent[0].acked then DropAcked(sent[1..]) else sent
  }

  /** `get_sent_packet_idx`: the first entry for `seqno`, or the length. */
  function IndexOf(sent: seq<SentPacket>, seqno: nat): (i: nat)
    ensures i <= |sent|
    ensures i < |sent| ==> sent[i].seqno == seqno
    ensures forall j :: 0 <= j < i ==> sent[j].seqno != seqno
  {
    if sent == [] || sent[0].seqno == seqno then 0 else 1 + IndexOf(sent[1..], seqno)
  }

  /** The duplicate-acknowledgment test for an individual ack. */
  predicate IsDuplicateAck(sent: seq<SentPacket>, ackno: nat) {
    sent == [] || sent[0].seqno > ackno
  }

  /** `mark_received`. Sequence number 1 stands for a cumulative ack. */
  function MarkReceived(s: Sender, seqno: nat, ackno: nat): Sender {
    if seqno == 1 then s.(sent := DropCovered(s.sent, ackno))
    else if IsDuplicateAck(s.sent, ackno) then s
    else
      var i := IndexOf(s.sent, seqno);
      if i == 0 then s.(sent := DropAcked(s.sent[1..]))
      else if i == |s.sent| then s.(aborted := true)
      else
        s.(sent := s.sent[i := SentPacket(s.sent[i].timer, s.sent[i].seqno, true, false, false)],
           nackRtxPending := if s.sent[i].nacked then Decrement(s.nackRtxPending) else s.nackRtxPending)
  }

  /** The end of `processAck`, up to the point where it sends. */
  function Settle(s: Sender, ackno: nat): Sender {
    if ackno >= s.flowSize && s.sent == [] && !s.finished then s.(finished := true)
    else s.(highestSent := if ackno >= s.highestSent then ackno else s.highestSent)
  }

  /** `processAck` when nothing is sent in the middle of it. */
  function ProcessAck(s: Sender, seqno: nat, ackno: nat): Sender {
    var r := MarkReceived(s, seqno, ackno);
    if r.aborted then r else Settle(r, ackno)
  }

  /** The two assertions of `processNack`. */
  predicate NackExpected(s: Sender, seqno: nat) {
    var i := IndexOf(s.sent, seqno);
    i < |s.sent| && !s.sent[i].acked
  }

  /** `processNack` up to the point where it resends. */
  function ProcessNack(s: Sender, seqno: nat): Sender {
    var r := s.(cwnd := CheckLimits(s, ReduceCwnd(s, 0)));
    var i := IndexOf(s.sent, seqno);
    if !NackExpected(s, seqno) then r.(aborted := true)
    else if s.sent[i].nacked then r
    else r.(sent := s.sent[i := s.sent[i].(nacked := true)], nackRtxPending := s.nackRtxPending + 1)
  }

  // ---- Actions ----

  datatype Action =
    | Restart                          // startflow, with updateParams
    | SendNew(timer: nat)              // one turn of the loop in send_packets
    | Resend(idx: nat, timer: nat)     // a resend_packet that sends
    | TimeOut(idx: nat)                // retransmit_packet finds an overdue entry
    | TimerPenalty                     // rtx_timer_hook
    | AckIn(seqno: nat, ackno: nat)    // the start of processAck, mark_received
    | AckEnd(ackno: nat)               // the end of processAck
    | NackIn(seqno: nat)

  predicate IsFeedback(a: Action) { a.AckIn? || a.AckEnd? || a.NackIn? }

  predicate Enabled(s: Sender, a: Action) {
    !s.aborted &&
    match a
    case Restart => true
    case SendNew(_) => s.started && Unacked(s) + s.mss <= s.cwnd && s.highestSent < s.flowSize
    case Resend(i, _) =>
      s.started && i < |s.sent| && !s.sent[i].acked && (s.sent[i].timedOut || s.sent[i].nacked)
      && Unacked(s) < s.cwnd
    case TimeOut(i) => s.started && i < |s.sent| && !s.sent[i].acked && !s.sent[i].nacked
    case TimerPenalty => s.highestSent != 0
    case AckIn(_, _) => true
    case AckEnd(_) => true
    case NackIn(_) => true
  }

  function Apply(s: Sender, a: Action): Sender
    requires Enabled(s, a)
  {
    match a
    case Restart => s.(cwnd := s.maxCwnd, started := true)
    case SendNew(t) =>
      s.(sent := s.sent + [SentPacket(t, s.highestSent + 1, false, false, false)],
         highestSent := s.highestSent + s.mss)
    case Resend(i, t) =>
      s.(sent := s.sent[i := s.sent[i].(timer := t, nacked := false, timedOut := false)],
         nackRtxPending := if s.sent[i].nacked then Decrement(s.nackRtxPending) else s.nackRtxPending)
    case TimeOut(i) => s.(sent := s.sent[i := s.sent[i].(timedOut := true)], cwnd := s.mss)
    case TimerPenalty => s.(cwnd := s.mss)
    case AckIn(q, a) => MarkReceived(s, q, a)
    case AckEnd(a) => Settle(s, a)
    case NackIn(q) => ProcessNack(s, q)
  }

  /** An action that is not enabled does nothing, so every sequence of actions is a run. */
  function Step(s: Sender, a: Action): Sender { if Enabled(s, a) then Apply(s, a) else s }

  function Run(s: Sender, actions: seq<Action>): Sender
    decreases |actions|
  {
    if actions == [] then s else Step(Run(s, actions[..|actions| - 1]), actions[|actions| - 1])
  }

  // ---- What every run keeps, whatever acknowledgments arrive ----

  ghost predicate Accounted(s: Sender) {
    && s.nackRtxPending >= Count(s.sent, IsNacked)
    && (s.started ==> s.mss <= s.cwnd <= s.maxCwnd)
    && (!s.started ==> s.sent == [])
    && Unacked(s) < s.maxCwnd + s.mss
  }

  lemma {:induction false} DropCoveredIsSuffix(sent: seq<SentPacket>, ackno: nat) returns (k: nat)
    ensures k <= |sent| && DropCovered(sent, ackno) == sent[k..]
    ensures forall i :: 0 <= i < k ==> sent[i].seqno <= ackno || sent[i].acked
    ensures k < |sent| ==> sent[k].seqno > ackno && !sent[k].acked
  {
    k := 0;
    if sent != [] && (sent[0].seqno <= ackno || sent[0].acked) {
      var j := DropCoveredIsSuffix(sent[1..], ackno);
      k := j + 1;
      assert sent[1..][j..] == sent[k..];
      forall i | 0 <= i < k ensures sent[i].seqno <= ackno || sent[i].acked {
        if i > 0 { assert sent[i] == sent[1..][i - 1]; }
      }
    }
  }

  lemma {:induction false} DropAckedIsSuffix(sent: seq<SentPacket>) returns (k: nat)
    ensures k <= |sent| && DropAcked(sent) == sent[k..]
    ensures (forall i :: 0 <= i < k ==> sent[i].acked) && (k < |sent| ==> !sent[k].acked)
  {
    k := 0;
    if sent != [] && sent[0].acked {
      var j := DropAckedIsSuffix(sent[1..]);
      k := j + 1;
      forall i | 0 <= i < k ensures sent[i].acked {
        if i > 0 { assert sent[i] == sent[1..][i - 1]; }
      }
    }
  }

  lemma FewerInFlight(s: Sender, t: Sender)
    requires s.mss == t.mss && Count(t.sent, InFlight) <= Count(s.sent, InFlight)
    ensures Unacked(t) <= Unacked(s)
  {
    MulMonotone(Count(t.sent, InFlight), Count(s.sent, InFlight), s.mss);
  }

  lemma SuffixKeepsAccounts(s: Sender, k: nat)
    requires Accounted(s) && k <= |s.sent|
    ensures Accounted(s.(sent := s.sent[k..]))
  {
    CountDrop(s.sent, k, IsNacked);
    CountDrop(s.sent, k, InFlight);
    FewerInFlight(s, s.(sent := s.sent[k..]));
  }

  lemma MarkReceivedKeepsAccounts(s: Sender, seqno: nat, ackno: nat)
    requires Accounted(s)
    ensures Accounted(MarkReceived(s, seqno, ackno))
  {
    var i := IndexOf(s.sent, seqno);
    if seqno == 1 {
      var k := DropCoveredIsSuffix(s.sent, ackno);
      SuffixKeepsAccounts(s, k);
    } else if IsDuplicateAck(s.sent, ackno) {
    } else if i == 0 {
      var k := DropAckedIsSuffix(s.sent[1..]);
      assert s.sent[1..][k..] == s.sent[k + 1..];
      SuffixKeepsAccounts(s, k + 1);
    } else if i < |s.sent| {
      var e := SentPacket(s.sent[i].timer, s.sent[i].seqno, true, false, false);
      CountUpdate(s.sent, i, e, IsNacked);
      CountUpdate(s.sent, i, e, InFlight);
      FewerInFlight(s, MarkReceived(s, seqno, ackno));
    }
  }

  lemma SendNewKeepsAccounts(s: Sender, a: Action)
    requires Accounted(s) && Enabled(s, a) && a.SendNew?
    ensures Accounted(Apply(s, a)) && Unacked(Apply(s, a)) == Unacked(s) + s.mss
  {
    var t := Apply(s, a);
    assert t.sent[..|s.sent|] == s.sent;
    assert Count(t.sent, InFlight) == Count(s.sent, InFlight) + 1;
  }

  lemma ResendKeepsAccounts(s: Sender, a: Action)
    requires Accounted(s) && Enabled(s, a) && a.Resend?
    ensures Accounted(Apply(s, a)) && Unacked(Apply(s, a)) == Unacked(s) + s.mss
  {
    var t := Apply(s, a);
    CountUpdate(s.sent, a.idx, t.sent[a.idx], IsNacked);
    CountUpdate(s.sent, a.idx, t.sent[a.idx], InFlight);
    assert Count(t.sent, InFlight) == Count(s.sent, InFlight) + 1;
  }

  /** Every packet that leaves adds its size to the bytes in flight. */
  lemma SendsKeepAccounts(s: Sender, a: Action)
    requires Accounted(s) && Enabled(s, a) && (a.SendNew? || a.Resend?)
    ensures Accounted(Apply(s, a))
    ensures Unacked(Apply(s, a)) == Unacked(s) + s.mss
  {
    if a.SendNew? { SendNewKeepsAccounts(s, a); } else { ResendKeepsAccounts(s, a); }
  }

  lemma StepKeepsAccounts(s: Sender, a: Action)
    requires Accounted(s) && s.mss <= s.maxCwnd
    ensures Accounted(Step(s, a))
  {
    if Enabled(s, a) {
      match a
      case SendNew(_) => SendsKeepAccounts(s, a);
      case Resend(_, _) => SendsKeepAccounts(s, a);
      case TimeOut(i) =>
        CountUpdate(s.sent, i, s.sent[i].(timedOut := true), IsNacked);
        CountUpdate(s.sent, i, s.sent[i].(timedOut := true), InFlight);
        FewerInFlight(s, Apply(s, a));
      case AckIn(q, n) => MarkReceivedKeepsAccounts(s, q, n);
      case AckEnd(_) =>
      case NackIn(q) =>
        var i := IndexOf(s.sent, q);
        if NackExpected(s, q) && !s.sent[i].nacked {
          CountUpdate(s.sent, i, s.sent[i].(nacked := true), IsNacked);
          CountUpdate(s.sent, i, s.sent[i].(nacked := true), InFlight);
        }
        FewerInFlight(s, Apply(s, a));
      case Restart =>
      case TimerPenalty =>
    }
  }

  predicate SameConfig(s: Sender, t: Sender) {
    s.mss == t.mss && s.flowSize == t.flowSize && s.maxCwnd == t.maxCwnd
  }

  lemma StepKeepsConfig(s: Sender, a: Action)
    ensures SameConfig(s, Step(s, a))
  {
  }

  lemma {:induction false} RunKeepsAccounts(s: Sender, actions: seq<Action>)
    requires Accounted(s) && s.mss <= s.maxCwnd
    ensures Accounted(Run(s, actions))
    ensures SameConfig(s, Run(s, actions))
    decreases |actions|
  {
    if actions != [] {
      var before, a := Run(s, actions[..|actions| - 1]), actions[|actions| - 1];
      RunKeepsAccounts(s, actions[..|actions| - 1]);
      StepKeepsConfig(before, a);
      StepKeepsAccounts(before, a);
      assert Run(s, actions) == Step(before, a);
    }
  }

  /** In no run does the unsigned count of pending retransmissions wrap: when an entry flagged nacked
      is resent or acked, the count is still positive. */
  lemma NackCountNeverWraps(mss: Size, flowSize: nat, maxCwnd: nat, startingCwnd: nat, actions: seq<Action>, i: nat)
    requires mss <= maxCwnd
    requires i < |Run(Init(mss, flowSize, maxCwnd, startingCwnd), actions).sent|
    requires Run(Init(mss, flowSize, maxCwnd, startingCwnd), actions).sent[i].nacked
    ensures Run(Init(mss, flowSize, maxCwnd, startingCwnd), actions).nackRtxPending > 0
  {
    var s := Run(Init(mss, flowSize, maxCwnd, startingCwnd), actions);
    RunKeepsAccounts(Init(mss, flowSize, maxCwnd, startingCwnd), actions);
    CountUpdate(s.sent, i, s.sent[i].(nacked := false), IsNacked);
  }

  // ---- Exactly what the window and the count are, in every run ----

  /** The window was shrunk since the last start. */
  function Shrunk(s: Sender, actions: seq<Action>): bool
    decreases |actions|
  {
    if actions == [] then false
    else
      var front, a := actions[..|actions| - 1], actions[|actions| - 1];
      if !Enabled(Run(s, front), a) then Shrunk(s, front)
      else !a.Restart? && (a.TimeOut? || a.TimerPenalty? || Shrunk(s, front))
  }

  /** After the start the window is one packet if a timeout has come since the last start, and else the BDP: no
      ack and no nack changes it. */
  lemma {:induction false} WindowIsBdpOrPacket(mss: Size, flowSize: nat, maxCwnd: nat, startingCwnd: nat,
                                               actions: seq<Action>)
    requires mss <= maxCwnd
    ensures var init := Init(mss, flowSize, maxCwnd, startingCwnd);
            var s := Run(init, actions);
            s.started ==> s.cwnd == if Shrunk(init, actions) then mss else maxCwnd
    decreases |actions|
  {
    if actions != [] {
      var init := Init(mss, flowSize, maxCwnd, startingCwnd);
      var front, a := actions[..|actions| - 1], actions[|actions| - 1];
      WindowIsBdpOrPacket(mss, flowSize, maxCwnd, startingCwnd, front);
      RunKeepsAccounts(init, front);
      StepKeepsWindow(Run(init, front), a);
    }
  }

  lemma StepKeepsWindow(s: Sender, a: Action)
    requires Accounted(s) && s.mss <= s.maxCwnd
    ensures var t := Step(s, a);
            t.started ==> t.cwnd == if !Enabled(s, a) then s.cwnd else if a.Restart? then s.maxCwnd
                                    else if a.TimeOut? || a.TimerPenalty? then s.mss else s.cwnd
    ensures Step(s, a).started ==> s.started || (a.Restart? && Enabled(s, a))
  {
  }

  /** No step of the run resent a packet. */
  function NothingResent(s: Sender, actions: seq<Action>): bool
    decreases |actions|
  {
    actions == [] ||
    (var front, a := actions[..|actions| - 1], actions[|actions| - 1];
     NothingResent(s, front) && !(a.Resend? && Enabled(Run(s, front), a)))
  }

  /** A new packet leaves only when it fits the window as a whole; only resends take the bytes in flight beyond
      the BDP. */
  lemma {:induction false} NewPacketsFitWindow(mss: Size, flowSize: nat, maxCwnd: nat, startingCwnd: nat,
                                               actions: seq<Action>)
    requires mss <= maxCwnd && NothingResent(Init(mss, flowSize, maxCwnd, startingCwnd), actions)
    ensures Unacked(Run(Init(mss, flowSize, maxCwnd, startingCwnd), actions)) <= maxCwnd
    decreases |actions|
  {
    if actions != [] {
      var init := Init(mss, flowSize, maxCwnd, startingCwnd);
      var front, a := actions[..|actions| - 1], actions[|actions| - 1];
      var s := Run(init, front);
      NewPacketsFitWindow(mss, flowSize, maxCwnd, startingCwnd, front);
      RunKeepsAccounts(init, front);
      StepFitsBdp(s, a, maxCwnd);
    }
  }

  lemma StepFitsWindow(s: Sender, a: Action)
    requires Accounted(s) && !(a.Resend? && Enabled(s, a))
    ensures a.SendNew? && Enabled(s, a) ==> Unacked(Step(s, a)) == Unacked(s) + s.mss <= s.cwnd
    ensures !(a.SendNew? && Enabled(s, a)) ==> Unacked(Step(s, a)) <= Unacked(s)
  {
    if Enabled(s, a) {
      match a {
        case SendNew(_) => SendNewKeepsAccounts(s, a);
        case TimeOut(i) =>
          CountUpdate(s.sent, i, s.sent[i].(timedOut := true), InFlight);
          FewerInFlight(s, Apply(s, a));
        case AckIn(q, n) => AckLeavesFewer(s, q, n);
        case NackIn(q) =>
          var i := IndexOf(s.sent, q);
          if NackExpected(s, q) { CountUpdate(s.sent, i, s.sent[i].(nacked := true), InFlight); }
          FewerInFlight(s, Apply(s, a));
        case AckEnd(_) =>
        case Restart =>
        case TimerPenalty =>
      }
    }
  }

  lemma StepFitsBdp(s: Sender, a: Action, maxCwnd: nat)
    requires Accounted(s) && !(a.Resend? && Enabled(s, a)) && s.maxCwnd == maxCwnd && Unacked(s) <= maxCwnd
    ensures Unacked(Step(s, a)) <= maxCwnd
  {
    StepFitsWindow(s, a);
  }

  lemma AckLeavesFewer(s: Sender, q: nat, n: nat)
    requires !s.aborted
    ensures Unacked(MarkReceived(s, q, n)) <= Unacked(s)
  {
    var t, i := MarkReceived(s, q, n), IndexOf(s.sent, q);
    var k := AckErases(s, q, n);
    if q != 1 && !IsDuplicateAck(s.sent, n) && 0 < i < |s.sent| {
      CountUpdate(s.sent, i, t.sent[i], InFlight);
    } else {
      CountDrop(s.sent, k, InFlight);
    }
    FewerInFlight(s, t);
  }

  /** The nacked entries that an ack erases without counting them. */
  function Uncounted(s: Sender, a: Action): nat {
    var t := Step(s, a);
    if a.AckIn? && |t.sent| < |s.sent| then Count(s.sent[..|s.sent| - |t.sent|], IsNacked) else 0
  }

  function UncountedIn(s: Sender, actions: seq<Action>): nat
    decreases |actions|
  {
    if actions == [] then 0
    else
      var front := actions[..|actions| - 1];
      UncountedIn(s, front) + Uncounted(Run(s, front), actions[|actions| - 1])
  }

  /** The count of pending retransmissions is the number of entries flagged nacked, and of those that were erased
      while they were. */
  lemma {:induction false} NackCountExactly(mss: Size, flowSize: nat, maxCwnd: nat, startingCwnd: nat,
                                            actions: seq<Action>)
    ensures var init := Init(mss, flowSize, maxCwnd, startingCwnd);
            var s := Run(init, actions);
            s.nackRtxPending == Count(s.sent, IsNacked) + UncountedIn(init, actions)
    decreases |actions|
  {
    if actions != [] {
      var init, front := Init(mss, flowSize, maxCwnd, startingCwnd), actions[..|actions| - 1];
      NackCountExactly(mss, flowSize, maxCwnd, startingCwnd, front);
      StepCountsNacks(Run(init, front), actions[|actions| - 1]);
    }
  }

  lemma StepCountsNacks(s: Sender, a: Action)
    requires s.nackRtxPending >= Count(s.sent, IsNacked)
    ensures Step(s, a).nackRtxPending - Count(Step(s, a).sent, IsNacked)
            == s.nackRtxPending - Count(s.sent, IsNacked) + Uncounted(s, a)
  {
    if Enabled(s, a) {
      var t := Step(s, a);
      match a {
        case SendNew(_) => assert t.sent[..|s.sent|] == s.sent;
        case Resend(i, _) => CountUpdate(s.sent, i, t.sent[i], IsNacked);
        case TimeOut(i) => CountUpdate(s.sent, i, t.sent[i], IsNacked);
        case AckIn(q, n) => AckCountsNacks(s, q, n);
        case NackIn(q) =>
          var i := IndexOf(s.sent, q);
          if NackExpected(s, q) { CountUpdate(s.sent, i, s.sent[i].(nacked := true), IsNacked); }
        case AckEnd(_) =>
        case Restart =>
        case TimerPenalty =>
      }
    }
  }

  lemma CountOfRest(sent: seq<SentPacket>, k: nat)
    requires k <= |sent|
    ensures Count(sent, IsNacked) == Count(sent[..k], IsNacked) + Count(sent[k..], IsNacked)
  {
    assert sent == sent[..k] + sent[k..];
    CountConcat(sent[..k], sent[k..], IsNacked);
  }

  /** What an ack erases, and that it erases nothing when it marks an entry. */
  lemma AckErases(s: Sender, q: nat, n: nat) returns (k: nat)
    requires !s.aborted
    ensures var t, i := MarkReceived(s, q, n), IndexOf(s.sent, q);
            && k <= |s.sent| && |t.sent| == |s.sent| - k
            && (if q != 1 && !IsDuplicateAck(s.sent, n) && 0 < i < |s.sent| then k == 0
                else t.sent == s.sent[k..] && t.nackRtxPending == s.nackRtxPending)
  {
    k := 0;
    if q == 1 {
      k := DropCoveredIsSuffix(s.sent, n);
    } else if !IsDuplicateAck(s.sent, n) && IndexOf(s.sent, q) == 0 {
      var j := DropAckedIsSuffix(s.sent[1..]);
      assert s.sent[1..][j..] == s.sent[j + 1..];
      k := j + 1;
    }
  }

  lemma AckCountsNacks(s: Sender, q: nat, n: nat)
    requires s.nackRtxPending >= Count(s.sent, IsNacked) && !s.aborted
    ensures var t := MarkReceived(s, q, n);
            t.nackRtxPending - Count(t.sent, IsNacked)
            == s.nackRtxPending - Count(s.sent, IsNacked) + Uncounted(s, AckIn(q, n))
  {
    var t, i := MarkReceived(s, q, n), IndexOf(s.sent, q);
    var k := AckErases(s, q, n);
    if q != 1 && !IsDuplicateAck(s.sent, n) && 0 < i < |s.sent| {
      CountUpdate(s.sent, i, t.sent[i], IsNacked);
    } else {
      CountOfRest(s.sent, k);
      assert s.sent[..0] == [];
    }
  }

  ghost predicate WithinWindow(s: Sender) {
    s.started ==> s.mss <= s.cwnd <= s.maxCwnd && Unacked(s) < s.maxCwnd + s.mss
  }

  /** After the start, in every run, the window stays within `mss .. maxCwnd` and the bytes in flight
      below `maxCwnd + mss`: exactly when the BDP holds at least one packet. */
  lemma WindowBounds(mss: Size, flowSize: nat, maxCwnd: nat, startingCwnd: nat)
    ensures mss <= maxCwnd <==>
            forall actions: seq<Action> :: WithinWindow(Run(Init(mss, flowSize, maxCwnd, startingCwnd), actions))
  {
    var init := Init(mss, flowSize, maxCwnd, startingCwnd);
    if mss <= maxCwnd {
      forall actions: seq<Action> ensures WithinWindow(Run(init, actions)) {
        RunKeepsAccounts(init, actions);
      }
    } else {
      var actions := [Restart];
      assert actions[..0] == [];
      assert Run(init, actions) == Apply(init, Restart);
      assert exists actions: seq<Action> :: !WithinWindow(Run(init, actions)) by {
        assert !WithinWindow(Run(init, actions));
      }
    }
  }
}

/**
 What the handlers of `BBRSrc` compute while its pacer waits: then no call of the pacer nests in them, and each
 is a function of the sender, its flags and its timer.
 */
module BbrHandlers {
  import opened BbrSender
  import opened BbrPacing
  import opened BbrPacedSender

  /** The fields that only the handlers use. */
  datatype Flags = Flags(
    asked: bool,               // `_rtx_pending`
    timedOut: bool,            // `_rtx_timeout_pending`
    margin: nat,               // `_rto_margin`
    rtx: nat)                  // `_rtx_timeout`; zero is timeInf

  datatype Desk = Desk(p: Paced, f: Flags)

  /** The delay a pacer waits for, and until when. */
  datatype Wait = Wait(delay: nat, until: nat)

  /** `update_rtx_time`. */
  function Earliest(sent: seq<SentPacket>): nat {
    if sent == [] then 0
    else
      var t, e := Earliest(sent[..|sent| - 1]), sent[|sent| - 1];
      if InFlight(e) && (e.timer < t || t == 0) then e.timer else t
  }

  ghost predicate TimersRun(sent: seq<SentPacket>) {
    forall i :: 0 <= i < |sent| && InFlight(sent[i]) ==> sent[i].timer > 0
  }

  /** With positive timers: zero exactly when nothing is in flight, and otherwise the least timer in flight. */
  lemma {:induction false} EarliestIsLeast(sent: seq<SentPacket>)
    requires TimersRun(sent)
    ensures Earliest(sent) == 0 <==> forall i :: 0 <= i < |sent| ==> !InFlight(sent[i])
    ensures Earliest(sent) != 0 ==> exists i :: 0 <= i < |sent| && InFlight(sent[i]) && sent[i].timer == Earliest(sent)
    ensures forall i :: 0 <= i < |sent| && InFlight(sent[i]) ==> Earliest(sent) <= sent[i].timer
  {
    if sent != [] {
      var front, n := sent[..|sent| - 1], |sent| - 1;
      EarliestIsLeast(front);
      assert InFlight(sent[n]) ==> sent[n].timer > 0;
    }
  }

  // ---- Sending ----

  /** The window and the flow have room for a new packet. */
  predicate HasRoom(s: Sender) { Unacked(s) + s.mss <= s.cwnd && s.highestSent < s.flowSize }

  predicate MaySendNew(p: Paced) { p.token && HasRoom(p.s) }

  /** A timer is looked up when none was running. */
  function SendOneNew(d: Desk): Desk {
    var p := SentNew(d.p);
    Desk(p, d.f.(rtx := if d.f.rtx == 0 then Earliest(p.s.sent) else d.f.rtx))
  }

  /** A waiting pacer lets one packet go at most. */
  function SendNext(d: Desk): Desk { if MaySendNew(d.p) then SendOneNew(d) else d }

  function ResendAt(d: Desk, i: nat): Desk
    requires i < |d.p.s.sent|
  {
    var p := Resent(d.p, i);
    Desk(p, d.f.(margin := p.rtt / 2, rtx := Earliest(p.s.sent)))
  }

  function TryAt(d: Desk, i: nat): Desk
    requires i < |d.p.s.sent|
  {
    if MayResend(d.p) then ResendAt(d, i) else d.(f := d.f.(asked := true))
  }

  predicate OverdueAt(d: Desk, i: nat)
    requires i < |d.p.s.sent|
  {
    var e := d.p.s.sent[i];
    d.f.timedOut && !e.acked && !e.nacked && e.timer <= d.p.now + d.f.margin
  }

  function TimeAt(d: Desk, i: nat): Desk
    requires i < |d.p.s.sent|
  {
    if OverdueAt(d, i) then d.(p := TimedOut(d.p, i)) else d
  }

  function RetryAt(d: Desk, i: nat): Desk
    requires i < |d.p.s.sent|
  {
    if Waiting(d.p.s.sent[i]) then TryAt(d, i) else d
  }

  /** One turn of the scan in `retransmit_packet`. */
  function TurnAt(d: Desk, i: nat): (e: Desk)
    requires i < |d.p.s.sent|
    ensures |e.p.s.sent| == |d.p.s.sent|
  {
    RetryAt(TimeAt(d, i), i)
  }

  ghost predicate TurnTaken(ds: seq<Desk>, j: nat) {
    j + 1 < |ds| && j < |ds[j].p.s.sent| && ds[j + 1] == TurnAt(ds[j], j)
  }

  ghost predicate ScanTrace(ds: seq<Desk>, d: Desk, i: nat, e: Desk) {
    |ds| == i + 1 && ds[0] == d && ds[i] == e && forall j :: 0 <= j < i ==> TurnTaken(ds, j)
  }

  /** The first `i` turns of a scan lead from `d` to `e`. */
  ghost predicate Scans(d: Desk, i: nat, e: Desk) { exists ds :: ScanTrace(ds, d, i, e) }

  lemma ScansNone(d: Desk)
    ensures Scans(d, 0, d)
  {
    assert ScanTrace([d], d, 0, d);
  }

  lemma ScansOn(d: Desk, i: nat, e: Desk)
    requires Scans(d, i, e) && i < |e.p.s.sent|
    ensures Scans(d, i + 1, TurnAt(e, i))
  {
    var ds :| ScanTrace(ds, d, i, e);
    var es := ds + [TurnAt(e, i)];
    forall j | 0 <= j < i + 1 ensures TurnTaken(es, j) {
      if j < i { assert TurnTaken(ds, j); }
    }
    assert ScanTrace(es, d, i + 1, TurnAt(e, i));
  }

  /** The rest of a scan from entry `i`. */
  function ScanFrom(d: Desk, i: nat): Desk
    decreases |d.p.s.sent| - i
  {
    if i >= |d.p.s.sent| then d else ScanFrom(TurnAt(d, i), i + 1)
  }

  lemma {:induction false} ScansAreScan(d: Desk, i: nat, e: Desk)
    requires Scans(d, i, e)
    ensures |e.p.s.sent| == |d.p.s.sent| && ScanFrom(d, 0) == ScanFrom(e, i)
    decreases i
  {
    var ds :| ScanTrace(ds, d, i, e);
    if i > 0 {
      var front, last := ds[..i], ds[i - 1];
      assert TurnTaken(ds, i - 1);
      forall j | 0 <= j < i - 1 ensures TurnTaken(front, j) { assert TurnTaken(ds, j); }
      assert ScanTrace(front, d, i - 1, last);
      ScansAreScan(d, i - 1, last);
    }
  }

  lemma {:induction false} ScansExist(d: Desk, i: nat) returns (e: Desk)
    requires i <= |d.p.s.sent|
    ensures Scans(d, i, e)
  {
    if i == 0 {
      ScansNone(d);
      e := d;
    } else {
      var f := ScansExist(d, i - 1);
      ScansAreScan(d, i - 1, f);
      ScansOn(d, i - 1, f);
      e := TurnAt(f, i - 1);
    }
  }

  /** The whole scan. */
  ghost function ScanAll(d: Desk): Desk {
    assert exists e :: Scans(d, |d.p.s.sent|, e) by { var e := ScansExist(d, |d.p.s.sent|); }
    var e :| Scans(d, |d.p.s.sent|, e);
    e
  }

  lemma ScanAllIs(d: Desk, e: Desk)
    requires Scans(d, |d.p.s.sent|, e)
    ensures ScanAll(d) == e == ScanFrom(d, 0)
  {
    ScansAreScan(d, |d.p.s.sent|, e);
    ScansAreScan(d, |d.p.s.sent|, ScanAll(d));
  }

  lemma ScanIsFold(d: Desk)
    ensures ScanAll(d) == ScanFrom(d, 0)
  {
    ScanAllIs(d, ScanAll(d));
  }

  /** One turn keeps the flag up exactly while an entry waits. */
  lemma TurnKeepsFlag(d: Desk, i: nat)
    requires i < |d.p.s.sent| && (d.f.asked <==> !NoneWaiting(d.p.s.sent[..i]))
    ensures var e := TurnAt(d, i); e.f.asked <==> !NoneWaiting(e.p.s.sent[..i + 1])
  {
    var e, sent := TurnAt(d, i), TurnAt(d, i).p.s.sent;
    assert sent[..i] == d.p.s.sent[..i];
    forall j | 0 <= j < i ensures sent[..i + 1][j] == sent[..i][j] {}
    assert sent[..i + 1][i] == sent[i];
  }

  lemma {:induction false} ScanKeepsFlag(d: Desk, i: nat)
    requires i <= |d.p.s.sent| && (d.f.asked <==> !NoneWaiting(d.p.s.sent[..i]))
    ensures ScanFrom(d, i).f.asked <==> !NoneWaiting(ScanFrom(d, i).p.s.sent)
    decreases |d.p.s.sent| - i
  {
    if i < |d.p.s.sent| {
      TurnKeepsFlag(d, i);
      ScanKeepsFlag(TurnAt(d, i), i + 1);
    } else {
      assert d.p.s.sent[..i] == d.p.s.sent;
    }
  }

  /** After a scan the flag is up if and only if some entry still waits. */
  lemma ScanAsksExactly(d: Desk)
    ensures Scan(d).f.asked <==> exists i :: 0 <= i < |Scan(d).p.s.sent| && Waiting(Scan(d).p.s.sent[i])
  {
    var start := d.(f := d.f.(asked := false));
    assert start.p.s.sent[..0] == [];
    ScanIsFold(start);
    ScanKeepsFlag(start, 0);
  }

  /** `retransmit_packet`. */
  ghost function Scan(d: Desk): Desk {
    var r := ScanAll(d.(f := d.f.(asked := false)));
    r.(f := r.f.(timedOut := false))
  }

  /** `send_packets`. */
  ghost function SendAll(d: Desk): Desk { SendNext(if d.f.asked then Scan(d) else d) }

  lemma SendNextOnce(d: Desk)
    ensures SendNext(SendNext(d)) == SendNext(d)
  {
  }

  /** A scan that has a firing and room, and no timeout to deal with: its first resend succeeds. */
  predicate IsQuiet(start: Desk) { !start.f.timedOut && MayResend(start.p) }

  // ---- What else happens to the source ----

  function FiredAt(d: Desk, delay: nat): Desk {
    d.(p := d.p.(hist := d.p.hist + [Fired(d.p.now, delay)], token := true))
  }

  /** The pacer's event, with a delay to come. */
  ghost function PacedAt(d: Desk, delay: nat): Desk {
    var r := SendAll(FiredAt(d, delay));
    r.(p := Rested(r.p))
  }

  function RestartedAt(d: Desk): Desk { Desk(Restarted(d.p), Flags(false, false, d.p.rtt / 8, 0)) }

  function PenalizedAt(d: Desk): Desk { Desk(Penalized(d.p), d.f.(timedOut := true)) }

  predicate HookIsDue(d: Desk, period: nat) {
    d.p.s.highestSent != 0 && d.f.rtx != 0 && d.p.now + period >= d.f.rtx && !d.f.timedOut
  }

  function NackedAt(d: Desk, seqno: nat): Desk { d.(p := Nacked(d.p, seqno)) }

  /** The start of an ack, with the timer it leaves. */
  function MarkedAt(d: Desk, seqno: nat, ackno: nat): Desk {
    var p := Marked(d.p, seqno, ackno);
    var duplicate := seqno != 1 && IsDuplicateAck(d.p.s.sent, ackno);
    Desk(p, if duplicate then d.f else d.f.(rtx := Earliest(p.s.sent)))
  }

  /** A nack that finds its entry, taken to its end. */
  function NackTakenAt(d: Desk, seqno: nat): Desk {
    var e, i := NackedAt(d, seqno), IndexOf(d.p.s.sent, seqno);
    if i < |e.p.s.sent| then TryAt(e, i) else e
  }

  function SettledAt(d: Desk, ackno: nat): Desk { d.(p := Settled(d.p, ackno)) }

  predicate Finishes(p: Paced, ackno: nat) { ackno >= p.s.flowSize && p.s.sent == [] && !p.s.finished }

  function TickedAt(d: Desk, now: nat): Desk { d.(p := d.p.(now := now)) }
}

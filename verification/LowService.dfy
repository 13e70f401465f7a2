/** How long a packet in the low FIFO of a `CompositeQueue` waits for its service to start. */
module LowService {
  import opened Arith
  import opened WeightedService
  import opened CompositeQueue

  /** The packets of the low FIFO whose service has started, in order. */
  function StartedLow(q: Queue): seq<nat> {
    q.log.outLow + (if q.serv == Low && q.b.low != [] then [q.b.low[0].id] else [])
  }

  function LowCount(cs: seq<Choice>): nat {
    if cs == [] then 0 else LowCount(cs[..|cs| - 1]) + (if cs[|cs| - 1].high then 0 else 1)
  }

  lemma {:induction false} LowsAreCounted(cs: seq<Choice>, lo: nat, hi: nat)
    requires lo <= hi <= |cs|
    ensures LowCount(cs[..lo]) + Lows(cs, lo, hi) == LowCount(cs[..hi])
    decreases hi
  {
    if lo < hi {
      LowsAreCounted(cs, lo, hi - 1);
      assert cs[..hi][..hi - 1] == cs[..hi - 1];
    }
  }

  /** Each choice of LOW starts one packet. */
  ghost predicate Counted(q: Queue) {
    |StartedLow(q)| == LowCount(q.log.choices) && (q.serv == Low ==> q.b.low != [])
  }

  /** Nothing that was started or chosen is taken back. */
  ghost predicate GoesOn(q: Queue, r: Queue) {
    StartedLow(q) <= StartedLow(r) && q.log.choices <= r.log.choices && q.log.inLow <= r.log.inLow
  }

  lemma GoesOnAgain(p: Queue, q: Queue, r: Queue)
    requires GoesOn(p, q) && GoesOn(q, r)
    ensures GoesOn(p, r)
  {
  }

  lemma BeginCounts(q: Queue, setup: Setup)
    requires Counted(q) && Busy(q.b) && q.serv == Nobody
    ensures Counted(Begin(q, setup)) && GoesOn(q, Begin(q, setup))
  {
    var r := Begin(q, setup);
    assert r.log.choices[..|q.log.choices|] == q.log.choices;
  }

  lemma StartCounts(q: Queue, setup: Setup)
    requires Counted(q) && Busy(q.b)
    ensures Counted(Started(q, setup)) && GoesOn(q, Started(q, setup))
  {
    if q.serv == Nobody { BeginCounts(q, setup); }
  }

  lemma EnterLowCounts(q: Queue, p: Packet, setup: Setup)
    requires Counted(q)
    ensures Counted(EnterLow(q, p, setup)) && GoesOn(q, EnterLow(q, p, setup))
  {
    var r := q.(b := PushLow(q.b, p), log := LogLow(q.log, p.id));
    assert Counted(r) && GoesOn(q, r);
    StartCounts(r, setup);
    GoesOnAgain(q, r, Started(r, setup));
  }

  lemma EnterHighCounts(q: Queue, p: Packet, setup: Setup)
    requires Counted(q)
    ensures Counted(EnterHigh(q, p, setup)) && GoesOn(q, EnterHigh(q, p, setup))
  {
    if q.b.sizeHigh + p.size <= HighLimit(setup) {
      var r := q.(b := PushHigh(q.b, p), log := LogHigh(q.log, p.id));
      assert Counted(r) && GoesOn(q, r);
      StartCounts(r, setup);
      GoesOnAgain(q, r, Started(r, setup));
    }
  }

  lemma ArriveCounts(q: Queue, p: Packet, failedLink: bool, setup: Setup)
    requires Counted(q)
    ensures Counted(Arrive(q, p, failedLink, setup)) && GoesOn(q, Arrive(q, p, failedLink, setup))
  {
    if p.header {
      EnterHighCounts(q, p, setup);
    } else if failedLink {
      EnterHighCounts(q, Strip(p).(failed := true), setup);
    } else if q.b.sizeLow + p.size <= setup.maxSize {
      EnterLowCounts(FillOutside(q, p.size, setup), p, setup);
    } else {
      EnterHighCounts(FillOutside(q, FULL_SIZE, setup), Strip(p), setup);
    }
  }

  lemma CompleteCounts(q: Queue, setup: Setup)
    requires Counted(q) && Ready(q)
    ensures Counted(Complete(q, setup)) && GoesOn(q, Complete(q, setup))
  {
    var d := Depart(q, setup);
    assert Counted(d) && GoesOn(q, d);
    if Busy(d.b) { BeginCounts(d, setup); }
    GoesOnAgain(q, d, Restart(d, setup));
  }

  lemma StepCounts(q: Queue, op: Op, setup: Setup)
    requires Counted(q)
    ensures Counted(Step(q, op, setup)) && GoesOn(q, Step(q, op, setup))
  {
    match op
    case Receive(p, failedLink) => ArriveCounts(q, p, failedLink, setup);
    case NextEvent =>
      if q.t.now in q.t.events && !RunsPhantom(q, setup) && Ready(q) {
        var t := q.t.(events := q.t.events - multiset{q.t.now}, serviceRun := q.t.serviceRun + [q.t.now]);
        CompleteCounts(q.(t := t), setup);
      }
    case Pass(until) =>
  }

  lemma {:induction false} RunCounts(ops: seq<Op>, setup: Setup, m: nat)
    requires m <= |ops|
    ensures Counted(Run(ops, setup)) && GoesOn(Run(ops[..m], setup), Run(ops, setup))
    decreases |ops|
  {
    if m == |ops| {
      assert ops[..m] == ops;
    }
    if ops != [] {
      var front := ops[..|ops| - 1];
      if m < |ops| {
        RunCounts(front, setup, m);
        assert front[..m] == ops[..m];
      } else {
        RunCounts(front, setup, |front|);
      }
      StepCounts(Run(front, setup), ops[|ops| - 1], setup);
    }
  }

  /** Every decision between the two states was made while the low FIFO had packets. */
  ghost predicate LowBusyBetween(before: Queue, after: Queue) {
    forall i :: |before.log.choices| <= i < |after.log.choices| ==> after.log.choices[i].lowBusy
  }

  lemma ChoicesStart(before: Queue, after: Queue, k: nat, setup: Setup)
    requires Counted(before) && Counted(after) && GoesOn(before, after) && LowBusyBetween(before, after)
    requires Follows(after.log.choices, setup.ratio)
    requires |after.log.choices| - |before.log.choices| >= k * (setup.ratio.high + 1)
    ensures |StartedLow(after)| >= |StartedLow(before)| + k
  {
    var cs, lo, hi := after.log.choices, |before.log.choices|, |after.log.choices|;
    LowIsServed(cs, setup.ratio, lo, hi, k);
    LowsAreCounted(cs, lo, hi);
    assert cs[..lo] == before.log.choices && cs[..hi] == cs;
  }

  /** The k-th packet that waits in the low FIFO after `m` operations has started service once `k * (high + 1)`
      decisions were made, in any run in which the FIFO had packets at each of them. */
  lemma LowPacketsStart(ops: seq<Op>, m: nat, k: nat, setup: Setup)
    requires m <= |ops| && LowBusyBetween(Run(ops[..m], setup), Run(ops, setup))
    requires |Run(ops, setup).log.choices| - |Run(ops[..m], setup).log.choices| >= k * (setup.ratio.high + 1)
    ensures var before, after := Run(ops[..m], setup), Run(ops, setup);
            && StartedLow(before) <= StartedLow(after) <= after.log.inLow && before.log.inLow <= after.log.inLow
            && |StartedLow(after)| >= |StartedLow(before)| + k
  {
    RunCounts(ops, setup, m);
    RunCounts(ops[..m], setup, m);
    RunIsSound(ops, setup);
    ChoicesStart(Run(ops[..m], setup), Run(ops, setup), k, setup);
  }

  lemma RunIsSound(ops: seq<Op>, setup: Setup)
    ensures Follows(Run(ops, setup).log.choices, setup.ratio)
    ensures StartedLow(Run(ops, setup)) <= Run(ops, setup).log.inLow
  {
    RunKeeps(ops, setup);
    StartedIsIn(Run(ops, setup), setup);
  }

  lemma StartedIsIn(q: Queue, setup: Setup)
    requires Invariant(q, setup)
    ensures StartedLow(q) <= q.log.inLow
  {
    if q.serv == Low && q.b.low != [] { assert Ids(q.b.low)[0] == q.b.low[0].id; }
  }
}

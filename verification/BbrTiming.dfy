/**
 When the control of `BBRSrc` does what: when a sample window closes, when a full-pipe check is made and when
 checks fill the pipe, when DRAIN ends, and when PROBE_BW changes its gain. All of it for every run of acks.
 */
module BbrTiming {
  import opened Arith
  import opened BbrControl

  // ---- The sample windows ----

  function Concat(ws: seq<seq<real>>): seq<real> { if ws == [] then [] else Concat(ws[..|ws| - 1]) + ws[|ws| - 1] }

  function Bandwidths(xs: seq<Sample>): seq<real> {
    seq(|xs|, i requires 0 <= i < |xs| => xs[i].bandwidth)
  }

  /** The windows are the samples in order, cut into pieces; the k-th is closed by the first sample after k base
      round trips that finds it open. */
  lemma {:induction false} WindowsCutTheSamples(xs: seq<Sample>, baseRtt: nat)
    ensures var w := WindowsOf(xs, baseRtt);
            Concat(w.closed) + w.open == Bandwidths(xs) && w.end == |w.closed| * baseRtt
  {
    if xs != [] {
      var front, x := xs[..|xs| - 1], xs[|xs| - 1];
      var v, w := WindowsOf(front, baseRtt), WindowsOf(xs, baseRtt);
      WindowsCutTheSamples(front, baseRtt);
      assert Bandwidths(xs) == Bandwidths(front) + [x.bandwidth];
      MulSplits(|v.closed|, 1, baseRtt);
      if |w.closed| > |v.closed| { assert w.closed[..|v.closed|] == v.closed; }
      assert Concat(v.closed) + (v.open + [x.bandwidth]) == Concat(v.closed) + v.open + [x.bandwidth];
    }
  }

  lemma WindowsCloseOnTime(xs: seq<Sample>, baseRtt: nat)
    requires xs != []
    ensures var v, w, x := WindowsOf(xs[..|xs| - 1], baseRtt), WindowsOf(xs, baseRtt), xs[|xs| - 1];
            if x.now > (|v.closed| + 1) * baseRtt then w.closed == v.closed + [v.open + [x.bandwidth]] && w.open == []
            else w.closed == v.closed && w.open == v.open + [x.bandwidth]
  {
    WindowsCutTheSamples(xs[..|xs| - 1], baseRtt);
    MulSplits(|WindowsOf(xs[..|xs| - 1], baseRtt).closed|, 1, baseRtt);
  }

  // ---- When checks fill the pipe ----

  /** The last check that saw a quarter more than the last one before that did, or -1. */
  function LastRecord(bests: seq<real>): (r: int)
    ensures -1 <= r < |bests|
  {
    if bests == [] then -1
    else
      var front, b := bests[..|bests| - 1], bests[|bests| - 1];
      var r := LastRecord(front);
      if b >= (if r < 0 then 0.0 else front[r]) * 1.25 then |front| else r
  }

  /** The three checks before `n` come after the last record. */
  predicate StalledFor3(bests: seq<real>, n: nat) { n <= |bests| && n - LastRecord(bests[..n]) >= 4 }

  lemma {:induction false} ChecksFollowRecords(bests: seq<real>)
    ensures var p, r := Checks(bests), LastRecord(bests);
            if p.filled then exists n :: StalledFor3(bests, n)
            else
              && p.stale == |bests| - 1 - r && p.fullBandwidth == (if r < 0 then 0.0 else bests[r])
              && p.stale < 3 && forall n :: !StalledFor3(bests, n)
  {
    if bests == [] {
      forall n: nat ensures !StalledFor3(bests, n) { if n == 0 { assert bests[..0] == []; } }
    } else {
      var front := bests[..|bests| - 1];
      ChecksFollowRecords(front);
      assert bests[..|bests|] == bests;
      forall n: nat | n < |bests| ensures StalledFor3(bests, n) == StalledFor3(front, n) {
        assert bests[..n] == front[..n];
      }
      if Checks(front).filled {
        var n :| StalledFor3(front, n);
        assert StalledFor3(bests, n);
      } else if Checks(bests).filled {
        assert StalledFor3(bests, |bests|);
      } else {
        forall n: nat ensures !StalledFor3(bests, n) { if n < |bests| { assert !StalledFor3(front, n); } }
      }
    }
  }

  /** The pipe is full exactly if at some point three checks in a row had seen less than a quarter more than the
      last record. */
  lemma FillsExactly(bests: seq<real>)
    ensures Checks(bests).filled <==> exists n :: StalledFor3(bests, n)
  {
    ChecksFollowRecords(bests);
  }

  // ---- When a check is made ----

  /** Ack `j` makes a full-pipe check. */
  predicate CheckAt(acks: seq<AckInfo>, j: nat, setup: Setup) {
    j < |acks| && MakesCheck(RunControl(acks[..j], setup), acks[j], setup)
  }

  /** The wait for a round trip starts with the first ack, and with each ack that follows a check. */
  predicate StartsWait(acks: seq<AckInfo>, i: nat, setup: Setup) { i == 0 || CheckAt(acks, i - 1, setup) }

  /** Since ack `i` no ack before `j` has come later than a round trip. */
  predicate StillWaits(acks: seq<AckInfo>, i: nat, j: nat, setup: Setup) {
    && i < j <= |acks| && StartsWait(acks, i, setup)
    && forall k :: i < k < j ==> acks[k].sample.now <= acks[i].sample.now + setup.baseRtt
  }

  /** What `RTTPassed` keeps, and whether the pipe is full. */
  datatype Clock = Clock(passed: bool, until: nat, filled: bool)

  function ClockOf(c: Control): Clock { Clock(c.rttPassed, c.lastRtt, c.pipe.filled) }

  /** One ack, at time `now`, and whether it makes a check. */
  predicate Ticks(c: Clock, now: nat, baseRtt: nat, check: bool, d: Clock) {
    && (check ==> !c.filled) && (c.filled ==> d.filled)
    && (!c.filled ==>
          && check == d.passed == (!c.passed && now > c.until)
          && d.until == if c.passed then now + baseRtt else c.until)
  }

  lemma AckTicks(c: Control, a: AckInfo, setup: Setup)
    requires WellFormed(c)
    ensures Ticks(ClockOf(c), a.sample.now, setup.baseRtt, MakesCheck(c, a, setup), ClockOf(OnAck(c, a, setup)))
  {
    AckChecksPipe(c, a, setup);
  }

  /** The clocks and the checks of a run. */
  datatype Beat = Beat(clocks: seq<Clock>, checks: seq<bool>, nows: seq<nat>, baseRtt: nat)

  ghost predicate Ticking(b: Beat) {
    && |b.clocks| == |b.nows| + 1 && |b.checks| == |b.nows| && b.clocks[0].passed
    && forall k :: 0 <= k < |b.nows| ==> TickingAt(b, k)
  }

  ghost predicate TickingAt(b: Beat, k: nat)
    requires |b.clocks| == |b.nows| + 1 && |b.checks| == |b.nows|
  {
    k < |b.nows| && Ticks(b.clocks[k], b.nows[k], b.baseRtt, b.checks[k], b.clocks[k + 1])
  }

  ghost predicate Waits(b: Beat, i: nat, j: nat) {
    && i < j <= |b.nows| == |b.checks| && (i == 0 || b.checks[i - 1])
    && forall k :: i < k < j ==> b.nows[k] <= b.nows[i] + b.baseRtt
  }

  lemma FilledStays(b: Beat, i: nat, j: nat)
    requires Ticking(b) && i <= j <= |b.nows| && !b.clocks[j].filled
    ensures !b.clocks[i].filled
    decreases j
  {
    if i < j {
      assert TickingAt(b, j - 1);
      FilledStays(b, i, j - 1);
    }
  }

  /** The start of a wait is remembered until its end. */
  lemma {:induction false} WaitsSince(b: Beat, i: nat, j: nat)
    requires Ticking(b) && Waits(b, i, j) && !b.clocks[j].filled
    ensures !b.clocks[j].passed && b.clocks[j].until == b.nows[i] + b.baseRtt
    decreases j
  {
    FilledStays(b, j - 1, j);
    assert TickingAt(b, j - 1);
    if j - 1 > i {
      WaitsSince(b, i, j - 1);
    } else if i > 0 {
      FilledStays(b, i - 1, i);
      assert TickingAt(b, i - 1);
    }
  }

  lemma CheckEndsWait(b: Beat, i: nat, j: nat)
    requires Ticking(b) && j < |b.nows| && Waits(b, i, j) && !b.clocks[j].filled
    ensures b.checks[j] <==> b.nows[j] > b.nows[i] + b.baseRtt
  {
    WaitsSince(b, i, j);
    assert TickingAt(b, j);
  }

  lemma {:induction false} SomeWait(b: Beat, j: nat) returns (i: nat)
    requires Ticking(b) && 0 < j <= |b.nows| && !b.clocks[j].filled && !b.checks[j - 1]
    ensures Waits(b, i, j)
    decreases j
  {
    FilledStays(b, j - 1, j);
    if j == 1 || b.checks[j - 2] {
      i := j - 1;
    } else {
      i := SomeWait(b, j - 1);
      CheckEndsWait(b, i, j - 1);
    }
  }

  lemma WaitBefore(b: Beat, j: nat) returns (i: nat)
    requires Ticking(b) && j < |b.nows| && b.checks[j]
    ensures Waits(b, i, j) && b.nows[j] > b.nows[i] + b.baseRtt
  {
    assert TickingAt(b, j);
    if j > 0 {
      FilledStays(b, j - 1, j);
      assert TickingAt(b, j - 1);
    }
    i := SomeWait(b, j);
    CheckEndsWait(b, i, j);
  }

  ghost function BeatOf(acks: seq<AckInfo>, setup: Setup): Beat {
    Beat(seq(|acks| + 1, k requires 0 <= k <= |acks| => ClockOf(RunControl(acks[..k], setup))),
         seq(|acks|, k requires 0 <= k < |acks| => CheckAt(acks, k, setup)),
         seq(|acks|, k requires 0 <= k < |acks| => acks[k].sample.now), setup.baseRtt)
  }

  lemma RunTicks(acks: seq<AckInfo>, setup: Setup)
    ensures Ticking(BeatOf(acks, setup))
  {
    var b := BeatOf(acks, setup);
    assert acks[..0] == [];
    forall k | 0 <= k < |acks| ensures TickingAt(b, k) {
      assert acks[..k + 1][..k] == acks[..k];
      AckTicks(RunControl(acks[..k], setup), acks[k], setup);
    }
  }

  /** While the pipe is not full, an ack makes a check if and only if it comes more than a round trip after the
      ack that the wait started with. */
  lemma CheckMadeExactly(acks: seq<AckInfo>, i: nat, j: nat, setup: Setup)
    requires j < |acks| && StillWaits(acks, i, j, setup) && !RunControl(acks[..j], setup).pipe.filled
    ensures CheckAt(acks, j, setup) <==> acks[j].sample.now > acks[i].sample.now + setup.baseRtt
  {
    RunTicks(acks, setup);
    CheckEndsWait(BeatOf(acks, setup), i, j);
  }

  /** And every check ends such a wait: it comes more than a round trip after an ack that follows the check before
      it. */
  lemma ChecksAreSpaced(acks: seq<AckInfo>, j: nat, setup: Setup) returns (i: nat)
    requires CheckAt(acks, j, setup)
    ensures StillWaits(acks, i, j, setup) && acks[j].sample.now > acks[i].sample.now + setup.baseRtt
  {
    RunTicks(acks, setup);
    var b := BeatOf(acks, setup);
    i := WaitBefore(b, j);
    assert forall k :: 0 <= k < |acks| ==> b.nows[k] == acks[k].sample.now;
    assert i > 0 ==> b.checks[i - 1] == CheckAt(acks, i - 1, setup);
  }

  // ---- When DRAIN ends ----

  function Samples(acks: seq<AckInfo>): seq<Sample> { seq(|acks|, i requires 0 <= i < |acks| => acks[i].sample) }

  lemma {:induction false} ModelOfRun(acks: seq<AckInfo>, setup: Setup)
    ensures RunControl(acks, setup).model == RunModel(Samples(acks), setup.baseRtt)
  {
    if acks != [] {
      var front, xs := acks[..|acks| - 1], Samples(acks);
      ModelOfRun(front, setup);
      assert xs[..|xs| - 1] == Samples(front);
      AckUpdatesModel(RunControl(front, setup), acks[|acks| - 1], setup);
    }
  }

  lemma AckUpdatesModel(c: Control, a: AckInfo, setup: Setup)
    requires WellFormed(c)
    ensures OnAck(c, a, setup).model == Update(c.model, a.sample, setup.baseRtt)
  {
  }

  /** The greatest peak of the last ten sample windows that a run of acks has started. */
  ghost function BestSeen(acks: seq<AckInfo>, setup: Setup): real {
    var xs := Samples(acks);
    BestIsSlidingMaximum(xs, setup.baseRtt);
    Max(LastTen(Peaks(Started(WindowsOf(xs, setup.baseRtt)))))
  }

  /** An ack brings PROBE_BW, from STARTUP or DRAIN, if and only if the checks made so far have filled the pipe and
      the bytes in flight are at most the bandwidth-delay product at that bandwidth and one packet. */
  lemma DrainEndsExactly(acks: seq<AckInfo>, best: real, setup: Setup)
    requires acks != [] && RunControl(acks[..|acks| - 1], setup).status != ProbeBw
    requires best == BestSeen(acks, setup)
    ensures RunControl(acks, setup).status == ProbeBw <==>
              && Checks(ChecksMade(acks, setup)).filled
              && acks[|acks| - 1].unacked as real <= best * (setup.baseRtt / 1000) as real / 8.0 + setup.mss as real
  {
    var front := acks[..|acks| - 1];
    StatesFollowPipe(front, setup);
    StatesFollowPipe(acks, setup);
    BestIsInModel(acks, setup);
    AckDrains(RunControl(front, setup), acks[|acks| - 1], RunControl(acks, setup), best, setup);
  }

  lemma BestIsInModel(acks: seq<AckInfo>, setup: Setup)
    ensures BestSeen(acks, setup) == Max(RunControl(acks, setup).model.slots)
  {
    ModelOfRun(acks, setup);
    BestIsSlidingMaximum(Samples(acks), setup.baseRtt);
  }

  lemma AimOfOne(best: real, rtt: real, quanta: real)
    ensures Aim(1.0, best * rtt / 8.0, quanta, false) == best * rtt / 8.0 + quanta
  {
  }

  lemma LeavesDrain(c: Control, now: nat, unacked: nat, best: real, setup: Setup)
    requires WellFormed(c) && c.status != ProbeBw && (c.status == Startup || c.pipe.filled)
    requires best == Max(c.model.slots)
    ensures var d := LeaveStartup(c, now, unacked, setup);
            && d.model == c.model && d.pipe == c.pipe
            && (d.status == ProbeBw <==>
                  && c.pipe.filled
                  && unacked as real <= best * (setup.baseRtt / 1000) as real / 8.0 + setup.mss as real)
  {
    AimOfOne(best, (setup.baseRtt / 1000) as real, setup.mss as real);
  }

  /** The control just before `CheckDrain`. */
  lemma BeforeDrain(c: Control, a: AckInfo, setup: Setup) returns (d: Control)
    requires GainsFitState(c) && c.status != ProbeBw
    ensures WellFormed(d) && d.status == c.status && (d.status == Startup || d.pipe.filled)
    ensures d.model == Update(c.model, a.sample, setup.baseRtt)
    ensures OnAck(c, a, setup) == LeaveStartup(d, a.sample.now, a.unacked, setup)
  {
    var c1 := c.(model := Update(c.model, a.sample, setup.baseRtt));
    var c2 := CyclePhase(c1, a.sample.now, setup);
    CyclePhaseFits(c1, a.sample.now, setup);
    FullPipeFits(c2, a.sample.now, setup);
    d := FullPipe(c2, a.sample.now, setup);
  }

  lemma AckDrains(c: Control, a: AckInfo, d: Control, best: real, setup: Setup)
    requires GainsFitState(c) && c.status != ProbeBw
    requires d == OnAck(c, a, setup) && best == Max(d.model.slots)
    ensures d.status == ProbeBw <==>
              d.pipe.filled && a.unacked as real <= best * (setup.baseRtt / 1000) as real / 8.0 + setup.mss as real
  {
    var e := BeforeDrain(c, a, setup);
    LeavesDrain(e, a.sample.now, a.unacked, best, setup);
  }

  // ---- How long a phase of PROBE_BW lasts ----

  /** The time of the ack that brought PROBE_BW. */
  function EnteredAt(acks: seq<AckInfo>, setup: Setup): nat {
    if acks == [] then 0
    else if RunControl(acks[..|acks| - 1], setup).status == ProbeBw then EnteredAt(acks[..|acks| - 1], setup)
    else acks[|acks| - 1].sample.now
  }

  /** What one ack does to the phase. */
  lemma AckMovesPhase(c: Control, a: AckInfo, setup: Setup)
    requires WellFormed(c)
    ensures var d := OnAck(c, a, setup);
            if c.status == ProbeBw then
              && d.status == ProbeBw
              && GainSet(c, d) == (if a.sample.now > c.phaseEnd then [d.pacingGain] else [])
              && d.phaseEnd == c.phaseEnd + (if a.sample.now > c.phaseEnd then setup.baseRtt else 0)
            else if d.status == ProbeBw then
              GainSet(c, d) == [d.pacingGain] && d.phaseEnd == a.sample.now + setup.baseRtt
            else GainSet(c, d) == []
  {
  }

  /** `n` round trips after the time `entered`. */
  function Later(entered: nat, n: nat, baseRtt: nat): nat {
    if n == 0 then entered else Later(entered, n - 1, baseRtt) + baseRtt
  }

  lemma {:induction false} LaterIs(entered: nat, n: nat, baseRtt: nat)
    ensures Later(entered, n, baseRtt) == entered + n * baseRtt
  {
    if n > 0 {
      LaterIs(entered, n - 1, baseRtt);
      MulSplits(n - 1, 1, baseRtt);
    }
  }

  /** `n` gains were set since the time `entered`. */
  predicate InPhase(c: Control, entered: nat, n: nat, baseRtt: nat) {
    if c.status == ProbeBw then c.phaseEnd == Later(entered, n, baseRtt) else n == 0
  }

  lemma StepMovesPhase(c: Control, a: AckInfo, d: Control, entered: nat, n: nat, after: nat, m: nat, setup: Setup)
    requires WellFormed(c) && d == OnAck(c, a, setup) && InPhase(c, entered, n, setup.baseRtt)
    requires after == (if c.status == ProbeBw then entered else a.sample.now) && m == n + |GainSet(c, d)|
    ensures InPhase(d, after, m, setup.baseRtt)
  {
    AckMovesPhase(c, a, setup);
  }

  lemma {:induction false} PhaseEndIs(acks: seq<AckInfo>, setup: Setup)
    ensures InPhase(RunControl(acks, setup), EnteredAt(acks, setup), |ProbeGains(acks, setup)|, setup.baseRtt)
  {
    if acks != [] {
      var front, a := acks[..|acks| - 1], acks[|acks| - 1];
      var c, d, n := RunControl(front, setup), RunControl(acks, setup), |ProbeGains(front, setup)|;
      var entered, after := EnteredAt(front, setup), EnteredAt(acks, setup);
      assert after == if c.status == ProbeBw then entered else a.sample.now;
      PhaseEndIs(front, setup);
      StepMovesPhase(c, a, d, entered, n, after, |ProbeGains(acks, setup)|, setup);
    }
  }

  /** In PROBE_BW the n-th phase ends with the first ack that comes more than n round trips after the ack that
      brought the state. */
  lemma PhasesLastRoundTrips(acks: seq<AckInfo>, setup: Setup)
    requires acks != [] && RunControl(acks[..|acks| - 1], setup).status == ProbeBw
    ensures var front, now := acks[..|acks| - 1], acks[|acks| - 1].sample.now;
            var n := |ProbeGains(front, setup)|;
            |ProbeGains(acks, setup)| == if now > EnteredAt(front, setup) + n * setup.baseRtt then n + 1 else n
  {
    var front := acks[..|acks| - 1];
    PhaseEndIs(front, setup);
    LaterIs(EnteredAt(front, setup), |ProbeGains(front, setup)|, setup.baseRtt);
    AckMovesPhase(RunControl(front, setup), acks[|acks| - 1], setup);
  }
}

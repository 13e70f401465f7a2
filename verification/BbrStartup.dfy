/** When STARTUP ends, over endless streams of acks. */
module BbrStartup {
  import opened BbrControl

  /** The first `n` acks of a stream. */
  function Prefix(f: nat -> AckInfo, n: nat): seq<AckInfo> { seq(n, i requires 0 <= i < n => f(i)) }

  ghost predicate Passes(f: nat -> AckInfo, t: nat) { exists n: nat :: f(n).sample.now > t }

  /** Acks keep coming, later and later. */
  ghost predicate Endless(f: nat -> AckInfo) { forall t: nat :: Passes(f, t) }

  /** The control and the checks it has made, after every number of acks. */
  datatype Trace = Trace(control: nat -> Control, made: nat -> seq<real>)

  function BestAfter(c: Control, a: AckInfo, setup: Setup): real
    requires WellFormed(c)
  {
    Max(Update(c.model, a.sample, setup.baseRtt).slots)
  }

  /** What one ack does to the checks. */
  ghost predicate Steps(c: Control, made: seq<real>, a: AckInfo, d: Control, after: seq<real>, setup: Setup) {
    && WellFormed(c) && WellFormed(d)
    && d.model == Update(c.model, a.sample, setup.baseRtt)
    && (c.pipe.filled ==> d.pipe.filled)
    && if MakesCheck(c, a, setup) then after == made + [BestAfter(c, a, setup)]
       else
         && after == made && d.pipe == c.pipe
         && (!c.pipe.filled ==> !d.rttPassed && (!c.rttPassed ==> d.lastRtt == c.lastRtt))
  }

  lemma AckSteps(c: Control, made: seq<real>, a: AckInfo, setup: Setup)
    requires WellFormed(c)
    ensures Steps(c, made, a, OnAck(c, a, setup),
                  if MakesCheck(c, a, setup) then made + [BestAfter(c, a, setup)] else made, setup)
  {
    AckChecksPipe(c, a, setup);
  }

  ghost predicate StepsAt(t: Trace, f: nat -> AckInfo, n: nat, setup: Setup) {
    Steps(t.control(n), t.made(n), f(n), t.control(n + 1), t.made(n + 1), setup)
  }

  /** A run over the whole stream. */
  ghost predicate IsTrace(t: Trace, f: nat -> AckInfo, setup: Setup) {
    && t.control(0) == InitControl() && t.made(0) == []
    && forall n: nat :: StepsAt(t, f, n, setup)
  }

  ghost function TraceOf(f: nat -> AckInfo, setup: Setup): Trace {
    Trace((n: nat) => RunControl(Prefix(f, n), setup), (n: nat) => ChecksMade(Prefix(f, n), setup))
  }

  lemma TraceIsTrace(f: nat -> AckInfo, setup: Setup)
    ensures IsTrace(TraceOf(f, setup), f, setup)
  {
    var t := TraceOf(f, setup);
    assert Prefix(f, 0) == [];
    forall n: nat ensures StepsAt(t, f, n, setup) {
      assert Prefix(f, n + 1)[..n] == Prefix(f, n);
      AckSteps(RunControl(Prefix(f, n), setup), ChecksMade(Prefix(f, n), setup), f(n), setup);
    }
  }

  lemma {:induction false} ChecksGrow(t: Trace, f: nat -> AckInfo, m: nat, n: nat, setup: Setup)
    requires IsTrace(t, f, setup) && m <= n
    ensures t.made(m) <= t.made(n)
    ensures t.control(m).pipe.filled ==> t.control(n).pipe.filled
    decreases n
  {
    if m < n {
      ChecksGrow(t, f, m, n - 1, setup);
      assert StepsAt(t, f, n - 1, setup);
    }
  }

  /** Some ack at or after `m` comes later than `t`. */
  lemma {:induction false} PassesLate(f: nat -> AckInfo, m: nat, t: nat) returns (n: nat)
    requires Endless(f)
    ensures n >= m && f(n).sample.now > t
    decreases m
  {
    if m == 0 {
      assert Passes(f, t);
      n :| f(n).sample.now > t;
    } else {
      var last := f(m - 1).sample.now;
      n := PassesLate(f, m - 1, if last > t then last else t);
    }
  }

  /** While the pipe is not full, a next check comes. */
  lemma NextCheck(t: Trace, f: nat -> AckInfo, m: nat, setup: Setup) returns (n: nat)
    requires Endless(f) && IsTrace(t, f, setup) && !t.control(m).pipe.filled
    ensures n >= m && MakesCheck(t.control(n), f(n), setup)
  {
    n := m;
    assert StepsAt(t, f, n, setup);
    if !MakesCheck(t.control(n), f(n), setup) {
      n := n + 1;
      var end := PassesLate(f, n, t.control(n).lastRtt);
      while !MakesCheck(t.control(n), f(n), setup)
        invariant m <= n <= end && !t.control(n).pipe.filled && !t.control(n).rttPassed
        invariant f(end).sample.now > t.control(n).lastRtt
        decreases end - n
      {
        assert StepsAt(t, f, n, setup);
        n := n + 1;
      }
    }
  }

  /** Any number of checks is made, unless the pipe fills first. */
  lemma {:induction false} ManyChecks(t: Trace, f: nat -> AckInfo, k: nat, setup: Setup) returns (n: nat)
    requires Endless(f) && IsTrace(t, f, setup)
    ensures t.control(n).pipe.filled || |t.made(n)| >= k
  {
    n := 0;
    if k > 0 {
      n := ManyChecks(t, f, k - 1, setup);
      if !t.control(n).pipe.filled {
        var m := NextCheck(t, f, n, setup);
        ChecksGrow(t, f, n, m, setup);
        assert StepsAt(t, f, m, setup);
        n := m + 1;
      }
    }
  }

  ghost predicate Below(m: Model, bound: real) {
    (forall i :: 0 <= i < |m.slots| ==> m.slots[i] <= bound) && (forall i :: 0 <= i < |m.open| ==> m.open[i] <= bound)
  }

  lemma UpdateStaysBelow(m: Model, x: Sample, bound: real, baseRtt: nat)
    requires m.index < |m.slots| && Below(m, bound) && x.bandwidth <= bound
    ensures Below(Update(m, x, baseRtt), bound)
  {
    var open := m.open + [x.bandwidth];
    assert Peak(open) in open;
  }

  lemma {:induction false} BestsAreBounded(t: Trace, f: nat -> AckInfo, n: nat, bound: real, setup: Setup)
    requires IsTrace(t, f, setup) && bound >= 0.0 && forall i :: f(i).sample.bandwidth <= bound
    ensures Below(t.control(n).model, bound)
    ensures forall i :: 0 <= i < |t.made(n)| ==> 0.0 <= t.made(n)[i] <= bound
  {
    if n > 0 {
      BestsAreBounded(t, f, n - 1, bound, setup);
      assert StepsAt(t, f, n - 1, setup);
      UpdateStaysBelow(t.control(n - 1).model, f(n - 1).sample, bound, setup.baseRtt);
    }
  }

  /** `first` with a quarter of itself added `k` times. */
  function Line(first: real, k: nat): real { first + (k as real) * (first / 4.0) }

  /** Bernoulli's inequality for a quarter. */
  lemma {:induction false} GrownBeatsLine(first: real, k: nat)
    requires first > 0.0
    ensures Grown(first, k) >= Line(first, k) >= first
  {
    if k > 0 {
      GrownBeatsLine(first, k - 1);
      assert (k - 1) as real == k as real - 1.0;
      assert (k as real) * (first / 4.0) == ((k - 1) as real) * (first / 4.0) + first / 4.0;
      assert ((k - 1) as real) * (first / 4.0) >= 0.0;
    }
  }

  lemma TimesQuarter(x: real, y: real, quarter: real)
    requires x < y && quarter > 0.0
    ensures x * quarter < y * quarter
  {
    assert (y - x) * quarter > 0.0;
  }

  /** Growth by a quarter of something positive passes every bound. */
  lemma GrownPasses(first: real, bound: real) returns (k: nat)
    requires first > 0.0 && bound >= 0.0
    ensures Grown(first, k) > bound
  {
    var quarter := first / 4.0;
    var x := bound / quarter;
    assert x >= 0.0 && x * quarter == bound;
    k := x.Floor + 1;
    assert k as real > x;
    TimesQuarter(x, k as real, quarter);
    GrownBeatsLine(first, k);
    var grown := (k as real) * quarter;
    assert grown > bound;
    assert Line(first, k) == first + grown;
    assert Line(first, k) > bound;
  }

  /** Some full-pipe check among the first `n` acks sees bandwidth. */
  ghost predicate SeesBandwidth(f: nat -> AckInfo, n: nat, setup: Setup) {
    var made := ChecksMade(Prefix(f, n), setup);
    exists i :: 0 <= i < |made| && made[i] > 0.0
  }

  ghost predicate LeavesStartup(f: nat -> AckInfo, n: nat, setup: Setup) {
    RunControl(Prefix(f, n), setup).status != Startup
  }

  lemma LeavingNeedsBandwidth(f: nat -> AckInfo, n: nat, setup: Setup)
    requires LeavesStartup(f, n, setup)
    ensures SeesBandwidth(f, n, setup)
  {
    var made := ChecksMade(Prefix(f, n), setup);
    StatesFollowPipe(Prefix(f, n), setup);
    ChecksAreNonNegative(Prefix(f, n), setup);
    if !SeesBandwidth(f, n, setup) {
      assert forall i :: 0 <= i < |made| ==> made[i] == 0.0;
      SilenceNeverFillsPipe(made);
    }
  }

  /** Where a history first sees bandwidth, or its length. */
  function FirstSeen(bests: seq<real>): (z: nat)
    ensures z <= |bests| && (forall i :: 0 <= i < z ==> bests[i] <= 0.0) && (z < |bests| ==> bests[z] > 0.0)
  {
    if bests == [] || bests[0] > 0.0 then 0 else 1 + FirstSeen(bests[1..])
  }

  lemma EnoughGrowth(first: real, k: nat, n: nat, bound: real)
    requires first > 0.0 && Grown(first, k) > bound && n >= 3 * k + 1
    ensures Grown(first, CeilThird(n) - 1) > bound
  {
    GrownIsMonotone(first, k, CeilThird(n) - 1);
  }

  /** Checks that go on after bandwidth was first seen, at `z`, fill the pipe. */
  lemma LaterChecksFill(early: seq<real>, z: nat, bests: seq<real>, k: nat, bound: real)
    requires early <= bests && z < |early| && (forall i :: 0 <= i < z ==> early[i] <= 0.0) && early[z] > 0.0
    requires forall i :: 0 <= i < |bests| ==> 0.0 <= bests[i] <= bound
    requires Grown(early[z], k) > bound && |bests| >= z + 3 * k + 1
    ensures Checks(bests).filled
  {
    assert forall i :: 0 <= i <= z ==> bests[i] == early[i];
    EnoughGrowth(bests[z], k, |bests| - z, bound);
    BoundedBandwidthFillsPipe(bests, z, bound);
  }

  lemma BandwidthEndsStartup(f: nat -> AckInfo, n: nat, bound: real, setup: Setup) returns (end: nat)
    requires Endless(f) && bound >= 0.0 && forall i :: f(i).sample.bandwidth <= bound
    requires SeesBandwidth(f, n, setup)
    ensures LeavesStartup(f, end, setup)
  {
    var t := TraceOf(f, setup);
    TraceIsTrace(f, setup);
    var early := ChecksMade(Prefix(f, n), setup);
    assert t.made(n) == early;
    var z := FirstSeen(early);
    var k := GrownPasses(early[z], bound);
    end := EnoughChecks(t, f, n, z + 3 * k + 1, setup);
    BestsAreBounded(t, f, end, bound, setup);
    StatesFollowPipe(Prefix(f, end), setup);
    if !t.control(end).pipe.filled { LaterChecksFill(early, z, t.made(end), k, bound); }
  }

  lemma EnoughChecks(t: Trace, f: nat -> AckInfo, n: nat, k: nat, setup: Setup) returns (end: nat)
    requires Endless(f) && IsTrace(t, f, setup)
    ensures t.made(n) <= t.made(end) && (t.control(end).pipe.filled || |t.made(end)| >= k)
  {
    var late := ManyChecks(t, f, k, setup);
    end := if late > n then late else n;
    ChecksGrow(t, f, n, end, setup);
    ChecksGrow(t, f, late, end, setup);
  }

  /** STARTUP ends, in an endless stream of acks with bounded bandwidth, if and only if some full-pipe check
      sees bandwidth at all. */
  lemma StartupEndsExactly(f: nat -> AckInfo, bound: real, setup: Setup)
    requires Endless(f) && bound >= 0.0 && forall i :: f(i).sample.bandwidth <= bound
    ensures (exists n :: LeavesStartup(f, n, setup)) <==> (exists n :: SeesBandwidth(f, n, setup))
  {
    if n :| LeavesStartup(f, n, setup) {
      LeavingNeedsBandwidth(f, n, setup);
    }
    if n :| SeesBandwidth(f, n, setup) {
      var end := BandwidthEndsStartup(f, n, bound, setup);
    }
  }
}

/**
 The bandwidth model and the state machine of `BBRSrc`: the filter over ten sample windows, STARTUP, DRAIN
 and PROBE_BW. Floating point is modelled by reals, and clock readings are parameters.
 */
module BbrControl {

  const SLOTS: nat := 10
  const PHASES: nat := 8

  /** `PACING_GAIN_CYCLE`: probe, drain, then six phases of cruising. */
  function CycleGain(i: nat): real
    requires i < PHASES
  {
    if i == 0 then 1.25 else if i == 1 then 0.75 else 1.0
  }

  // ---- Maxima ----

  /** The largest element, or 0 if all are smaller. */
  function Max(s: seq<real>): (m: real)
    ensures m >= 0.0 && forall i :: 0 <= i < |s| ==> s[i] <= m
    ensures m == 0.0 || exists i :: 0 <= i < |s| && s[i] == m
  {
    if s == [] then 0.0
    else
      var m, last := Max(s[..|s| - 1]), s[|s| - 1];
      if last > m then last else m
  }

  /** `max_element`. */
  function Peak(s: seq<real>): (m: real)
    requires s != []
    ensures m in s && forall i :: 0 <= i < |s| ==> s[i] <= m
  {
    if |s| == 1 then s[0]
    else
      var m, last := Peak(s[..|s| - 1]), s[|s| - 1];
      if last > m then last else m
  }

  // ---- The bandwidth filter ----

  datatype Model = Model(slots: seq<real>, open: seq<real>, index: nat, windowEnd: nat)

  datatype Sample = Sample(bandwidth: real, now: nat)

  function InitModel(): Model { Model(seq(SLOTS, _ => 0.0), [], 0, 0) }

  /** `update_bw_model` without its effect on the pacer. */
  function Update(m: Model, x: Sample, baseRtt: nat): Model
    requires m.index < |m.slots|
  {
    var open := m.open + [x.bandwidth];
    var slots := m.slots[m.index := Peak(open)];
    if x.now > m.windowEnd + baseRtt then Model(slots, [], (m.index + 1) % 10, m.windowEnd + baseRtt)
    else Model(slots, open, m.index, m.windowEnd)
  }

  /** The sample windows of a history: all the closed ones, oldest first, then the open one. */
  datatype Windows = Windows(closed: seq<seq<real>>, open: seq<real>, end: nat)

  function Extend(w: Windows, x: Sample, baseRtt: nat): Windows {
    if x.now > w.end + baseRtt then Windows(w.closed + [w.open + [x.bandwidth]], [], w.end + baseRtt)
    else w.(open := w.open + [x.bandwidth])
  }

  function WindowsOf(xs: seq<Sample>, baseRtt: nat): Windows {
    if xs == [] then Windows([], [], 0) else Extend(WindowsOf(xs[..|xs| - 1], baseRtt), xs[|xs| - 1], baseRtt)
  }

  /** The open window counts once it has a sample. */
  function Started(w: Windows): seq<seq<real>> {
    if w.open == [] then w.closed else w.closed + [w.open]
  }

  predicate NoneEmpty(ws: seq<seq<real>>) { forall i :: 0 <= i < |ws| ==> ws[i] != [] }

  function Peaks(ws: seq<seq<real>>): seq<real>
    requires NoneEmpty(ws)
  {
    seq(|ws|, i requires 0 <= i < |ws| => Peak(ws[i]))
  }

  function LastTen<T>(s: seq<T>): seq<T> { if |s| <= SLOTS then s else s[|s| - SLOTS..] }

  function RunModel(xs: seq<Sample>, baseRtt: nat): (m: Model)
    ensures |m.slots| == SLOTS && m.index < SLOTS
  {
    if xs == [] then InitModel() else Update(RunModel(xs[..|xs| - 1], baseRtt), xs[|xs| - 1], baseRtt)
  }

  /** Slot `i % 10` holds the peak of window `i`, for the last ten windows; a slot never used holds 0. */
  ghost predicate Mirrors(m: Model, w: Windows) {
    var ws := Started(w);
    && |m.slots| == SLOTS
    && m.open == w.open && m.windowEnd == w.end && m.index == |w.closed| % 10
    && NoneEmpty(ws)
    && SlotsMirror(m.slots, ws)
  }

  ghost predicate SlotsMirror(slots: seq<real>, ws: seq<seq<real>>)
    requires |slots| == SLOTS && NoneEmpty(ws)
  {
    && (forall i :: 0 <= i < |ws| && |ws| - SLOTS <= i ==> slots[i % 10] == Peak(ws[i]))
    && forall k :: |ws| <= k < SLOTS ==> slots[k] == 0.0
  }

  lemma SlotsDiffer(i: nat, n: nat)
    requires i < n < i + SLOTS
    ensures i % 10 != n % 10
  {
  }

  /** A sample changes the last started window, or starts one; the earlier ones stay. */
  lemma ExtendKeepsEarlier(w: Windows, x: Sample, baseRtt: nat)
    requires NoneEmpty(Started(w))
    ensures var before, after := Started(w), Started(Extend(w, x, baseRtt));
            && |after| == |w.closed| + 1 && after[|w.closed|] == w.open + [x.bandwidth]
            && (forall i :: 0 <= i < |w.closed| ==> after[i] == before[i])
            && NoneEmpty(after)
  {
    var before, after := Started(w), Started(Extend(w, x, baseRtt));
    assert after == w.closed + [w.open + [x.bandwidth]];
    forall i | 0 <= i < |w.closed| ensures after[i] == before[i] != [] {}
  }

  lemma WriteMirrors(slots: seq<real>, before: seq<seq<real>>, after: seq<seq<real>>, n: nat)
    requires |slots| == SLOTS && NoneEmpty(before) && NoneEmpty(after)
    requires n <= |before| <= |after| == n + 1 && forall i :: 0 <= i < n ==> after[i] == before[i]
    requires SlotsMirror(slots, before)
    ensures SlotsMirror(slots[n % 10 := Peak(after[n])], after)
  {
    forall i | 0 <= i < |after| && |after| - SLOTS <= i
      ensures slots[n % 10 := Peak(after[n])][i % 10] == Peak(after[i])
    {
      if i < n { SlotsDiffer(i, n); }
    }
  }

  lemma UpdateMirrors(m: Model, w: Windows, x: Sample, baseRtt: nat)
    requires Mirrors(m, w)
    ensures Mirrors(Update(m, x, baseRtt), Extend(w, x, baseRtt))
  {
    ExtendKeepsEarlier(w, x, baseRtt);
    WriteMirrors(m.slots, Started(w), Started(Extend(w, x, baseRtt)), |w.closed|);
  }

  lemma {:induction false} ModelMirrorsWindows(xs: seq<Sample>, baseRtt: nat)
    ensures Mirrors(RunModel(xs, baseRtt), WindowsOf(xs, baseRtt))
  {
    if xs != [] {
      var front, x := xs[..|xs| - 1], xs[|xs| - 1];
      ModelMirrorsWindows(front, baseRtt);
      UpdateMirrors(RunModel(front, baseRtt), WindowsOf(front, baseRtt), x, baseRtt);
    }
  }

  /** The ten slots refine a sliding window: for every history of samples, the best bandwidth is the
      greatest peak of the last ten sample windows. */
  lemma BestIsSlidingMaximum(xs: seq<Sample>, baseRtt: nat)
    ensures NoneEmpty(Started(WindowsOf(xs, baseRtt)))
    ensures Max(RunModel(xs, baseRtt).slots) == Max(LastTen(Peaks(Started(WindowsOf(xs, baseRtt)))))
  {
    ModelMirrorsWindows(xs, baseRtt);
    SlotsBoundPeaks(RunModel(xs, baseRtt).slots, Started(WindowsOf(xs, baseRtt)));
    PeaksBoundSlots(RunModel(xs, baseRtt).slots, Started(WindowsOf(xs, baseRtt)));
  }

  /** The peaks the slots should hold. */
  ghost function RecentPeaks(ws: seq<seq<real>>): seq<real>
    requires NoneEmpty(ws)
  {
    LastTen(Peaks(ws))
  }

  lemma RecentPeak(ws: seq<seq<real>>, i: nat)
    requires NoneEmpty(ws) && i < |ws| && |ws| - SLOTS <= i
    ensures var skipped := if |ws| <= SLOTS then 0 else |ws| - SLOTS;
            |RecentPeaks(ws)| == |ws| - skipped && RecentPeaks(ws)[i - skipped] == Peak(ws[i])
  {
  }

  lemma SlotsBoundPeaks(slots: seq<real>, ws: seq<seq<real>>)
    requires |slots| == SLOTS && NoneEmpty(ws) && SlotsMirror(slots, ws)
    ensures Max(RecentPeaks(ws)) <= Max(slots)
  {
    var peaks, skipped := RecentPeaks(ws), if |ws| <= SLOTS then 0 else |ws| - SLOTS;
    forall j | 0 <= j < |peaks| ensures peaks[j] <= Max(slots) {
      RecentPeak(ws, j + skipped);
      assert slots[(j + skipped) % 10] <= Max(slots);
    }
  }

  lemma PeaksBoundSlots(slots: seq<real>, ws: seq<seq<real>>)
    requires |slots| == SLOTS && NoneEmpty(ws) && SlotsMirror(slots, ws)
    ensures Max(slots) <= Max(RecentPeaks(ws))
  {
    forall k | 0 <= k < SLOTS ensures slots[k] <= Max(RecentPeaks(ws)) {
      if k < |ws| {
        var i := LastCongruent(|ws|, k);
        RecentPeak(ws, i);
      }
    }
  }

  /** The last number below `n` that ends in slot `k`. */
  lemma LastCongruent(n: nat, k: nat) returns (i: nat)
    requires k < SLOTS && k < n
    ensures i < n && n - SLOTS <= i && i % 10 == k
  {
    i := k;
    while i + SLOTS < n
      invariant i < n && i % 10 == k
    {
      i := i + SLOTS;
    }
  }

  // ---- STARTUP ----

  datatype Pipe = Pipe(fullBandwidth: real, stale: nat, filled: bool)

  function InitPipe(): Pipe { Pipe(0.0, 0, false) }

  /** One check of the full pipe, given the best bandwidth. */
  function Check(p: Pipe, best: real): Pipe {
    if best >= p.fullBandwidth * 1.25 then p.(fullBandwidth := best, stale := 0)
    else p.(stale := p.stale + 1, filled := p.filled || p.stale + 1 >= 3)
  }

  /** The checks stop when the pipe is full. */
  function Checks(bests: seq<real>): Pipe {
    if bests == [] then InitPipe()
    else
      var p := Checks(bests[..|bests| - 1]);
      if p.filled then p else Check(p, bests[|bests| - 1])
  }

  /** `first` grown by a quarter `k` times. */
  function Grown(first: real, k: nat): real { if k == 0 then first else 1.25 * Grown(first, k - 1) }

  function CeilThird(n: nat): nat { (n + 2) / 3 }

  lemma {:induction false} GrownIsMonotone(first: real, j: nat, k: nat)
    requires first > 0.0 && j <= k
    ensures first <= Grown(first, j) <= Grown(first, k)
    decreases k
  {
    if j < k {
      GrownIsMonotone(first, j, k - 1);
    } else if k > 0 {
      GrownIsMonotone(first, j - 1, k - 1);
    }
  }

  /** `growths` of the checks found growth. */
  lemma {:induction false} UnfilledGrows(bests: seq<real>) returns (growths: nat)
    requires bests != [] && bests[0] > 0.0 && !Checks(bests).filled
    ensures growths >= 1 && Checks(bests).stale <= 2
    ensures |bests| <= 3 * (growths - 1) + 1 + Checks(bests).stale
    ensures Checks(bests).fullBandwidth >= Grown(bests[0], growths - 1)
  {
    var front := bests[..|bests| - 1];
    if |bests| == 1 {
      growths := 1;
      assert Checks(front) == InitPipe();
      assert Checks(bests) == Check(InitPipe(), bests[0]);
    } else {
      assert front[0] == bests[0];
      growths := UnfilledGrows(front);
      if Checks(bests).stale == 0 {
        growths := growths + 1;
      }
    }
  }

  /** While the pipe is not full, the bandwidth has grown by a quarter at least every third check. */
  lemma StartupIsGeometric(bests: seq<real>)
    requires bests != [] && bests[0] > 0.0 && !Checks(bests).filled
    ensures Checks(bests).fullBandwidth >= Grown(bests[0], CeilThird(|bests|) - 1)
  {
    var growths := UnfilledGrows(bests);
    GrownIsMonotone(bests[0], CeilThird(|bests|) - 1, growths - 1);
  }

  lemma {:induction false} FullBandwidthIsSeen(bests: seq<real>, bound: real)
    requires bound >= 0.0 && forall i :: 0 <= i < |bests| ==> bests[i] <= bound
    ensures Checks(bests).fullBandwidth <= bound
  {
    if bests != [] {
      FullBandwidthIsSeen(bests[..|bests| - 1], bound);
    }
  }

  /** Checks that see no bandwidth leave the pipe as it was at first. */
  lemma {:induction false} ZerosDoNotCount(zeros: seq<real>, rest: seq<real>)
    requires forall i :: 0 <= i < |zeros| ==> zeros[i] == 0.0
    ensures Checks(zeros + rest) == Checks(rest)
    decreases |rest|
  {
    if rest == [] {
      assert zeros + rest == zeros;
      SilenceNeverFillsPipe(zeros);
    } else {
      var n := |rest| - 1;
      ZerosDoNotCount(zeros, rest[..n]);
      assert (zeros + rest)[..|zeros + rest| - 1] == zeros + rest[..n];
    }
  }

  /** Bandwidth that is first seen at check `z` and stays below a bound fills the pipe a bounded number of checks
      later; bandwidth that is never seen leaves it as it was. */
  lemma BoundedBandwidthFillsPipe(bests: seq<real>, z: nat, bound: real)
    requires z <= |bests| && (forall i :: 0 <= i < z ==> bests[i] == 0.0) && (z < |bests| ==> bests[z] > 0.0)
    requires forall i :: z <= i < |bests| ==> bests[i] <= bound
    ensures z == |bests| ==> Checks(bests) == InitPipe()
    ensures z < |bests| && Grown(bests[z], CeilThird(|bests| - z) - 1) > bound ==> Checks(bests).filled
  {
    if z == |bests| {
      SilenceNeverFillsPipe(bests);
    } else if Grown(bests[z], CeilThird(|bests| - z) - 1) > bound {
      var zeros, rest := bests[..z], bests[z..];
      GrowthFillsPipe(rest, bound);
      ZerosDoNotCount(zeros, rest);
      assert zeros + rest == bests;
    }
  }

  lemma GrowthFillsPipe(bests: seq<real>, bound: real)
    requires bests != [] && bests[0] > 0.0 && forall i :: 0 <= i < |bests| ==> bests[i] <= bound
    requires Grown(bests[0], CeilThird(|bests|) - 1) > bound
    ensures Checks(bests).filled
  {
    assert bound >= bests[0];
    FullBandwidthIsSeen(bests, bound);
    if !Checks(bests).filled {
      StartupIsGeometric(bests);
    }
  }

  /** Filling the pipe takes at least four checks, the first of which always finds growth. */
  lemma {:induction false} FillingTakesFourChecks(bests: seq<real>)
    requires forall i :: 0 <= i < |bests| ==> bests[i] >= 0.0
    ensures bests != [] ==> Checks(bests).stale < |bests|
    ensures Checks(bests).filled <==> Checks(bests).stale >= 3
    ensures Checks(bests).filled ==> |bests| >= 4
  {
    if bests != [] {
      FillingTakesFourChecks(bests[..|bests| - 1]);
    }
  }

  /** With no bandwidth at all the pipe never fills: zero always counts as growth over zero. */
  lemma {:induction false} SilenceNeverFillsPipe(bests: seq<real>)
    requires forall i :: 0 <= i < |bests| ==> bests[i] == 0.0
    ensures Checks(bests) == InitPipe()
  {
    if bests != [] {
      SilenceNeverFillsPipe(bests[..|bests| - 1]);
    }
  }

  // ---- The state machine ----

  datatype Status = Startup | Drain | ProbeBw

  /** Fixed for a flow: the base round trip in picoseconds, and the packet size. */
  datatype Setup = Setup(baseRtt: nat, mss: nat)

  datatype Control = Control(
    model: Model,
    pipe: Pipe,
    rttPassed: bool,
    lastRtt: nat,
    status: Status,
    pacingGain: real,
    cwndGain: real,
    cycleIndex: nat,
    phaseEnd: nat)

  function InitControl(): Control {
    Control(InitModel(), InitPipe(), true, 0, Startup, 2.89, 2.89, 4, 0)
  }

  ghost predicate WellFormed(c: Control) {
    |c.model.slots| == SLOTS && c.model.index < SLOTS && c.cycleIndex < PHASES
  }

  /** The bytes in flight that a gain aims at. */
  function Aim(gain: real, bdp: real, quanta: real, more: bool): real {
    if more then gain * bdp + quanta + 2.0 * quanta else gain * bdp + quanta
  }

  /** `InFlight`, before its truncation to an integer. */
  function InFlight(c: Control, gain: real, setup: Setup): real {
    var quanta := setup.mss as real;
    var estimatedBdp := Max(c.model.slots) * (setup.baseRtt / 1000) as real / 8.0;
    Aim(gain, estimatedBdp, quanta, c.status == ProbeBw && c.cycleIndex == 0)
  }

  /** `CheckCyclePhase`, with `IsNextCyclePhase`. */
  function CyclePhase(c: Control, now: nat, setup: Setup): (d: Control)
    requires WellFormed(c)
    ensures WellFormed(d)
  {
    if c.status == ProbeBw && now > c.phaseEnd then
      c.(phaseEnd := c.phaseEnd + setup.baseRtt,
         pacingGain := CycleGain(c.cycleIndex),
         cycleIndex := (c.cycleIndex + 1) % 8)
    else c
  }

  /** `RTTPassed`. */
  function PassRtt(c: Control, now: nat, setup: Setup): Control {
    if c.rttPassed then c.(lastRtt := now + setup.baseRtt, rttPassed := false)
    else if now > c.lastRtt then c.(rttPassed := true)
    else c
  }

  /** `CheckFullPipe`. */
  function FullPipe(c: Control, now: nat, setup: Setup): (d: Control)
    requires WellFormed(c)
    ensures WellFormed(d)
  {
    if c.pipe.filled then c
    else
      var d := PassRtt(c, now, setup);
      if d.rttPassed then d.(pipe := Check(d.pipe, Max(d.model.slots))) else d
  }

  /** `CheckDrain`. */
  function LeaveStartup(c: Control, now: nat, unacked: nat, setup: Setup): (d: Control)
    requires WellFormed(c)
    ensures WellFormed(d)
  {
    var d := if c.status == Startup && c.pipe.filled
             then c.(status := Drain, pacingGain := 0.35, cwndGain := 2.89) else c;
    if d.status == Drain && unacked as real <= InFlight(d, 1.0, setup) then
      d.(status := ProbeBw, pacingGain := CycleGain(0), cycleIndex := 1, cwndGain := 2.0,
         phaseEnd := now + setup.baseRtt)
    else d
  }

  /** An ack, as the control sees it: the sample, and the bytes in flight. */
  datatype AckInfo = AckInfo(sample: Sample, unacked: nat)

  function OnAck(c: Control, a: AckInfo, setup: Setup): (d: Control)
    requires WellFormed(c)
    ensures WellFormed(d)
  {
    var c1 := c.(model := Update(c.model, a.sample, setup.baseRtt));
    var c2 := CyclePhase(c1, a.sample.now, setup);
    var c3 := FullPipe(c2, a.sample.now, setup);
    LeaveStartup(c3, a.sample.now, a.unacked, setup)
  }

  function RunControl(acks: seq<AckInfo>, setup: Setup): (c: Control)
    ensures WellFormed(c)
  {
    if acks == [] then InitControl()
    else OnAck(RunControl(acks[..|acks| - 1], setup), acks[|acks| - 1], setup)
  }

  /** The best bandwidths at the full-pipe checks a run makes. */
  function ChecksMade(acks: seq<AckInfo>, setup: Setup): seq<real> {
    if acks == [] then []
    else
      var before, a := RunControl(acks[..|acks| - 1], setup), acks[|acks| - 1];
      var made := ChecksMade(acks[..|acks| - 1], setup);
      if MakesCheck(before, a, setup)
      then made + [Max(Update(before.model, a.sample, setup.baseRtt).slots)]
      else made
  }

  function Rank(s: Status): nat {
    match s
    case Startup => 0
    case Drain => 1
    case ProbeBw => 2
  }

  /** What each state says about the gains and the pipe. */
  ghost predicate GainsFitState(c: Control) {
    && WellFormed(c)
    && match c.status
       case Startup => c.pacingGain == 2.89 && c.cwndGain == 2.89
       case Drain => c.pipe.filled && c.pacingGain == 0.35 && c.cwndGain == 2.89
       case ProbeBw =>
         && c.pipe.filled && c.cwndGain == 2.0
         && c.pacingGain == CycleGain((c.cycleIndex + 7) % 8)
  }

  lemma CyclePhaseFits(c: Control, now: nat, setup: Setup)
    requires GainsFitState(c)
    ensures GainsFitState(CyclePhase(c, now, setup))
  {
  }

  lemma FullPipeFits(c: Control, now: nat, setup: Setup)
    requires GainsFitState(c)
    ensures GainsFitState(FullPipe(c, now, setup)) && FullPipe(c, now, setup).status == c.status
  {
  }

  lemma LeaveStartupFits(c: Control, now: nat, unacked: nat, setup: Setup)
    requires GainsFitState(c)
    ensures var d := LeaveStartup(c, now, unacked, setup);
            GainsFitState(d) && Rank(c.status) <= Rank(d.status) && (d.status == Startup <==> !d.pipe.filled)
  {
  }

  /** The states only move forward, and STARTUP ends in the very ack that fills the pipe. */
  lemma AckAdvancesState(c: Control, a: AckInfo, setup: Setup)
    requires GainsFitState(c)
    ensures var d := OnAck(c, a, setup);
            GainsFitState(d) && Rank(c.status) <= Rank(d.status) && (d.status == Startup <==> !d.pipe.filled)
  {
    var c1 := c.(model := Update(c.model, a.sample, setup.baseRtt));
    var c2 := CyclePhase(c1, a.sample.now, setup);
    var c3 := FullPipe(c2, a.sample.now, setup);
    CyclePhaseFits(c1, a.sample.now, setup);
    FullPipeFits(c2, a.sample.now, setup);
    LeaveStartupFits(c3, a.sample.now, a.unacked, setup);
  }

  /** Whether an ack makes a full-pipe check. */
  predicate MakesCheck(c: Control, a: AckInfo, setup: Setup) {
    !c.pipe.filled && PassRtt(c, a.sample.now, setup).rttPassed
  }

  lemma AckChecksPipe(c: Control, a: AckInfo, setup: Setup)
    requires WellFormed(c)
    ensures OnAck(c, a, setup).pipe ==
            if MakesCheck(c, a, setup) then Check(c.pipe, Max(Update(c.model, a.sample, setup.baseRtt).slots))
            else c.pipe
  {
    var c1 := c.(model := Update(c.model, a.sample, setup.baseRtt));
    var c2 := CyclePhase(c1, a.sample.now, setup);
    assert c2.model == c1.model && c2.pipe == c.pipe;
    assert FullPipe(c2, a.sample.now, setup).pipe == OnAck(c, a, setup).pipe;
  }

  /** In every run of acks: leaving STARTUP is the same as having filled the pipe, the pipe's state is that
      of the checks made, and each state has its gains. */
  lemma {:induction false} StatesFollowPipe(acks: seq<AckInfo>, setup: Setup)
    ensures var c := RunControl(acks, setup);
            && GainsFitState(c)
            && (c.status == Startup <==> !c.pipe.filled)
            && c.pipe == Checks(ChecksMade(acks, setup))
  {
    if acks != [] {
      var front, a := acks[..|acks| - 1], acks[|acks| - 1];
      var before, made, bests := RunControl(front, setup), ChecksMade(front, setup), ChecksMade(acks, setup);
      StatesFollowPipe(front, setup);
      AckAdvancesState(before, a, setup);
      AckChecksPipe(before, a, setup);
      if MakesCheck(before, a, setup) { assert bests[..|bests| - 1] == made; }
    }
  }

  lemma {:induction false} ChecksAreNonNegative(acks: seq<AckInfo>, setup: Setup)
    ensures forall i :: 0 <= i < |ChecksMade(acks, setup)| ==> ChecksMade(acks, setup)[i] >= 0.0
  {
    if acks != [] { ChecksAreNonNegative(acks[..|acks| - 1], setup); }
  }

  /** No run leaves STARTUP before its fourth full-pipe check. */
  lemma StartupLastsFourChecks(acks: seq<AckInfo>, setup: Setup)
    requires RunControl(acks, setup).status != Startup
    ensures |ChecksMade(acks, setup)| >= 4
  {
    StatesFollowPipe(acks, setup);
    ChecksAreNonNegative(acks, setup);
    FillingTakesFourChecks(ChecksMade(acks, setup));
  }

  /** Along every run the state never moves back. */
  lemma {:induction false} StatesOnlyAdvance(acks: seq<AckInfo>, n: nat, setup: Setup)
    requires n <= |acks|
    ensures Rank(RunControl(acks[..n], setup).status) <= Rank(RunControl(acks, setup).status)
    decreases |acks|
  {
    if n == |acks| {
      assert acks[..n] == acks;
    } else {
      var front := acks[..|acks| - 1];
      assert front[..n] == acks[..n];
      StatesOnlyAdvance(front, n, setup);
      StatesFollowPipe(front, setup);
      AckAdvancesState(RunControl(front, setup), acks[|acks| - 1], setup);
    }
  }

  // ---- The gain cycle of PROBE_BW ----

  /** The pacing gain one ack sets in PROBE_BW, if it enters that state or moves to a new phase. */
  function GainSet(before: Control, after: Control): seq<real> {
    if after.status == ProbeBw && (before.status != ProbeBw || after.cycleIndex != before.cycleIndex)
    then [after.pacingGain] else []
  }

  /** The pacing gains a run sets in PROBE_BW, from the one it enters with. */
  function ProbeGains(acks: seq<AckInfo>, setup: Setup): seq<real> {
    if acks == [] then []
    else
      var before := RunControl(acks[..|acks| - 1], setup);
      ProbeGains(acks[..|acks| - 1], setup) + GainSet(before, OnAck(before, acks[|acks| - 1], setup))
  }

  /** In PROBE_BW a step keeps the phase or moves to the next one of the cycle. */
  ghost predicate CycleStep(c: Control, d: Control) {
    && (c.status == ProbeBw ==> d.status == ProbeBw && c.cycleIndex < 8)
    && (d.status == ProbeBw && c.status != ProbeBw ==> d.cycleIndex == 1 && d.pacingGain == CycleGain(0))
    && (c.status == ProbeBw && d.cycleIndex != c.cycleIndex ==>
          d.cycleIndex == (c.cycleIndex + 1) % 8 && d.pacingGain == CycleGain(c.cycleIndex))
  }

  lemma AckMovesCycle(c: Control, a: AckInfo, setup: Setup)
    requires WellFormed(c)
    ensures CycleStep(c, OnAck(c, a, setup))
  {
    var c1 := c.(model := Update(c.model, a.sample, setup.baseRtt));
    var c2 := CyclePhase(c1, a.sample.now, setup);
    var c3 := FullPipe(c2, a.sample.now, setup);
    assert c3.status == c.status && c3.cycleIndex == c2.cycleIndex && c3.pacingGain == c2.pacingGain;
  }

  /** These gains are the cycle from its start, and the control is at the phase they lead to. */
  ghost predicate FollowsCycle(gains: seq<real>, c: Control) {
    && (forall i :: 0 <= i < |gains| ==> gains[i] == CycleGain(i % 8))
    && (c.status != ProbeBw ==> gains == [])
    && (c.status == ProbeBw ==> c.cycleIndex == |gains| % 8)
  }

  lemma StepFollowsCycle(gains: seq<real>, c: Control, d: Control)
    requires FollowsCycle(gains, c) && CycleStep(c, d)
    ensures FollowsCycle(gains + GainSet(c, d), d)
  {
  }

  /** In every run, the gains set in PROBE_BW are the cycle, from its start, over and over. */
  lemma {:induction false} GainsFollowCycle(acks: seq<AckInfo>, setup: Setup)
    ensures FollowsCycle(ProbeGains(acks, setup), RunControl(acks, setup))
    ensures forall i :: 0 <= i < |ProbeGains(acks, setup)| ==>
              ProbeGains(acks, setup)[i] == if i % 8 == 0 then 1.25 else if i % 8 == 1 then 0.75 else 1.0
  {
    if acks != [] {
      var front, a := acks[..|acks| - 1], acks[|acks| - 1];
      var c := RunControl(front, setup);
      GainsFollowCycle(front, setup);
      AckMovesCycle(c, a, setup);
      StepFollowsCycle(ProbeGains(front, setup), c, OnAck(c, a, setup));
    }
  }

  function Sum(s: seq<real>): real { if s == [] then 0.0 else s[0] + Sum(s[1..]) }

  /** Any eight consecutive gains of PROBE_BW average exactly one: what probing adds, draining gives back. */
  lemma ProbingIsNeutral(acks: seq<AckInfo>, setup: Setup, from: nat)
    requires from + 8 <= |ProbeGains(acks, setup)|
    ensures Sum(ProbeGains(acks, setup)[from..from + 8]) == 8.0
  {
    GainsFollowCycle(acks, setup);
    EightInARow(ProbeGains(acks, setup), from);
  }

  lemma EightInARow(g: seq<real>, from: nat)
    requires from + 8 <= |g| && forall i :: 0 <= i < |g| ==> g[i] == CycleGain(i % 8)
    ensures Sum(g[from..from + 8]) == 8.0
  {
    var s := g[from..from + 8];
    forall j | 0 <= j < 8 ensures s[j] == CycleGain((from % 8 + j) % 8) {
      assert s[j] == g[from + j];
    }
    OneTurnOfCycle(s, from % 8);
  }

  lemma OneTurnOfCycle(s: seq<real>, r: nat)
    requires |s| == 8 && r < 8
    requires forall j :: 0 <= j < 8 ==> s[j] == CycleGain((r + j) % 8)
    ensures Sum(s) == 8.0
  {
    SumOfEight(s);
    forall j | 0 <= j < 8 ensures s[j] == if r + j == 0 || r + j == 8 then 1.25
                                          else if r + j == 1 || r + j == 9 then 0.75 else 1.0 {
      assert s[j] == CycleGain((r + j) % 8);
    }
  }

  lemma SumStep(s: seq<real>, k: nat)
    requires k < |s|
    ensures Sum(s[k..]) == s[k] + Sum(s[k + 1..])
  {
    assert s[k..][1..] == s[k + 1..];
  }

  lemma SumOfEight(s: seq<real>)
    requires |s| == 8
    ensures Sum(s) == s[0] + s[1] + s[2] + s[3] + s[4] + s[5] + s[6] + s[7]
  {
    assert s[0..] == s;
    SumStep(s, 0); SumStep(s, 1); SumStep(s, 2); SumStep(s, 3);
    SumStep(s, 4); SumStep(s, 5); SumStep(s, 6); SumStep(s, 7);
  }

  // ---- The object ----

  /** The part of `BBRSrc` that models bandwidth and drives the states. */
  class BbrControl {
    const setup: Setup
    const bestBdwWindow: array<real>
    var bestBdwCurrentWindow: seq<real>
    var cycleIndexBdw: nat
    var latestRttWindowEnd: nat
    var fullBandwidth: real
    var fullBandwidthCount: nat
    var isPipeFilled: bool
    var rttPassed: bool
    var lastRttStartup: nat
    var bbrStatus: Status
    var pacingGain: real
    var cwndGain: real
    var cycleIndex: nat
    var latestPhaseWindowEnd: nat

    function View(): Control
      reads this, bestBdwWindow
    {
      Control(Model(bestBdwWindow[..], bestBdwCurrentWindow, cycleIndexBdw, latestRttWindowEnd),
              Pipe(fullBandwidth, fullBandwidthCount, isPipeFilled),
              rttPassed, lastRttStartup, bbrStatus, pacingGain, cwndGain, cycleIndex, latestPhaseWindowEnd)
    }

    ghost predicate Valid()
      reads this, bestBdwWindow
    {
      WellFormed(View())
    }

    constructor (setup: Setup)
      ensures Valid() && View() == InitControl() && this.setup == setup && fresh(bestBdwWindow)
    {
      this.setup := setup;
      bestBdwWindow := new real[SLOTS](_ => 0.0);
      bestBdwCurrentWindow, cycleIndexBdw, latestRttWindowEnd := [], 0, 0;
      fullBandwidth, fullBandwidthCount, isPipeFilled := 0.0, 0, false;
      rttPassed, lastRttStartup := true, 0;
      bbrStatus, pacingGain, cwndGain := Startup, 2.89, 2.89;
      cycleIndex, latestPhaseWindowEnd := 4, 0;
      new;
      assert bestBdwWindow[..] == InitModel().slots;
    }

    method MaxElement() returns (m: real)
      requires bestBdwCurrentWindow != []
      ensures m == Peak(bestBdwCurrentWindow)
    {
      m := bestBdwCurrentWindow[0];
      assert bestBdwCurrentWindow[..1] == [m];
      for i := 1 to |bestBdwCurrentWindow|
        invariant m == Peak(bestBdwCurrentWindow[..i])
      {
        assert bestBdwCurrentWindow[..i + 1][..i] == bestBdwCurrentWindow[..i];
        if bestBdwCurrentWindow[i] > m {
          m := bestBdwCurrentWindow[i];
        }
      }
      assert bestBdwCurrentWindow[..|bestBdwCurrentWindow|] == bestBdwCurrentWindow;
    }

    method GetBestBw() returns (maxBw: real)
      requires Valid()
      ensures maxBw == Max(View().model.slots)
    {
      maxBw := 0.0;
      for i := 0 to 10
        invariant maxBw == Max(bestBdwWindow[..i])
      {
        assert bestBdwWindow[..i + 1][..i] == bestBdwWindow[..i];
        if bestBdwWindow[i] > maxBw {
          maxBw := bestBdwWindow[i];
        }
      }
      assert bestBdwWindow[..10] == bestBdwWindow[..];
    }

    method UpdateBwModel(bw: real, now: nat)
      requires Valid()
      modifies this, bestBdwWindow
      ensures Valid()
      ensures View() == old(View()).(model := Update(old(View()).model, Sample(bw, now), setup.baseRtt))
    {
      bestBdwCurrentWindow := bestBdwCurrentWindow + [bw];
      var max := MaxElement();
      bestBdwWindow[cycleIndexBdw] := max;
      if now > latestRttWindowEnd + setup.baseRtt {
        cycleIndexBdw := cycleIndexBdw + 1;
        cycleIndexBdw := cycleIndexBdw % 10;
        bestBdwCurrentWindow := [];
        latestRttWindowEnd := latestRttWindowEnd + setup.baseRtt;
      }
    }

    method CheckCyclePhase(now: nat)
      requires Valid()
      modifies this
      ensures Valid() && View() == CyclePhase(old(View()), now, setup)
    {
      if bbrStatus == ProbeBw {
        var next := IsNextCyclePhase(now);
        if next {
          pacingGain := CycleGain(cycleIndex);
          cycleIndex := cycleIndex + 1;
          cycleIndex := cycleIndex % 8;
        }
      }
    }

    method IsNextCyclePhase(now: nat) returns (isFullLength: bool)
      requires Valid()
      modifies this`latestPhaseWindowEnd
      ensures isFullLength == (now > old(latestPhaseWindowEnd))
      ensures latestPhaseWindowEnd == old(latestPhaseWindowEnd) + (if isFullLength then setup.baseRtt else 0)
    {
      isFullLength := false;
      if now > latestPhaseWindowEnd {
        isFullLength := true;
        latestPhaseWindowEnd := latestPhaseWindowEnd + setup.baseRtt;
      }
    }

    method RTTPassed(now: nat) returns (passed: bool)
      requires Valid()
      modifies this`rttPassed, this`lastRttStartup
      ensures Valid() && View() == PassRtt(old(View()), now, setup) && passed == rttPassed
    {
      if rttPassed {
        lastRttStartup := now + setup.baseRtt;
        rttPassed := false;
      } else if now > lastRttStartup {
        rttPassed := true;
      }
      passed := rttPassed;
    }

    method CheckFullPipe(now: nat)
      requires Valid()
      modifies this
      ensures Valid() && View() == FullPipe(old(View()), now, setup)
    {
      if isPipeFilled { return; }
      var passed := RTTPassed(now);
      if !passed { return; }
      var best := GetBestBw();
      if best >= fullBandwidth * 1.25 {
        fullBandwidth := best;
        fullBandwidthCount := 0;
        return;
      }
      fullBandwidthCount := fullBandwidthCount + 1;
      if fullBandwidthCount >= 3 {
        isPipeFilled := true;
      }
    }

    method ComputeInFlight(gain: real) returns (bytes: real)
      requires Valid()
      ensures bytes == InFlight(View(), gain, setup)
    {
      var quanta := setup.mss as real;
      var best := GetBestBw();
      var estimatedBdp := best * (setup.baseRtt / 1000) as real / 8.0;
      bytes := Aim(gain, estimatedBdp, quanta, bbrStatus == ProbeBw && cycleIndex == 0);
    }

    method CheckDrain(now: nat, unackedRaw: nat)
      requires Valid()
      modifies this
      ensures Valid() && View() == LeaveStartup(old(View()), now, unackedRaw, setup)
    {
      if bbrStatus == Startup && isPipeFilled {
        bbrStatus := Drain;
        pacingGain := 0.35;
        cwndGain := 2.89;
      }
      var inFlight := ComputeInFlight(1.0);
      if bbrStatus == Drain && unackedRaw as real <= inFlight {
        EnterProbeBw(now);
      }
    }

    method EnterProbeBw(now: nat)
      requires Valid()
      modifies this
      ensures View() == old(View()).(status := ProbeBw, pacingGain := CycleGain(0), cycleIndex := 1,
                                     cwndGain := 2.0, phaseEnd := now + setup.baseRtt)
    {
      bbrStatus := ProbeBw;
      cycleIndex := 0;
      pacingGain := CycleGain(cycleIndex);
      cycleIndex := cycleIndex + 1;
      cycleIndex := cycleIndex % 8;
      cwndGain := 2.0;
      latestPhaseWindowEnd := now + setup.baseRtt;
    }

    /** The BBR part of `processAck`. */
    method ProcessAck(bw: real, now: nat, unackedRaw: nat)
      requires Valid()
      modifies this, bestBdwWindow
      ensures Valid() && View() == OnAck(old(View()), AckInfo(Sample(bw, now), unackedRaw), setup)
    {
      UpdateBwModel(bw, now);
      CheckCyclePhase(now);
      CheckFullPipe(now);
      CheckDrain(now, unackedRaw);
    }
  }
}

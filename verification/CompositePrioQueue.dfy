/**
 `CompositePrioQueue`: when the low FIFO is full, a packet with a longer path is evicted to make room. A
 histogram of path lengths and a cached maximum must agree with the list, whatever is evicted. Packets of any
 size and path length may arrive; an arrival that breaks an assertion stops the program.
 */
module CompositePrioQueue {
  import opened Arith
  import opened WeightedService

  const MAX_PATH_LEN: nat := 20
  const HEADER_SIZE: nat := 64
  const MAX_QUEUED: nat := 8

  datatype Packet = Packet(id: nat, size: nat, header: bool, pathLen: nat)

  function Strip(p: Packet): Packet { p.(header := true, size := HEADER_SIZE) }

  datatype Setup = Setup(maxSize: nat, ratio: Ratio)

  datatype Serv = Nobody | Low | High

  /** Both lists have the newest packet in front. */
  datatype Queue = Queue(
    low: seq<Packet>,
    high: seq<Packet>,
    sizeLow: int,
    sizeHigh: int,
    pathLens: seq<nat>,       // how many packets of each path length are in `low`
    maxQueued: nat,           // the longest path length in `low`
    maxSeen: nat,
    serv: Serv,
    crt: nat,
    arrived: seq<nat>,        // ids, as they came
    sent: seq<nat>,
    dropped: seq<nat>,
    choices: seq<Choice>)     // of the server

  /** What an operation leaves: a queue, or nothing once an assertion has failed. */
  datatype Outcome = Done(queue: Queue) | Abort

  function Init(): Queue {
    Queue([], [], 0, 0, seq(MAX_PATH_LEN + 1, _ => 0), 0, 0, Nobody, 0, [], [], [], [])
  }

  // ---- The histogram and its maximum ----

  function CountLen(s: seq<Packet>, len: nat): nat {
    if s == [] then 0 else (if s[0].pathLen == len then 1 else 0) + CountLen(s[1..], len)
  }

  lemma {:induction false} CountSplits(a: seq<Packet>, b: seq<Packet>, len: nat)
    ensures CountLen(a + b, len) == CountLen(a, len) + CountLen(b, len)
  {
    if a == [] {
      assert a + b == b;
    } else {
      CountSplits(a[1..], b, len);
      assert (a + b)[1..] == a[1..] + b;
    }
  }

  lemma {:induction false} CountPositive(s: seq<Packet>, i: nat)
    requires i < |s|
    ensures CountLen(s, s[i].pathLen) > 0
  {
    if i > 0 { CountPositive(s[1..], i - 1); }
  }

  lemma {:induction false} CountWitness(s: seq<Packet>, len: nat) returns (i: nat)
    requires CountLen(s, len) > 0
    ensures i < |s| && s[i].pathLen == len
  {
    if s[0].pathLen == len {
      i := 0;
    } else {
      var j := CountWitness(s[1..], len);
      i := j + 1;
    }
  }

  /** The scan of `find_max_path_len_queued`, downwards from a length. */
  function FindMax(lens: seq<nat>, len: nat): nat
    requires len < |lens|
  {
    if lens[len] > 0 || len == 0 then len else FindMax(lens, len - 1)
  }

  /** The histogram counts the list. */
  ghost predicate Counts(lens: seq<nat>, low: seq<Packet>) {
    && |lens| == MAX_PATH_LEN + 1
    && forall len :: 0 <= len <= MAX_PATH_LEN ==> lens[len] == CountLen(low, len)
  }

  /** `m` is the longest path length in the list, or 0. */
  ghost predicate Longest(low: seq<Packet>, m: nat) {
    && (forall i :: 0 <= i < |low| ==> low[i].pathLen <= m)
    && if low == [] then m == 0 else exists i :: 0 <= i < |low| && low[i].pathLen == m
  }

  lemma {:induction false} FindMaxFinds(lens: seq<nat>, low: seq<Packet>, len: nat)
    requires Counts(lens, low) && len <= MAX_PATH_LEN && low != []
    requires forall i :: 0 <= i < |low| ==> low[i].pathLen <= len
    ensures Longest(low, FindMax(lens, len))
  {
    if lens[len] > 0 {
      var i := CountWitness(low, len);
    } else {
      forall i | 0 <= i < |low| ensures low[i].pathLen < len {
        CountPositive(low, i);
      }
      assert len > 0 by { assert low[0].pathLen < len; }
      FindMaxFinds(lens, low, len - 1);
    }
  }

  // ---- The operations ----

  function Highest(lens: seq<nat>, n: nat): nat
    requires n <= |lens|
  {
    if n == 0 then 0 else if lens[n - 1] > 0 then n - 1 else Highest(lens, n - 1)
  }

  function Total(lens: seq<nat>, n: nat): nat
    requires n <= |lens|
  {
    if n == 0 then 0 else Total(lens, n - 1) + lens[n - 1]
  }

  /** `check_queued`: the two assertions every change of the list ends with. */
  predicate CheckQueued(q: Queue)
    requires |q.pathLens| == MAX_PATH_LEN + 1
  {
    Highest(q.pathLens, MAX_PATH_LEN) == q.maxQueued && Total(q.pathLens, MAX_PATH_LEN) <= MAX_QUEUED
  }

  /** The low list with one more packet, and its housekeeping. */
  function Stored(q: Queue, p: Packet): Queue
    requires p.pathLen < |q.pathLens|
  {
    var longest := q.maxQueued < p.pathLen;
    q.(low := [p] + q.low, sizeLow := q.sizeLow + p.size,
       maxQueued := if longest then p.pathLen else q.maxQueued,
       maxSeen := if longest && q.maxSeen < p.pathLen then p.pathLen else q.maxSeen,
       pathLens := q.pathLens[p.pathLen := q.pathLens[p.pathLen] + 1])
  }

  /** `enqueue_packet`. A path that the histogram has no place for is written past its end. */
  function Enqueue(q: Queue, p: Packet): Outcome
    requires |q.pathLens| == MAX_PATH_LEN + 1
  {
    if p.pathLen > MAX_PATH_LEN || !CheckQueued(Stored(q, p)) then Abort else Done(Stored(q, p))
  }

  /** A packet leaves the low list, from any place. */
  function RemoveAt(q: Queue, i: nat): Queue
    requires i < |q.low| && q.low[i].pathLen < |q.pathLens| && q.maxSeen < |q.pathLens|
    requires q.pathLens[q.low[i].pathLen] > 0
  {
    var p, low := q.low[i], q.low[..i] + q.low[i + 1..];
    var lens := q.pathLens[p.pathLen := q.pathLens[p.pathLen] - 1];
    q.(low := low, sizeLow := q.sizeLow - p.size, pathLens := lens,
       maxQueued := if p.pathLen != q.maxQueued || lens[p.pathLen] > 0 then q.maxQueued
                    else if low == [] then 0 else FindMax(lens, q.maxSeen))
  }

  /** The first packet with a longer path than `prio`, or the length. */
  function FirstLonger(low: seq<Packet>, prio: nat): (i: nat)
    ensures i <= |low|
    ensures i < |low| ==> low[i].pathLen > prio
    ensures forall j :: 0 <= j < i ==> low[j].pathLen <= prio
  {
    if low == [] || low[0].pathLen > prio then 0 else 1 + FirstLonger(low[1..], prio)
  }

  /** A header joins the high list, or is dropped when that is full. */
  function StoreHeader(q: Queue, p: Packet, setup: Setup): Queue {
    if q.sizeHigh + p.size > setup.maxSize then q.(dropped := q.dropped + [p.id])
    else q.(high := [p] + q.high, sizeHigh := q.sizeHigh + p.size)
  }

  /** The histogram, the cached maximum, the bytes, the server and the ids all agree with the lists. */
  ghost predicate Sound(q: Queue, setup: Setup) {
    && Housekeeping(q, setup) && HighAgrees(q, setup) && Serving(q) && Choosing(q, setup)
    && multiset(q.arrived) == AllIds(q)
  }

  /** The server has chosen by turns from the start. */
  ghost predicate Choosing(q: Queue, setup: Setup) {
    Follows(q.choices, setup.ratio) && q.crt == CrtAfter(q.choices, setup.ratio)
  }

  ghost predicate HighAgrees(q: Queue, setup: Setup) {
    q.sizeHigh == Bytes(q.high) <= setup.maxSize && forall i :: 0 <= i < |q.high| ==> q.high[i].header
  }

  /** Every packet still here, sent or dropped. */
  function AllIds(q: Queue): multiset<nat> {
    multiset(Ids(q.low)) + multiset(Ids(q.high)) + multiset(q.sent) + multiset(q.dropped)
  }

  ghost predicate Housekeeping(q: Queue, setup: Setup) {
    && Counts(q.pathLens, q.low) && Longest(q.low, q.maxQueued)
    && q.maxQueued <= q.maxSeen < MAX_PATH_LEN
    && q.sizeLow == Bytes(q.low) <= setup.maxSize && |q.low| <= MAX_QUEUED
    && forall i :: 0 <= i < |q.low| ==> !q.low[i].header
  }

  ghost predicate Serving(q: Queue) {
    && (q.serv == Nobody <==> q.low == [] && q.high == [])
    && (q.serv == Low ==> q.low != []) && (q.serv == High ==> q.high != [])
  }

  function Bytes(s: seq<Packet>): nat { if s == [] then 0 else s[0].size + Bytes(s[1..]) }

  function Ids(s: seq<Packet>): seq<nat> { seq(|s|, i requires 0 <= i < |s| => s[i].id) }

  // ---- The housekeeping holds ----

  lemma {:induction false} BytesSplit(a: seq<Packet>, b: seq<Packet>)
    ensures Bytes(a + b) == Bytes(a) + Bytes(b)
  {
    if a == [] {
      assert a + b == b;
    } else {
      BytesSplit(a[1..], b);
      assert (a + b)[1..] == a[1..] + b;
    }
  }

  lemma StoredIsCounted(q: Queue, p: Packet)
    requires Counts(q.pathLens, q.low) && p.pathLen <= MAX_PATH_LEN
    ensures Counts(Stored(q, p).pathLens, Stored(q, p).low)
  {
    var r := Stored(q, p);
    forall len | 0 <= len <= MAX_PATH_LEN ensures r.pathLens[len] == CountLen(r.low, len) {
      CountSplits([p], q.low, len);
    }
  }

  lemma LongestOfMore(low: seq<Packet>, p: Packet, m: nat)
    requires Longest(low, m)
    ensures Longest([p] + low, if m < p.pathLen then p.pathLen else m)
  {
    var r := [p] + low;
    assert r[0] == p && forall i :: 0 <= i < |low| ==> r[i + 1] == low[i];
    if m < p.pathLen || low == [] {
      assert r[0].pathLen == if m < p.pathLen then p.pathLen else m;
    } else {
      var i :| 0 <= i < |low| && low[i].pathLen == m;
      assert r[i + 1].pathLen == m;
    }
  }

  /** A packet the low list has room for, in bytes and in number, keeps the housekeeping if its path is short. */
  lemma EnqueueKeeps(q: Queue, p: Packet, setup: Setup)
    requires Housekeeping(q, setup) && !p.header && p.pathLen < MAX_PATH_LEN && Fits(q, p, setup)
    requires |q.low| < MAX_QUEUED
    ensures Housekeeping(Stored(q, p), setup)
  {
    StoredIsCounted(q, p);
    LongestOfMore(q.low, p, q.maxQueued);
    assert ([p] + q.low)[1..] == q.low;
  }

  lemma BytesWithout(s: seq<Packet>, i: nat)
    requires i < |s|
    ensures Bytes(s) == Bytes(s[..i] + s[i + 1..]) + s[i].size
  {
    var a, b := s[..i], s[i..];
    assert s == a + b && b[0] == s[i] && b[1..] == s[i + 1..];
    BytesSplit(a, b);
    BytesSplit(a, b[1..]);
  }

  /** Whichever packet leaves, the histogram can count it out and the cached maximum stays true. */
  lemma RemoveAtKeeps(q: Queue, i: nat, setup: Setup)
    requires Housekeeping(q, setup) && i < |q.low|
    ensures q.pathLens[q.low[i].pathLen] > 0
    ensures Housekeeping(RemoveAt(q, i), setup)
  {
    CountPositive(q.low, i);
    var r := RemoveAt(q, i);
    RemovalCounts(q, i);
    BytesWithout(q.low, i);
    forall j | 0 <= j < |r.low| ensures !r.low[j].header {
      assert r.low[j] == if j < i then q.low[j] else q.low[j + 1];
    }
    RemovalMaximum(q, i, setup);
  }

  lemma RemovalCounts(q: Queue, i: nat)
    requires Counts(q.pathLens, q.low) && i < |q.low| && q.low[i].pathLen <= MAX_PATH_LEN
    requires q.pathLens[q.low[i].pathLen] > 0 && q.maxSeen <= MAX_PATH_LEN
    ensures Counts(RemoveAt(q, i).pathLens, RemoveAt(q, i).low)
  {
    var p := q.low[i];
    assert q.low == q.low[..i] + ([p] + q.low[i + 1..]);
    forall len | 0 <= len <= MAX_PATH_LEN
      ensures CountLen(q.low[..i] + q.low[i + 1..], len) == CountLen(q.low, len) - (if len == p.pathLen then 1 else 0)
    {
      CountSplits(q.low[..i], [p] + q.low[i + 1..], len);
      CountSplits([p], q.low[i + 1..], len);
      CountSplits(q.low[..i], q.low[i + 1..], len);
    }
  }

  lemma RemovalMaximum(q: Queue, i: nat, setup: Setup)
    requires Housekeeping(q, setup) && i < |q.low| && q.pathLens[q.low[i].pathLen] > 0
    requires Counts(RemoveAt(q, i).pathLens, RemoveAt(q, i).low)
    ensures Longest(RemoveAt(q, i).low, RemoveAt(q, i).maxQueued) && RemoveAt(q, i).maxQueued <= q.maxSeen
  {
    var p, r := q.low[i], RemoveAt(q, i);
    forall j | 0 <= j < |r.low| ensures r.low[j].pathLen <= q.maxQueued {
      assert r.low[j] == if j < i then q.low[j] else q.low[j + 1];
    }
    if p.pathLen != q.maxQueued {
      var k :| 0 <= k < |q.low| && q.low[k].pathLen == q.maxQueued;
      assert r.low[if k < i then k else k - 1].pathLen == q.maxQueued;
    } else if r.pathLens[p.pathLen] > 0 {
      var k := CountWitness(r.low, p.pathLen);
    } else if r.low != [] {
      FindMaxFinds(r.pathLens, r.low, q.maxSeen);
    }
  }

  lemma {:induction false} HighestIsLongest(lens: seq<nat>, low: seq<Packet>, m: nat, n: nat)
    requires Counts(lens, low) && Longest(low, m) && m < n <= MAX_PATH_LEN
    ensures Highest(lens, n) == m
  {
    if n - 1 == m {
      if low != [] {
        var i :| 0 <= i < |low| && low[i].pathLen == m;
        CountPositive(low, i);
      } else {
        assert CountLen(low, m) == 0;
      }
    } else {
      assert lens[n - 1] == CountLen(low, n - 1) == 0 by {
        if CountLen(low, n - 1) > 0 { var i := CountWitness(low, n - 1); }
      }
      HighestIsLongest(lens, low, m, n - 1);
    }
  }

  function CountBelow(low: seq<Packet>, n: nat): nat {
    if low == [] then 0 else (if low[0].pathLen < n then 1 else 0) + CountBelow(low[1..], n)
  }

  lemma {:induction false} CountBelowStep(low: seq<Packet>, n: nat)
    ensures CountBelow(low, n + 1) == CountBelow(low, n) + CountLen(low, n)
    ensures CountBelow(low, 0) == 0 && CountBelow(low, n) <= |low|
  {
    if low != [] { CountBelowStep(low[1..], n); }
  }

  lemma {:induction false} TotalCountsBelow(lens: seq<nat>, low: seq<Packet>, n: nat)
    requires Counts(lens, low) && n <= MAX_PATH_LEN
    ensures Total(lens, n) == CountBelow(low, n) <= |low|
  {
    CountBelowStep(low, n);
    if n > 0 {
      CountBelowStep(low, n - 1);
      TotalCountsBelow(lens, low, n - 1);
    }
  }

  /** No packet is missed by the total when every path is short. */
  lemma {:induction false} AllAreBelow(low: seq<Packet>, n: nat)
    requires forall i :: 0 <= i < |low| ==> low[i].pathLen < n
    ensures CountBelow(low, n) == |low|
  {
    if low != [] {
      assert low[0].pathLen < n;
      forall i | 0 <= i < |low[1..]| ensures low[1..][i].pathLen < n {
        assert low[1..][i] == low[i + 1];
      }
      AllAreBelow(low[1..], n);
    }
  }

  /** What `check_queued` asserts, of any list that its histogram counts: all paths are shorter than 20 and no
      more than eight packets are queued. */
  lemma CheckQueuedMeans(q: Queue)
    requires Counts(q.pathLens, q.low) && Longest(q.low, q.maxQueued) && q.maxQueued <= MAX_PATH_LEN
    ensures CheckQueued(q) <==> q.maxQueued < MAX_PATH_LEN && |q.low| <= MAX_QUEUED
  {
    if q.maxQueued < MAX_PATH_LEN {
      HighestIsLongest(q.pathLens, q.low, q.maxQueued, MAX_PATH_LEN);
      TotalCountsBelow(q.pathLens, q.low, MAX_PATH_LEN);
      AllAreBelow(q.low, MAX_PATH_LEN);
    } else {
      HighestBelow(q.pathLens, MAX_PATH_LEN);
    }
  }

  /** So both assertions hold whenever the housekeeping does, */
  lemma CheckQueuedHolds(q: Queue, setup: Setup)
    requires Housekeeping(q, setup)
    ensures CheckQueued(q)
  {
    CheckQueuedMeans(q);
  }

  /** and storing a packet breaks them exactly when its path is 20 or longer, which the histogram still has a
      place for, or eight packets are queued already. */
  lemma EnqueueAbortsExactly(q: Queue, p: Packet, setup: Setup)
    requires Housekeeping(q, setup)
    ensures Enqueue(q, p).Done? <==> p.pathLen < MAX_PATH_LEN && |q.low| < MAX_QUEUED
  {
    if p.pathLen <= MAX_PATH_LEN {
      StoredIsCounted(q, p);
      LongestOfMore(q.low, p, q.maxQueued);
      CheckQueuedMeans(Stored(q, p));
    }
  }

  lemma {:induction false} HighestBelow(lens: seq<nat>, n: nat)
    requires 0 < n <= |lens|
    ensures Highest(lens, n) < n
  {
    if n > 1 { HighestBelow(lens, n - 1); }
  }

  // ---- Eviction ----

  /** `trim_low_priority_packet`: the first packet with a path longer than `prio` becomes a header. */
  function Trim(q: Queue, prio: nat, setup: Setup): Queue
    requires Housekeeping(q, setup) && prio < q.maxQueued
  {
    LongerExists(q.low, prio, q.maxQueued);
    var i := FirstLonger(q.low, prio);
    RemoveAtKeeps(q, i, setup);
    StoreHeader(RemoveAt(q, i), Strip(q.low[i]), setup)
  }

  /** The search cannot fail: a packet with the longest path is there. */
  lemma LongerExists(low: seq<Packet>, prio: nat, m: nat)
    requires Longest(low, m) && prio < m
    ensures FirstLonger(low, prio) < |low|
  {
    var i :| 0 <= i < |low| && low[i].pathLen == m;
    assert low[i].pathLen > prio;
  }

  // ---- Arrival ----

  predicate Fits(q: Queue, p: Packet, setup: Setup) { q.sizeLow + p.size <= setup.maxSize }

  /** The test at the head of `receivePacket`; `coin` is the random draw. */
  predicate Admits(q: Queue, p: Packet, coin: bool, setup: Setup) {
    Fits(q, p, setup) || (q.low != [] && p.pathLen == q.low[0].pathLen && coin) || p.pathLen < q.maxQueued
  }

  /** The path length that an arriving packet makes room against. For a path of 0 that meets its like, the
      subtraction wraps around and the assertion of `trim_low_priority_packet` fails. */
  function Threshold(q: Queue, p: Packet): int {
    if p.pathLen < q.maxQueued then p.pathLen else p.pathLen - 1
  }

  /** That assertion fails in no other case. */
  lemma ThresholdIsBelowLongest(q: Queue, p: Packet, coin: bool, setup: Setup)
    requires Longest(q.low, q.maxQueued) && !Fits(q, p, setup) && Admits(q, p, coin, setup)
    ensures Threshold(q, p) < q.maxQueued && (Threshold(q, p) < 0 <==> q.maxQueued == 0)
  {
  }

  /** Room for a packet that is admitted: evict one if it does not fit. */
  function MakeRoom(q: Queue, p: Packet, coin: bool, setup: Setup): Outcome
    requires Housekeeping(q, setup) && Admits(q, p, coin, setup)
  {
    if Fits(q, p, setup) then Done(q)
    else if !(0 <= Threshold(q, p) < q.maxQueued) then Abort
    else
      var r := Trim(q, Threshold(q, p), setup);
      if Fits(r, p, setup) then Done(r) else Abort
  }

  lemma AddToHigh(l: multiset<nat>, h: multiset<nat>, s: multiset<nat>, d: multiset<nat>, one: multiset<nat>)
    ensures l + (one + h) + s + d == (l + h + s + d) + one
  {
  }

  lemma StoreHeaderAddsId(q: Queue, p: Packet, setup: Setup)
    ensures AllIds(StoreHeader(q, p, setup)) == AllIds(q) + multiset{p.id}
  {
    var l, h, t, d, one :=
      multiset(Ids(q.low)), multiset(Ids(q.high)), multiset(q.sent), multiset(q.dropped), multiset{p.id};
    if q.sizeHigh + p.size > setup.maxSize {
      assert multiset(q.dropped + [p.id]) == d + one;
    } else {
      assert Ids([p] + q.high) == [p.id] + Ids(q.high);
      AddToHigh(l, h, t, d, one);
    }
  }

  lemma RemoveAtTakesId(q: Queue, i: nat)
    requires i < |q.low| && q.low[i].pathLen < |q.pathLens| && q.maxSeen < |q.pathLens|
    requires q.pathLens[q.low[i].pathLen] > 0
    ensures AllIds(q) == AllIds(RemoveAt(q, i)) + multiset{q.low[i].id}
  {
    IdsRemove(q.low, i);
  }

  lemma IdsRemove(s: seq<Packet>, i: nat)
    requires i < |s|
    ensures multiset(Ids(s)) == multiset(Ids(s[..i] + s[i + 1..])) + multiset{s[i].id}
  {
    assert Ids(s) == Ids(s[..i]) + [s[i].id] + Ids(s[i + 1..]);
    assert Ids(s[..i] + s[i + 1..]) == Ids(s[..i]) + Ids(s[i + 1..]);
  }

  lemma StoreHeaderAgrees(q: Queue, p: Packet, setup: Setup)
    requires HighAgrees(q, setup) && p.header
    ensures HighAgrees(StoreHeader(q, p, setup), setup)
  {
    assert ([p] + q.high)[1..] == q.high;
  }

  lemma TrimKeeps(q: Queue, prio: nat, setup: Setup)
    requires Housekeeping(q, setup) && HighAgrees(q, setup) && prio < q.maxQueued
    ensures Makes(q, prio, Trim(q, prio, setup), setup)
  {
    LongerExists(q.low, prio, q.maxQueued);
    var i := FirstLonger(q.low, prio);
    RemoveAtKeeps(q, i, setup);
    var r, h := RemoveAt(q, i), Strip(q.low[i]);
    TrimKeepsIds(q, i, setup);
    StoreHeaderAgrees(r, h, setup);
    assert Housekeeping(StoreHeader(r, h, setup), setup);
  }

  lemma TrimKeepsIds(q: Queue, i: nat, setup: Setup)
    requires i < |q.low| && q.low[i].pathLen < |q.pathLens| && q.maxSeen < |q.pathLens|
    requires q.pathLens[q.low[i].pathLen] > 0
    ensures AllIds(StoreHeader(RemoveAt(q, i), Strip(q.low[i]), setup)) == AllIds(q)
  {
    RemoveAtTakesId(q, i);
    StoreHeaderAddsId(RemoveAt(q, i), Strip(q.low[i]), setup);
  }

  /** The packet that an arriving one evicts, when it meets a packet at all. */
  ghost function Victim(q: Queue, p: Packet): Packet
    requires Longest(q.low, q.maxQueued) && 0 <= Threshold(q, p) < q.maxQueued
  {
    LongerExists(q.low, Threshold(q, p), q.maxQueued);
    q.low[FirstLonger(q.low, Threshold(q, p))]
  }

  /** Eviction always finds a packet, never one with a shorter path than the arriving one, and takes out only
      that one; it is then a header, or dropped. */
  lemma EvictionIsFair(q: Queue, p: Packet, coin: bool, setup: Setup)
    requires Sound(q, setup) && Admits(q, p, coin, setup) && !Fits(q, p, setup)
    requires MakeRoom(q, p, coin, setup).Done?
    ensures var i := FirstLonger(q.low, Threshold(q, p));
            var r := MakeRoom(q, p, coin, setup).queue;
            && i < |q.low| && q.low[i].pathLen >= p.pathLen && r.low == q.low[..i] + q.low[i + 1..]
            && (if Bytes(q.high) + 64 <= setup.maxSize
                then r.high == [q.low[i].(header := true, size := 64)] + q.high && r.dropped == q.dropped
                else r.high == q.high && r.dropped == q.dropped + [q.low[i].id])
  {
    LongerExists(q.low, Threshold(q, p), q.maxQueued);
    TrimKeeps(q, Threshold(q, p), setup);
  }

  function Begin(q: Queue, setup: Setup): Queue
    requires q.low != [] || q.high != []
  {
    var high := ServesHigh(q.crt, q.high != [], q.low != [], setup.ratio);
    q.(serv := if high then High else Low, crt := NextCrt(q.crt, q.high != [], q.low != [], setup.ratio),
       choices := q.choices + [Choice(q.high != [], q.low != [], high)])
  }

  function StartIfIdle(q: Queue, setup: Setup): Queue {
    if q.serv == Nobody && (q.low != [] || q.high != []) then Begin(q, setup) else q
  }

  /** `receivePacket`. */
  function Arrive(q: Queue, p: Packet, coin: bool, setup: Setup): Outcome
    requires Sound(q, setup)
  {
    var r := q.(arrived := q.arrived + [p.id]);
    assert Housekeeping(r, setup);
    match Take(r, p, coin, setup)
    case Abort => Abort
    case Done(taken) => Done(StartIfIdle(taken, setup))
  }

  /** Where the packet goes. The test looks at the front of the low list when the packet does not fit, also if
      the list is empty. */
  function Take(q: Queue, p: Packet, coin: bool, setup: Setup): Outcome
    requires Housekeeping(q, setup)
  {
    if p.header then Done(StoreHeader(q, p, setup))
    else if !Fits(q, p, setup) && q.low == [] then Abort
    else if Admits(q, p, coin, setup) then Store(q, p, coin, setup)
    else Done(StoreHeader(q, Strip(p), setup))
  }

  /** An admitted packet joins the low list, once there is room. */
  function Store(q: Queue, p: Packet, coin: bool, setup: Setup): Outcome
    requires Housekeeping(q, setup) && Admits(q, p, coin, setup)
  {
    match MakeRoom(q, p, coin, setup)
    case Abort => Abort
    case Done(room) =>
      RoomHasShape(q, p, coin, setup);
      Enqueue(room, p)
  }

  lemma RoomHasShape(q: Queue, p: Packet, coin: bool, setup: Setup)
    requires Housekeeping(q, setup) && Admits(q, p, coin, setup) && MakeRoom(q, p, coin, setup).Done?
    ensures |MakeRoom(q, p, coin, setup).queue.pathLens| == MAX_PATH_LEN + 1
  {
    if !Fits(q, p, setup) {
      LongerExists(q.low, Threshold(q, p), q.maxQueued);
      RemoveAtKeeps(q, FirstLonger(q.low, Threshold(q, p)), setup);
    }
  }

  /** When an admitted packet is stored without an assertion failing. One that fits must have a short path and be
      at most the eighth. One that does not must find a path longer than 0 and fit where its victim was. */
  ghost predicate CanStore(q: Queue, p: Packet, coin: bool, setup: Setup)
    requires Longest(q.low, q.maxQueued) && Admits(q, p, coin, setup)
  {
    if Fits(q, p, setup) then p.pathLen < MAX_PATH_LEN && |q.low| < MAX_QUEUED
    else q.maxQueued > 0 && q.sizeLow - Victim(q, p).size + p.size <= setup.maxSize
  }

  /** When the queue takes a packet without an assertion failing. */
  ghost predicate Survives(q: Queue, p: Packet, coin: bool, setup: Setup)
    requires Longest(q.low, q.maxQueued)
  {
    || p.header
    || ((q.low != [] || Fits(q, p, setup)) && (Admits(q, p, coin, setup) ==> CanStore(q, p, coin, setup)))
  }

  /** `dequeue_low_packet`: the oldest packet of the low list is sent. */
  function SendLow(q: Queue): Queue
    requires q.low != [] && q.low[|q.low| - 1].pathLen < |q.pathLens| && q.maxSeen < |q.pathLens|
    requires q.pathLens[q.low[|q.low| - 1].pathLen] > 0
  {
    RemoveAt(q, |q.low| - 1).(sent := q.sent + [q.low[|q.low| - 1].id], serv := Nobody)
  }

  /** `dequeue_high_packet`. */
  function SendHigh(q: Queue): Queue
    requires q.high != []
  {
    var p := q.high[|q.high| - 1];
    q.(high := q.high[..|q.high| - 1], sizeHigh := q.sizeHigh - p.size, sent := q.sent + [p.id], serv := Nobody)
  }

  /** `completeService`: the oldest packet of the list being served leaves, even if the packet whose service
      began has been evicted. */
  function Complete(q: Queue, setup: Setup): Queue
    requires Sound(q, setup) && q.serv != Nobody
  {
    if q.serv == Low then
      RemoveAtKeeps(q, |q.low| - 1, setup);
      StartIfIdle(SendLow(q), setup)
    else StartIfIdle(SendHigh(q), setup)
  }

  // ---- Every operation keeps the queue sound ----

  lemma StartMakesSound(q: Queue, setup: Setup)
    requires Housekeeping(q, setup) && HighAgrees(q, setup) && multiset(q.arrived) == AllIds(q) && Choosing(q, setup)
    requires (q.serv == Low ==> q.low != []) && (q.serv == High ==> q.high != [])
    ensures Sound(StartIfIdle(q, setup), setup)
  {
    assert AllIds(StartIfIdle(q, setup)) == AllIds(q);
    if q.low != [] || q.high != [] {
      var high := ServesHigh(q.crt, q.high != [], q.low != [], setup.ratio);
      FollowsSnoc(q.choices, Choice(q.high != [], q.low != [], high), setup.ratio);
    }
  }

  lemma StoreHeaderKeeps(q: Queue, p: Packet, setup: Setup)
    requires Sound(q, setup) && p.header
    ensures Sound(StartIfIdle(StoreHeader(q.(arrived := q.arrived + [p.id]), p, setup), setup), setup)
  {
    var a := q.(arrived := q.arrived + [p.id]);
    StoreHeaderAddsId(a, p, setup);
    StoreHeaderAgrees(a, p, setup);
    StartMakesSound(StoreHeader(a, p, setup), setup);
  }

  lemma StoredAddsId(q: Queue, p: Packet)
    requires p.pathLen < |q.pathLens|
    ensures AllIds(Stored(q, p)) == AllIds(q) + multiset{p.id}
  {
    assert Ids([p] + q.low) == [p.id] + Ids(q.low);
  }

  /** Storing a packet makes a queue sound that was so but for its server and that packet's id. */
  lemma EnqueueMakesSound(q: Queue, p: Packet, setup: Setup)
    requires Housekeeping(q, setup) && HighAgrees(q, setup) && !p.header && Fits(q, p, setup)
    requires Choosing(q, setup) && Enqueue(q, p).Done? && multiset(q.arrived) == AllIds(q) + multiset{p.id}
    requires (q.serv == High ==> q.high != []) && (q.serv == Nobody ==> q.low == [] && q.high == [])
    ensures Sound(StartIfIdle(Stored(q, p), setup), setup)
  {
    EnqueueAbortsExactly(q, p, setup);
    EnqueueKeeps(q, p, setup);
    StoredAddsId(q, p);
    StartMakesSound(Stored(q, p), setup);
  }

  /** The queue is sound but for the id of a packet that is being stored. */
  ghost predicate Awaits(q: Queue, p: Packet, setup: Setup) {
    && Housekeeping(q, setup) && HighAgrees(q, setup) && Choosing(q, setup) && !p.header
    && multiset(q.arrived) == AllIds(q) + multiset{p.id}
    && (q.serv == High ==> q.high != []) && (q.serv == Nobody ==> q.low == [] && q.high == [])
  }

  lemma FitStores(q: Queue, p: Packet, coin: bool, setup: Setup)
    requires Awaits(q, p, setup) && Fits(q, p, setup)
    ensures Store(q, p, coin, setup).Done? <==> CanStore(q, p, coin, setup)
    ensures Store(q, p, coin, setup).Done? ==> Sound(StartIfIdle(Store(q, p, coin, setup).queue, setup), setup)
  {
    EnqueueAbortsExactly(q, p, setup);
    if Enqueue(q, p).Done? { EnqueueMakesSound(q, p, setup); }
  }

  /** The queue `r` is `q` without the first packet whose path is longer than `prio`. */
  ghost predicate Makes(q: Queue, prio: nat, r: Queue, setup: Setup) {
    var i := FirstLonger(q.low, prio);
    && i < |q.low| && r.low == q.low[..i] + q.low[i + 1..]
    && r.sizeLow == q.sizeLow - q.low[i].size
    && Housekeeping(r, setup) && HighAgrees(r, setup)
    && AllIds(r) == AllIds(q) && r.serv == q.serv && r.arrived == q.arrived && (q.high != [] ==> r.high != [])
    && r.crt == q.crt && r.choices == q.choices
  }

  /** Whether one eviction makes room, and what it leaves. */
  lemma MakeRoomKeeps(q: Queue, p: Packet, coin: bool, setup: Setup)
    requires Housekeeping(q, setup) && HighAgrees(q, setup) && Admits(q, p, coin, setup) && !Fits(q, p, setup)
    ensures var m := MakeRoom(q, p, coin, setup);
            && (m.Done? <==> q.maxQueued > 0 && q.sizeLow - Victim(q, p).size + p.size <= setup.maxSize)
            && (m.Done? ==> Threshold(q, p) >= 0 && Makes(q, Threshold(q, p), m.queue, setup)
                            && Fits(m.queue, p, setup))
  {
    ThresholdIsBelowLongest(q, p, coin, setup);
    if Threshold(q, p) >= 0 { TrimKeeps(q, Threshold(q, p), setup); }
  }

  lemma EvictStores(q: Queue, p: Packet, coin: bool, setup: Setup)
    requires Awaits(q, p, setup) && Admits(q, p, coin, setup) && !Fits(q, p, setup)
    ensures Store(q, p, coin, setup).Done? <==> CanStore(q, p, coin, setup)
    ensures Store(q, p, coin, setup).Done? ==> Sound(StartIfIdle(Store(q, p, coin, setup).queue, setup), setup)
  {
    MakeRoomKeeps(q, p, coin, setup);
    var m := MakeRoom(q, p, coin, setup);
    if m.Done? {
      AdmittedPathIsShort(q, p, coin, setup);
      EnqueueAbortsExactly(m.queue, p, setup);
      EnqueueMakesSound(m.queue, p, setup);
    }
  }

  lemma AdmittedPathIsShort(q: Queue, p: Packet, coin: bool, setup: Setup)
    requires Housekeeping(q, setup) && Admits(q, p, coin, setup) && !Fits(q, p, setup)
    ensures p.pathLen < MAX_PATH_LEN
  {
  }

  /** Every arrival is survived exactly when `Survives` says so, and then keeps the queue sound. */
  lemma ArriveKeeps(q: Queue, p: Packet, coin: bool, setup: Setup)
    requires Sound(q, setup)
    ensures Arrive(q, p, coin, setup).Done? <==> Survives(q, p, coin, setup)
    ensures Arrive(q, p, coin, setup).Done? ==> Sound(Arrive(q, p, coin, setup).queue, setup)
  {
    if p.header {
      StoreHeaderKeeps(q, p, setup);
    } else if q.low == [] && !Fits(q, p, setup) {
    } else if Admits(q, p, coin, setup) {
      var r := q.(arrived := q.arrived + [p.id]);
      assert AllIds(r) == AllIds(q);
      if Fits(q, p, setup) { FitStores(r, p, coin, setup); } else { EvictStores(r, p, coin, setup); }
    } else {
      StoreHeaderKeeps(q, Strip(p), setup);
    }
  }

  lemma {:induction false} BytesOfFront(s: seq<Packet>)
    requires s != []
    ensures Bytes(s) == Bytes(s[..|s| - 1]) + s[|s| - 1].size
  {
    if |s| > 1 {
      BytesOfFront(s[1..]);
      assert s[1..][..|s| - 2] == s[..|s| - 1][1..];
    }
  }

  lemma SendLowKeepsIds(q: Queue, setup: Setup)
    requires Housekeeping(q, setup) && q.low != []
    requires q.pathLens[q.low[|q.low| - 1].pathLen] > 0
    ensures AllIds(SendLow(q)) == AllIds(q)
  {
    var i := |q.low| - 1;
    RemoveAtTakesId(q, i);
    var r, one := RemoveAt(q, i), multiset{q.low[i].id};
    assert multiset(SendLow(q).sent) == multiset(r.sent) + one;
    MoveToSent(multiset(Ids(r.low)), multiset(Ids(r.high)), multiset(r.sent), multiset(r.dropped), one);
  }

  lemma MoveToSent(l: multiset<nat>, h: multiset<nat>, s: multiset<nat>, d: multiset<nat>, one: multiset<nat>)
    ensures (l + h + s + d) + one == l + h + (s + one) + d
  {
  }

  lemma SendHighAgrees(q: Queue, setup: Setup)
    requires HighAgrees(q, setup) && q.high != []
    ensures HighAgrees(SendHigh(q), setup) && AllIds(SendHigh(q)) == AllIds(q)
  {
    BytesOfFront(q.high);
    assert Ids(q.high) == Ids(SendHigh(q).high) + [q.high[|q.high| - 1].id];
  }

  lemma CompleteLowKeeps(q: Queue, setup: Setup)
    requires Sound(q, setup) && q.serv == Low
    ensures Sound(Complete(q, setup), setup)
  {
    RemoveAtKeeps(q, |q.low| - 1, setup);
    SendLowKeepsIds(q, setup);
    StartMakesSound(SendLow(q), setup);
  }

  lemma CompleteHighKeeps(q: Queue, setup: Setup)
    requires Sound(q, setup) && q.serv == High
    ensures Sound(Complete(q, setup), setup)
  {
    SendHighAgrees(q, setup);
    StartMakesSound(SendHigh(q), setup);
  }

  datatype Op = Receive(packet: Packet, coin: bool) | EndService

  ghost function Step(q: Queue, op: Op, setup: Setup): Outcome
    requires Sound(q, setup)
  {
    match op
    case Receive(p, coin) => Arrive(q, p, coin, setup)
    case EndService => Done(if q.serv != Nobody then Complete(q, setup) else q)
  }

  lemma StepKeeps(q: Queue, op: Op, setup: Setup)
    requires Sound(q, setup)
    ensures Step(q, op, setup).Done? ==> Sound(Step(q, op, setup).queue, setup)
  {
    match op
    case Receive(p, coin) => ArriveKeeps(q, p, coin, setup);
    case EndService =>
      if q.serv == Low { CompleteLowKeeps(q, setup); } else if q.serv == High { CompleteHighKeeps(q, setup); }
  }

  /** Nothing happens once an assertion has failed. */
  ghost function Run(ops: seq<Op>, setup: Setup): (r: Outcome)
    ensures r.Done? ==> Sound(r.queue, setup)
  {
    if ops == [] then
      assert Ids([]) == [];
      Done(Init())
    else
      var before := Run(ops[..|ops| - 1], setup);
      if before.Abort? then Abort
      else
        StepKeeps(before.queue, ops[|ops| - 1], setup);
        Step(before.queue, ops[|ops| - 1], setup)
  }

  /** In every run, as far as it goes: the histogram is the count of the list per path length, the cached maximum
      its true maximum, both assertions of `check_queued` hold, a service of LOW or HIGH finds a packet, and
      every packet is once queued, sent or dropped. */
  lemma QueueStaysSound(ops: seq<Op>, setup: Setup)
    requires Run(ops, setup).Done?
    ensures var q := Run(ops, setup).queue;
            && CheckQueued(q)
            && (forall len :: 0 <= len <= MAX_PATH_LEN ==> q.pathLens[len] == CountLen(q.low, len))
            && Longest(q.low, q.maxQueued)
            && (q.serv == Low ==> q.low != []) && (q.serv == High ==> q.high != [])
            && multiset(q.arrived) == AllIds(q)
  {
    CheckQueuedHolds(Run(ops, setup).queue, setup);
  }

  /** In every run, while the low list has packets at most `ratio.high` services in a row start for HIGH. */
  lemma LowIsBypassedBriefly(ops: seq<Op>, setup: Setup, lo: nat, hi: nat)
    requires Run(ops, setup).Done?
    requires var cs := Run(ops, setup).queue.choices;
             lo <= hi <= |cs| && forall i :: lo <= i < hi ==> cs[i].lowBusy && cs[i].high
    ensures hi - lo <= setup.ratio.high
  {
    BoundedBypass(Run(ops, setup).queue.choices, setup.ratio, lo, hi);
  }

  // ---- What the queue is used with: whole packets of one size, of which one to eight fit ----

  predicate Sized(size: nat, setup: Setup) { 0 < size <= setup.maxSize < (MAX_QUEUED + 1) * size }

  predicate Whole(p: Packet, size: nat) { p.size == size && 1 <= p.pathLen < MAX_PATH_LEN }

  predicate Uniform(low: seq<Packet>, size: nat) { forall i :: 0 <= i < |low| ==> Whole(low[i], size) }

  lemma {:induction false} UniformBytes(low: seq<Packet>, size: nat)
    requires Uniform(low, size)
    ensures Bytes(low) == |low| * size
  {
    if low != [] {
      assert Whole(low[0], size);
      forall i | 0 <= i < |low[1..]| ensures Whole(low[1..][i], size) { assert low[1..][i] == low[i + 1]; }
      UniformBytes(low[1..], size);
    }
  }

  lemma WholeSurvives(q: Queue, p: Packet, coin: bool, size: nat, setup: Setup)
    requires Sound(q, setup) && Sized(size, setup) && Uniform(q.low, size) && (p.header || Whole(p, size))
    ensures Survives(q, p, coin, setup)
  {
    UniformBytes(q.low, size);
    if !p.header {
      if Fits(q, p, setup) {
        if |q.low| >= MAX_QUEUED { MulMonotone(MAX_QUEUED, |q.low|, size); }
      } else {
        assert q.low != [] && Whole(q.low[0], size);
        if Admits(q, p, coin, setup) { ThresholdIsBelowLongest(q, p, coin, setup); }
      }
    }
  }

  lemma UniformWithout(low: seq<Packet>, i: nat, size: nat)
    requires Uniform(low, size) && i < |low|
    ensures Uniform(low[..i] + low[i + 1..], size)
  {
    var rest := low[..i] + low[i + 1..];
    forall j | 0 <= j < |rest| ensures Whole(rest[j], size) {
      assert rest[j] == if j < i then low[j] else low[j + 1];
    }
  }

  lemma RoomStaysUniform(q: Queue, p: Packet, coin: bool, size: nat, setup: Setup)
    requires Housekeeping(q, setup) && HighAgrees(q, setup) && Admits(q, p, coin, setup) && Uniform(q.low, size)
    requires MakeRoom(q, p, coin, setup).Done?
    ensures Uniform(MakeRoom(q, p, coin, setup).queue.low, size)
  {
    if !Fits(q, p, setup) {
      MakeRoomKeeps(q, p, coin, setup);
      UniformWithout(q.low, FirstLonger(q.low, Threshold(q, p)), size);
    }
  }

  lemma TakeStaysUniform(q: Queue, p: Packet, coin: bool, size: nat, setup: Setup)
    requires Housekeeping(q, setup) && HighAgrees(q, setup) && Uniform(q.low, size) && (p.header || Whole(p, size))
    requires Take(q, p, coin, setup).Done?
    ensures Uniform(Take(q, p, coin, setup).queue.low, size)
  {
    if !p.header && Admits(q, p, coin, setup) { RoomStaysUniform(q, p, coin, size, setup); }
  }

  lemma ArrivalStaysUniform(q: Queue, p: Packet, coin: bool, size: nat, setup: Setup)
    requires Sound(q, setup) && Sized(size, setup) && Uniform(q.low, size) && (p.header || Whole(p, size))
    ensures Arrive(q, p, coin, setup).Done? && Uniform(Arrive(q, p, coin, setup).queue.low, size)
  {
    WholeSurvives(q, p, coin, size, setup);
    ArriveKeeps(q, p, coin, setup);
    TakeStaysUniform(q.(arrived := q.arrived + [p.id]), p, coin, size, setup);
  }

  lemma StepStaysUniform(q: Queue, op: Op, size: nat, setup: Setup)
    requires Sound(q, setup) && Sized(size, setup) && Uniform(q.low, size)
    requires op.Receive? ==> op.packet.header || Whole(op.packet, size)
    ensures Step(q, op, setup).Done? && Uniform(Step(q, op, setup).queue.low, size)
  {
    if op.Receive? {
      ArrivalStaysUniform(q, op.packet, op.coin, size, setup);
    } else if q.serv == Low {
      RemoveAtKeeps(q, |q.low| - 1, setup);
      UniformWithout(q.low, |q.low| - 1, size);
    }
  }

  /** Then no assertion ever fails. */
  lemma {:induction false} OneSizeNeverAborts(ops: seq<Op>, size: nat, setup: Setup)
    requires Sized(size, setup)
    requires forall i :: 0 <= i < |ops| && ops[i].Receive? ==> ops[i].packet.header || Whole(ops[i].packet, size)
    ensures Run(ops, setup).Done? && Uniform(Run(ops, setup).queue.low, size)
  {
    if ops != [] {
      OneSizeNeverAborts(ops[..|ops| - 1], size, setup);
      StepStaysUniform(Run(ops[..|ops| - 1], setup).queue, ops[|ops| - 1], size, setup);
    }
  }

  // ---- Packets of different sizes, or without a path, can break an assertion ----

  const SMALL: Packet := Packet(0, 5, false, 2)
  const LARGE: Packet := Packet(1, 8, false, 1)
  const LOCAL: Packet := Packet(2, 10, false, 0)

  /** A packet that fits an idle or busy queue is in front of the low list next. */
  lemma FitArrives(q: Queue, p: Packet, setup: Setup)
    requires Sound(q, setup) && !p.header && Fits(q, p, setup) && p.pathLen < MAX_PATH_LEN && |q.low| < MAX_QUEUED
    ensures var r := Arrive(q, p, true, setup);
            && r.Done? && r.queue.low == [p] + q.low && r.queue.sizeLow == q.sizeLow + p.size
            && r.queue.maxQueued == if q.maxQueued < p.pathLen then p.pathLen else q.maxQueued
  {
    ArriveKeeps(q, p, true, setup);
  }

  lemma RunOfOneMore(ops: seq<Op>, op: Op, setup: Setup)
    requires Run(ops, setup).Done?
    ensures Run(ops + [op], setup) == Step(Run(ops, setup).queue, op, setup)
  {
    assert (ops + [op])[..|ops|] == ops;
  }

  /** Two packets of 5 bytes fill a queue of 10. One of 8 has a shorter path and evicts one of them, but does not
      fit in its place. */
  lemma MixedSizesFail(ratio: Ratio)
    ensures var small := Receive(SMALL, true);
            Run([small] + [small] + [Receive(LARGE, true)], Setup(10, ratio)).Abort?
  {
    var setup, small := Setup(10, ratio), Receive(SMALL, true);
    assert [] + [small] == [small];
    RunOfOneMore([], small, setup);
    FitArrives(Init(), SMALL, setup);
    RunOfOneMore([small], small, setup);
    FitArrives(Run([small], setup).queue, SMALL, setup);
    var q := Run([small] + [small], setup).queue;
    assert q.low == [SMALL, SMALL];
    RunOfOneMore([small] + [small], Receive(LARGE, true), setup);
    ArriveKeeps(q, LARGE, true, setup);
  }

  /** A packet with a path of 0 meets its like in a full queue, and the coin toss is for it. */
  lemma ZeroPathFails(ratio: Ratio)
    ensures var local := Receive(LOCAL, true); Run([local] + [local], Setup(10, ratio)).Abort?
  {
    var setup, local := Setup(10, ratio), Receive(LOCAL, true);
    assert [] + [local] == [local];
    RunOfOneMore([], local, setup);
    FitArrives(Init(), LOCAL, setup);
    var q := Run([local], setup).queue;
    assert q.low == [LOCAL];
    RunOfOneMore([local], local, setup);
    ArriveKeeps(q, LOCAL, true, setup);
  }

  // ---- The object ----

  class CompositePrioQueue {
    const setup: Setup
    const enqueuedPathLens: array<nat>
    var enqueuedLow: seq<Packet>
    var enqueuedHigh: seq<Packet>
    var queuesizeLow: int
    var queuesizeHigh: int
    var maxPathLenQueued: nat
    var maxPathLenSeen: nat
    var serv: Serv
    var crt: nat
    var aborted: bool         // an assertion has failed
    ghost var arrived: seq<nat>
    ghost var sent: seq<nat>
    ghost var dropped: seq<nat>
    ghost var choices: seq<Choice>

    ghost function View(): Queue
      reads this, enqueuedPathLens
    {
      Queue(enqueuedLow, enqueuedHigh, queuesizeLow, queuesizeHigh, enqueuedPathLens[..], maxPathLenQueued,
            maxPathLenSeen, serv, crt, arrived, sent, dropped, choices)
    }

    constructor (setup: Setup)
      ensures View() == Init() && !aborted && this.setup == setup && fresh(enqueuedPathLens)
    {
      this.setup := setup;
      enqueuedPathLens := new nat[MAX_PATH_LEN + 1](_ => 0);
      enqueuedLow, enqueuedHigh, queuesizeLow, queuesizeHigh := [], [], 0, 0;
      maxPathLenQueued, maxPathLenSeen, serv, crt, aborted := 0, 0, Nobody, 0, false;
      arrived, sent, dropped, choices := [], [], [], [];
      new;
      assert enqueuedPathLens[..] == Init().pathLens;
    }

    /** `check_queued`: recomputes the maximum and the total, and asserts both. */
    method AssertQueued()
      requires enqueuedPathLens.Length == MAX_PATH_LEN + 1
      modifies this`aborted
      ensures aborted == (old(aborted) || !CheckQueued(View()))
    {
      var maxPath, totalQueued := 0, 0;
      for i := 0 to MAX_PATH_LEN
        invariant maxPath == Highest(enqueuedPathLens[..], i) && totalQueued == Total(enqueuedPathLens[..], i)
      {
        if enqueuedPathLens[i] > 0 {
          maxPath := i;
          totalQueued := totalQueued + enqueuedPathLens[i];
        }
      }
      aborted := aborted || maxPath != maxPathLenQueued || totalQueued > MAX_QUEUED;
    }

    /** `find_max_path_len_queued`. */
    method FindMaxPathLenQueued()
      requires maxPathLenSeen < enqueuedPathLens.Length
      modifies this`maxPathLenQueued
      ensures maxPathLenQueued == if enqueuedLow == [] then 0 else FindMax(enqueuedPathLens[..], maxPathLenSeen)
    {
      maxPathLenQueued := 0;
      if enqueuedLow == [] { return; }
      var i: int := maxPathLenSeen;
      while i >= 0
        invariant -1 <= i <= maxPathLenSeen
        invariant maxPathLenQueued == 0
        invariant FindMax(enqueuedPathLens[..], maxPathLenSeen) == if i < 0 then 0 else FindMax(enqueuedPathLens[..], i)
      {
        if enqueuedPathLens[i] > 0 {
          maxPathLenQueued := i;
          return;
        }
        i := i - 1;
      }
    }

    method EnqueuePacket(pkt: Packet)
      requires enqueuedPathLens.Length == MAX_PATH_LEN + 1 && !aborted
      modifies this, enqueuedPathLens
      ensures aborted <==> Enqueue(old(View()), pkt).Abort?
      ensures !aborted ==> View() == Enqueue(old(View()), pkt).queue
    {
      enqueuedLow := [pkt] + enqueuedLow;
      queuesizeLow := queuesizeLow + pkt.size;
      if maxPathLenQueued < pkt.pathLen {
        maxPathLenQueued := pkt.pathLen;
        if maxPathLenSeen < maxPathLenQueued {
          maxPathLenSeen := maxPathLenQueued;
        }
      }
      if pkt.pathLen >= enqueuedPathLens.Length {
        aborted := true;
        return;
      }
      enqueuedPathLens[pkt.pathLen] := enqueuedPathLens[pkt.pathLen] + 1;
      assert enqueuedPathLens[..] == Stored(old(View()), pkt).pathLens;
      assert View() == Stored(old(View()), pkt);
      AssertQueued();
    }

    /** The last packet with the longest path may have gone. */
    method UpdateLongest(pathLen: nat)
      requires pathLen < enqueuedPathLens.Length && maxPathLenSeen < enqueuedPathLens.Length
      modifies this`maxPathLenQueued
      ensures maxPathLenQueued ==
                if pathLen != old(maxPathLenQueued) || enqueuedPathLens[pathLen] > 0 then old(maxPathLenQueued)
                else if enqueuedLow == [] then 0 else FindMax(enqueuedPathLens[..], maxPathLenSeen)
    {
      if pathLen == maxPathLenQueued && enqueuedPathLens[pathLen] == 0 {
        FindMaxPathLenQueued();
      }
    }

    /** Takes the packet at an index of the low list out, with all its housekeeping. */
    method TakeOut(i: nat) returns (pkt: Packet)
      requires Housekeeping(View(), setup) && i < |enqueuedLow|
      modifies this, enqueuedPathLens
      ensures aborted == old(aborted) && pkt == old(enqueuedLow)[i] && enqueuedPathLens.Length == MAX_PATH_LEN + 1
      ensures pkt.pathLen < MAX_PATH_LEN && old(View()).pathLens[pkt.pathLen] > 0
      ensures View() == RemoveAt(old(View()), i)
    {
      RemoveAtKeeps(View(), i, setup);
      CheckQueuedHolds(RemoveAt(View(), i), setup);
      pkt := enqueuedLow[i];
      enqueuedLow := enqueuedLow[..i] + enqueuedLow[i + 1..];
      queuesizeLow := queuesizeLow - pkt.size;
      var pathLen := pkt.pathLen;
      assert enqueuedPathLens[pathLen] > 0;
      enqueuedPathLens[pathLen] := enqueuedPathLens[pathLen] - 1;
      assert enqueuedPathLens[..] == RemoveAt(old(View()), i).pathLens;
      UpdateLongest(pathLen);
      assert View() == RemoveAt(old(View()), i);
      AssertQueued();
    }

    /** Pushes a header, or drops it when the high list is full. */
    method PushHeader(pkt: Packet)
      modifies this
      ensures aborted == old(aborted) && View() == StoreHeader(old(View()), pkt, setup)
    {
      if queuesizeHigh + pkt.size > setup.maxSize {
        dropped := dropped + [pkt.id];
      } else {
        enqueuedHigh := [pkt] + enqueuedHigh;
        queuesizeHigh := queuesizeHigh + pkt.size;
      }
    }

    /** `trim_low_priority_packet`. */
    method TrimLowPriorityPacket(prio: nat)
      requires Housekeeping(View(), setup) && prio < maxPathLenQueued
      modifies this, enqueuedPathLens
      ensures View() == Trim(old(View()), prio, setup)
      ensures aborted == old(aborted) && enqueuedPathLens.Length == MAX_PATH_LEN + 1
    {
      LongerExists(enqueuedLow, prio, maxPathLenQueued);
      var i := 0;
      while enqueuedLow[i].pathLen <= prio
        invariant i <= FirstLonger(enqueuedLow, prio) < |enqueuedLow|
        decreases |enqueuedLow| - i
      {
        i := i + 1;
      }
      assert i == FirstLonger(enqueuedLow, prio);
      var booted := TakeOut(i);
      PushHeader(Strip(booted));
    }

    method BeginService()
      requires enqueuedLow != [] || enqueuedHigh != []
      modifies this`serv, this`crt, this`choices
      ensures View() == Begin(old(View()), setup)
    {
      if enqueuedHigh != [] && enqueuedLow != [] {
        crt := crt + 1;
        if crt >= setup.ratio.high + setup.ratio.low {
          crt := 0;
        }
        serv := if crt < setup.ratio.high then High else Low;
      } else {
        serv := if enqueuedHigh != [] then High else Low;
      }
      choices := choices + [Choice(enqueuedHigh != [], enqueuedLow != [], serv == High)];
    }

    method ServeNext()
      modifies this`serv, this`crt, this`choices
      ensures View() == StartIfIdle(old(View()), setup)
    {
      if serv == Nobody && (enqueuedLow != [] || enqueuedHigh != []) {
        BeginService();
      }
    }

    /** Evicts a packet if an admitted one does not fit. */
    method EnsureRoom(pkt: Packet, coin: bool)
      requires Housekeeping(View(), setup) && Admits(View(), pkt, coin, setup) && !aborted
      modifies this, enqueuedPathLens
      ensures aborted <==> MakeRoom(old(View()), pkt, coin, setup).Abort?
      ensures !aborted ==> View() == MakeRoom(old(View()), pkt, coin, setup).queue
    {
      if queuesizeLow + pkt.size > setup.maxSize {
        if pkt.pathLen < maxPathLenQueued {
          TrimLowPriorityPacket(pkt.pathLen);
        } else if pkt.pathLen == 0 || pkt.pathLen - 1 >= maxPathLenQueued {
          aborted := true;
        } else {
          TrimLowPriorityPacket(pkt.pathLen - 1);
        }
      }
      aborted := aborted || queuesizeLow + pkt.size > setup.maxSize;
    }

    /** The object aborts exactly when the specified arrival does. */
    method ReceivePacket(pkt: Packet, coin: bool)
      requires Sound(View(), setup) && !aborted
      modifies this, enqueuedPathLens
      ensures aborted <==> Arrive(old(View()), pkt, coin, setup).Abort?
      ensures !aborted ==> View() == Arrive(old(View()), pkt, coin, setup).queue && Sound(View(), setup)
    {
      ArriveKeeps(View(), pkt, coin, setup);
      arrived := arrived + [pkt.id];
      TakePacket(pkt, coin);
      if !aborted { ServeNext(); }
    }

    method TakePacket(pkt: Packet, coin: bool)
      requires Housekeeping(View(), setup) && !aborted
      modifies this, enqueuedPathLens
      ensures aborted <==> Take(old(View()), pkt, coin, setup).Abort?
      ensures !aborted ==> View() == Take(old(View()), pkt, coin, setup).queue
    {
      if pkt.header {
        PushHeader(pkt);
      } else if queuesizeLow + pkt.size > setup.maxSize && enqueuedLow == [] {
        aborted := true;
      } else if queuesizeLow + pkt.size <= setup.maxSize || (pkt.pathLen == enqueuedLow[0].pathLen && coin)
                || pkt.pathLen < maxPathLenQueued {
        StoreAdmitted(pkt, coin);
      } else {
        PushHeader(Strip(pkt));
      }
    }

    method StoreAdmitted(pkt: Packet, coin: bool)
      requires Housekeeping(View(), setup) && Admits(View(), pkt, coin, setup) && !aborted
      modifies this, enqueuedPathLens
      ensures aborted <==> Store(old(View()), pkt, coin, setup).Abort?
      ensures !aborted ==> View() == Store(old(View()), pkt, coin, setup).queue
    {
      ghost var was := View();
      EnsureRoom(pkt, coin);
      if !aborted {
        RoomHasShape(was, pkt, coin, setup);
        EnqueuePacket(pkt);
      }
    }

    /** Takes the oldest header. */
    method TakeHeader() returns (pkt: Packet)
      requires enqueuedHigh != []
      modifies this`enqueuedHigh, this`queuesizeHigh
      ensures pkt == old(enqueuedHigh)[|old(enqueuedHigh)| - 1]
      ensures enqueuedHigh == old(enqueuedHigh)[..|old(enqueuedHigh)| - 1]
      ensures queuesizeHigh == old(queuesizeHigh) - pkt.size
    {
      pkt := enqueuedHigh[|enqueuedHigh| - 1];
      enqueuedHigh := enqueuedHigh[..|enqueuedHigh| - 1];
      queuesizeHigh := queuesizeHigh - pkt.size;
    }

    method TakeServed() returns (pkt: Packet)
      requires Sound(View(), setup) && serv != Nobody
      modifies this, enqueuedPathLens
      ensures old(serv) == Low ==> old(View()).pathLens[old(enqueuedLow)[|old(enqueuedLow)| - 1].pathLen] > 0
      ensures aborted == old(aborted)
      ensures View() == if old(serv) == Low then SendLow(old(View())) else SendHigh(old(View()))
      ensures pkt == var list := if old(serv) == Low then old(enqueuedLow) else old(enqueuedHigh); list[|list| - 1]
    {
      if serv == Low {
        pkt := TakeOut(|enqueuedLow| - 1);
      } else {
        pkt := TakeHeader();
      }
      sent := sent + [pkt.id];
      serv := Nobody;
    }

    /** `completeService`: returns the packet that is sent on. */
    method CompleteService() returns (pkt: Packet)
      requires Sound(View(), setup) && serv != Nobody
      modifies this, enqueuedPathLens
      ensures aborted == old(aborted) && View() == Complete(old(View()), setup)
      ensures pkt == var list := if old(serv) == Low then old(enqueuedLow) else old(enqueuedHigh); list[|list| - 1]
    {
      pkt := TakeServed();
      ServeNext();
    }
  }
}

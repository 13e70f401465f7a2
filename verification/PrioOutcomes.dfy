/**
 What a `CompositePrioQueue` does with each packet, said without its own functions: which packets are kept whole,
 which one is evicted, and when a header is queued or dropped.
 */
module PrioOutcomes {
  import opened WeightedService
  import opened CompositePrioQueue

  /** A header joins the newest end of HIGH exactly when it fits, and is dropped exactly when it does not. */
  ghost predicate HeaderJoins(q: Queue, r: Queue, h: Packet, setup: Setup) {
    if Bytes(q.high) + h.size <= setup.maxSize then r.high == [h] + q.high && r.dropped == q.dropped
    else r.high == q.high && r.dropped == q.dropped + [h.id]
  }

  ghost predicate NoHeader(q: Queue, r: Queue) { r.high == q.high && r.dropped == q.dropped }

  function Trimmed(p: Packet): Packet { p.(header := true, size := 64) }

  /** Some queued packet has a longer path. */
  ghost predicate Longer(q: Queue, p: Packet) { exists i :: 0 <= i < |q.low| && q.low[i].pathLen > p.pathLen }

  /** The packet at `i` gives way to `p`: its path is longer or, if no path is longer, as long. */
  ghost predicate GivesWay(q: Queue, p: Packet, i: nat)
    requires i < |q.low|
  {
    if Longer(q, p) then q.low[i].pathLen > p.pathLen else q.low[i].pathLen >= p.pathLen
  }

  /** The newest packet that gives way. */
  ghost predicate IsVictim(q: Queue, p: Packet, i: nat) {
    i < |q.low| && GivesWay(q, p, i) && forall j :: 0 <= j < i ==> !GivesWay(q, p, j)
  }

  /** A full queue takes the packet for another one: of a longer path, or by the coin for its like. */
  ghost predicate Wins(q: Queue, p: Packet, coin: bool) {
    Longer(q, p) || (q.low != [] && q.low[0].pathLen == p.pathLen && coin)
  }

  /** What an arrival that breaks no assertion leaves. */
  ghost predicate Goes(q: Queue, p: Packet, coin: bool, r: Queue, setup: Setup) {
    if p.header then r.low == q.low && HeaderJoins(q, r, p, setup)
    else if Bytes(q.low) + p.size <= setup.maxSize then r.low == [p] + q.low && NoHeader(q, r)
    else if Wins(q, p, coin) then
      exists i: nat :: IsVictim(q, p, i) && Replaced(q, p, i, r, setup)
    else r.low == q.low && HeaderJoins(q, r, Trimmed(p), setup)
  }

  ghost predicate Replaced(q: Queue, p: Packet, i: nat, r: Queue, setup: Setup)
    requires i < |q.low|
  {
    r.low == [p] + (q.low[..i] + q.low[i + 1..]) && HeaderJoins(q, r, Trimmed(q.low[i]), setup)
  }

  lemma StoreJoins(q: Queue, p: Packet, setup: Setup)
    requires HighAgrees(q, setup)
    ensures HeaderJoins(q, StoreHeader(q, p, setup), p, setup) && StoreHeader(q, p, setup).low == q.low
  {
  }

  lemma LongestIsLonger(q: Queue, p: Packet)
    requires Longest(q.low, q.maxQueued)
    ensures p.pathLen < q.maxQueued <==> Longer(q, p)
  {
    if p.pathLen < q.maxQueued {
      var i :| 0 <= i < |q.low| && q.low[i].pathLen == q.maxQueued;
      assert q.low[i].pathLen > p.pathLen;
    }
  }

  lemma AdmitsExactly(q: Queue, p: Packet, coin: bool, setup: Setup)
    requires Longest(q.low, q.maxQueued) && q.sizeLow == Bytes(q.low)
    ensures Admits(q, p, coin, setup) <==> Bytes(q.low) + p.size <= setup.maxSize || Wins(q, p, coin)
  {
    LongestIsLonger(q, p);
  }

  /** The packet found by the search is the newest that gives way. */
  lemma FoundIsVictim(q: Queue, p: Packet)
    requires Longest(q.low, q.maxQueued) && 0 <= Threshold(q, p) < q.maxQueued
    ensures IsVictim(q, p, FirstLonger(q.low, Threshold(q, p)))
  {
    LongestIsLonger(q, p);
    LongerExists(q.low, Threshold(q, p), q.maxQueued);
  }

  lemma EvictionReplaces(q: Queue, p: Packet, coin: bool, setup: Setup)
    requires Housekeeping(q, setup) && HighAgrees(q, setup) && Admits(q, p, coin, setup) && !Fits(q, p, setup)
    requires Store(q, p, coin, setup).Done?
    ensures var i := if Threshold(q, p) >= 0 then FirstLonger(q.low, Threshold(q, p)) else 0;
            IsVictim(q, p, i) && Replaced(q, p, i, Store(q, p, coin, setup).queue, setup)
  {
    FoundIsVictim(q, p);
    var i := FirstLonger(q.low, Threshold(q, p));
    RemoveAtKeeps(q, i, setup);
    StoreJoins(RemoveAt(q, i), Strip(q.low[i]), setup);
  }

  lemma TakeGoes(q: Queue, p: Packet, coin: bool, setup: Setup)
    requires Housekeeping(q, setup) && HighAgrees(q, setup) && Take(q, p, coin, setup).Done?
    ensures Goes(q, p, coin, Take(q, p, coin, setup).queue, setup)
  {
    AdmitsExactly(q, p, coin, setup);
    if p.header {
      StoreJoins(q, p, setup);
    } else if !Admits(q, p, coin, setup) {
      StoreJoins(q, Strip(p), setup);
    } else if !Fits(q, p, setup) {
      EvictionReplaces(q, p, coin, setup);
    }
  }

  lemma StartGoes(q: Queue, p: Packet, coin: bool, r: Queue, setup: Setup)
    requires Goes(q, p, coin, r, setup)
    ensures Goes(q, p, coin, StartIfIdle(r, setup), setup)
  {
    var s := StartIfIdle(r, setup);
    assert s.low == r.low && s.high == r.high && s.dropped == r.dropped;
    if !p.header && Bytes(q.low) + p.size > setup.maxSize && Wins(q, p, coin) {
      var i: nat :| IsVictim(q, p, i) && Replaced(q, p, i, r, setup);
      assert Replaced(q, p, i, s, setup);
    }
  }

  /** Of an arrival that breaks no assertion: a packet that fits is kept whole and evicts nothing; one that does not
      takes the place of the newest packet that gives way, or is trimmed; and each header that this makes, like each
      one that arrives, is queued exactly when it fits. */
  lemma ArrivalGoesItsWay(q: Queue, p: Packet, coin: bool, setup: Setup)
    requires Sound(q, setup) && Step(q, Receive(p, coin), setup).Done?
    ensures Goes(q, p, coin, Step(q, Receive(p, coin), setup).queue, setup)
  {
    var a := q.(arrived := q.arrived + [p.id]);
    TakeGoes(a, p, coin, setup);
    SameLists(q, a, p, coin, Take(a, p, coin, setup).queue, setup);
    StartGoes(q, p, coin, Take(a, p, coin, setup).queue, setup);
  }

  lemma SameLists(q: Queue, a: Queue, p: Packet, coin: bool, r: Queue, setup: Setup)
    requires Goes(a, p, coin, r, setup) && a.low == q.low && a.high == q.high && a.dropped == q.dropped
    ensures Goes(q, p, coin, r, setup)
  {
    assert Longer(q, p) == Longer(a, p);
    if !p.header && Bytes(q.low) + p.size > setup.maxSize && Wins(q, p, coin) {
      var i: nat :| IsVictim(a, p, i) && Replaced(a, p, i, r, setup);
      forall j | 0 <= j < i ensures !GivesWay(q, p, j) { assert !GivesWay(a, p, j); }
      assert IsVictim(q, p, i) && Replaced(q, p, i, r, setup);
    }
  }

  /** The end of a service: the oldest packet of the list served leaves, and the lists are otherwise as they were. */
  lemma ServiceTakesOldest(q: Queue, setup: Setup)
    requires Sound(q, setup) && q.serv != Nobody
    ensures Step(q, EndService, setup).Done?
    ensures var r := Step(q, EndService, setup).queue;
            if q.serv == Low then
              && q.low != [] && r.low == q.low[..|q.low| - 1] && r.high == q.high
              && r.sent == q.sent + [q.low[|q.low| - 1].id] && r.dropped == q.dropped
            else
              && q.high != [] && r.high == q.high[..|q.high| - 1] && r.low == q.low
              && r.sent == q.sent + [q.high[|q.high| - 1].id] && r.dropped == q.dropped
  {
    if q.serv == Low { RemoveAtKeeps(q, |q.low| - 1, setup); }
  }
}

/** The choice `beginService` makes between two queues, for any ratio of high to low. */
module WeightedService {
  import opened Arith

  /** How many turns of a round go to each queue; the constructors set 20 or 10 to 1. */
  datatype Ratio = Ratio(high: nat, low: Size)

  function Round(r: Ratio): Size { r.high + r.low }

  /** One decision: which queues had packets, and whether HIGH was chosen. */
  datatype Choice = Choice(highBusy: bool, lowBusy: bool, high: bool)

  predicate Contended(c: Choice) { c.highBusy && c.lowBusy }

  /** The round counter `_crt` advances only when both queues have packets. */
  function Advance(crt: nat, r: Ratio): nat {
    if crt + 1 >= Round(r) then 0 else crt + 1
  }

  function NextCrt(crt: nat, highBusy: bool, lowBusy: bool, r: Ratio): nat {
    if highBusy && lowBusy then Advance(crt, r) else crt
  }

  /** `beginService`: by turn when both queues have packets, else whichever has. */
  function ServesHigh(crt: nat, highBusy: bool, lowBusy: bool, r: Ratio): bool {
    if highBusy && lowBusy then Advance(crt, r) < r.high else highBusy
  }

  function CrtAfter(cs: seq<Choice>, r: Ratio): nat {
    if cs == [] then 0
    else NextCrt(CrtAfter(cs[..|cs| - 1], r), cs[|cs| - 1].highBusy, cs[|cs| - 1].lowBusy, r)
  }

  /** A history of decisions that `beginService` makes, from the first one on. */
  ghost predicate Follows(cs: seq<Choice>, r: Ratio) { forall i :: 0 <= i < |cs| ==> FollowsAt(cs, i, r) }

  ghost predicate FollowsAt(cs: seq<Choice>, i: nat, r: Ratio)
    requires i < |cs|
  {
    && (cs[i].highBusy || cs[i].lowBusy)
    && cs[i].high == ServesHigh(CrtAfter(cs[..i], r), cs[i].highBusy, cs[i].lowBusy, r)
  }

  lemma {:induction false} CrtInRange(cs: seq<Choice>, r: Ratio)
    ensures CrtAfter(cs, r) < Round(r)
  {
    if cs != [] { CrtInRange(cs[..|cs| - 1], r); }
  }

  lemma CrtSnoc(cs: seq<Choice>, i: nat, r: Ratio)
    requires i < |cs|
    ensures CrtAfter(cs[..i + 1], r) == NextCrt(CrtAfter(cs[..i], r), cs[i].highBusy, cs[i].lowBusy, r)
  {
    assert cs[..i + 1][..i] == cs[..i];
  }

  lemma FollowsSnoc(cs: seq<Choice>, c: Choice, r: Ratio)
    requires Follows(cs, r) && (c.highBusy || c.lowBusy)
    requires c.high == ServesHigh(CrtAfter(cs, r), c.highBusy, c.lowBusy, r)
    ensures Follows(cs + [c], r)
    ensures CrtAfter(cs + [c], r) == NextCrt(CrtAfter(cs, r), c.highBusy, c.lowBusy, r)
  {
    var ds := cs + [c];
    assert ds[..|cs|] == cs;
    forall i | 0 <= i < |ds| ensures FollowsAt(ds, i, r) {
      if i < |cs| {
        assert FollowsAt(cs, i, r);
        assert ds[..i] == cs[..i];
      }
    }
  }

  // ---- Which decisions go to HIGH ----

  /** The decisions between two busy queues. */
  function ContendedCount(cs: seq<Choice>): nat {
    if cs == [] then 0 else ContendedCount(cs[..|cs| - 1]) + (if Contended(cs[|cs| - 1]) then 1 else 0)
  }

  /** The counter is the number of those decisions, modulo a round: no other decision moves it. */
  lemma {:induction false} CrtCountsContended(cs: seq<Choice>, r: Ratio)
    ensures CrtAfter(cs, r) == ContendedCount(cs) % Round(r)
  {
    if cs != [] {
      CrtCountsContended(cs[..|cs| - 1], r);
      NextResidue(ContendedCount(cs[..|cs| - 1]), Round(r));
    }
  }

  lemma NextResidue(n: nat, m: Size)
    ensures (n + 1) % m == if n % m + 1 == m then 0 else n % m + 1
  {
    var q, s := n / m, n % m;
    assert n == q * m + s;
    if s + 1 == m {
      assert n + 1 == (q + 1) * m;
      MultipleOf(q + 1, m);
    } else {
      ResidueIs(q, s + 1, m);
    }
  }

  lemma ResidueIs(q: nat, s: nat, m: Size)
    requires s < m
    ensures (q * m + s) % m == s
  {
    var n := q * m + s;
    assert n == n / m * m + n % m;
    if n / m < q { MulStrict(n / m, q, m); }
    if q < n / m { MulStrict(q, n / m, m); }
  }

  /** The n-th decision between two busy queues goes to HIGH if and only if n modulo a round is below `high`; a
      queue that is alone is served. */
  lemma ChoiceExactly(cs: seq<Choice>, r: Ratio, i: nat)
    requires Follows(cs, r) && i < |cs|
    ensures Contended(cs[i]) ==> (cs[i].high <==> ContendedCount(cs[..i + 1]) % (r.high + r.low) < r.high)
    ensures !Contended(cs[i]) ==> (cs[i].high <==> cs[i].highBusy) && (!cs[i].high ==> cs[i].lowBusy)
  {
    assert FollowsAt(cs, i, r);
    CrtSnoc(cs, i, r);
    CrtCountsContended(cs[..i + 1], r);
  }

  // ---- How long LOW can wait ----

  /** HIGH decisions at the end of the first `n`. */
  function HighRun(cs: seq<Choice>, n: nat): nat
    requires n <= |cs|
  {
    if n > 0 && cs[n - 1].high then HighRun(cs, n - 1) + 1 else 0
  }

  function Lows(cs: seq<Choice>, lo: nat, hi: nat): nat
    requires lo <= hi <= |cs|
  {
    if lo == hi then 0 else Lows(cs, lo, hi - 1) + (if cs[hi - 1].high then 0 else 1)
  }

  /** While LOW has packets, a run of HIGH decisions counts up `_crt` and never wraps it. */
  lemma {:induction false} HighRunCountsUp(cs: seq<Choice>, r: Ratio, lo: nat, hi: nat)
    requires Follows(cs, r) && lo < hi <= |cs|
    requires forall i :: lo <= i < hi ==> cs[i].lowBusy && cs[i].high
    ensures hi - lo <= CrtAfter(cs[..hi], r) + 1 <= r.high
    decreases hi
  {
    CrtSnoc(cs, hi - 1, r);
    assert FollowsAt(cs, hi - 1, r);
    if lo < hi - 1 {
      HighRunCountsUp(cs, r, lo, hi - 1);
    }
  }

  /** Bounded bypass: while LOW has packets, at most `ratio.high` decisions in a row go to HIGH. */
  lemma BoundedBypass(cs: seq<Choice>, r: Ratio, lo: nat, hi: nat)
    requires Follows(cs, r) && lo <= hi <= |cs|
    requires forall i :: lo <= i < hi ==> cs[i].lowBusy && cs[i].high
    ensures hi - lo <= r.high
  {
    if lo < hi { HighRunCountsUp(cs, r, lo, hi); }
  }

  lemma OneMore(k: nat, n: nat)
    ensures (k + 1) * n == k * n + n
  {
  }

  /** `since` is where the run of HIGH decisions at the end began. */
  lemma {:induction false} LowsKeepUp(cs: seq<Choice>, r: Ratio, lo: nat, hi: nat) returns (since: nat)
    requires Follows(cs, r) && lo <= hi <= |cs|
    requires forall i :: lo <= i < hi ==> cs[i].lowBusy
    ensures lo <= since <= hi && forall i :: since <= i < hi ==> cs[i].high
    ensures hi - lo <= Lows(cs, lo, hi) * (r.high + 1) + (hi - since)
    decreases hi
  {
    since := lo;
    if lo < hi {
      since := LowsKeepUp(cs, r, lo, hi - 1);
      if !cs[hi - 1].high {
        BoundedBypass(cs, r, since, hi - 1);
        OneMore(Lows(cs, lo, hi - 1), r.high + 1);
        since := hi;
      }
    }
  }

  /** Of any `k * (high + 1)` decisions made while LOW has packets, at least `k` go to LOW; so the k-th low
      packet starts service within `k * (high + low)` decisions. */
  lemma LowIsServed(cs: seq<Choice>, r: Ratio, lo: nat, hi: nat, k: nat)
    requires Follows(cs, r) && lo <= hi <= |cs|
    requires forall i :: lo <= i < hi ==> cs[i].lowBusy
    requires hi - lo >= k * (r.high + 1)
    ensures Lows(cs, lo, hi) >= k
    ensures k * (r.high + 1) <= k * (r.high + r.low)
  {
    var since := LowsKeepUp(cs, r, lo, hi);
    BoundedBypass(cs, r, since, hi);
    MulMonotone(r.high + 1, r.high + r.low, k);
    assert k * (r.high + 1) == (r.high + 1) * k && k * (r.high + r.low) == (r.high + r.low) * k;
    if Lows(cs, lo, hi) < k {
      MulStrict(Lows(cs, lo, hi), k, r.high + 1);
    }
  }

  // ---- Exact shares under contention ----

  /** `_crt` after `m <= Round` contended decisions from `crt`. */
  function Ahead(crt: nat, m: nat, r: Ratio): nat {
    if crt + m < Round(r) then crt + m else crt + m - Round(r)
  }

  /** The decisions for HIGH among `m` contended ones from `crt`. */
  function Highs(crt: nat, m: nat, r: Ratio): nat {
    if m == 0 then 0 else Highs(crt, m - 1, r) + (if Ahead(crt, m, r) < r.high then 1 else 0)
  }

  lemma {:induction false} HighsShift(crt: nat, m: nat, r: Ratio)
    requires crt < Round(r) && m < Round(r)
    ensures Highs(crt, m + 1, r) ==
            (if Advance(crt, r) < r.high then 1 else 0) + Highs(Advance(crt, r), m, r)
  {
    if m > 0 { HighsShift(crt, m - 1, r); }
  }

  lemma {:induction false} HighsFromStart(m: nat, r: Ratio)
    requires m <= Round(r)
    ensures Highs(Round(r) - 1, m, r) == if m <= r.high then m else r.high
  {
    if m > 0 { HighsFromStart(m - 1, r); }
  }

  /** A full round has exactly `high` decisions for HIGH, wherever it starts. */
  lemma {:induction false} FullRound(crt: nat, r: Ratio)
    requires crt < Round(r)
    ensures Highs(crt, Round(r), r) == r.high
    decreases Round(r) - crt
  {
    if crt == Round(r) - 1 {
      HighsFromStart(Round(r), r);
    } else {
      FullRound(crt + 1, r);
      HighsShift(crt, Round(r) - 1, r);
    }
  }

  function HighsIn(cs: seq<Choice>, lo: nat, hi: nat): nat
    requires lo <= hi <= |cs|
  {
    if lo == hi then 0 else HighsIn(cs, lo, hi - 1) + (if cs[hi - 1].high then 1 else 0)
  }

  lemma AheadStep(crt: nat, m: nat, r: Ratio)
    requires crt < Round(r) && m < Round(r)
    ensures Advance(Ahead(crt, m, r), r) == Ahead(crt, m + 1, r)
  {
  }

  lemma ContendedChoice(cs: seq<Choice>, r: Ratio, i: nat)
    requires Follows(cs, r) && i < |cs| && Contended(cs[i])
    ensures CrtAfter(cs[..i + 1], r) == Advance(CrtAfter(cs[..i], r), r)
    ensures cs[i].high <==> CrtAfter(cs[..i + 1], r) < r.high
  {
    CrtSnoc(cs, i, r);
    assert FollowsAt(cs, i, r);
  }

  lemma {:induction false} ContendedHighs(cs: seq<Choice>, r: Ratio, lo: nat, hi: nat, crt: nat)
    requires Follows(cs, r) && lo <= hi <= |cs| && hi - lo <= Round(r)
    requires forall i :: lo <= i < hi ==> Contended(cs[i])
    requires crt == CrtAfter(cs[..lo], r) < Round(r)
    ensures HighsIn(cs, lo, hi) == Highs(crt, hi - lo, r)
    ensures CrtAfter(cs[..hi], r) == Ahead(crt, hi - lo, r)
    decreases hi
  {
    if lo < hi {
      ContendedHighs(cs, r, lo, hi - 1, crt);
      ContendedChoice(cs, r, hi - 1);
      AheadStep(crt, hi - 1 - lo, r);
    }
  }

  /** The ratio is exact: of any `high + low` consecutive decisions between two busy queues, exactly `high`
      go to HIGH. */
  lemma ContendedRoundIsExact(cs: seq<Choice>, r: Ratio, lo: nat)
    requires Follows(cs, r) && lo + Round(r) <= |cs|
    requires forall i :: lo <= i < lo + Round(r) ==> Contended(cs[i])
    ensures HighsIn(cs, lo, lo + Round(r)) == r.high
  {
    CrtInRange(cs[..lo], r);
    ContendedHighs(cs, r, lo, lo + Round(r), CrtAfter(cs[..lo], r));
    FullRound(CrtAfter(cs[..lo], r), r);
  }
}

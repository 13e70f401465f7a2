/** What a pacer allows: the history of its firings and of the packets that left, and the rate they bound. */
module BbrPacing {
  import opened Arith

  /** A firing carries the interpacket delay in force when it happened. */
  datatype Pace = Fired(at: nat, delay: nat) | Sent(at: nat)

  /** Nothing in the history is later than `t`. */
  ghost predicate Past(h: seq<Pace>, t: nat) { forall i :: 0 <= i < |h| ==> h[i].at <= t }

  /** Every firing is at least `delay` before `t`. */
  ghost predicate Clear(h: seq<Pace>, delay: nat, t: nat) {
    forall i :: 0 <= i < |h| && h[i].Fired? ==> h[i].at + delay <= t
  }

  predicate EndsFired(h: seq<Pace>) { h != [] && h[|h| - 1].Fired? }

  /** Time does not run back, a firing keeps its delay from those before it, and each packet uses up the
      firing just before it. */
  ghost predicate Sound(h: seq<Pace>) {
    h == [] ||
    var g, e := h[..|h| - 1], h[|h| - 1];
    Sound(g) && Past(g, e.at) && (if e.Fired? then Clear(g, e.delay, e.at) else EndsFired(g))
  }

  /** Every delay in force was at least `d`. */
  ghost predicate Delayed(h: seq<Pace>, d: nat) { forall i :: 0 <= i < |h| && h[i].Fired? ==> h[i].delay >= d }

  // ---- Counting within a closed interval ----

  function Firings(h: seq<Pace>, lo: nat, hi: nat): nat {
    if h == [] then 0
    else
      var e := h[|h| - 1];
      Firings(h[..|h| - 1], lo, hi) + (if e.Fired? && lo <= e.at <= hi then 1 else 0)
  }

  function Sends(h: seq<Pace>, lo: nat, hi: nat): nat {
    if h == [] then 0
    else
      var e := h[|h| - 1];
      Sends(h[..|h| - 1], lo, hi) + (if e.Sent? && lo <= e.at <= hi then 1 else 0)
  }

  lemma {:induction false} NothingBefore(h: seq<Pace>, lo: nat, hi: nat)
    requires forall i :: 0 <= i < |h| ==> h[i].at < lo
    ensures Firings(h, lo, hi) == 0 && Sends(h, lo, hi) == 0
  {
    if h != [] { NothingBefore(h[..|h| - 1], lo, hi); }
  }

  /** At most one packet in an interval uses a firing from before it. */
  lemma {:induction false} SendsAreLicensed(h: seq<Pace>, lo: nat, hi: nat)
    requires Sound(h)
    ensures Sends(h, lo, hi) <= Firings(h, lo, hi) + 1
    ensures EndsFired(h) && lo <= h[|h| - 1].at <= hi ==> Sends(h, lo, hi) <= Firings(h, lo, hi)
  {
    if h != [] {
      var g, e := h[..|h| - 1], h[|h| - 1];
      SendsAreLicensed(g, lo, hi);
      if e.Sent? && lo <= e.at <= hi && g[|g| - 1].at < lo {
        assert Past(g[..|g| - 1], g[|g| - 1].at);
        NothingBefore(g, lo, hi);
      }
    }
  }

  lemma OneMore(n: nat, d: nat)
    ensures (n + 1) * d == n * d + d
  {
  }

  /** The k-th firing of an interval is at least k - 1 delays after its start. */
  lemma {:induction false} FiringsAreSpaced(h: seq<Pace>, lo: nat, hi: nat, d: nat) returns (last: nat)
    requires Sound(h) && Delayed(h, d)
    ensures Firings(h, lo, hi) > 0 ==> last < |h| && h[last].Fired? && lo <= h[last].at <= hi
    ensures Firings(h, lo, hi) > 0 ==> Firings(h, lo, hi) * d <= h[last].at - lo + d
  {
    last := 0;
    if h != [] {
      var g, e := h[..|h| - 1], h[|h| - 1];
      last := FiringsAreSpaced(g, lo, hi, d);
      var n := Firings(g, lo, hi);
      if e.Fired? && lo <= e.at <= hi {
        assert h[|h| - 1].delay >= d;
        OneMore(n, d);
        if n == 0 {
          assert n * d == 0;
        } else {
          assert g[last].at + e.delay <= e.at;
        }
        last := |g|;
      }
    }
  }

  /** The rate bound: with every delay at least `d`, an interval of length T carries at most
      floor(T / d) + 2 packets. */
  lemma RateBound(h: seq<Pace>, lo: nat, hi: nat, d: Size)
    requires Sound(h) && Delayed(h, d) && lo <= hi
    ensures Sends(h, lo, hi) <= (hi - lo) / d + 2
  {
    SendsAreLicensed(h, lo, hi);
    var last := FiringsAreSpaced(h, lo, hi, d);
    AtMost(Firings(h, lo, hi), hi - lo, d);
  }

  lemma AtMost(n: nat, length: nat, d: Size)
    requires n > 0 ==> n * d <= length + d
    ensures n <= length / d + 1
  {
    var q := length / d;
    assert length == q * d + length % d;
    OneMore(q, d);
    OneMore(q + 1, d);
    if n >= q + 2 { MulMonotone(q + 2, n, d); }
  }

  /** The time of `n` delays. */
  function Delays(n: nat, d: nat): (t: nat)
    ensures t == n * d
  {
    if n == 0 then 0 else OneMore(n - 1, d); Delays(n - 1, d) + d
  }

  /** A saved firing, used `d` later, then `n` firings that send at once. */
  function Burst(n: nat, d: Size): seq<Pace> {
    if n == 0 then [Fired(0, d), Sent(d)]
    else Burst(n - 1, d) + [Fired(Delays(n, d), d)] + [Sent(Delays(n, d))]
  }

  lemma {:induction false} BurstIsSound(n: nat, hi: nat, d: Size)
    requires d <= hi && Delays(n, d) <= hi
    ensures var h := Burst(n, d);
            Sound(h) && Delayed(h, d) && Past(h, hi) && Clear(h, d, Delays(n + 1, d)) && Sends(h, d, hi) == n + 1
  {
    if n == 0 {
      BurstBegins(hi, d);
    } else {
      var at := Delays(n, d);
      AtLeastOne(n, d);
      BurstIsSound(n - 1, at, d);
      SameSends(Burst(n - 1, d), d, at, hi);
      FireAndSend(Burst(n - 1, d), at, d, d, hi);
    }
  }

  lemma AtLeastOne(n: nat, d: nat)
    requires n > 0
    ensures d <= Delays(n, d) && Delays(n - 1, d) <= Delays(n, d)
  {
  }

  lemma BurstBegins(hi: nat, d: Size)
    requires d <= hi
    ensures var h := Burst(0, d);
            Sound(h) && Delayed(h, d) && Past(h, hi) && Clear(h, d, Delays(1, d)) && Sends(h, d, hi) == 1
  {
    var h := Burst(0, d);
    var f := [Fired(0, d)];
    assert f[..|f| - 1] == [] && h[..1] == f;
    var none: seq<Pace> := [];
    assert Sound(none) && Past(none, 0) && Clear(none, d, 0);
    assert Sound(f);
    assert h[|h| - 1] == Sent(d) && h[..|h| - 1] == h[..1];
    assert Sound(h[..1]) && EndsFired(h[..1]) && Past(h[..1], d);
    assert Sends(h[..1], d, hi) == Sends([], d, hi);
    assert Delays(1, d) == d;
  }

  lemma FireAndSend(g: seq<Pace>, at: nat, d: nat, lo: nat, hi: nat)
    requires Sound(g) && Delayed(g, d) && Past(g, at) && Clear(g, d, at) && lo <= at <= hi
    ensures var h := g + [Fired(at, d)] + [Sent(at)];
            Sound(h) && Delayed(h, d) && Past(h, hi) && Clear(h, d, at + d) && Sends(h, lo, hi) == Sends(g, lo, hi) + 1
  {
    var f := g + [Fired(at, d)];
    assert f[..|f| - 1] == g;
    assert Sound(f) && Past(f, at);
    var h := f + [Sent(at)];
    assert h[..|h| - 1] == f;
    assert Sends(f, lo, hi) == Sends(g, lo, hi);
    assert Clear(h, d, at + d);
  }

  lemma {:induction false} SameSends(h: seq<Pace>, lo: nat, t: nat, hi: nat)
    requires Past(h, t) && t <= hi
    ensures Sends(h, lo, t) == Sends(h, lo, hi)
  {
    if h != [] { SameSends(h[..|h| - 1], lo, t, hi); }
  }

  /** The bound is attained, for every delay and at every whole number of delays. */
  lemma RateBoundIsTight(n: nat, d: Size)
    ensures exists h :: Sound(h) && Delayed(h, d) && Sends(h, d, d + n * d) == n + 2
  {
    BurstIsSound(n + 1, d + Delays(n, d), d);
    assert Sound(Burst(n + 1, d)) && Delayed(Burst(n + 1, d), d);
    assert Sends(Burst(n + 1, d), d, d + n * d) == n + 2;
  }
}

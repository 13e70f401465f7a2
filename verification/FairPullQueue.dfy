/** Round-robin service over the queues of a changing set of flows. */
module FairPullQueue {
  type Flow = nat

  /** A place in an ordered map: a key, or the end. */
  datatype Place = At(key: Flow) | End

  // ---- The ordered key set, as the iterator sees it ----

  lemma LeastExists(keys: set<Flow>) returns (m: Flow)
    requires keys != {}
    ensures m in keys && forall j :: j in keys ==> m <= j
  {
    var k :| k in keys;
    var rest := keys - {k};
    assert forall j :: j in keys ==> j == k || j in rest;
    if rest == {} {
      m := k;
    } else {
      var n := LeastExists(rest);
      m := if n < k then n else k;
    }
  }

  function Least(keys: set<Flow>): (k: Flow)
    requires keys != {}
    ensures k in keys && forall j :: j in keys ==> k <= j
  {
    assert exists k :: k in keys && forall j :: j in keys ==> k <= j by { var m := LeastExists(keys); }
    var k :| k in keys && forall j :: j in keys ==> k <= j;
    k
  }

  function Above(keys: set<Flow>, k: Flow): set<Flow> { set j | j in keys && j > k }

  /** Where an iterator at `k` is after an increment. */
  function Next(keys: set<Flow>, k: Flow): Place {
    if Above(keys, k) == {} then End else At(Least(Above(keys, k)))
  }

  lemma NextStaysBelow(keys: set<Flow>, k: Flow, g: Flow)
    requires g in keys
    ensures k < g ==> Next(keys, k).At? && k < Next(keys, k).key <= g
    ensures Next(keys, k).At? ==> Next(keys, k).key > k
  {
    if k < g { assert g in Above(keys, k); }
  }

  function Begin(keys: set<Flow>): Place {
    if keys == {} then End else At(Least(keys))
  }

  predicate Before(k: Flow, p: Place) { p.End? || k < p.key }

  // ---- The queue as a value ----

  datatype Answer<P> = Nothing | Got(packet: P)

  /** One sequence of packets a flow, oldest first, and where the next search starts. */
  datatype Fair<P> = Fair(queues: map<Flow, seq<P>>, current: Place) {
    ghost predicate Valid() { current.At? ==> current.key in queues }

    predicate Busy(f: Flow) { f in queues && queues[f] != [] }
  }

  // ---- Counting packets ----

  function SumOver<P>(keys: set<Flow>, queues: map<Flow, seq<P>>): nat
    requires keys <= queues.Keys
  {
    if keys == {} then 0 else var k := Least(keys); |queues[k]| + SumOver(keys - {k}, queues)
  }

  lemma {:induction false} SumSplits<P>(keys: set<Flow>, queues: map<Flow, seq<P>>, k: Flow)
    requires keys <= queues.Keys && k in keys
    ensures SumOver(keys, queues) == |queues[k]| + SumOver(keys - {k}, queues)
    decreases |keys|
  {
    var m := Least(keys);
    if m != k {
      SumSplits(keys - {m}, queues, k);
      SumSplits(keys - {k}, queues, m);
      assert keys - {m} - {k} == keys - {k} - {m};
    }
  }

  lemma {:induction false} SumAgrees<P>(keys: set<Flow>, a: map<Flow, seq<P>>, b: map<Flow, seq<P>>)
    requires keys <= a.Keys && keys <= b.Keys && forall k :: k in keys ==> a[k] == b[k]
    ensures SumOver(keys, a) == SumOver(keys, b)
    decreases |keys|
  {
    if keys != {} { SumAgrees(keys - {Least(keys)}, a, b); }
  }

  function Total<P>(q: Fair<P>): nat { SumOver(q.queues.Keys, q.queues) }

  lemma TotalUpdate<P>(queues: map<Flow, seq<P>>, f: Flow, s: seq<P>, c: Place)
    ensures Total(Fair(queues[f := s], c)) ==
            Total(Fair(queues, c)) - (if f in queues then |queues[f]| else 0) + |s|
  {
    var u := queues[f := s];
    SumSplits(u.Keys, u, f);
    SumAgrees(queues.Keys - {f}, queues, u);
    assert u.Keys - {f} == queues.Keys - {f};
    if f in queues { SumSplits(queues.Keys, queues, f); } else { assert queues.Keys - {f} == queues.Keys; }
  }

  lemma TotalRemove<P>(queues: map<Flow, seq<P>>, f: Flow, c: Place)
    requires f in queues
    ensures Total(Fair(queues - {f}, c)) == Total(Fair(queues, c)) - |queues[f]|
  {
    SumSplits(queues.Keys, queues, f);
    SumAgrees(queues.Keys - {f}, queues, queues - {f});
    assert (queues - {f}).Keys == queues.Keys - {f};
  }

  lemma {:induction false} SumPositive<P>(keys: set<Flow>, queues: map<Flow, seq<P>>)
    requires keys <= queues.Keys
    ensures SumOver(keys, queues) > 0 <==> exists f :: f in keys && queues[f] != []
    decreases |keys|
  {
    if keys != {} {
      var k := Least(keys);
      SumPositive(keys - {k}, queues);
      if queues[k] == [] && exists f :: f in keys && queues[f] != [] {
        var f :| f in keys && queues[f] != [];
        assert f in keys - {k};
      }
    }
  }

  lemma TotalPositive<P>(q: Fair<P>)
    ensures Total(q) > 0 <==> exists f :: q.Busy(f)
  {
    SumPositive(q.queues.Keys, q.queues);
    if f :| q.Busy(f) { assert f in q.queues.Keys && q.queues[f] != []; }
    if f :| f in q.queues.Keys && q.queues[f] != [] { assert q.Busy(f); }
  }

  // ---- The operations ----

  function Empty<P>(): Fair<P> { Fair(map[], End) }

  function Added<P>(q: Fair<P>, f: Flow, p: P): Fair<P> {
    q.(queues := q.queues[f := (if f in q.queues then q.queues[f] else []) + [p]])
  }

  /** The flow whose turn it is: the first busy one from the current place on, wrapping around. */
  function Turn<P>(q: Fair<P>): (f: Flow)
    requires Total(q) > 0
    ensures q.Busy(f)
    ensures forall g :: q.Busy(g) && !Before(g, q.current) ==> f <= g && !Before(f, q.current)
    ensures Before(f, q.current) ==> forall g :: q.Busy(g) ==> f <= g
  {
    TotalPositive(q);
    var busy := set f | f in q.queues && q.queues[f] != [];
    var ahead := set f | f in busy && !Before(f, q.current);
    assert forall f :: q.Busy(f) ==> f in busy;
    assert forall f :: f in busy && !Before(f, q.current) ==> f in ahead;
    if ahead != {} then Least(ahead) else Least(busy)
  }

  function Taken<P>(q: Fair<P>): Fair<P>
    requires Total(q) > 0
  {
    var f := Turn(q);
    Fair(q.queues[f := q.queues[f][1..]], Next(q.queues.Keys, f))
  }

  function Flushed<P>(q: Fair<P>, f: Flow): Fair<P> {
    if f !in q.queues then q
    else Fair(q.queues - {f}, if q.current == At(f) then Next(q.queues.Keys, f) else q.current)
  }

  // ---- Runs ----

  datatype Op<P> = Put(flow: Flow, packet: P) | Take | Drop(flow: Flow)

  function Step<P>(q: Fair<P>, op: Op<P>): Fair<P> {
    match op
    case Put(f, p) => Added(q, f, p)
    case Take => if Total(q) == 0 then q else Taken(q)
    case Drop(f) => Flushed(q, f)
  }

  function Run<P>(q: Fair<P>, ops: seq<Op<P>>): Fair<P>
    decreases |ops|
  {
    if ops == [] then q else Step(Run(q, ops[..|ops| - 1]), ops[|ops| - 1])
  }

  /** The flows served along a run, in order. */
  function Served<P>(q: Fair<P>, ops: seq<Op<P>>): seq<Flow>
    decreases |ops|
  {
    if ops == [] then []
    else
      var front, before := ops[..|ops| - 1], Run(q, ops[..|ops| - 1]);
      Served(q, front) + (if ops[|ops| - 1].Take? && Total(before) > 0 then [Turn(before)] else [])
  }

  /** `f` lies behind the current place on the way round to `g`. */
  predicate Passed(f: Flow, p: Place, g: Flow) {
    if p.At? && p.key <= g then f > g || f < p.key else f > g && Before(f, p)
  }

  lemma StepKeepsPassed<P>(q: Fair<P>, op: Op<P>, f: Flow, g: Flow)
    requires q.Valid() && q.Busy(g) && Step(q, op).Busy(g) && Passed(f, q.current, g)
    requires op.Take? ==> Total(q) > 0 && Turn(q) != g
    ensures Passed(f, Step(q, op).current, g)
  {
    TotalPositive(q);
    if op.Take? {
      NextStaysBelow(q.queues.Keys, Turn(q), g);
    } else if q.current.At? {
      NextStaysBelow(q.queues.Keys, q.current.key, g);
    }
  }

  lemma TurnIsNotPassed<P>(q: Fair<P>, g: Flow)
    requires q.Valid() && q.Busy(g) && Total(q) > 0 && Turn(q) != g
    ensures !Passed(Turn(q), q.current, g)
    ensures Passed(Turn(q), Taken(q).current, g)
  {
    NextStaysBelow(q.queues.Keys, Turn(q), g);
  }

  lemma StepKeepsValid<P>(q: Fair<P>, op: Op<P>)
    requires q.Valid()
    ensures Step(q, op).Valid()
  {
    TotalPositive(q);
  }

  ghost predicate NoRepeats<T>(s: seq<T>) { forall i, j :: 0 <= i < j < |s| ==> s[i] != s[j] }

  /** While flow `g` stays busy and is not served, no other flow is served twice: for any mix of puts, new
      flows, and flushed flows, and wherever the round starts. */
  lemma {:induction false} RoundRobinIsFair<P>(q: Fair<P>, ops: seq<Op<P>>, g: Flow)
    requires q.Valid()
    requires forall n :: 0 <= n <= |ops| ==> Run(q, ops[..n]).Busy(g)
    requires g !in Served(q, ops)
    ensures NoRepeats(Served(q, ops))
    ensures Run(q, ops).Valid() && forall f :: f in Served(q, ops) ==> Passed(f, Run(q, ops).current, g)
    decreases |ops|
  {
    if ops != [] {
      var front, op := ops[..|ops| - 1], ops[|ops| - 1];
      assert ops[..|ops|] == ops;
      forall n | 0 <= n <= |front| ensures Run(q, front[..n]).Busy(g) {
        assert front[..n] == ops[..n];
      }
      RoundRobinIsFair(q, front, g);
      var before := Run(q, front);
      assert front == ops[..|ops| - 1];
      StepKeepsValid(before, op);
      TotalPositive(before);
      if op.Take? {
        assert Served(q, ops)[|Served(q, ops)| - 1] == Turn(before);
        TurnIsNotPassed(before, g);
      }
      forall f | f in Served(q, front) ensures Passed(f, Run(q, ops).current, g) {
        StepKeepsPassed(before, op, f, g);
      }
    }
  }

  // ---- Order within a flow ----

  function QueueOf<P>(q: Fair<P>, f: Flow): seq<P> { if f in q.queues then q.queues[f] else [] }

  function PutsOf<P>(ops: seq<Op<P>>, f: Flow): seq<P> {
    if ops == [] then []
    else
      var op := ops[|ops| - 1];
      PutsOf(ops[..|ops| - 1], f) + (if op.Put? && op.flow == f then [op.packet] else [])
  }

  /** The packets of a flow that one operation takes out, by service or by a flush. */
  function Leaving<P>(q: Fair<P>, op: Op<P>, f: Flow): seq<P> {
    match op
    case Put(_, _) => []
    case Take => if Total(q) > 0 && Turn(q) == f then [q.queues[f][0]] else []
    case Drop(g) => if g == f then QueueOf(q, f) else []
  }

  function OutOf<P>(q: Fair<P>, ops: seq<Op<P>>, f: Flow): seq<P>
    decreases |ops|
  {
    if ops == [] then []
    else OutOf(q, ops[..|ops| - 1], f) + Leaving(Run(q, ops[..|ops| - 1]), ops[|ops| - 1], f)
  }

  lemma StepKeepsOrder<P>(q: Fair<P>, op: Op<P>, f: Flow)
    ensures QueueOf(q, f) + (if op.Put? && op.flow == f then [op.packet] else [])
            == Leaving(q, op, f) + QueueOf(Step(q, op), f)
  {
    TotalPositive(q);
  }

  lemma Regroup<T>(a: seq<T>, b: seq<T>, c: seq<T>, d: seq<T>, e: seq<T>)
    requires b + c == d + e
    ensures (a + b) + c == (a + d) + e
  {
    assert (a + b) + c == a + (b + c);
    assert (a + d) + e == a + (d + e);
  }

  /** Over any run, the packets of each flow leave in the order they came, none lost or repeated, whether
      they are served or flushed. */
  lemma {:induction false} FlowsKeepOrder<P>(ops: seq<Op<P>>, f: Flow)
    ensures PutsOf(ops, f) == OutOf(Empty(), ops, f) + QueueOf(Run(Empty(), ops), f)
    decreases |ops|
  {
    if ops != [] {
      var front, op := ops[..|ops| - 1], ops[|ops| - 1];
      FlowsKeepOrder(front, f);
      StepKeepsOrder(Run(Empty(), front), op, f);
      var put := if op.Put? && op.flow == f then [op.packet] else [];
      var mid, end := Run(Empty(), front), Run(Empty(), ops);
      Regroup(OutOf(Empty(), front, f), QueueOf(mid, f), put, Leaving(mid, op, f), QueueOf(end, f));
    }
  }

  /** No busy flow has been passed over since the search began; `wrapped` says it has been at the end. */
  ghost predicate Searching<P>(start: Fair<P>, p: Place, wrapped: bool) {
    if wrapped then forall f :: start.Busy(f) ==> Before(f, start.current) && !Before(f, p)
    else
      && (p.At? ==> !Before(p.key, start.current))
      && forall f :: start.Busy(f) && !Before(f, start.current) ==> !Before(f, p)
  }

  /** The search is at the end at most once; the place it looks at next is the turn if its flow is busy,
      and can be passed over if not. */
  lemma SearchMovesOn<P>(start: Fair<P>, p: Place, wrapped: bool)
    requires start.Valid() && Total(start) > 0 && Searching(start, p, wrapped)
    requires p.At? ==> p.key in start.queues
    ensures p.End? ==> !wrapped && start.queues != map[]
    ensures start.queues.Keys != {}
    ensures var q := if p.End? then Begin(start.queues.Keys) else p;
            && q.At? && q.key in start.queues
            && Searching(start, q, wrapped || p.End?)
            && (start.Busy(q.key) ==> q.key == Turn(start))
            && (!start.Busy(q.key) ==> Searching(start, Next(start.queues.Keys, q.key), wrapped || p.End?))
  {
    TotalPositive(start);
    var b :| start.Busy(b);
    var q := if p.End? then Begin(start.queues.Keys) else p;
    NextStaysBelow(start.queues.Keys, q.key, q.key);
    forall f: Flow | start.Busy(f) && f > q.key ensures !Before(f, Next(start.queues.Keys, q.key)) {
      NextStaysBelow(start.queues.Keys, q.key, f);
    }
  }

  /** The keys an iterator at `p` still has ahead of it. */
  ghost function Remaining(keys: set<Flow>, p: Place): set<Flow> { set k | k in keys && !Before(k, p) }

  lemma RemainingShrinks(keys: set<Flow>, k: Flow)
    requires k in keys
    ensures |Remaining(keys, Next(keys, k))| < |Remaining(keys, At(k))|
    ensures forall j :: j in keys && j > k ==> !Before(j, Next(keys, k))
  {
    assert forall j :: j in keys && j > k ==> j in Above(keys, k);
    NextStaysBelow(keys, k, k);
    SmallerSet(Remaining(keys, Next(keys, k)), Remaining(keys, At(k)), k);
  }

  lemma SmallerSet<T>(a: set<T>, b: set<T>, x: T)
    requires a <= b && x in b && x !in a
    ensures |a| < |b|
  {
    SubsetSize(a, b - {x});
  }

  lemma {:induction false} SubsetSize<T>(a: set<T>, b: set<T>)
    requires a <= b
    ensures |a| <= |b|
    decreases |a|
  {
    if a != {} {
      var x :| x in a;
      SubsetSize(a - {x}, b - {x});
    }
  }

  // ---- The object ----

  /** Each flow's ring is held as the sequence that `CircularBuffer` is proved to stand for. */
  class FairPullQueue<P> {
    var queueMap: map<Flow, seq<P>>
    var currentQueue: Place
    var pullCount: int

    function View(): Fair<P>
      reads this
    {
      Fair(queueMap, currentQueue)
    }

    ghost predicate Valid()
      reads this
    {
      View().Valid() && pullCount == Total(View())
    }

    constructor ()
      ensures Valid() && View() == Empty()
    {
      queueMap, pullCount := map[], 0;
      currentQueue := End;
    }

    method Enqueue(flow: Flow, packet: P)
      requires Valid()
      modifies this
      ensures Valid() && View() == Added(old(View()), flow, packet)
    {
      ghost var before := View();
      if flow !in queueMap {
        queueMap := queueMap[flow := []];
      }
      queueMap := queueMap[flow := queueMap[flow] + [packet]];
      pullCount := pullCount + 1;
      TotalUpdate(before.queues, flow, QueueOf(before, flow) + [packet], currentQueue);
      assert queueMap == before.queues[flow := QueueOf(before, flow) + [packet]];
    }

    /** `dequeue`: nothing when no packet is queued; else the search goes round from the current place, always
        ends, and takes the oldest packet of the flow whose turn it is. */
    method Dequeue() returns (r: Answer<P>)
      requires Valid()
      modifies this
      ensures Valid()
      ensures Total(old(View())) == 0 ==> r == Nothing && View() == old(View())
      ensures Total(old(View())) > 0 ==>
                View() == Taken(old(View())) && r == Got(old(View()).queues[Turn(old(View()))][0])
    {
      if pullCount == 0 {
        return Nothing;
      }
      ghost var start := View();
      ghost var wrapped := false;
      while true
        invariant View() == start.(current := currentQueue) && Valid()
        invariant Searching(start, currentQueue, wrapped)
        decreases !wrapped, |Remaining(queueMap.Keys, currentQueue)|
      {
        SearchMovesOn(start, currentQueue, wrapped);
        if currentQueue == End {
          currentQueue := Begin(queueMap.Keys);
          wrapped := true;
        }
        var flow := currentQueue.key;
        RemainingShrinks(queueMap.Keys, flow);
        NextStaysBelow(queueMap.Keys, flow, flow);
        currentQueue := Next(queueMap.Keys, flow);
        if queueMap[flow] != [] {
          var packet := queueMap[flow][0];
          queueMap := queueMap[flow := queueMap[flow][1..]];
          pullCount := pullCount - 1;
          TotalUpdate(start.queues, flow, start.queues[flow][1..], currentQueue);
          return Got(packet);
        }
      }
    }

    method FlushFlow(flow: Flow)
      requires Valid()
      modifies this
      ensures Valid() && View() == Flushed(old(View()), flow)
    {
      if flow !in queueMap {
        return;
      }
      ghost var before := View();
      while queueMap[flow] != []
        invariant flow in queueMap && queueMap == before.queues[flow := queueMap[flow]]
        invariant currentQueue == before.current
        invariant pullCount == Total(before) - |before.queues[flow]| + |queueMap[flow]|
        decreases |queueMap[flow]|
      {
        queueMap := queueMap[flow := queueMap[flow][1..]];
        pullCount := pullCount - 1;
      }
      assert queueMap.Keys == before.queues.Keys;
      if currentQueue == At(flow) {
        NextStaysBelow(queueMap.Keys, flow, flow);
        currentQueue := Next(queueMap.Keys, flow);
      }
      queueMap := queueMap - {flow};
      assert queueMap == before.queues - {flow};
      TotalRemove(before.queues, flow, currentQueue);
    }
  }
}

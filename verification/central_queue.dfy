/** One central FIFO queue over identical servers: the reference the pool is held against.

    Two definitions are given and proved to agree. IsCentral says when each job starts with
    no word of servers; Served runs the jobs, in arrival order, each on the server free
    first.
 */
module CentralQueue {

  /** The jobs in arrival order: when each arrives and how long it is served. */
  datatype Workload = Workload(arrivals: seq<int>, costs: seq<int>)

  ghost predicate IsWorkload(w: Workload) {
    && |w.arrivals| == |w.costs|
    && (forall k | 0 <= k < |w.costs| :: w.costs[k] > 0 && w.arrivals[k] >= 0)
    && (forall j, k | 0 <= j < k < |w.arrivals| :: w.arrivals[j] <= w.arrivals[k])
  }

  /** The jobs before the k-th not yet served out at the tick. */
  function Unfinished(w: Workload, starts: seq<int>, k: nat, tick: int): set<nat>
    requires k <= |starts| <= |w.costs|
  {
    set j: nat | j < k && starts[j] + w.costs[j] > tick
  }

  /** The k-th job starts at the first tick from its arrival on at which fewer jobs before it
      are unfinished than there are servers. */
  ghost predicate StartsCentrally(servers: nat, w: Workload, starts: seq<int>, k: nat)
    requires k < |starts| <= |w.costs| && |w.arrivals| == |w.costs|
  {
    && starts[k] >= w.arrivals[k]
    && |Unfinished(w, starts, k, starts[k])| < servers
    && (forall tick | w.arrivals[k] <= tick < starts[k] :: |Unfinished(w, starts, k, tick)| >= servers)
  }

  ghost predicate IsCentral(servers: nat, w: Workload, starts: seq<int>) {
    && IsWorkload(w) && |starts| <= |w.costs|
    && (forall k | 0 <= k < |starts| :: StartsCentrally(servers, w, starts, k))
  }

  /** At most one table of starts is the central queue's. */
  lemma {:induction false} CentralIsUnique(servers: nat, w: Workload, a: seq<int>, b: seq<int>, k: nat)
    requires IsCentral(servers, w, a) && IsCentral(servers, w, b) && k <= |a| && k <= |b|
    ensures a[..k] == b[..k]
  {
    if k > 0 {
      CentralIsUnique(servers, w, a, b, k - 1);
      var last := k - 1;
      assert forall j | 0 <= j < last :: a[j] == a[..last][j] && b[j] == b[..last][j];
      assert forall tick :: Unfinished(w, a, last, tick) == Unfinished(w, b, last, tick);
      assert StartsCentrally(servers, w, a, last) && StartsCentrally(servers, w, b, last);
      assert a[last] == b[last];
    }
  }

  /** Members of a set sent to distinct members of another are no more than those. */
  lemma {:induction false} Pigeonhole(from: set<nat>, to: set<nat>, place: map<nat, nat>)
    requires forall x | x in from :: x in place && place[x] in to
    requires forall x, y | x in from && y in from && x != y :: place[x] != place[y]
    ensures |from| <= |to|
    decreases from
  {
    if from != {} {
      var x :| x in from;
      Pigeonhole(from - {x}, to - {place[x]}, place);
    }
  }

  function Range(count: nat): (r: set<nat>)
    ensures |r| == count
    ensures forall x: nat :: x in r <==> x < count
  {
    if count == 0 then {} else Range(count - 1) + {count - 1}
  }

  // --------------------------------------------- jobs laid out on servers

  function Max(a: int, b: int): int {
    if a < b then b else a
  }

  /** Which server each job has, when it starts, and when each server is next free. */
  datatype Layout = Layout(starts: seq<int>, serverOf: seq<nat>, free: seq<int>)

  ghost predicate ServesLast(w: Workload, layout: Layout, v: nat, j: nat) {
    && j < |layout.starts| <= |w.costs| && |layout.serverOf| == |layout.starts|
    && v < |layout.free|
    && layout.serverOf[j] == v && layout.starts[j] + w.costs[j] == layout.free[v]
  }

  ghost predicate HasServed(w: Workload, layout: Layout, v: nat) {
    exists j :: ServesLast(w, layout, v, j)
  }

  ghost predicate IsLayout(w: Workload, layout: Layout) {
    && |layout.starts| == |layout.serverOf| <= |w.costs|
    && (forall j | 0 <= j < |layout.serverOf| :: layout.serverOf[j] < |layout.free|)
  }

  /** The job is over before its server is free again. */
  ghost predicate EndsInTime(w: Workload, layout: Layout, j: nat)
    requires IsLayout(w, layout) && j < |layout.starts|
  {
    layout.starts[j] + w.costs[j] <= layout.free[layout.serverOf[j]]
  }

  /** One server serves the two jobs in turn. */
  ghost predicate InTurn(w: Workload, layout: Layout, j: nat, k: nat)
    requires IsLayout(w, layout) && j < |layout.starts| && k < |layout.starts|
  {
    layout.serverOf[j] == layout.serverOf[k] ==> layout.starts[j] + w.costs[j] <= layout.starts[k]
  }

  /** No job starts after the tick at which some server is free. */
  ghost predicate NoneLate(layout: Layout, now: int) {
    forall j, v | 0 <= j < |layout.starts| && 0 <= v < |layout.free| ::
      layout.starts[j] <= Max(now, layout.free[v])
  }

  /** Jobs of one server follow one another, a server that is not free at the tick has a last
      job, and no job starts after the tick at which some server is free. */
  ghost predicate Laid(w: Workload, layout: Layout, now: int) {
    && IsLayout(w, layout)
    && (forall j | 0 <= j < |layout.starts| :: EndsInTime(w, layout, j))
    && (forall j, k | 0 <= j < k < |layout.starts| :: InTurn(w, layout, j, k))
    && (forall v | 0 <= v < |layout.free| && layout.free[v] > now :: HasServed(w, layout, v))
    && NoneLate(layout, now)
  }

  /** The next job goes to a server at the tick. */
  function Lay(w: Workload, layout: Layout, server: nat, tick: int): Layout
    requires server < |layout.free| && |layout.starts| < |w.costs|
  {
    Layout(
      layout.starts + [tick],
      layout.serverOf + [server],
      layout.free[server := tick + w.costs[|layout.starts|]])
  }

  /** At the tick a server is free, at most one job is unfinished on each other server. */
  lemma FewUnfinished(w: Workload, layout: Layout, now: int, u: nat)
    requires Laid(w, layout, now) && u < |layout.free|
    ensures |Unfinished(w, layout.starts, |layout.starts|, Max(now, layout.free[u]))| < |layout.free|
  {
    var unfinished := Unfinished(w, layout.starts, |layout.starts|, Max(now, layout.free[u]));
    var others := Range(|layout.free|) - {u};
    assert |others| == |layout.free| - 1;
    forall j | j in unfinished
      ensures layout.serverOf[j] in others
    {
      assert EndsInTime(w, layout, j);
    }
    forall j, k | j in unfinished && k in unfinished && j != k
      ensures layout.serverOf[j] != layout.serverOf[k]
    {
      assert layout.starts[j] <= Max(now, layout.free[u]) && layout.starts[k] <= Max(now, layout.free[u]);
      assert if j < k then InTurn(w, layout, j, k) else InTurn(w, layout, k, j);
    }
    Pigeonhole(unfinished, others, map j | j in unfinished :: layout.serverOf[j]);
  }

  /** While no server is free, at least one job is unfinished on each. */
  lemma AllServersBusy(w: Workload, layout: Layout, k: nat, starts: seq<int>, tick: int)
    requires IsLayout(w, layout) && |layout.starts| <= k <= |starts| <= |w.costs|
    requires layout.starts == starts[..|layout.starts|]
    requires forall v | 0 <= v < |layout.free| :: layout.free[v] > tick && HasServed(w, layout, v)
    ensures |Unfinished(w, starts, k, tick)| >= |layout.free|
  {
    var servers := Range(|layout.free|);
    var last := map v | v in servers :: LastOn(w, layout, v);
    forall v | v in servers
      ensures last[v] in Unfinished(w, starts, k, tick) && layout.serverOf[last[v]] == v
    {
      assert ServesLast(w, layout, v, last[v]);
      assert starts[last[v]] == layout.starts[last[v]];
    }
    Pigeonhole(servers, Unfinished(w, starts, k, tick), last);
  }

  ghost function LastOn(w: Workload, layout: Layout, v: nat): (j: nat)
    requires HasServed(w, layout, v)
    ensures ServesLast(w, layout, v, j)
  {
    var j :| ServesLast(w, layout, v, j);
    j
  }

  /** The server is free when the job arrives. */
  ghost predicate FreeOnArrival(w: Workload, layout: Layout, now: int, u: nat) {
    && u < |layout.free| && |layout.starts| < |w.arrivals|
    && layout.free[u] <= now == w.arrivals[|layout.starts|]
  }

  /** Every server is busy, and this one is free first. */
  ghost predicate FreeFirst(w: Workload, layout: Layout, now: int, u: nat) {
    && u < |layout.free| && |layout.starts| < |w.arrivals|
    && w.arrivals[|layout.starts|] <= now <= layout.free[u]
    && (forall v | 0 <= v < |layout.free| :: layout.free[u] <= layout.free[v] && HasServed(w, layout, v))
  }

  /** A server free on arrival, or the one free first, starts the next job when the central
      queue would, and the layout stays in order. */
  lemma NextIsCentral(w: Workload, layout: Layout, now: int, u: nat)
    requires IsCentral(|layout.free|, w, layout.starts) && Laid(w, layout, now)
    requires FreeOnArrival(w, layout, now, u) || FreeFirst(w, layout, now, u)
    ensures var r := Lay(w, layout, u, Max(now, layout.free[u]));
      IsCentral(|layout.free|, w, r.starts) && Laid(w, r, now)
  {
    var k := |layout.starts|;
    var at := Max(now, layout.free[u]);
    var r := Lay(w, layout, u, at);
    FewUnfinished(w, layout, now, u);
    assert Unfinished(w, r.starts, k, at) == Unfinished(w, layout.starts, k, at);
    forall tick | w.arrivals[k] <= tick < at
      ensures |Unfinished(w, r.starts, k, tick)| >= |layout.free|
    {
      AllServersBusy(w, layout, k, r.starts, tick);
    }
    assert StartsCentrally(|layout.free|, w, r.starts, k);
    forall j | 0 <= j < k
      ensures StartsCentrally(|layout.free|, w, r.starts, j)
    {
      SameCentrally(|layout.free|, w, layout.starts, r.starts, j);
    }
    LayKeeps(w, layout, now, u);
  }

  /** Later jobs change nothing for an earlier one. */
  lemma SameCentrally(servers: nat, w: Workload, a: seq<int>, b: seq<int>, k: nat)
    requires k < |a| <= |b| <= |w.costs| == |w.arrivals| && a == b[..|a|]
    requires StartsCentrally(servers, w, a, k)
    ensures StartsCentrally(servers, w, b, k)
  {
    assert forall tick :: Unfinished(w, a, k, tick) == Unfinished(w, b, k, tick);
  }

  lemma LayKeeps(w: Workload, layout: Layout, now: int, u: nat)
    requires IsWorkload(w) && Laid(w, layout, now)
    requires FreeOnArrival(w, layout, now, u) || FreeFirst(w, layout, now, u)
    ensures Laid(w, Lay(w, layout, u, Max(now, layout.free[u])), now)
  {
    var r := Lay(w, layout, u, Max(now, layout.free[u]));
    var n := |layout.starts|;
    assert IsLayout(w, r);
    forall j | 0 <= j < |r.starts|
      ensures EndsInTime(w, r, j)
    {
      assert j < n ==> EndsInTime(w, layout, j);
    }
    forall j, k | 0 <= j < k < |r.starts|
      ensures InTurn(w, r, j, k)
    {
      assert k < n ==> InTurn(w, layout, j, k);
      assert EndsInTime(w, layout, j);
    }
    forall v | 0 <= v < |r.free| && r.free[v] > now
      ensures HasServed(w, r, v)
    {
      if v == u {
        assert ServesLast(w, r, u, n);
      } else {
        assert HasServed(w, layout, v);
        var j :| ServesLast(w, layout, v, j);
        assert ServesLast(w, r, v, j);
      }
    }
    assert NoneLate(r, now);
  }

  /** Time passing keeps the layout in order. */
  lemma LaidLater(w: Workload, layout: Layout, now: int, later: int)
    requires Laid(w, layout, now) && now <= later
    ensures Laid(w, layout, later)
  {
  }

  // ------------------------------------------------- the queue as it runs

  /** The server free first. */
  function Earliest(free: seq<int>): (s: nat)
    requires free != []
    ensures s < |free|
    ensures forall v | 0 <= v < |free| :: free[s] <= free[v]
  {
    if |free| == 1 then 0
    else
      var rest := Earliest(free[1..]);
      assert forall v | 1 <= v < |free| :: free[v] == free[1..][v - 1];
      if free[0] <= free[1..][rest] then 0 else rest + 1
  }

  /** The first k jobs, each at its arrival or when a server is free, on the server free first. */
  function Served(servers: nat, w: Workload, k: nat): (layout: Layout)
    requires servers > 0 && |w.arrivals| == |w.costs| && k <= |w.costs|
    ensures |layout.free| == servers && |layout.starts| == k
  {
    if k == 0 then Layout([], [], seq(servers, _ => 0))
    else
      var layout := Served(servers, w, k - 1);
      var server := Earliest(layout.free);
      Lay(w, layout, server, Max(w.arrivals[k - 1], layout.free[server]))
  }

  /** The central queue, run job by job, is the one table of starts IsCentral describes. */
  lemma {:induction false} ServedIsCentral(servers: nat, w: Workload, k: nat)
    requires servers > 0 && IsWorkload(w) && k <= |w.costs|
    ensures IsCentral(servers, w, Served(servers, w, k).starts)
    ensures Laid(w, Served(servers, w, k), if k == 0 then 0 else w.arrivals[k - 1])
  {
    if k > 0 {
      ServedIsCentral(servers, w, k - 1);
      var layout := Served(servers, w, k - 1);
      var now := w.arrivals[k - 1];
      LaidLater(w, layout, if k == 1 then 0 else w.arrivals[k - 2], now);
      NextIsCentral(w, layout, now, Earliest(layout.free));
    }
  }

  /** The tick the central queue starts the job at. */
  function StartOf(servers: nat, w: Workload, k: nat): int
    requires servers > 0 && |w.arrivals| == |w.costs| && k < |w.costs|
  {
    Served(servers, w, k + 1).starts[k]
  }

  /** Every central table of starts has the queue's own starts. */
  lemma CentralStart(servers: nat, w: Workload, starts: seq<int>, k: nat)
    requires servers > 0 && IsCentral(servers, w, starts) && k < |starts|
    ensures starts[k] == StartOf(servers, w, k)
  {
    ServedIsCentral(servers, w, k + 1);
    CentralIsUnique(servers, w, starts, Served(servers, w, k + 1).starts, k + 1);
    assert starts[..k + 1][k] == Served(servers, w, k + 1).starts[..k + 1][k];
  }
}

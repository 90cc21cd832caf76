/** The uses graph's check: a depth-first walk that reports a cycle just when there is one, and
    each node's level, its longest path to a leaf.
 */
module UsesGraph {

  /** Each node's targets in the order the walk takes them; a leaf may be left out. */
  type Edges = map<nat, seq<nat>>

  function Targets(edges: Edges, node: nat): seq<nat> {
    if node in edges then edges[node] else []
  }

  /** A sequence of nodes, each the source of an edge to the next. */
  ghost predicate IsWalk(edges: Edges, walk: seq<nat>) {
    walk != [] && forall i, j | 0 <= i && j == i + 1 < |walk| :: walk[j] in Targets(edges, walk[i])
  }

  ghost predicate IsClosedWalk(edges: Edges, walk: seq<nat>) {
    IsWalk(edges, walk) && |walk| >= 2 && walk[0] == walk[|walk| - 1]
  }

  ghost predicate HasCycle(edges: Edges) {
    exists walk :: IsClosedWalk(edges, walk)
  }

  /** Every named node; each edge goes from one to another. */
  ghost predicate AreNodes(edges: Edges, nodes: set<nat>) {
    && (forall node | node in edges :: node in nodes)
    && (forall node, target | node in edges && target in edges[node] :: target in nodes)
  }

  /** A rank that falls along every edge out of a ranked node. */
  ghost predicate Falls(edges: Edges, rank: map<nat, nat>) {
    forall node, target | node in rank && target in Targets(edges, node) ::
      target in rank && rank[target] < rank[node]
  }

  lemma {:induction false} RankFallsAlong(edges: Edges, rank: map<nat, nat>, walk: seq<nat>, i: nat)
    requires Falls(edges, rank) && IsWalk(edges, walk) && walk[0] in rank && i < |walk|
    ensures walk[i] in rank && (i > 0 ==> rank[walk[i]] < rank[walk[0]])
  {
    if i > 0 {
      RankFallsAlong(edges, rank, walk, i - 1);
      assert walk[i - 1 + 1] in Targets(edges, walk[i - 1]);
    }
  }

  /** Nodes all ranked, with ranks that fall, lie on no closed walk. */
  lemma RankedHasNoCycle(edges: Edges, nodes: set<nat>, rank: map<nat, nat>)
    requires AreNodes(edges, nodes) && Falls(edges, rank) && forall node | node in nodes :: node in rank
    ensures !HasCycle(edges)
  {
    forall walk | IsWalk(edges, walk) && |walk| >= 2
      ensures walk[0] != walk[|walk| - 1]
    {
      assert walk[1] in Targets(edges, walk[0]);
      RankFallsAlong(edges, rank, walk, |walk| - 1);
    }
  }

  ghost predicate AreRanked(list: seq<nat>, count: nat, rank: map<nat, nat>)
    requires count <= |list|
  {
    forall i | 0 <= i < count :: list[i] in rank
  }

  /** A node whose targets are all ranked, ranked above every other. */
  lemma RankGrows(edges: Edges, rank: map<nat, nat>, node: nat, clock: nat)
    requires Falls(edges, rank) && AreRanked(Targets(edges, node), |Targets(edges, node)|, rank)
    requires node !in rank && forall n | n in rank :: rank[n] < clock
    ensures Falls(edges, rank[node := clock])
  {
  }

  lemma LastOfStack(stack: seq<nat>, rest: seq<nat>, node: nat)
    requires stack == rest + [node] && forall i, j | 0 <= i < j < |stack| :: stack[i] != stack[j]
    ensures stack[..|stack| - 1] == rest && node !in rest && forall n :: n in stack <==> n in rest || n == node
  {
    assert forall i | 0 <= i < |rest| :: stack[i] == rest[i] && stack[i] != stack[|rest|];
  }

  datatype Mark = Opened | Finished

  class CycleSearch {
    const edges: Edges
    const nodes: set<nat>
    var state: map<nat, Mark>
    var stack: seq<nat>
    var cycles: seq<seq<nat>>
    // the order nodes were finished in, which the source does not keep
    ghost var rank: map<nat, nat>
    ghost var clock: nat

    constructor (edges: Edges, nodes: set<nat>)
      ensures this.edges == edges && this.nodes == nodes && Valid()
      ensures state == map[] && stack == [] && cycles == [] && rank == map[]
    {
      this.edges, this.nodes := edges, nodes;
      state, stack, cycles, rank, clock := map[], [], [], map[], 0;
    }

    ghost predicate Valid()
      reads this
    {
      && state.Keys <= nodes
      && (stack != [] ==> IsWalk(edges, stack))
      && (forall i, j | 0 <= i < j < |stack| :: stack[i] != stack[j])
      && (forall node :: node in stack <==> node in state && state[node].Opened?)
      && (forall node :: node in rank <==> node in state && state[node].Finished?)
      && (forall node | node in rank :: rank[node] < clock)
      && (forall i | 0 <= i < |cycles| :: IsClosedWalk(edges, cycles[i]))
      && (cycles == [] ==> Falls(edges, rank))
    }

    /** The nodes not yet seen. */
    ghost function Unseen(): set<nat>
      reads this
    {
      nodes - state.Keys
    }

    /** What a walk leaves: more nodes finished, the stack as it was. */
    twostate predicate Walked()
      reads this
    {
      && Valid() && stack == old(stack) && |cycles| >= |old(cycles)|
      && old(rank).Keys <= rank.Keys && old(state).Keys <= state.Keys
    }

    /** Every target is followed in turn; one still on the stack closes a walk. */
    method Visit(node: nat)
      requires AreNodes(edges, nodes) && Valid() && node in nodes && node !in state
      requires stack != [] ==> node in Targets(edges, stack[|stack| - 1])
      modifies this
      ensures Walked() && node in rank
      decreases |Unseen()|, 0, 0
    {
      ghost var before := Unseen();
      Enter(node);
      FiniteShrinks(Unseen(), before);
      WalkImports(node, old(stack));
    }

    /** Follow every import of the open node, then close it. */
    method WalkImports(node: nat, ghost rest: seq<nat>)
      requires AreNodes(edges, nodes) && Valid() && stack == rest + [node]
      modifies this
      ensures Valid() && stack == rest && |cycles| >= |old(cycles)|
      ensures old(rank).Keys + {node} <= rank.Keys && old(state).Keys <= state.Keys
      decreases |Unseen()|, 2, 1
    {
      FollowAll(node);
      Leave(node, rest);
    }

    method FollowAll(node: nat)
      requires AreNodes(edges, nodes) && Valid() && stack != [] && stack[|stack| - 1] == node
      modifies this
      ensures Walked() && Done(node, |Targets(edges, node)|)
      decreases |Unseen()|, 2, 0
    {
      ghost var before := Unseen();
      var count := |Targets(edges, node)|;
      var i := 0;
      while i < count
        invariant i <= count && Walked() && Done(node, i)
      {
        SubsetSize(Unseen(), before);
        FollowNext(node, i);
        i := i + 1;
      }
    }

    /** With no cycle met, the node's first targets are finished. */
    ghost predicate Done(node: nat, count: nat)
      reads this
    {
      count <= |Targets(edges, node)| && (cycles == [] ==> AreRanked(Targets(edges, node), count, rank))
    }

    method FollowNext(node: nat, i: nat)
      requires AreNodes(edges, nodes) && Valid() && stack != [] && stack[|stack| - 1] == node
      requires i < |Targets(edges, node)| && Done(node, i)
      modifies this
      ensures Walked() && Done(node, i + 1)
      decreases |Unseen()|, 1, 1
    {
      Follow(Targets(edges, node)[i]);
    }

    method Enter(node: nat)
      requires Valid() && node in nodes && node !in state
      requires stack != [] ==> node in Targets(edges, stack[|stack| - 1])
      modifies this`state, this`stack
      ensures Valid() && stack == old(stack) + [node] && state == old(state)[node := Opened]
      ensures Unseen() < old(Unseen())
    {
      ghost var before := Unseen();
      state := state[node := Opened];
      stack := stack + [node];
      assert Unseen() == before - {node} && node in before;
    }

    /** Every import of the node at the stack's end has been followed. */
    method Leave(node: nat, ghost rest: seq<nat>)
      requires Valid() && stack == rest + [node]
      requires Done(node, |Targets(edges, node)|)
      modifies this`state, this`stack, this`rank, this`clock
      ensures Valid() && stack == rest && state == old(state)[node := Finished]
      ensures old(rank).Keys + {node} <= rank.Keys
    {
      LastOfStack(stack, rest, node);
      if cycles == [] {
        RankGrows(edges, rank, node, clock);
      }
      stack := stack[..|stack| - 1];
      state := state[node := Finished];
      rank := rank[node := clock];
      clock := clock + 1;
    }

    /** Note a cycle, or walk a node not yet seen. */
    method Follow(target: nat)
      requires AreNodes(edges, nodes) && Valid() && stack != [] && target in Targets(edges, stack[|stack| - 1])
      modifies this
      ensures Walked() && (cycles == [] ==> target in rank && old(cycles) == [])
      decreases |Unseen()|, 1, 0
    {
      if target in state && state[target].Opened? {
        NoteCycle(target);
        return;
      }
      if target !in state {
        Visit(target);
      }
    }

    /** The part of the stack above the target, closed by it. */
    method NoteCycle(target: nat)
      requires Valid() && stack != [] && target in stack && target in Targets(edges, stack[|stack| - 1])
      modifies this`cycles
      ensures Walked() && |cycles| == |old(cycles)| + 1
    {
      var start := 0;
      while stack[start] != target
        invariant start < |stack| && target in stack[start..]
        decreases |stack| - start
      {
        start := start + 1;
      }
      var walked := stack[start..];
      var closed := walked + [target];
      cycles := cycles + [closed];
    }

    /** Every node is walked: a cycle is reported just when there is one. */
    method Search(order: seq<nat>)
      requires AreNodes(edges, nodes) && Valid() && stack == [] && forall node :: node in order <==> node in nodes
      modifies this
      ensures Valid() && (cycles == [] <==> !HasCycle(edges))
      ensures cycles == [] ==> Falls(edges, rank) && forall node | node in nodes :: node in rank
    {
      var i := 0;
      while i < |order|
        invariant i <= |order| && Valid() && stack == []
        invariant AreRanked(order, i, rank)
      {
        var node := order[i];
        if node !in state {
          Visit(node);
        }
        i := i + 1;
      }
      if cycles == [] {
        RankedHasNoCycle(edges, nodes, rank);
      } else {
        assert IsClosedWalk(edges, cycles[0]);
      }
    }
  }

  // ---------------------------------------------------------------- levels

  /** The node's longest walk has that many edges, and such a walk ends in a leaf. */
  ghost predicate IsLevel(edges: Edges, node: nat, level: nat) {
    && (exists walk :: IsLongest(edges, node, level, walk))
    && (forall walk | IsWalk(edges, walk) && walk[0] == node :: |walk| <= level + 1)
  }

  ghost predicate IsLongest(edges: Edges, node: nat, level: nat, walk: seq<nat>) {
    && IsWalk(edges, walk) && walk[0] == node && |walk| == level + 1
    && Targets(edges, walk[level]) == []
  }

  /** The highest of the levels, and one above a target's; a leaf is at 0. */
  lemma LevelIsOneAbove(edges: Edges, node: nat, levels: map<nat, nat>, highest: int)
    requires forall target | target in Targets(edges, node) ::
      target in levels && IsLevel(edges, target, levels[target]) && levels[target] <= highest
    requires if Targets(edges, node) == [] then highest == -1
             else exists target :: target in Targets(edges, node) && levels[target] == highest
    ensures IsLevel(edges, node, 1 + highest)
  {
    var level: nat := 1 + highest;
    if Targets(edges, node) == [] {
      assert IsLongest(edges, node, level, [node]);
    } else {
      var target :| target in Targets(edges, node) && levels[target] == highest;
      var walk :| IsLongest(edges, target, levels[target], walk);
      assert IsLongest(edges, node, level, [node] + walk);
    }
    forall walk | IsWalk(edges, walk) && walk[0] == node
      ensures |walk| <= level + 1
    {
      if |walk| > 1 {
        assert walk[1] in Targets(edges, walk[0]);
        assert IsWalk(edges, walk[1..]) && walk[1..][0] == walk[1];
      }
    }
  }

  class LevelTable {
    const edges: Edges
    var level: map<nat, nat>

    constructor (edges: Edges)
      ensures this.edges == edges && level == map[]
    {
      this.edges := edges;
      level := map[];
    }

    ghost predicate Valid()
      reads this
    {
      forall node | node in level :: IsLevel(edges, node, level[node])
    }

    /** The node's longest path to a leaf, from its targets' own. The rank says the walk ends:
        it falls along every edge. */
    method LevelOf(node: nat, ghost rank: map<nat, nat>) returns (n: nat)
      requires Valid() && Falls(edges, rank) && node in rank
      modifies this
      ensures Valid() && node in level && level[node] == n
      ensures forall m | m in old(level) :: m in level && level[m] == old(level)[m]
      decreases rank[node]
    {
      if node in level {
        return level[node];
      }
      var highest := HighestBelow(node, rank);
      LevelIsOneAbove(edges, node, level, highest);
      n := 1 + highest;
      level := level[node := n];
    }

    method HighestBelow(node: nat, ghost rank: map<nat, nat>) returns (highest: int)
      requires Valid() && Falls(edges, rank) && node in rank && node !in level
      modifies this
      ensures Valid() && highest >= -1
      ensures forall m | m in old(level) :: m in level && level[m] == old(level)[m]
      ensures forall target | target in Targets(edges, node) :: target in level && level[target] <= highest
      ensures if Targets(edges, node) == [] then highest == -1
              else exists target :: target in Targets(edges, node) && target in level && level[target] == highest
      decreases rank[node], 0
    {
      var targets := Targets(edges, node);
      highest := -1;
      ghost var best := 0;
      var i := 0;
      while i < |targets|
        invariant i <= |targets| && Valid() && highest >= -1
        invariant forall m | m in old(level) :: m in level && level[m] == old(level)[m]
        invariant forall j | 0 <= j < i :: targets[j] in level && level[targets[j]] <= highest
        invariant if i == 0 then highest == -1
          else best < i && targets[best] in level && level[targets[best]] == highest
      {
        assert targets[i] in Targets(edges, node);
        var below := LevelOf(targets[i], rank);
        if below > highest {
          highest := below;
          best := i;
        }
        i := i + 1;
      }
    }

    /** Each node's level; every edge goes strictly down. */
    method LevelsOf(order: seq<nat>, ghost rank: map<nat, nat>)
      requires Valid() && Falls(edges, rank) && forall node | node in order :: node in rank
      modifies this
      ensures forall node | node in order :: node in level && IsLevel(edges, node, level[node])
    {
      var i := 0;
      while i < |order|
        invariant i <= |order| && Valid()
        invariant forall j | 0 <= j < i :: order[j] in level
      {
        var n := LevelOf(order[i], rank);
        i := i + 1;
      }
    }
  }

  /** Longest paths fall along every edge. */
  lemma LevelsFall(edges: Edges, node: nat, target: nat, level: nat, below: nat)
    requires target in Targets(edges, node) && IsLevel(edges, node, level) && IsLevel(edges, target, below)
    ensures below < level
  {
    var walk :| IsLongest(edges, target, below, walk);
    assert IsWalk(edges, [node] + walk) && ([node] + walk)[0] == node;
  }

  /** A node has one level. */
  lemma LevelIsUnique(edges: Edges, node: nat, a: nat, b: nat)
    requires IsLevel(edges, node, a) && IsLevel(edges, node, b)
    ensures a == b
  {
    var walk :| IsLongest(edges, node, a, walk);
    var other :| IsLongest(edges, node, b, other);
  }

  /** The whole check: a cycle is reported just when the graph has one, each report a closed
      walk; without one, every node has its longest path's length. */
  method Check(edges: Edges, order: seq<nat>) returns (cycles: seq<seq<nat>>, level: map<nat, nat>)
    requires AreNodes(edges, set node | node in order)
    ensures cycles == [] <==> !HasCycle(edges)
    ensures forall i | 0 <= i < |cycles| :: IsClosedWalk(edges, cycles[i])
    ensures cycles == [] ==>
      forall node | node in order :: node in level && forall n :: IsLevel(edges, node, n) <==> n == level[node]
  {
    var search := new CycleSearch(edges, set node | node in order);
    search.Search(order);
    cycles := search.cycles;
    level := map[];
    if cycles == [] {
      var table := new LevelTable(edges);
      table.LevelsOf(order, search.rank);
      level := table.level;
      forall node, n | node in order && IsLevel(edges, node, n)
        ensures n == level[node]
      {
        LevelIsUnique(edges, node, n, level[node]);
      }
    }
  }

  lemma FiniteShrinks(a: set<nat>, b: set<nat>)
    requires a < b
    ensures |a| < |b|
  {
    var x :| x in b && x !in a;
    assert a <= b - {x};
    SubsetSize(a, b - {x});
  }

  lemma {:induction false} SubsetSize(a: set<nat>, b: set<nat>)
    requires a <= b
    ensures |a| <= |b|
    decreases a
  {
    if a != {} {
      var x :| x in a;
      SubsetSize(a - {x}, b - {x});
    }
  }
}

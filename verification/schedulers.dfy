/** The schedulers' order: by tier, then by the policy's rank, then by age. What a drain keeps
    under any policy, and the fairness of the patches' turns.
 */
module Schedulers {
  import opened Lists

  datatype Job = Job(id: nat, operation: nat, readyTime: int)

  /** The patches an operation acts on, and the operations another waits for. */
  datatype Program = Program(patches: nat -> seq<nat>, critical: set<nat>)

  const CRITICAL_TIER: nat := 0
  const MULTI_PATCH_TIER: nat := 1
  const POLICY_TIER: nat := 2

  function OwnTier(program: Program, job: Job): (tier: nat)
    ensures tier <= POLICY_TIER
  {
    if job.operation in program.critical then CRITICAL_TIER
    else if |program.patches(job.operation)| > 1 then MULTI_PATCH_TIER
    else POLICY_TIER
  }

  function Min(a: nat, b: nat): nat {
    if a < b then a else b
  }

  /** The least tier of a queued job on the patch. */
  function PatchTier(program: Program, queue: seq<Job>, patch: nat): (tier: nat)
    ensures tier <= POLICY_TIER
    ensures forall i | 0 <= i < |queue| && patch in program.patches(queue[i].operation) ::
      tier <= OwnTier(program, queue[i])
    ensures tier < POLICY_TIER ==> exists i | 0 <= i < |queue| ::
      patch in program.patches(queue[i].operation) && OwnTier(program, queue[i]) == tier
  {
    if queue == [] then POLICY_TIER
    else
      var last := |queue| - 1;
      var rest := PatchTier(program, queue[..last], patch);
      assert forall i | 0 <= i < last :: queue[..last][i] == queue[i];
      if patch in program.patches(queue[last].operation) then Min(rest, OwnTier(program, queue[last])) else rest
  }

  /** The least tier of a list of patches. */
  function LeastTier(program: Program, queue: seq<Job>, patches: seq<nat>): (tier: nat)
    ensures tier <= POLICY_TIER
    ensures forall i | 0 <= i < |patches| :: tier <= PatchTier(program, queue, patches[i])
    ensures tier < POLICY_TIER ==> exists i | 0 <= i < |patches| :: PatchTier(program, queue, patches[i]) == tier
  {
    if patches == [] then POLICY_TIER
    else
      var last := |patches| - 1;
      var rest := LeastTier(program, queue, patches[..last]);
      assert forall i | 0 <= i < last :: patches[..last][i] == patches[i];
      Min(rest, PatchTier(program, queue, patches[last]))
  }

  function TierOf(program: Program, queue: seq<Job>, job: Job): nat {
    LeastTier(program, queue, program.patches(job.operation))
  }

  /** Tier, rank within the policy's tier, admission tick, place in the queue. */
  datatype Key = Key(tier: nat, rank: int, readyTime: int, place: nat) {

    predicate Before(other: Key) {
      if tier != other.tier then tier < other.tier
      else if rank != other.rank then rank < other.rank
      else if readyTime != other.readyTime then readyTime < other.readyTime
      else place < other.place
    }
  }

  /** What a policy ranks a job by, in a queue. */
  type Ranking = (seq<Job>, Job) -> int

  function KeyOf(program: Program, rank: Ranking, queue: seq<Job>, i: nat): Key
    requires i < |queue|
  {
    var tier := TierOf(program, queue, queue[i]);
    Key(tier, if tier == POLICY_TIER then rank(queue, queue[i]) else 0, queue[i].readyTime, i)
  }

  function Keys(program: Program, rank: Ranking, queue: seq<Job>): (keys: seq<Key>)
    ensures |keys| == |queue|
    ensures forall i | 0 <= i < |keys| :: keys[i] == KeyOf(program, rank, queue, i)
  {
    seq(|queue|, i requires 0 <= i < |queue| => KeyOf(program, rank, queue, i))
  }

  /** Each key tells its own place. */
  ghost predicate ArePlaced(keys: seq<Key>) {
    forall i | 0 <= i < |keys| :: keys[i].place == i
  }

  /** The place of the least of the first count keys. */
  function LeastOf(keys: seq<Key>, count: nat): (p: nat)
    requires 0 < count <= |keys|
    ensures p < count
  {
    if count == 1 then 0
    else
      var best := LeastOf(keys, count - 1);
      if keys[count - 1].Before(keys[best]) then count - 1 else best
  }

  lemma {:induction false} LeastIsBefore(keys: seq<Key>, count: nat)
    requires 0 < count <= |keys| && ArePlaced(keys)
    ensures forall i | 0 <= i < count && i != LeastOf(keys, count) :: keys[LeastOf(keys, count)].Before(keys[i])
  {
    if count > 1 {
      LeastIsBefore(keys, count - 1);
    }
  }

  function Least(program: Program, rank: Ranking, queue: seq<Job>): (p: nat)
    requires queue != []
    ensures p < |queue|
  {
    LeastOf(Keys(program, rank, queue), |queue|)
  }

  function Removed(queue: seq<Job>, p: nat): seq<Job>
    requires p < |queue|
  {
    queue[..p] + queue[p + 1..]
  }

  /** The queue as it is popped. */
  function Drain(program: Program, rank: Ranking, queue: seq<Job>): (drained: seq<Job>)
    ensures |drained| == |queue|
    decreases |queue|
  {
    if queue == [] then []
    else
      var p := Least(program, rank, queue);
      [queue[p]] + Drain(program, rank, Removed(queue, p))
  }

  // ------------------------------------------------ older work comes first

  lemma RemovedHolds(queue: seq<Job>, p: nat)
    requires p < |queue|
    ensures multiset(queue) == multiset(Removed(queue, p)) + multiset{queue[p]}
  {
    assert queue == queue[..p] + [queue[p]] + queue[p + 1..];
  }

  /** A drain is the queue in another order. */
  lemma {:induction false} DrainIsPermutation(program: Program, rank: Ranking, queue: seq<Job>)
    ensures multiset(Drain(program, rank, queue)) == multiset(queue)
    decreases |queue|
  {
    if queue != [] {
      var p := Least(program, rank, queue);
      DrainIsPermutation(program, rank, Removed(queue, p));
      RemovedHolds(queue, p);
    }
  }

  ghost predicate Distinguished(queue: seq<Job>) {
    forall i, j | 0 <= i < j < |queue| :: queue[i].id != queue[j].id
  }

  ghost predicate IsOlder(queue: seq<Job>, a: nat, b: nat)
    requires a < |queue| && b < |queue|
  {
    queue[a].readyTime < queue[b].readyTime || (queue[a].readyTime == queue[b].readyTime && a < b)
  }

  ghost predicate SharesPatch(program: Program, a: Job, b: Job) {
    exists patch :: patch in program.patches(a.operation) && patch in program.patches(b.operation)
  }

  /** While both wait, an older job on a critical job's patch is popped before it. */
  lemma OlderHasLesserKey(program: Program, rank: Ranking, queue: seq<Job>, a: nat, b: nat)
    requires a < |queue| && b < |queue| && a != b && IsOlder(queue, a, b)
    requires queue[b].operation in program.critical && SharesPatch(program, queue[a], queue[b])
    ensures KeyOf(program, rank, queue, a).Before(KeyOf(program, rank, queue, b))
  {
    var patch :| patch in program.patches(queue[a].operation) && patch in program.patches(queue[b].operation);
    assert PatchTier(program, queue, patch) == CRITICAL_TIER;
    var i :| 0 <= i < |program.patches(queue[a].operation)| && program.patches(queue[a].operation)[i] == patch;
    var j :| 0 <= j < |program.patches(queue[b].operation)| && program.patches(queue[b].operation)[j] == patch;
    assert TierOf(program, queue, queue[a]) == CRITICAL_TIER && TierOf(program, queue, queue[b]) == CRITICAL_TIER;
  }

  /** The place in the rest of a job not removed. */
  function Shifted(p: nat, i: nat): nat {
    if i < p then i else if i == 0 then 0 else i - 1
  }

  lemma RemovedAt(queue: seq<Job>, p: nat, i: nat)
    requires p < |queue| && i < |queue| && i != p
    ensures Shifted(p, i) < |Removed(queue, p)| && Removed(queue, p)[Shifted(p, i)] == queue[i]
  {
  }

  ghost predicate ComesBefore(drained: seq<Job>, a: Job, b: Job) {
    forall p, q | 0 <= p < |drained| && 0 <= q < |drained| && drained[p] == a && drained[q] == b :: p < q
  }

  lemma {:induction false} DrainHasOnly(program: Program, rank: Ranking, queue: seq<Job>)
    ensures forall job :: job in Drain(program, rank, queue) <==> job in queue
  {
    DrainIsPermutation(program, rank, queue);
    forall job
      ensures job in Drain(program, rank, queue) <==> job in queue
    {
      assert job in multiset(Drain(program, rank, queue)) <==> job in multiset(queue);
    }
  }

  /** The younger critical job is not the next one popped. */
  lemma YoungerIsNotNext(program: Program, rank: Ranking, queue: seq<Job>, a: nat, b: nat)
    requires a < |queue| && b < |queue| && a != b && IsOlder(queue, a, b)
    requires queue[b].operation in program.critical && SharesPatch(program, queue[a], queue[b])
    ensures Least(program, rank, queue) != b
  {
    OlderHasLesserKey(program, rank, queue, a, b);
    LeastIsBefore(Keys(program, rank, queue), |queue|);
  }

  lemma FirstComesBefore(first: Job, rest: seq<Job>, other: Job)
    requires first !in rest && first != other
    ensures ComesBefore([first] + rest, first, other)
  {
    assert forall i | 0 <= i < |rest| :: rest[i] in rest && rest[i] != first;
  }

  lemma RestComesBefore(first: Job, rest: seq<Job>, a: Job, b: Job)
    requires first != a && first != b && ComesBefore(rest, a, b)
    ensures ComesBefore([first] + rest, a, b)
  {
    var all := [first] + rest;
    forall x, y | 0 <= x < |all| && 0 <= y < |all| && all[x] == a && all[y] == b
      ensures x < y
    {
      assert ([first] + rest)[x] == rest[x - 1] && ([first] + rest)[y] == rest[y - 1];
    }
  }

  /** Under every policy, an older job on a critical job's patch is drained before it. */
  lemma {:induction false} OlderDrainsFirst(program: Program, rank: Ranking, queue: seq<Job>, a: nat, b: nat)
    requires Distinguished(queue) && a < |queue| && b < |queue| && a != b && IsOlder(queue, a, b)
    requires queue[b].operation in program.critical && SharesPatch(program, queue[a], queue[b])
    ensures ComesBefore(Drain(program, rank, queue), queue[a], queue[b])
    decreases |queue|
  {
    var p := Least(program, rank, queue);
    var rest := Removed(queue, p);
    YoungerIsNotNext(program, rank, queue, a, b);
    if p == a {
      NotInRest(queue, p);
      DrainHasOnly(program, rank, rest);
      FirstComesBefore(queue[p], Drain(program, rank, rest), queue[b]);
    } else {
      RemovedAt(queue, p, a);
      RemovedAt(queue, p, b);
      RestDistinguished(queue, p);
      OlderDrainsFirst(program, rank, rest, Shifted(p, a), Shifted(p, b));
      RestComesBefore(queue[p], Drain(program, rank, rest), queue[a], queue[b]);
    }
  }

  lemma NotInRest(queue: seq<Job>, p: nat)
    requires Distinguished(queue) && p < |queue|
    ensures queue[p] !in Removed(queue, p)
  {
    forall i | 0 <= i < |Removed(queue, p)|
      ensures Removed(queue, p)[i] != queue[p]
    {
      assert Removed(queue, p)[i] == queue[if i < p then i else i + 1];
    }
  }

  lemma RestDistinguished(queue: seq<Job>, p: nat)
    requires Distinguished(queue) && p < |queue|
    ensures Distinguished(Removed(queue, p))
  {
    var rest := Removed(queue, p);
    forall i, j | 0 <= i < j < |rest|
      ensures rest[i].id != rest[j].id
    {
      assert rest[i] == queue[if i < p then i else i + 1] && rest[j] == queue[if j < p then j else j + 1];
    }
  }

  /** One of two queued jobs is popped first: that of the lesser tier; within the policy's tier that
      of the lesser rank; and of those alike in both, the older. */
  ghost predicate Precedes(program: Program, rank: Ranking, queue: seq<Job>, a: nat, b: nat)
    requires a < |queue| && b < |queue|
  {
    var tier, other := TierOf(program, queue, queue[a]), TierOf(program, queue, queue[b]);
    && tier <= other
    && (tier == other == POLICY_TIER ==> rank(queue, queue[a]) <= rank(queue, queue[b]))
    && (tier == other && (tier == POLICY_TIER ==> rank(queue, queue[a]) == rank(queue, queue[b])) ==>
          IsOlder(queue, a, b))
  }

  ghost predicate IsNext(program: Program, rank: Ranking, queue: seq<Job>, p: nat) {
    p < |queue| && forall j | 0 <= j < |queue| && j != p :: Precedes(program, rank, queue, p, j)
  }

  /** The job popped is the one that precedes every other. */
  lemma LeastIsNext(program: Program, rank: Ranking, queue: seq<Job>)
    requires queue != []
    ensures IsNext(program, rank, queue, Least(program, rank, queue))
  {
    var keys := Keys(program, rank, queue);
    var p := Least(program, rank, queue);
    LeastIsBefore(keys, |queue|);
    forall j | 0 <= j < |queue| && j != p
      ensures Precedes(program, rank, queue, p, j)
    {
      assert keys[p].Before(keys[j]);
    }
  }

  ghost predicate IsPopped(program: Program, rank: Ranking, queue: seq<Job>, job: Job, rest: seq<Job>) {
    exists p | 0 <= p < |queue| :: IsNext(program, rank, queue, p) && job == queue[p] && rest == Removed(queue, p)
  }

  lemma LeastIsPopped(program: Program, rank: Ranking, queue: seq<Job>)
    requires queue != []
    ensures var p := Least(program, rank, queue); IsPopped(program, rank, queue, queue[p], Removed(queue, p))
  {
    LeastIsNext(program, rank, queue);
  }

  /** Jobs of the same patches that the policy ranks alike are drained oldest first. */
  lemma {:induction false} AlikeDrainByAge(program: Program, rank: Ranking, queue: seq<Job>, a: nat, b: nat)
    requires Distinguished(queue) && a < |queue| && b < |queue| && a != b && IsOlder(queue, a, b)
    requires program.patches(queue[a].operation) == program.patches(queue[b].operation)
    requires forall q: seq<Job> :: rank(q, queue[a]) == rank(q, queue[b])
    ensures ComesBefore(Drain(program, rank, queue), queue[a], queue[b])
    decreases |queue|
  {
    var p := Least(program, rank, queue);
    var rest := Removed(queue, p);
    LeastIsNext(program, rank, queue);
    assert !Precedes(program, rank, queue, b, a);
    if p == a {
      NotInRest(queue, p);
      DrainHasOnly(program, rank, rest);
      FirstComesBefore(queue[p], Drain(program, rank, rest), queue[b]);
    } else {
      RemovedAt(queue, p, a);
      RemovedAt(queue, p, b);
      RestDistinguished(queue, p);
      AlikeDrainByAge(program, rank, rest, Shifted(p, a), Shifted(p, b));
      RestComesBefore(queue[p], Drain(program, rank, rest), queue[a], queue[b]);
    }
  }

  // ------------------------------------------------------- the patches' turns

  /** The first place of the patch in the turns; their number when it has none. */
  function TurnOf(turns: seq<nat>, patch: nat): (t: nat)
    ensures t <= |turns| && (t < |turns| <==> patch in turns)
    ensures t < |turns| ==> turns[t] == patch
    ensures forall i | 0 <= i < t :: turns[i] != patch
  {
    if turns == [] then 0
    else if turns[0] == patch then 0
    else 1 + TurnOf(turns[1..], patch)
  }

  function ToTheBack(turns: seq<nat>, patch: nat): seq<nat> {
    if patch in turns then Without(turns, patch) + [patch] else turns
  }

  function AllToTheBack(turns: seq<nat>, patches: seq<nat>): seq<nat>
    decreases |patches|
  {
    if patches == [] then turns else AllToTheBack(ToTheBack(turns, patches[0]), patches[1..])
  }

  /** The turns stay the program's patches, each once. */
  lemma {:induction false} TurnsStay(turns: seq<nat>, patches: seq<nat>)
    requires Distinct(turns)
    ensures Distinct(AllToTheBack(turns, patches)) && |AllToTheBack(turns, patches)| == |turns|
    ensures forall x :: x in AllToTheBack(turns, patches) <==> x in turns
    decreases |patches|
  {
    if patches != [] {
      var next := ToTheBack(turns, patches[0]);
      if patches[0] in turns {
        DistinctGrows(Without(turns, patches[0]), patches[0]);
      }
      TurnsStay(next, patches[1..]);
    }
  }

  lemma {:induction false} TurnsWithout(turns: seq<nat>, patch: nat, x: nat, y: nat)
    requires Distinct(turns) && x in turns && y in turns && x != patch && y != patch
    ensures x in Without(turns, patch) && y in Without(turns, patch)
    ensures TurnOf(turns, x) < TurnOf(turns, y) <==> TurnOf(Without(turns, patch), x) < TurnOf(Without(turns, patch), y)
  {
    if turns[0] == patch {
      DistinctTail(turns);
    } else {
      DistinctTail(turns);
      assert Without(turns, patch) == [turns[0]] + Without(turns[1..], patch);
      if turns[0] != x && turns[0] != y {
        TurnsWithout(turns[1..], patch, x, y);
      }
    }
  }

  lemma {:induction false} TurnAppended(turns: seq<nat>, more: nat, x: nat)
    requires x in turns
    ensures TurnOf(turns + [more], x) == TurnOf(turns, x)
  {
    if turns[0] != x {
      TurnAppended(turns[1..], more, x);
      assert (turns + [more])[1..] == turns[1..] + [more];
    }
  }

  lemma {:induction false} LastTurn(turns: seq<nat>, patch: nat)
    requires patch !in turns
    ensures TurnOf(turns + [patch], patch) == |turns|
  {
    if turns == [] {
      assert turns + [patch] == [patch];
    } else {
      LastTurn(turns[1..], patch);
      assert (turns + [patch])[1..] == turns[1..] + [patch];
    }
  }

  /** Serving a patch puts it behind every other, and leaves the others in their order. */
  lemma ServedGoesBehind(turns: seq<nat>, patch: nat, x: nat, y: nat)
    requires Distinct(turns) && patch in turns && x in turns && y in turns && x != patch
    ensures TurnOf(ToTheBack(turns, patch), x) < TurnOf(ToTheBack(turns, patch), patch)
    ensures y != patch ==>
      (TurnOf(turns, x) < TurnOf(turns, y) <==> TurnOf(ToTheBack(turns, patch), x) < TurnOf(ToTheBack(turns, patch), y))
  {
    var rest := Without(turns, patch);
    LastTurn(rest, patch);
    TurnAppended(rest, patch, x);
    if y != patch {
      TurnsWithout(turns, patch, x, y);
      TurnAppended(rest, patch, y);
    }
  }

  /** Of several patches served at once, each goes behind every other patch. */
  lemma {:induction false} AllServedGoBehind(turns: seq<nat>, patches: seq<nat>, x: nat, patch: nat)
    requires Distinct(turns) && x in turns && x !in patches && patch in patches && patch in turns
    ensures TurnOf(AllToTheBack(turns, patches), x) < TurnOf(AllToTheBack(turns, patches), patch)
    decreases |patches|
  {
    var next := ToTheBack(turns, patches[0]);
    TurnsStay(turns, [patches[0]]);
    assert AllToTheBack(turns, [patches[0]]) == next by {
      assert [patches[0]][1..] == [];
    }
    if patch in patches[1..] {
      AllServedGoBehind(next, patches[1..], x, patch);
    } else {
      ServedGoesBehind(turns, patch, x, x);
      OthersLeaveOrder(next, patches[1..], x, patch);
    }
  }

  /** Moving other patches to the back leaves the order of two that are not moved. */
  lemma {:induction false} OthersLeaveOrder(turns: seq<nat>, patches: seq<nat>, x: nat, y: nat)
    requires Distinct(turns) && x in turns && y in turns && x !in patches && y !in patches
    ensures TurnOf(turns, x) < TurnOf(turns, y) <==>
      TurnOf(AllToTheBack(turns, patches), x) < TurnOf(AllToTheBack(turns, patches), y)
    decreases |patches|
  {
    if patches != [] {
      var next := ToTheBack(turns, patches[0]);
      TurnsStay(turns, [patches[0]]);
      assert AllToTheBack(turns, [patches[0]]) == next by {
        assert [patches[0]][1..] == [];
      }
      if patches[0] in turns {
        ServedGoesBehind(turns, patches[0], x, y);
      }
      OthersLeaveOrder(next, patches[1..], x, y);
    }
  }

  /** One dispatch while only policy jobs wait: the first placeable job in drained order is
      served, and its patch goes to the back. */
  datatype Serving = Serving(queue: seq<Job>, placeable: set<nat>, served: Job)

  /** What a job is ranked under: its operation's first patch, or, when the program lists no patch
      for it, a group of its own. */
  datatype Group = Patch(patch: nat) | Unlisted(operation: nat)

  function GroupOf(program: Program, job: Job): Group {
    var patches := program.patches(job.operation);
    if patches == [] then Unlisted(job.operation) else Patch(patches[0])
  }

  /** A group that is no patch has the turn after them all. */
  function GroupTurn(turns: seq<nat>, group: Group): nat {
    match group
    case Patch(patch) => TurnOf(turns, patch)
    case Unlisted(_) => |turns|
  }

  function TurnFor(program: Program, turns: seq<nat>, job: Job): nat {
    GroupTurn(turns, GroupOf(program, job))
  }

  /** Every queued job is of the policy's tier. */
  ghost predicate IsPolicyQueue(program: Program, queue: seq<Job>) {
    forall i | 0 <= i < |queue| :: TierOf(program, queue, queue[i]) == POLICY_TIER
  }

  ghost predicate IsPolicyJob(program: Program, job: Job) {
    program.patches(job.operation) != [] ==> OwnTier(program, job) == POLICY_TIER
  }

  /** That is so just when each is on no listed patch, or is neither critical nor on several. */
  lemma PolicyJobsExactly(program: Program, queue: seq<Job>)
    ensures IsPolicyQueue(program, queue) <==> forall i | 0 <= i < |queue| :: IsPolicyJob(program, queue[i])
  {
    if forall i | 0 <= i < |queue| :: IsPolicyJob(program, queue[i]) {
      forall i | 0 <= i < |queue|
        ensures TierOf(program, queue, queue[i]) == POLICY_TIER
      {
        assert forall patch :: PatchTier(program, queue, patch) == POLICY_TIER;
      }
    }
    if IsPolicyQueue(program, queue) {
      forall i | 0 <= i < |queue|
        ensures IsPolicyJob(program, queue[i])
      {
        var patches := program.patches(queue[i].operation);
        if patches != [] {
          assert patches[0] in patches;
          var tier := PatchTier(program, queue, patches[0]);
          assert TierOf(program, queue, queue[i]) <= tier <= OwnTier(program, queue[i]);
        }
      }
    }
  }

  function ByTurn(program: Program, turns: seq<nat>): Ranking {
    (queue: seq<Job>, job: Job) => TurnFor(program, turns, job)
  }

  ghost predicate IsServed(program: Program, turns: seq<nat>, s: Serving) {
    var drained := Drain(program, ByTurn(program, turns), s.queue);
    exists p | 0 <= p < |drained| ::
      && drained[p] == s.served && s.served.id in s.placeable
      && forall q | 0 <= q < p :: drained[q].id !in s.placeable
  }

  lemma RestIsPolicy(program: Program, queue: seq<Job>, p: nat)
    requires IsPolicyQueue(program, queue) && p < |queue|
    ensures IsPolicyQueue(program, Removed(queue, p))
  {
    var rest := Removed(queue, p);
    PolicyJobsExactly(program, queue);
    PolicyJobsExactly(program, rest);
    assert forall i | 0 <= i < |rest| :: rest[i] == queue[if i < p then i else i + 1];
  }

  /** The next job popped has no later turn than any other. */
  lemma NextHasFirstTurn(program: Program, turns: seq<nat>, queue: seq<Job>, j: nat)
    requires IsPolicyQueue(program, queue) && j < |queue|
    ensures var first := queue[Least(program, ByTurn(program, turns), queue)];
      TurnFor(program, turns, first) <= TurnFor(program, turns, queue[j])
  {
    var rank := ByTurn(program, turns);
    var first := Least(program, rank, queue);
    LeastIsBefore(Keys(program, rank, queue), |queue|);
    assert KeyOf(program, rank, queue, first).tier == KeyOf(program, rank, queue, j).tier == POLICY_TIER;
  }

  lemma NextDrainsFirst(program: Program, turns: seq<nat>, queue: seq<Job>, job: Job)
    requires IsPolicyQueue(program, queue) && queue != [] && job in queue
    ensures TurnFor(program, turns, Drain(program, ByTurn(program, turns), queue)[0]) <= TurnFor(program, turns, job)
  {
    var j :| 0 <= j < |queue| && queue[j] == job;
    NextHasFirstTurn(program, turns, queue, j);
  }

  lemma DrainTail(program: Program, rank: Ranking, queue: seq<Job>)
    requires queue != []
    ensures Drain(program, rank, queue)[1..] == Drain(program, rank, Removed(queue, Least(program, rank, queue)))
  {
  }

  /** A drain by turns is in the order of the turns, unlisted jobs last. */
  lemma {:induction false} DrainByTurns(program: Program, turns: seq<nat>, queue: seq<Job>, p: nat, q: nat)
    requires IsPolicyQueue(program, queue) && p < q < |queue|
    ensures var drained := Drain(program, ByTurn(program, turns), queue);
      TurnFor(program, turns, drained[p]) <= TurnFor(program, turns, drained[q])
    decreases |queue|
  {
    var rank := ByTurn(program, turns);
    var drained := Drain(program, rank, queue);
    if p == 0 {
      DrainHasOnly(program, rank, queue);
      assert drained[q] in drained;
      NextDrainsFirst(program, turns, queue, drained[q]);
    } else {
      var first := Least(program, rank, queue);
      RestIsPolicy(program, queue, first);
      DrainTail(program, rank, queue);
      DrainByTurns(program, turns, Removed(queue, first), p - 1, q - 1);
      assert drained[1..][p - 1] == drained[p] && drained[1..][q - 1] == drained[q];
    }
  }

  /** By turns too: of two jobs of the same patches the older is drained first. */
  lemma TurnDrainsByAge(program: Program, turns: seq<nat>, queue: seq<Job>, a: nat, b: nat)
    requires Distinguished(queue) && a < |queue| && b < |queue| && a != b && IsOlder(queue, a, b)
    requires program.patches(queue[a].operation) == program.patches(queue[b].operation) != []
    ensures ComesBefore(Drain(program, ByTurn(program, turns), queue), queue[a], queue[b])
  {
    AlikeDrainByAge(program, ByTurn(program, turns), queue, a, b);
  }

  /** The job served has no later turn than any placeable job. */
  lemma ServedHasFirstTurn(program: Program, turns: seq<nat>, s: Serving, job: Job)
    requires IsPolicyQueue(program, s.queue) && IsServed(program, turns, s)
    requires job in s.queue && job.id in s.placeable
    ensures TurnFor(program, turns, s.served) <= TurnFor(program, turns, job)
    ensures s.served in s.queue
  {
    var rank := ByTurn(program, turns);
    var drained := Drain(program, rank, s.queue);
    DrainHasOnly(program, rank, s.queue);
    var p :| 0 <= p < |drained| && drained[p] == s.served && s.served.id in s.placeable &&
      forall q | 0 <= q < p :: drained[q].id !in s.placeable;
    var q :| 0 <= q < |drained| && drained[q] == job;
    assert drained[p] in drained;
    if p < q {
      DrainByTurns(program, turns, s.queue, p, q);
    }
  }

  lemma ServedIsQueued(program: Program, turns: seq<nat>, s: Serving)
    requires IsServed(program, turns, s)
    ensures s.served in s.queue && s.served.id in s.placeable
  {
    var rank := ByTurn(program, turns);
    var drained := Drain(program, rank, s.queue);
    DrainHasOnly(program, rank, s.queue);
    var p :| 0 <= p < |drained| && drained[p] == s.served && s.served.id in s.placeable;
    assert drained[p] in drained;
  }

  function TurnsAfter(program: Program, turns: seq<nat>, s: Serving): seq<nat> {
    AllToTheBack(turns, program.patches(s.served.operation))
  }

  /** Each of the program's patches has a turn. */
  ghost predicate HaveTurns(program: Program, turns: seq<nat>) {
    Distinct(turns) && forall operation, patch | patch in program.patches(operation) :: patch in turns
  }

  ghost predicate IsRun(program: Program, turns: seq<nat>, run: seq<Serving>)
    decreases |run|
  {
    run == [] ||
    (IsPolicyQueue(program, run[0].queue) && IsServed(program, turns, run[0]) &&
     IsRun(program, TurnsAfter(program, turns, run[0]), run[1..]))
  }

  /** A placeable job of the group waits. */
  ghost predicate WaitsOn(program: Program, s: Serving, group: Group) {
    exists job :: job in s.queue && job.id in s.placeable && GroupOf(program, job) == group
  }

  lemma ServingMoves(program: Program, turns: seq<nat>, s: Serving)
    requires HaveTurns(program, turns) && IsPolicyQueue(program, s.queue) && IsServed(program, turns, s)
    ensures TurnsAfter(program, turns, s) ==
      match GroupOf(program, s.served) { case Patch(patch) => ToTheBack(turns, patch) case Unlisted(_) => turns }
    ensures GroupOf(program, s.served).Patch? ==> GroupOf(program, s.served).patch in turns
    ensures HaveTurns(program, TurnsAfter(program, turns, s)) && |TurnsAfter(program, turns, s)| == |turns|
    ensures forall x :: x in TurnsAfter(program, turns, s) <==> x in turns
  {
    ServedIsQueued(program, turns, s);
    PolicyJobsExactly(program, s.queue);
    var i :| 0 <= i < |s.queue| && s.queue[i] == s.served;
    assert IsPolicyJob(program, s.queue[i]);
    var patches := program.patches(s.served.operation);
    if patches != [] {
      assert patches[1..] == [] && patches[0] in patches;
    }
    TurnsStay(turns, patches);
  }

  /** A placeable job of the group waits, and another group's is served. */
  ghost predicate IsPassedOver(program: Program, s: Serving, group: Group) {
    WaitsOn(program, s, group) && GroupOf(program, s.served) != group
  }

  ghost predicate IsPassedOverIn(program: Program, run: seq<Serving>, group: Group, count: nat)
    requires count <= |run|
  {
    forall i | 0 <= i < count :: IsPassedOver(program, run[i], group)
  }

  lemma BehindIsNotFirst(program: Program, turns: seq<nat>, s: Serving, a: Group, b: Group)
    requires IsPolicyQueue(program, s.queue) && IsServed(program, turns, s) && WaitsOn(program, s, b)
    requires GroupTurn(turns, b) < GroupTurn(turns, a)
    ensures GroupOf(program, s.served) != a
  {
    var job :| job in s.queue && job.id in s.placeable && GroupOf(program, job) == b;
    ServedHasFirstTurn(program, turns, s, job);
  }

  lemma TailPassedOver(program: Program, run: seq<Serving>, group: Group, n: nat)
    requires 0 < n <= |run| && IsPassedOverIn(program, run, group, n)
    ensures IsPassedOverIn(program, run[1..], group, n - 1)
  {
    assert forall i | 0 <= i < |run[1..]| :: run[1..][i] == run[i + 1];
  }

  /** A job the program lists no patch for is served only while no patch's placeable job waits. */
  lemma UnlistedServedLast(program: Program, turns: seq<nat>, s: Serving, patch: nat)
    requires IsPolicyQueue(program, s.queue) && IsServed(program, turns, s) && patch in turns
    requires WaitsOn(program, s, Patch(patch))
    ensures GroupOf(program, s.served).Patch?
  {
    if GroupOf(program, s.served).Unlisted? {
      BehindIsNotFirst(program, turns, s, GroupOf(program, s.served), Patch(patch));
    }
  }

  /** A serving of another group than a waiting patch's puts that group behind the patch, or leaves
      it there. */
  lemma ServingPutsBehind(program: Program, turns: seq<nat>, s: Serving, b: nat)
    requires HaveTurns(program, turns) && IsPolicyQueue(program, s.queue) && IsServed(program, turns, s)
    requires b in turns && IsPassedOver(program, s, Patch(b))
    ensures GroupOf(program, s.served).Patch?
    ensures var after := TurnsAfter(program, turns, s);
      && HaveTurns(program, after) && b in after
      && GroupTurn(after, Patch(b)) < GroupTurn(after, GroupOf(program, s.served))
      && (forall a | GroupTurn(turns, Patch(b)) < GroupTurn(turns, a) ::
        GroupTurn(after, Patch(b)) < GroupTurn(after, a))
  {
    UnlistedServedLast(program, turns, s, b);
    ServingMoves(program, turns, s);
    var patch := GroupOf(program, s.served).patch;
    var after := TurnsAfter(program, turns, s);
    ServedGoesBehind(turns, patch, b, b);
    forall a | GroupTurn(turns, Patch(b)) < GroupTurn(turns, a)
      ensures GroupTurn(after, Patch(b)) < GroupTurn(after, a)
    {
      if a.Patch? && a.patch in turns {
        ServedGoesBehind(turns, patch, b, a.patch);
      }
    }
  }

  /** While a placeable job of one patch is passed over, a group behind it is not served. */
  lemma {:induction false} BehindIsNotServed(
    program: Program, turns: seq<nat>, run: seq<Serving>, a: Group, b: nat, n: nat)
    requires HaveTurns(program, turns) && IsRun(program, turns, run) && n < |run| && b in turns
    requires GroupTurn(turns, Patch(b)) < GroupTurn(turns, a)
    requires IsPassedOverIn(program, run, Patch(b), n) && WaitsOn(program, run[n], Patch(b))
    ensures GroupOf(program, run[n].served) != a
    decreases |run|
  {
    if n == 0 {
      BehindIsNotFirst(program, turns, run[0], a, Patch(b));
    } else {
      assert IsPassedOver(program, run[0], Patch(b));
      ServingPutsBehind(program, turns, run[0], b);
      TailPassedOver(program, run, Patch(b), n);
      assert run[1..][n - 1] == run[n];
      BehindIsNotServed(program, TurnsAfter(program, turns, run[0]), run[1..], a, b, n - 1);
    }
  }

  /** Fair turns: nothing is served twice, a patch's jobs or a job of no listed patch, while another
      patch's placeable job waits throughout and is passed over. */
  lemma NotServedTwice(program: Program, turns: seq<nat>, run: seq<Serving>, a: Group, b: nat, n: nat)
    requires HaveTurns(program, turns) && IsRun(program, turns, run) && 0 < n < |run| && b in turns
    requires GroupOf(program, run[0].served) == a
    requires IsPassedOverIn(program, run, Patch(b), n) && WaitsOn(program, run[n], Patch(b))
    ensures GroupOf(program, run[n].served) != a
  {
    assert IsPassedOver(program, run[0], Patch(b));
    ServingPutsBehind(program, turns, run[0], b);
    TailPassedOver(program, run, Patch(b), n);
    assert run[1..][n - 1] == run[n];
    BehindIsNotServed(program, TurnsAfter(program, turns, run[0]), run[1..], a, b, n - 1);
  }

  /** Operation 0 is on patch 5; the program lists no other. */
  function OnePatch(): Program {
    Program((operation: nat) => if operation == 0 then [5] else [], {})
  }

  /** A job of patch 5 and a job of no listed patch wait, and the first is served. */
  const Beside: Serving := Serving([Job(0, 0, 0), Job(1, 1, 0)], {0, 1}, Job(0, 0, 0))

  lemma BesideIsServed()
    ensures IsPolicyQueue(OnePatch(), Beside.queue) && IsServed(OnePatch(), [5], Beside)
  {
    var program, queue, rank := OnePatch(), Beside.queue, ByTurn(OnePatch(), [5]);
    PolicyJobsExactly(program, queue);
    var first := Least(program, rank, queue);
    LeastIsBefore(Keys(program, rank, queue), 2);
    assert KeyOf(program, rank, queue, 0).rank == 0 && KeyOf(program, rank, queue, 1).rank == 1;
    assert first == 0;
    var drained := Drain(program, rank, queue);
    assert drained[0] == Beside.served;
  }

  lemma BesideMoves()
    ensures TurnsAfter(OnePatch(), [5], Beside) == [5] && HaveTurns(OnePatch(), [5])
    ensures IsPassedOver(OnePatch(), Beside, Unlisted(1)) && GroupOf(OnePatch(), Beside.served) == Patch(5)
  {
    assert Beside.queue[1] in Beside.queue && GroupOf(OnePatch(), Beside.queue[1]) == Unlisted(1);
    assert [5][1..] == [] && AllToTheBack([5], [5]) == AllToTheBack(ToTheBack([5], 5), []);
  }

  lemma {:induction false} Repeats(program: Program, turns: seq<nat>, serving: Serving, group: Group, rounds: nat)
    requires IsPolicyQueue(program, serving.queue) && IsServed(program, turns, serving)
    requires TurnsAfter(program, turns, serving) == turns && IsPassedOver(program, serving, group)
    ensures var run := seq(rounds, _ => serving);
      IsRun(program, turns, run) && IsPassedOverIn(program, run, group, rounds)
  {
    var run := seq(rounds, _ => serving);
    if rounds > 0 {
      assert run[1..] == seq(rounds - 1, _ => serving);
      Repeats(program, turns, serving, group, rounds - 1);
    }
  }

  /** One patch's jobs are served again and again, in as long a run as one likes, while a job of no
      listed patch waits. */
  lemma UnlistedIsPassedOver(rounds: nat)
    ensures var run := seq(rounds, _ => Beside);
      IsRun(OnePatch(), [5], run) && IsPassedOverIn(OnePatch(), run, Unlisted(1), rounds)
    ensures HaveTurns(OnePatch(), [5]) && GroupOf(OnePatch(), Beside.served) == Patch(5)
  {
    BesideIsServed();
    BesideMoves();
    Repeats(OnePatch(), [5], Beside, Unlisted(1), rounds);
  }

  // ---------------------------------------------------- as the source runs

  method LeastPlace(keys: seq<Key>) returns (first: nat)
    requires keys != []
    ensures first == LeastOf(keys, |keys|)
  {
    first := 0;
    var i := 1;
    while i < |keys|
      invariant 1 <= i <= |keys| && first == LeastOf(keys, i)
    {
      if keys[i].Before(keys[first]) {
        first := i;
      }
      i := i + 1;
    }
  }

  class RoundRobin {
    const program: Program
    var turns: seq<nat>

    constructor (program: Program, patchOrder: seq<nat>)
      requires Distinct(patchOrder)
      ensures this.program == program && turns == patchOrder
    {
      this.program, turns := program, patchOrder;
    }

    /** The least key under the turns is removed. */
    method Pop(queue: seq<Job>) returns (job: Job, rest: seq<Job>)
      requires queue != []
      ensures [job] + Drain(program, ByTurn(program, turns), rest) == Drain(program, ByTurn(program, turns), queue)
      ensures multiset(queue) == multiset(rest) + multiset{job}
      ensures IsPopped(program, ByTurn(program, turns), queue, job, rest)
    {
      var first := LeastPlace(Keys(program, ByTurn(program, turns), queue));
      job := queue[first];
      rest := queue[..first] + queue[first + 1..];
      RemovedHolds(queue, first);
      LeastIsPopped(program, ByTurn(program, turns), queue);
    }

    /** Every patch of the served operation is moved behind the others. */
    method Served(job: Job)
      requires Distinct(turns)
      modifies this
      ensures turns == AllToTheBack(old(turns), program.patches(job.operation))
      ensures Distinct(turns) && forall x :: x in turns <==> x in old(turns)
    {
      var patches := program.patches(job.operation);
      TurnsStay(turns, patches);
      var i := 0;
      while i < |patches|
        invariant i <= |patches| && AllToTheBack(turns, patches[i..]) == AllToTheBack(old(turns), patches)
      {
        assert patches[i..][0] == patches[i] && patches[i..][1..] == patches[i + 1..];
        if patches[i] in turns {
          turns := Without(turns, patches[i]) + [patches[i]];
        }
        i := i + 1;
      }
    }
  }
}

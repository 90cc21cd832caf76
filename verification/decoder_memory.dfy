/** One decoder unit's input memory and the staging that fills it: one copy of an input with
    many readers, one transfer that several jobs may join, one writer of the boundary mask.

    A landing key carries its unit, so units share nothing and one is enough. Every job of the
    model holds its rounds in the store until its input has been copied here.
 */
module DecoderMemories {
  import opened Options
  import opened Lists

  /** The rounds of one input and the masks folded into them. */
  datatype Input = Input(key: nat, bits: nat, masks: seq<nat>)

  datatype Resident = Resident(input: Input, readers: seq<nat>, rewritten: bool)

  /** released counts the times the job's hold on the store was dropped; waits says it was
      staged and has neither landed nor been cancelled. */
  datatype Job = Job(
    key: nat,
    bits: nat,
    onUnit: bool,
    isReader: bool,
    input: Option<Input>,
    holds: bool,
    released: nat,
    waits: bool,
    folded: bool,
    cancelled: bool)

  /** A transfer in flight and the jobs that join its landing. */
  datatype Awaited = Awaited(sender: nat, joined: seq<nat>)

  datatype Staging = Staging(
    capacity: Option<nat>,
    memory: seq<Resident>,
    awaited: map<nat, Awaited>,
    inFlight: set<nat>,
    jobs: map<nat, Job>)

  datatype Attempt = Done(staging: Staging) | CapacityExceeded

  // ------------------------------------------------------------- the memory

  function Occupied(memory: seq<Resident>): nat {
    if memory == [] then 0 else memory[0].input.bits + Occupied(memory[1..])
  }

  /** The place of the input in the memory; its length when it is not there. */
  function PlaceOf(memory: seq<Resident>, key: nat): (p: nat)
    ensures p <= |memory| && (p < |memory| ==> memory[p].input.key == key)
    ensures forall q | 0 <= q < p :: memory[q].input.key != key
  {
    if memory == [] then 0
    else if memory[0].input.key == key then 0
    else 1 + PlaceOf(memory[1..], key)
  }

  predicate HasInput(memory: seq<Resident>, key: nat) {
    PlaceOf(memory, key) < |memory|
  }

  function AddReader(memory: seq<Resident>, key: nat, job: nat): seq<Resident>
    requires HasInput(memory, key)
  {
    var p := PlaceOf(memory, key);
    memory[p := memory[p].(readers := memory[p].readers + [job])]
  }

  /** One reader fewer; an input without readers is removed. */
  function Take(memory: seq<Resident>, key: nat, job: nat): seq<Resident> {
    var p := PlaceOf(memory, key);
    if p == |memory| then memory
    else
      var readers := Without(memory[p].readers, job);
      if readers == [] then memory[..p] + memory[p + 1..]
      else memory[p := memory[p].(readers := readers)]
  }

  // ------------------------------------------------------------ the staging

  function WithJob(s: Staging, id: nat, job: Job): Staging {
    s.(jobs := s.jobs[id := job])
  }

  function Dropped(job: Job): Job {
    if job.holds then job.(holds := false, released := job.released + 1) else job
  }

  /** The rounds are here already: the job reads them. */
  function ReadResident(s: Staging, id: nat): (r: Staging)
    requires id in s.jobs && HasInput(s.memory, s.jobs[id].key)
    ensures r.jobs.Keys == s.jobs.Keys && forall x | x in s.jobs :: r.jobs[x].key == s.jobs[x].key
    ensures |r.memory| == |s.memory| && forall key :: PlaceOf(r.memory, key) == PlaceOf(s.memory, key)
  {
    var job := s.jobs[id];
    var p := PlaceOf(s.memory, job.key);
    SamePlaces(s.memory, p, AddReader(s.memory, job.key, id));
    WithJob(s, id, Dropped(job).(isReader := true, waits := false, input := Some(s.memory[p].input)))
    .(memory := AddReader(s.memory, job.key, id))
  }

  function ReadAll(s: Staging, ids: seq<nat>): Staging
    requires forall i | 0 <= i < |ids| :: ids[i] in s.jobs && HasInput(s.memory, s.jobs[ids[i]].key)
    decreases |ids|
  {
    if ids == [] then s
    else
      var next := ReadResident(s, ids[0]);
      assert forall x | x in s.jobs :: HasInput(next.memory, next.jobs[x].key) == HasInput(s.memory, s.jobs[x].key);
      assert forall i | 0 <= i < |ids[1..]| :: ids[1..][i] == ids[i + 1];
      ReadAll(next, ids[1..])
  }

  /** Replacing an entry by one of the same key moves no input. */
  lemma {:induction false} SamePlaces(a: seq<Resident>, p: nat, b: seq<Resident>)
    requires p < |a| == |b| && b[p].input.key == a[p].input.key && b == a[p := b[p]]
    ensures forall key :: PlaceOf(b, key) == PlaceOf(a, key)
  {
    if p > 0 {
      SamePlaces(a[1..], p - 1, b[1..]);
    } else {
      assert a[1..] == b[1..];
    }
  }

  /** The job's input is asked for: it is here, or on its way, or is sent for. */
  function Stage(s: Staging, id: nat): Staging
    requires id in s.jobs
  {
    var job := s.jobs[id];
    if HasInput(s.memory, job.key) then ReadResident(s, id)
    else if job.key in s.awaited then
      WithJob(s, id, job.(waits := true))
      .(awaited := s.awaited[job.key := s.awaited[job.key].(joined := s.awaited[job.key].joined + [id])])
    else
      WithJob(s, id, job.(waits := true))
      .(awaited := s.awaited[job.key := Awaited(id, [])], inFlight := s.inFlight + {id})
  }

  /** The transfer's delivery; one cancelled before is ignored. */
  function Deliver(s: Staging, id: nat): Attempt
    requires id in s.jobs
    requires id in s.inFlight ==> s.jobs[id].key in s.awaited && !HasInput(s.memory, s.jobs[id].key)
    requires id in s.inFlight ==> forall i | 0 <= i < |s.awaited[s.jobs[id].key].joined| ::
      var other := s.awaited[s.jobs[id].key].joined[i];
      other in s.jobs && s.jobs[other].key == s.jobs[id].key
  {
    if id !in s.inFlight then Done(s)
    else
      var job := s.jobs[id];
      if s.capacity.Some? && Occupied(s.memory) + job.bits > s.capacity.value then CapacityExceeded
      else
        var input := Input(job.key, job.bits, []);
        var landed := Landed(s, id, input);
        NewPlace(s.memory, Resident(input, [id], false));
        Done(ReadAll(landed, s.awaited[job.key].joined))
  }

  function Landed(s: Staging, id: nat, input: Input): Staging
    requires id in s.jobs
  {
    WithJob(s, id, Dropped(s.jobs[id]).(isReader := true, waits := false, input := Some(input)))
    .(memory := s.memory + [Resident(input, [id], false)], awaited := s.awaited - {input.key},
      inFlight := s.inFlight - {id})
  }

  lemma {:induction false} NewPlace(memory: seq<Resident>, r: Resident)
    ensures !HasInput(memory, r.input.key) ==> PlaceOf(memory + [r], r.input.key) == |memory|
    ensures forall key | key != r.input.key ::
      PlaceOf(memory + [r], key) == if HasInput(memory, key) then PlaceOf(memory, key) else |memory| + 1
  {
    if memory != [] {
      NewPlace(memory[1..], r);
      assert (memory + [r])[1..] == memory[1..] + [r];
    } else {
      assert [r][1..] == [];
    }
  }

  /** The job's rounds leave its unit's memory, and any hold on the store ends. */
  function Release(s: Staging, id: nat): Staging
    requires id in s.jobs
  {
    var job := s.jobs[id];
    var taken := if job.isReader then s.(memory := Take(s.memory, job.key, id)) else s;
    WithJob(taken, id, Dropped(job).(isReader := false, input := None))
  }

  /** One job dropped from transport and storage. A job on no unit forgets no landing. */
  function Cancel(s: Staging, id: nat): Staging
    requires id in s.jobs
  {
    var job := s.jobs[id];
    var forgotten := if job.onUnit then s.awaited - {job.key} else s.awaited;
    var released := Release(s.(inFlight := s.inFlight - {id}, awaited := forgotten), id);
    WithJob(released, id, released.jobs[id].(waits := false, cancelled := true))
  }

  function CancelAll(s: Staging, ids: seq<nat>): Staging
    requires forall i | 0 <= i < |ids| :: ids[i] in s.jobs
    decreases |ids|
  {
    if ids == [] then s else CancelAll(Cancel(s, ids[0]), ids[1..])
  }

  /** The boundary is written into the input once; later solves read what was written. */
  function FoldInPlace(s: Staging, id: nat, mask: nat): Staging
    requires id in s.jobs && HasInput(s.memory, s.jobs[id].key)
  {
    var job := s.jobs[id];
    var p := PlaceOf(s.memory, job.key);
    var resident := s.memory[p];
    if resident.rewritten then WithJob(s, id, job.(input := Some(resident.input), folded := true))
    else
      var masked := resident.input.(masks := resident.input.masks + [mask]);
      WithJob(s, id, job.(input := Some(masked), folded := true))
      .(memory := s.memory[p := resident.(input := masked, rewritten := true)])
  }
}

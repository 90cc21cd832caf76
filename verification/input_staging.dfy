/** The unit's memory and its staging as objects: inputs, reader lists and landings changed in
    place. Each method leaves the staging the functions give.
 */
module InputStagingObjects {
  import opened Options
  import opened Lists
  import opened DecoderMemories
  import opened MemoryInvariant
  import opened MemoryRuns
  import opened MemoryMasks

  /** What the delivery comes to. */
  ghost predicate Delivers(s: Staging, id: nat, result: Attempt)
    requires Sound(s) && id in s.jobs
  {
    DeliverKeeps(s, id);
    Deliver(s, id) == result
  }

  class DecoderMemory {
    const capacity: Option<nat>
    var inputs: seq<Resident>

    constructor (capacity: Option<nat>)
      ensures this.capacity == capacity && inputs == []
    {
      this.capacity := capacity;
      inputs := [];
    }

    method OccupiedBits() returns (occupied: nat)
      ensures occupied == Occupied(inputs)
    {
      occupied := 0;
      var i := 0;
      while i < |inputs|
        invariant i <= |inputs| && occupied + Occupied(inputs[i..]) == Occupied(inputs)
      {
        occupied := occupied + inputs[i].input.bits;
        i := i + 1;
      }
    }

    method Find(key: nat) returns (p: nat)
      ensures p == PlaceOf(inputs, key)
    {
      p := 0;
      while p < |inputs| && inputs[p].input.key != key
        invariant p <= |inputs| && forall q | 0 <= q < p :: inputs[q].input.key != key
      {
        p := p + 1;
      }
    }

    /** The input lands here, read by its job; False when it does not fit. */
    method Deposit(input: Input, job: nat) returns (fits: bool)
      modifies this`inputs
      ensures fits == (capacity.Some? ==> Occupied(old(inputs)) + input.bits <= capacity.value)
      ensures inputs == if fits then old(inputs) + [Resident(input, [job], false)] else old(inputs)
    {
      var occupied := OccupiedBits();
      if capacity.Some? && occupied + input.bits > capacity.value {
        return false;
      }
      inputs := inputs + [Resident(input, [job], false)];
      return true;
    }

    method AddTheReader(key: nat, job: nat) returns (input: Input)
      requires HasInput(inputs, key)
      modifies this`inputs
      ensures inputs == AddReader(old(inputs), key, job) && input == old(inputs)[PlaceOf(old(inputs), key)].input
    {
      var p := Find(key);
      input := inputs[p].input;
      inputs := inputs[p := inputs[p].(readers := inputs[p].readers + [job])];
    }

    /** The job's read ends; with the last reader the input goes. */
    method TakeRead(key: nat, job: nat)
      modifies this`inputs
      ensures inputs == Take(old(inputs), key, job)
    {
      var p := Find(key);
      if p == |inputs| {
        return;
      }
      var readers := Without(inputs[p].readers, job);
      if readers == [] {
        inputs := inputs[..p] + inputs[p + 1..];
      } else {
        inputs := inputs[p := inputs[p].(readers := readers)];
      }
    }
  }

  class DecoderInputStaging {
    const memory: DecoderMemory
    var awaited: map<nat, Awaited>
    var inFlight: set<nat>
    var jobs: map<nat, Job>

    constructor (capacity: Option<nat>)
      ensures State() == Empty(capacity) && fresh(memory)
    {
      memory := new DecoderMemory(capacity);
      awaited, inFlight, jobs := map[], {}, map[];
    }

    function State(): Staging
      reads this, memory
    {
      Staging(memory.capacity, memory.inputs, awaited, inFlight, jobs)
    }

    method ReadTheResident(id: nat)
      requires id in jobs && HasInput(memory.inputs, jobs[id].key)
      modifies this`jobs, memory`inputs
      ensures State() == ReadResident(old(State()), id)
    {
      var job := jobs[id];
      var input := memory.AddTheReader(job.key, id);
      jobs := jobs[id := Dropped(job).(isReader := true, waits := false, input := Some(input))];
    }

    /** The job's input is here, or on its way, or is sent for. */
    method StageInput(id: nat)
      requires Sound(State()) && IsFresh(State(), id)
      modifies this, memory
      ensures Sound(State()) && State() == Stage(old(State()), id)
    {
      StageKeeps(State(), id);
      var job := jobs[id];
      var p := memory.Find(job.key);
      if p < |memory.inputs| {
        ReadTheResident(id);
        return;
      }
      jobs := jobs[id := job.(waits := true)];
      if job.key in awaited {
        awaited := awaited[job.key := awaited[job.key].(joined := awaited[job.key].joined + [id])];
        return;
      }
      awaited := awaited[job.key := Awaited(id, [])];
      inFlight := inFlight + {id};
    }

    method ReadEach(ids: seq<nat>)
      requires Kept(State()) && LandingsOk(State(), ids) && AllHere(State(), ids)
      modifies this`jobs, memory`inputs
      ensures Sound(State()) && State() == ReadAll(old(State()), ids)
    {
      var i := 0;
      while i < |ids|
        invariant i <= |ids| && Kept(State()) && LandingsOk(State(), ids[i..]) && AllHere(State(), ids[i..])
        invariant ReadAll(State(), ids[i..]) == ReadAll(old(State()), ids)
      {
        assert ids[i..][0] == ids[i] && ids[i..][1..] == ids[i + 1..];
        ReadFirst(State(), ids[i..]);
        ReadTheResident(ids[i]);
        i := i + 1;
      }
    }

    /** The transfer's delivery: deposited, and read by every job that joined it. */
    method DeliverInput(id: nat) returns (fits: bool)
      requires Sound(State()) && id in jobs
      modifies this, memory
      ensures Delivers(old(State()), id, if fits then Done(State()) else CapacityExceeded)
      ensures fits ==> Sound(State())
    {
      DeliverKeeps(State(), id);
      if id !in inFlight {
        return true;
      }
      ghost var s := State();
      var job := jobs[id];
      var input := Input(job.key, job.bits, []);
      fits := memory.Deposit(input, id);
      if !fits {
        return;
      }
      LandedKeeps(s, id);
      LandedLands(s, id);
      NewPlace(s.memory, Resident(input, [id], false));
      var joined := awaited[job.key].joined;
      jobs := jobs[id := Dropped(job).(isReader := true, waits := false, input := Some(input))];
      awaited := awaited - {job.key};
      inFlight := inFlight - {id};
      assert State() == Landed(s, id, input);
      assert AllHere(State(), joined) by {
        assert forall i | 0 <= i < |joined| :: joined[i] in s.jobs && s.jobs[joined[i]].key == job.key;
      }
      ReadEach(joined);
    }

    method ReleaseInput(id: nat)
      requires id in jobs
      modifies this`jobs, memory`inputs
      ensures State() == Release(old(State()), id)
    {
      var job := jobs[id];
      if job.isReader {
        memory.TakeRead(job.key, id);
      }
      jobs := jobs[id := Dropped(job).(isReader := false, input := None)];
    }

    method CancelInput(id: nat)
      requires id in jobs
      modifies this, memory`inputs
      ensures State() == Cancel(old(State()), id)
    {
      inFlight := inFlight - {id};
      if jobs[id].onUnit {
        awaited := awaited - {jobs[id].key};
      }
      ReleaseInput(id);
      jobs := jobs[id := jobs[id].(waits := false, cancelled := true)];
    }

    /** The mask is written once; a job that shares the input reads what was written. */
    method FoldTheBoundary(id: nat, mask: nat)
      requires Sound(State()) && id in jobs && jobs[id].isReader
      modifies this`jobs, memory`inputs
      ensures Sound(State()) && HasInput(old(State()).memory, old(State()).jobs[id].key)
      ensures State() == FoldInPlace(old(State()), id, mask)
      ensures WritesOnce(old(State()), State(), id, mask)
    {
      FoldKeeps(State(), id, mask);
      FoldWrites(State(), id, mask);
      var job := jobs[id];
      var p := memory.Find(job.key);
      var resident := memory.inputs[p];
      if resident.rewritten {
        jobs := jobs[id := job.(input := Some(resident.input), folded := true)];
        return;
      }
      var masked := resident.input.(masks := resident.input.masks + [mask]);
      memory.inputs := memory.inputs[p := resident.(input := masked, rewritten := true)];
      jobs := jobs[id := job.(input := Some(masked), folded := true)];
    }
  }
}

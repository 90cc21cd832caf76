/** What the readers of an input read, told by the run's steps: the rounds that landed, and the
    boundary of the first fold since.
 */
module MemoryMasks {
  import opened Options
  import opened DecoderMemories
  import opened MemoryInvariant
  import opened MemoryRuns

  // ------------------------------------------------- the story of one input

  /** How many bits landed, and the mask of the first fold among the readers since. */
  datatype Written = Written(bits: nat, mask: Option<nat>)

  function Masks(mask: Option<nat>): seq<nat> {
    if mask.Some? then [mask.value] else []
  }

  ghost predicate IsRead(s: Staging, key: nat) {
    exists id: nat :: id in s.jobs && s.jobs[id].isReader && s.jobs[id].key == key
  }

  /** A step adds to an input's story: a delivery begins it, the first fold writes the mask, and
      with its last reader it ends. */
  ghost function Told(s: Staging, step: Step, r: Staging, key: nat, story: Option<Written>): Option<Written>
    requires Sound(s) && Enabled(s, step)
  {
    if !IsRead(r, key) then None
    else if !IsRead(s, key) && step.Delivered? then Some(Written(s.jobs[step.id].bits, None))
    else if step.Folds? && s.jobs[step.id].key == key && story.Some? && story.value.mask.None? then
      Some(story.value.(mask := Some(step.mask)))
    else story
  }

  ghost function StoryOf(s: Staging, steps: seq<Step>, key: nat, story: Option<Written>): Option<Written>
    requires Sound(s) && IsRun(s, steps) && ApplyAll(s, steps).Done?
    decreases |steps|
  {
    if steps == [] then story
    else
      StepKeeps(s, steps[0]);
      var next := Apply(s, steps[0]).staging;
      StoryOf(next, steps[1..], key, Told(s, steps[0], next, key, story))
  }

  // ------------------------------------------------------------- the memory

  function Entry(memory: seq<Resident>, key: nat): Option<Input> {
    var p := PlaceOf(memory, key);
    if p < |memory| then Some(memory[p].input) else None
  }

  /** What is here of the input is what the story says, and every reader read that, masked or
      not yet. */
  ghost predicate AsTold(s: Staging, key: nat, story: Option<Written>) {
    && (Entry(s.memory, key) ==
          if story.Some? then Some(Input(key, story.value.bits, Masks(story.value.mask))) else None)
    && (forall id | id in s.jobs && s.jobs[id].isReader && s.jobs[id].key == key :: ReadsTold(s.jobs[id], story))
  }

  ghost predicate ReadsTold(job: Job, story: Option<Written>) {
    && story.Some? && job.input.Some?
    && (job.input.value == Input(job.key, story.value.bits, []) ||
        job.input.value == Input(job.key, story.value.bits, Masks(story.value.mask)))
  }

  /** The input is as it was or gone, and a reader read before or reads what is here. */
  ghost predicate OnlyReads(s: Staging, r: Staging, key: nat) {
    && (Entry(r.memory, key) == Entry(s.memory, key) || Entry(r.memory, key).None?)
    && (forall id | id in r.jobs && r.jobs[id].isReader && r.jobs[id].key == key :: ReadBefore(s, r, id))
  }

  ghost predicate ReadBefore(s: Staging, r: Staging, id: nat)
    requires id in r.jobs
  {
    || r.jobs[id].input == Entry(r.memory, r.jobs[id].key)
    || (id in s.jobs && s.jobs[id].isReader && s.jobs[id].key == r.jobs[id].key &&
        s.jobs[id].input == r.jobs[id].input)
  }

  lemma EntryTaken(memory: seq<Resident>, from: nat, job: nat, key: nat)
    requires InputsOk(memory)
    ensures Entry(Take(memory, from, job), key) == Entry(memory, key) ||
      (key == from && Entry(Take(memory, from, job), key).None?)
  {
    var p := PlaceOf(memory, from);
    var taken := Take(memory, from, job);
    if p < |memory| {
      if |taken| == |memory| {
        SamePlaces(memory, p, taken);
      } else if key != from {
        PlaceWithout(memory, p, key);
      } else {
        PlaceFound(taken, key);
        assert forall i | 0 <= i < |taken| :: taken[i] == memory[if i < p then i else i + 1];
      }
    }
  }

  lemma ReleaseReads(s: Staging, id: nat, key: nat)
    requires InputsOk(s.memory) && id in s.jobs
    ensures OnlyReads(s, Release(s, id), key)
  {
    EntryTaken(s.memory, s.jobs[id].key, id, key);
  }

  lemma CancelReads(s: Staging, id: nat, key: nat)
    requires InputsOk(s.memory) && id in s.jobs
    ensures OnlyReads(s, Cancel(s, id), key)
  {
    EntryTaken(s.memory, s.jobs[id].key, id, key);
  }

  /** Reading and reading on is reading, while a reader's input stays. */
  lemma ReadsThenReads(s: Staging, m: Staging, r: Staging, key: nat)
    requires OnlyReads(s, m, key) && OnlyReads(m, r, key)
    requires Entry(r.memory, key) == Entry(m.memory, key) || !IsRead(r, key)
    ensures OnlyReads(s, r, key)
  {
    forall id | id in r.jobs && r.jobs[id].isReader && r.jobs[id].key == key
      ensures ReadBefore(s, r, id)
    {
      assert ReadBefore(m, r, id);
    }
  }

  lemma {:induction false} CancelAllReads(s: Staging, ids: seq<nat>, key: nat)
    requires Kept(s) && forall i | 0 <= i < |ids| :: ids[i] in s.jobs
    ensures Kept(CancelAll(s, ids)) && OnlyReads(s, CancelAll(s, ids), key)
    decreases |ids|
  {
    if ids != [] {
      var next := Cancel(s, ids[0]);
      CancelKept(s, ids[0]);
      CancelReads(s, ids[0], key);
      CancelAllReads(next, ids[1..], key);
      var r := CancelAll(s, ids);
      KeptReaders(r, key);
      ReadsThenReads(s, next, r, key);
    }
  }

  lemma KeptReaders(s: Staging, key: nat)
    requires Kept(s)
    ensures IsRead(s, key) <==> Entry(s.memory, key).Some?
  {
    var p := PlaceOf(s.memory, key);
    if p < |s.memory| {
      assert ResidentOk(s.memory[p]);
      var id := s.memory[p].readers[0];
      assert id in s.memory[p].readers && IsReaderOf(s, id, s.memory[p]);
    }
    forall id | id in s.jobs && s.jobs[id].isReader && s.jobs[id].key == key
      ensures p < |s.memory|
    {
      assert ReaderOk(s, id);
    }
  }

  lemma ResidentReads(s: Staging, id: nat, key: nat)
    requires id in s.jobs && HasInput(s.memory, s.jobs[id].key)
    ensures OnlyReads(s, ReadResident(s, id), key)
    ensures Entry(ReadResident(s, id).memory, key) == Entry(s.memory, key)
  {
  }

  lemma {:induction false} ReadAllReads(s: Staging, ids: seq<nat>, key: nat)
    requires AllHere(s, ids)
    ensures OnlyReads(s, ReadAll(s, ids), key)
    ensures Entry(ReadAll(s, ids).memory, key) == Entry(s.memory, key)
    decreases |ids|
  {
    if ids != [] {
      var next := ReadResident(s, ids[0]);
      ResidentReads(s, ids[0], key);
      HereStays(s, ids);
      ReadAllReads(next, ids[1..], key);
      ReadsThenReads(s, next, ReadAll(s, ids), key);
    }
  }

  // --------------------------------------------------------------- the steps

  /** A step that only reads adds nothing to the story, unless it ends it. */
  lemma ReadsAsTold(s: Staging, step: Step, r: Staging, key: nat, story: Option<Written>)
    requires Sound(s) && Enabled(s, step) && Kept(r) && AsTold(s, key, story) && OnlyReads(s, r, key)
    requires step.Folds? ==> s.jobs[step.id].key != key
    ensures AsTold(r, key, Told(s, step, r, key, story))
  {
    KeptReaders(s, key);
    KeptReaders(r, key);
    forall id | id in r.jobs && r.jobs[id].isReader && r.jobs[id].key == key
      ensures ReadsTold(r.jobs[id], story)
    {
      assert ReadBefore(s, r, id);
    }
  }

  lemma DeliveredReads(s: Staging, id: nat, key: nat)
    requires Sound(s) && id in s.jobs && id in s.inFlight && Fits(s, s.jobs[id].bits)
    ensures var from := s.jobs[id].key;
      var input := Input(from, s.jobs[id].bits, []);
      && AllHere(Landed(s, id, input), s.awaited[from].joined)
      && (var r := ReadAll(Landed(s, id, input), s.awaited[from].joined);
        Entry(r.memory, from) == Some(input) && OnlyReads(Landed(s, id, input), r, key))
  {
    DeliverKeeps(s, id);
    var from := s.jobs[id].key;
    var input := Input(from, s.jobs[id].bits, []);
    var landed := Landed(s, id, input);
    var joined := s.awaited[from].joined;
    NewPlace(s.memory, Resident(input, [id], false));
    forall i | 0 <= i < |joined|
      ensures joined[i] in landed.jobs && HasInput(landed.memory, landed.jobs[joined[i]].key)
    {
      assert landed.jobs[joined[i]].key == from;
    }
    ReadAllReads(landed, joined, key);
    ReadAllReads(landed, joined, from);
  }

  lemma LandedOnlyReads(s: Staging, id: nat, input: Input, key: nat)
    requires id in s.jobs && input.key == s.jobs[id].key != key
    ensures OnlyReads(s, Landed(s, id, input), key)
    ensures Entry(Landed(s, id, input).memory, key) == Entry(s.memory, key)
  {
    NewPlace(s.memory, Resident(input, [id], false));
  }

  /** A delivery begins the story of the input it lands. */
  lemma LandedAsTold(s: Staging, id: nat)
    requires Sound(s) && id in s.jobs && id in s.inFlight && Fits(s, s.jobs[id].bits)
    ensures Apply(s, Delivered(id)).Done?
    ensures AsTold(Apply(s, Delivered(id)).staging, s.jobs[id].key, Some(Written(s.jobs[id].bits, None)))
  {
    var key := s.jobs[id].key;
    StepKeeps(s, Delivered(id));
    DeliverKeeps(s, id);
    DeliveredReads(s, id, key);
    KeptReaders(s, key);
    var input := Input(key, s.jobs[id].bits, []);
    var landed := Landed(s, id, input);
    var r := ReadAll(landed, s.awaited[key].joined);
    assert Apply(s, Delivered(id)) == Done(r);
    forall x | x in r.jobs && r.jobs[x].isReader && r.jobs[x].key == key
      ensures r.jobs[x].input == Some(input)
    {
      assert ReadBefore(landed, r, x);
      assert x != id && x in s.jobs && s.jobs[x].isReader && s.jobs[x].key == key ==> IsRead(s, key);
    }
  }

  lemma DeliveryAsTold(s: Staging, id: nat, key: nat, story: Option<Written>)
    requires Sound(s) && id in s.jobs && id in s.inFlight && Fits(s, s.jobs[id].bits) && AsTold(s, key, story)
    ensures Apply(s, Delivered(id)).Done?
    ensures var r := Apply(s, Delivered(id)).staging;
      AsTold(r, key, Told(s, Delivered(id), r, key, story))
  {
    StepKeeps(s, Delivered(id));
    DeliverKeeps(s, id);
    var r := Apply(s, Delivered(id)).staging;
    if key == s.jobs[id].key {
      LandedAsTold(s, id);
      KeptReaders(s, key);
      KeptReaders(r, key);
    } else {
      var input := Input(s.jobs[id].key, s.jobs[id].bits, []);
      DeliveredReads(s, id, key);
      LandedOnlyReads(s, id, input, key);
      var landed := Landed(s, id, input);
      OtherDelivered(s, landed, r, id, key, story);
    }
  }

  /** The story of an input that the delivery does not bring goes on. */
  lemma OtherDelivered(s: Staging, landed: Staging, r: Staging, id: nat, key: nat, story: Option<Written>)
    requires Sound(s) && Enabled(s, Delivered(id)) && Kept(r) && AsTold(s, key, story)
    requires OnlyReads(s, landed, key) && OnlyReads(landed, r, key)
    requires Entry(landed.memory, key) == Entry(s.memory, key)
    ensures AsTold(r, key, Told(s, Delivered(id), r, key, story))
  {
    KeptReaders(r, key);
    ReadsThenReads(s, landed, r, key);
    ReadsAsTold(s, Delivered(id), r, key, story);
  }

  /** A fold: an unmasked input takes the mask and one masked before stays; the job reads it, and
      no other job and no other input changes. */
  ghost predicate WritesOnce(s: Staging, r: Staging, id: nat, mask: nat)
    requires id in s.jobs && HasInput(s.memory, s.jobs[id].key)
  {
    var was := Entry(s.memory, s.jobs[id].key).value;
    var written := was.(masks := if was.masks == [] then [mask] else was.masks);
    && r.jobs == s.jobs[id := s.jobs[id].(folded := true, input := Some(written))]
    && Entry(r.memory, s.jobs[id].key) == Some(written)
    && (forall key | key != s.jobs[id].key :: Entry(r.memory, key) == Entry(s.memory, key))
  }

  lemma FoldWrites(s: Staging, id: nat, mask: nat)
    requires Sound(s) && id in s.jobs && s.jobs[id].isReader
    ensures HasInput(s.memory, s.jobs[id].key) && WritesOnce(s, FoldInPlace(s, id, mask), id, mask)
  {
    assert ReaderOk(s, id);
    FoldMemory(s, id, mask);
    var key := s.jobs[id].key;
    var p := PlaceOf(s.memory, key);
    assert ResidentOk(s.memory[p]);
    assert [] + [mask] == [mask];
    forall k | k != key
      ensures Entry(FoldInPlace(s, id, mask).memory, k) == Entry(s.memory, k)
    {
      assert PlaceOf(s.memory, k) != p;
    }
  }

  /** The first fold writes its mask, and the folds after it read what was written. */
  lemma FoldedAsTold(s: Staging, id: nat, mask: nat, story: Option<Written>)
    requires Sound(s) && id in s.jobs && s.jobs[id].isReader && HasInput(s.memory, s.jobs[id].key)
    requires AsTold(s, s.jobs[id].key, story) && story.Some?
    ensures AsTold(FoldInPlace(s, id, mask), s.jobs[id].key,
      if story.value.mask.None? then Some(story.value.(mask := Some(mask))) else story)
  {
    var key := s.jobs[id].key;
    FoldMemory(s, id, mask);
    var r := FoldInPlace(s, id, mask);
    assert ResidentOk(s.memory[PlaceOf(s.memory, key)]);
    assert [] + [mask] == [mask];
    forall x | x in r.jobs && r.jobs[x].isReader && r.jobs[x].key == key
      ensures x in s.jobs && ReadsTold(s.jobs[x], story) && (x != id ==> r.jobs[x] == s.jobs[x])
    {
    }
  }

  /** A fold of one input leaves the readers of every other as they were. */
  lemma FoldElsewhere(s: Staging, id: nat, mask: nat, key: nat)
    requires Sound(s) && id in s.jobs && s.jobs[id].isReader && s.jobs[id].key != key
    requires HasInput(s.memory, s.jobs[id].key)
    ensures OnlyReads(s, FoldInPlace(s, id, mask), key)
  {
    FoldMemory(s, id, mask);
  }

  lemma FoldAsTold(s: Staging, id: nat, mask: nat, key: nat, story: Option<Written>)
    requires Sound(s) && id in s.jobs && s.jobs[id].isReader && AsTold(s, key, story)
    ensures Apply(s, Folds(id, mask)).Done?
    ensures var r := Apply(s, Folds(id, mask)).staging;
      AsTold(r, key, Told(s, Folds(id, mask), r, key, story))
  {
    FoldKeeps(s, id, mask);
    var r := FoldInPlace(s, id, mask);
    assert Apply(s, Folds(id, mask)) == Done(r);
    if key == s.jobs[id].key {
      assert IsRead(s, key);
      assert ReadsTold(s.jobs[id], story);
      assert IsRead(r, key) by {
        assert id in r.jobs && r.jobs[id].isReader && r.jobs[id].key == key;
      }
      FoldedAsTold(s, id, mask, story);
    } else {
      FoldElsewhere(s, id, mask, key);
      ReadsAsTold(s, Folds(id, mask), r, key, story);
    }
  }

  lemma StagedAsTold(s: Staging, id: nat, key: nat, story: Option<Written>)
    requires Sound(s) && Enabled(s, Staged(id)) && AsTold(s, key, story)
    ensures var r := Apply(s, Staged(id)).staging;
      Apply(s, Staged(id)).Done? && AsTold(r, key, Told(s, Staged(id), r, key, story))
  {
    StepKeeps(s, Staged(id));
    if HasInput(s.memory, s.jobs[id].key) {
      ResidentReads(s, id, key);
    }
    ReadsAsTold(s, Staged(id), Apply(s, Staged(id)).staging, key, story);
  }

  lemma LeavesAsTold(s: Staging, step: Step, key: nat, story: Option<Written>)
    requires Sound(s) && Enabled(s, step) && Apply(s, step).Done? && AsTold(s, key, story)
    requires step.Releases? || step.CancelsJob? || step.CancelsAttempt?
    ensures AsTold(Apply(s, step).staging, key, Told(s, step, Apply(s, step).staging, key, story))
  {
    StepKeeps(s, step);
    match step {
      case Releases(id) => ReleaseReads(s, id, key);
      case CancelsJob(id) => CancelReads(s, id, key);
      case CancelsAttempt(k) =>
        AttemptCancelled(s, k);
        CancelAllReads(s, Members(s.awaited[k]), key);
    }
    ReadsAsTold(s, step, Apply(s, step).staging, key, story);
  }

  lemma StepAsTold(s: Staging, step: Step, key: nat, story: Option<Written>)
    requires Sound(s) && Enabled(s, step) && Apply(s, step).Done? && AsTold(s, key, story)
    ensures AsTold(Apply(s, step).staging, key, Told(s, step, Apply(s, step).staging, key, story))
  {
    match step {
      case Arrives(_, _, _, _) =>
        StepKeeps(s, step);
        ReadsAsTold(s, step, Apply(s, step).staging, key, story);
      case Staged(id) => StagedAsTold(s, id, key, story);
      case Delivered(id) =>
        if id in s.inFlight {
          DeliverKeeps(s, id);
          DeliveryAsTold(s, id, key, story);
        } else {
          StepKeeps(s, step);
          ReadsAsTold(s, step, Apply(s, step).staging, key, story);
        }
      case Folds(id, mask) => FoldAsTold(s, id, mask, key, story);
      case _ => LeavesAsTold(s, step, key, story);
    }
  }

  lemma {:induction false} RunAsTold(s: Staging, steps: seq<Step>, key: nat, story: Option<Written>)
    requires Sound(s) && IsRun(s, steps) && ApplyAll(s, steps).Done? && AsTold(s, key, story)
    ensures AsTold(ApplyAll(s, steps).staging, key, StoryOf(s, steps, key, story))
    decreases |steps|
  {
    if steps != [] {
      StepKeeps(s, steps[0]);
      StepAsTold(s, steps[0], key, story);
      var next := Apply(s, steps[0]).staging;
      RunAsTold(next, steps[1..], key, Told(s, steps[0], next, key, story));
    }
  }

  // ------------------------------------------------- what the readers read

  /** A job that folded reads the bits that landed with the one mask of the first fold among
      their readers since, whichever job folded it. */
  lemma FoldedReadsFirstMask(capacity: Option<nat>, steps: seq<Step>, id: nat)
    requires IsRunFromStart(capacity, steps) && ApplyAll(Empty(capacity), steps).Done?
    requires var s := ApplyAll(Empty(capacity), steps).staging;
      id in s.jobs && s.jobs[id].isReader && s.jobs[id].folded
    ensures var job := ApplyAll(Empty(capacity), steps).staging.jobs[id];
      var story := StoryOf(Empty(capacity), steps, job.key, None);
      && story.Some? && story.value.mask.Some?
      && job.input == Some(Input(job.key, story.value.bits, [story.value.mask.value]))
  {
    var s := ApplyAll(Empty(capacity), steps).staging;
    RunIsSound(Empty(capacity), steps);
    RunAsTold(Empty(capacity), steps, s.jobs[id].key, None);
    assert ReaderOk(s, id);
    assert ResidentOk(s.memory[PlaceOf(s.memory, s.jobs[id].key)]);
  }

  /** Any reader reads the bits that landed, with that mask or with none. */
  lemma ReaderReadsLanded(capacity: Option<nat>, steps: seq<Step>, id: nat)
    requires IsRunFromStart(capacity, steps) && ApplyAll(Empty(capacity), steps).Done?
    requires var s := ApplyAll(Empty(capacity), steps).staging; id in s.jobs && s.jobs[id].isReader
    ensures var job := ApplyAll(Empty(capacity), steps).staging.jobs[id];
      var story := StoryOf(Empty(capacity), steps, job.key, None);
      && story.Some? && job.input.Some?
      && job.input.value.key == job.key && job.input.value.bits == story.value.bits
      && (job.input.value.masks != [] ==> story.value.mask == Some(job.input.value.masks[0]))
  {
    RunAsTold(Empty(capacity), steps, ApplyAll(Empty(capacity), steps).staging.jobs[id].key, None);
  }

  // ------------------------------------------------- inputs nobody reads

  /** A job that reads nothing keeps no input. */
  ghost predicate KeepsOnlyRead(s: Staging) {
    forall id | id in s.jobs && !s.jobs[id].isReader :: s.jobs[id].input.None?
  }

  lemma {:induction false} ReadAllKeepsRead(s: Staging, ids: seq<nat>)
    requires AllHere(s, ids) && KeepsOnlyRead(s)
    ensures KeepsOnlyRead(ReadAll(s, ids))
    decreases |ids|
  {
    if ids != [] {
      HereStays(s, ids);
      ReadAllKeepsRead(ReadResident(s, ids[0]), ids[1..]);
    }
  }

  lemma {:induction false} CancelAllKeepsRead(s: Staging, ids: seq<nat>)
    requires KeepsOnlyRead(s) && forall i | 0 <= i < |ids| :: ids[i] in s.jobs
    ensures KeepsOnlyRead(CancelAll(s, ids))
    decreases |ids|
  {
    if ids != [] {
      CancelAllKeepsRead(Cancel(s, ids[0]), ids[1..]);
    }
  }

  lemma DeliveredKeepsRead(s: Staging, id: nat)
    requires Sound(s) && id in s.jobs && Apply(s, Delivered(id)).Done? && KeepsOnlyRead(s)
    ensures KeepsOnlyRead(Apply(s, Delivered(id)).staging)
  {
    DeliverKeeps(s, id);
    if id in s.inFlight {
      var landed := Landed(s, id, Input(s.jobs[id].key, s.jobs[id].bits, []));
      DeliveredReads(s, id, s.jobs[id].key);
      ReadAllKeepsRead(landed, s.awaited[s.jobs[id].key].joined);
      assert Apply(s, Delivered(id)) == Done(ReadAll(landed, s.awaited[s.jobs[id].key].joined));
    }
  }

  lemma FoldKeepsRead(s: Staging, id: nat, mask: nat)
    requires Sound(s) && id in s.jobs && s.jobs[id].isReader && KeepsOnlyRead(s)
    ensures HasInput(s.memory, s.jobs[id].key) && KeepsOnlyRead(FoldInPlace(s, id, mask))
  {
    assert ReaderOk(s, id);
  }

  lemma AttemptKeepsRead(s: Staging, key: nat)
    requires Sound(s) && Enabled(s, CancelsAttempt(key)) && KeepsOnlyRead(s)
    ensures Apply(s, CancelsAttempt(key)).Done? && KeepsOnlyRead(Apply(s, CancelsAttempt(key)).staging)
  {
    AttemptCancelled(s, key);
    CancelAllKeepsRead(s, Members(s.awaited[key]));
  }

  lemma StageKeepsRead(s: Staging, id: nat)
    requires id in s.jobs && KeepsOnlyRead(s)
    ensures KeepsOnlyRead(Stage(s, id))
  {
  }

  lemma ReleaseKeepsRead(s: Staging, id: nat)
    requires id in s.jobs && KeepsOnlyRead(s)
    ensures KeepsOnlyRead(Release(s, id)) && KeepsOnlyRead(Cancel(s, id))
  {
  }

  lemma StepKeepsRead(s: Staging, step: Step)
    requires Sound(s) && Enabled(s, step) && Apply(s, step).Done? && KeepsOnlyRead(s)
    ensures KeepsOnlyRead(Apply(s, step).staging)
  {
    match step {
      case Delivered(id) => DeliveredKeepsRead(s, id);
      case CancelsAttempt(key) => AttemptKeepsRead(s, key);
      case Folds(id, mask) => FoldKeepsRead(s, id, mask);
      case Arrives(_, _, _, _) =>
      case Staged(id) => StageKeepsRead(s, id);
      case Releases(id) => ReleaseKeepsRead(s, id);
      case CancelsJob(id) => ReleaseKeepsRead(s, id);
    }
  }

  /** In every run, what a job read is dropped with its release or its cancel. */
  lemma {:induction false} EveryRunDropsUnread(s: Staging, steps: seq<Step>)
    requires Sound(s) && IsRun(s, steps) && ApplyAll(s, steps).Done? && KeepsOnlyRead(s)
    ensures KeepsOnlyRead(ApplyAll(s, steps).staging)
    decreases |steps|
  {
    if steps != [] {
      StepKeeps(s, steps[0]);
      StepKeepsRead(s, steps[0]);
      EveryRunDropsUnread(Apply(s, steps[0]).staging, steps[1..]);
    }
  }

  // ------------------------------------------- what each step brings about

  ghost predicate HasRead(s: Staging, id: nat) {
    id in s.jobs && s.jobs[id].isReader && s.jobs[id].input.Some?
  }

  ghost predicate IsCancelled(s: Staging, id: nat) {
    id in s.jobs && s.jobs[id].cancelled && !s.jobs[id].waits && !s.jobs[id].isReader
  }

  /** What a step leaves true of what it names. */
  ghost predicate Brings(s: Staging, step: Step, r: Staging)
    requires Sound(s) && Enabled(s, step)
  {
    match step
    case Arrives(id, key, bits, onUnit) =>
      && id in r.jobs && r.jobs[id].key == key && r.jobs[id].bits == bits && r.jobs[id].onUnit == onUnit
      && r.jobs[id].holds && !r.jobs[id].isReader && !r.jobs[id].waits
    case Staged(id) => if HasInput(s.memory, s.jobs[id].key) then HasRead(r, id) else id in r.jobs && r.jobs[id].waits
    case Delivered(id) => id in s.inFlight ==>
      s.jobs[id].key in s.awaited && forall x | x in Members(s.awaited[s.jobs[id].key]) :: HasRead(r, x)
    case Folds(id, mask) => HasInput(s.memory, s.jobs[id].key) && WritesOnce(s, r, id, mask)
    case Releases(id) => id in r.jobs && !r.jobs[id].isReader && r.jobs[id].input.None? && !r.jobs[id].holds
    case CancelsJob(id) => IsCancelled(r, id)
    case CancelsAttempt(key) => key !in r.awaited && forall x | x in Members(s.awaited[key]) :: IsCancelled(r, x)
  }

  lemma {:induction false} ReadAllBrings(s: Staging, ids: seq<nat>, id: nat)
    requires AllHere(s, ids)
    ensures HasRead(s, id) || id in ids ==> HasRead(ReadAll(s, ids), id)
    decreases |ids|
  {
    if ids != [] {
      HereStays(s, ids);
      ReadAllBrings(ReadResident(s, ids[0]), ids[1..], id);
    }
  }

  lemma DeliveryBrings(s: Staging, id: nat)
    requires Sound(s) && id in s.jobs && Apply(s, Delivered(id)).Done?
    ensures Brings(s, Delivered(id), Apply(s, Delivered(id)).staging)
  {
    DeliverKeeps(s, id);
    if id in s.inFlight {
      var key := s.jobs[id].key;
      var landed := Landed(s, id, Input(key, s.jobs[id].bits, []));
      var joined := s.awaited[key].joined;
      DeliveredReads(s, id, key);
      assert Apply(s, Delivered(id)) == Done(ReadAll(landed, joined));
      assert EntryOk(s, key) && s.awaited[key].sender == id;
      forall x | x in Members(s.awaited[key])
        ensures HasRead(ReadAll(landed, joined), x)
      {
        ReadAllBrings(landed, joined, x);
      }
    }
  }

  lemma {:induction false} CancelAllBrings(s: Staging, ids: seq<nat>, id: nat, key: nat)
    requires forall i | 0 <= i < |ids| :: ids[i] in s.jobs
    ensures IsCancelled(s, id) || id in ids ==> IsCancelled(CancelAll(s, ids), id)
    ensures key !in s.awaited ==> key !in CancelAll(s, ids).awaited
    decreases |ids|
  {
    if ids != [] {
      CancelAllBrings(Cancel(s, ids[0]), ids[1..], id, key);
    }
  }

  lemma AttemptBrings(s: Staging, key: nat)
    requires Sound(s) && Enabled(s, CancelsAttempt(key))
    ensures Apply(s, CancelsAttempt(key)).Done?
    ensures Brings(s, CancelsAttempt(key), Apply(s, CancelsAttempt(key)).staging)
  {
    AttemptCancelled(s, key);
    var members := Members(s.awaited[key]);
    assert EntryOk(s, key) && Waits(s, members[0], key);
    CancelAllBrings(Cancel(s, members[0]), members[1..], members[0], key);
    forall x | x in members
      ensures IsCancelled(CancelAll(s, members), x)
    {
      CancelAllBrings(s, members, x, key);
    }
  }

  /** Each step brings about what it is for. */
  lemma StepBrings(s: Staging, step: Step)
    requires Sound(s) && Enabled(s, step) && Apply(s, step).Done?
    ensures Brings(s, step, Apply(s, step).staging)
  {
    match step {
      case Arrives(_, _, _, _) =>
      case Staged(_) =>
      case Delivered(id) => DeliveryBrings(s, id);
      case Folds(id, mask) => FoldWrites(s, id, mask);
      case Releases(_) =>
      case CancelsJob(_) =>
      case CancelsAttempt(key) => AttemptBrings(s, key);
    }
  }
}

/** A job's walk through its decoder's hardware stages, all on one clock: the ticks it takes
    against the latency declared for it.
 */
module StagedWalks {
  import opened Clocks

  /** A stage and its cycles for the job. */
  datatype Stage = Stage(name: nat, cycles: nat)

  function Cycles(stages: seq<Stage>): nat {
    if stages == [] then 0 else stages[0].cycles + Cycles(stages[1..])
  }

  /** A stage's cycles end on a clock edge; one of no cycles takes no time. */
  function StageEnd(period: nat, stage: Stage, now: nat): nat
    requires period > 0
  {
    if stage.cycles == 0 then now else Edge(period, stage.cycles, now)
  }

  function WalkEnd(period: nat, stages: seq<Stage>, now: nat): nat
    requires period > 0
    decreases |stages|
  {
    if stages == [] then now else WalkEnd(period, stages[1..], StageEnd(period, stages[0], now))
  }

  /** However the cycles are split into stages, the walk ends at the edge they end at. */
  lemma {:induction false} WalkIsOneWait(period: nat, stages: seq<Stage>, now: nat)
    requires period > 0
    ensures WalkEnd(period, stages, now) == if Cycles(stages) == 0 then now else Edge(period, Cycles(stages), now)
    decreases |stages|
  {
    if stages != [] {
      var next := StageEnd(period, stages[0], now);
      WalkIsOneWait(period, stages[1..], next);
      if stages[0].cycles > 0 {
        EdgesCompose(period, Cycles(stages[1..]), stages[0].cycles, now);
        EdgesCompose(period, 0, stages[0].cycles, now);
      }
    }
  }

  /** A wait for an edge takes its cycles' ticks and less than a period more. */
  lemma EdgeTakes(period: nat, cycles: nat, now: nat)
    requires period > 0
    ensures now + cycles * period <= Edge(period, cycles, now) < now + cycles * period + period
  {
    EdgeIsNext(period, now, 0);
    assert Edge(period, cycles, now) == Edge(period, 0, now) + cycles * period by {
      var aligned := CyclesFor(period, now);
      assert (aligned + cycles) * period == aligned * period + cycles * period;
      assert (aligned + 0) * period == aligned * period;
    }
  }

  /** The stages before the algorithm, the algorithm's own time, the stages after. */
  function WholeWalk(period: nat, before: seq<Stage>, algorithm: nat, after: seq<Stage>, start: nat): nat
    requires period > 0
  {
    WalkEnd(period, after, WalkEnd(period, before, start) + algorithm)
  }

  /** The ticks kept by stage name, in the order the names came. */
  datatype Entry = Entry(name: nat, ticks: nat)

  function PlaceOf(table: seq<Entry>, name: nat): (p: nat)
    ensures p <= |table| && (p < |table| ==> table[p].name == name)
    ensures forall q | 0 <= q < p :: table[q].name != name
  {
    if table == [] then 0
    else if table[0].name == name then 0
    else 1 + PlaceOf(table[1..], name)
  }

  /** A stage of a name already there takes its place. */
  function Keep(table: seq<Entry>, name: nat, ticks: nat): seq<Entry> {
    var p := PlaceOf(table, name);
    if p < |table| then table[p := Entry(name, ticks)] else table + [Entry(name, ticks)]
  }

  function StageTicks(period: nat, stages: seq<Stage>): seq<Entry> {
    if stages == [] then []
    else
      var last := |stages| - 1;
      Keep(StageTicks(period, stages[..last]), stages[last].name, stages[last].cycles * period)
  }

  function Sum(table: seq<Entry>): nat {
    if table == [] then 0 else table[0].ticks + Sum(table[1..])
  }

  function TicksOf(table: seq<Entry>, name: nat): nat {
    var p := PlaceOf(table, name);
    if p < |table| then table[p].ticks else 0
  }

  /** The ticks of the stages no later stage of the same name replaces. */
  function DeclaredFrom(period: nat, stages: seq<Stage>): nat {
    if stages == [] then 0
    else
      var first := if IsReplaced(stages[1..], stages[0].name) then 0 else stages[0].cycles * period;
      first + DeclaredFrom(period, stages[1..])
  }

  predicate IsReplaced(later: seq<Stage>, name: nat) {
    exists i | 0 <= i < |later| :: later[i].name == name
  }

  function Declared(period: nat, before: seq<Stage>, algorithm: nat, after: seq<Stage>): nat {
    Sum(StageTicks(period, before + after)) + algorithm
  }

  ghost predicate NamesUnique(stages: seq<Stage>) {
    forall i, j | 0 <= i < j < |stages| :: stages[i].name != stages[j].name
  }

  /** No stage that another of its name replaces has cycles. */
  ghost predicate ReplacesNothing(stages: seq<Stage>) {
    forall i | 0 <= i < |stages| && stages[i].cycles > 0 :: !IsReplaced(stages[i + 1..], stages[i].name)
  }

  lemma {:induction false} KeptSum(table: seq<Entry>, name: nat, ticks: nat)
    ensures Sum(Keep(table, name, ticks)) == Sum(table) - TicksOf(table, name) + ticks
    ensures forall other ::
      TicksOf(Keep(table, name, ticks), other) == if other == name then ticks else TicksOf(table, other)
  {
    var kept := Keep(table, name, ticks);
    if table == [] {
      assert kept == [Entry(name, ticks)] && kept[1..] == [];
    } else if table[0].name == name {
      assert kept[1..] == table[1..];
    } else {
      KeptSum(table[1..], name, ticks);
      assert kept[0] == table[0] && kept[1..] == Keep(table[1..], name, ticks);
      forall other
        ensures TicksOf(kept, other) == if other == name then ticks else TicksOf(table, other)
      {
        assert other != table[0].name ==> TicksOf(kept, other) == TicksOf(kept[1..], other);
      }
    }
  }

  /** The ticks of the last stage of the name. */
  function LastTicks(period: nat, stages: seq<Stage>, name: nat): nat {
    if stages == [] then 0
    else if IsReplaced(stages[1..], name) then LastTicks(period, stages[1..], name)
    else if stages[0].name == name then stages[0].cycles * period
    else 0
  }

  lemma ReplacedAppend(stages: seq<Stage>, last: Stage, name: nat)
    ensures IsReplaced(stages + [last], name) <==> IsReplaced(stages, name) || last.name == name
  {
    var all := stages + [last];
    assert all[|stages|] == last;
    assert forall i | 0 <= i < |stages| :: all[i] == stages[i];
  }

  lemma {:induction false} DeclaredAppend(period: nat, stages: seq<Stage>, last: Stage)
    ensures DeclaredFrom(period, stages + [last]) ==
      DeclaredFrom(period, stages) - LastTicks(period, stages, last.name) + last.cycles * period
    ensures LastTicks(period, stages, last.name) <= DeclaredFrom(period, stages)
    ensures forall name ::
      LastTicks(period, stages + [last], name) ==
      (if name == last.name then last.cycles * period else LastTicks(period, stages, name))
  {
    var all := stages + [last];
    if stages == [] {
      assert all == [last] && all[1..] == [];
    } else {
      assert all[0] == stages[0] && all[1..] == stages[1..] + [last];
      DeclaredAppend(period, stages[1..], last);
      ReplacedAppend(stages[1..], last, stages[0].name);
      NothingLast(period, stages[1..], last.name);
      forall name
        ensures LastTicks(period, all, name) == if name == last.name then last.cycles * period
          else LastTicks(period, stages, name)
      {
        ReplacedAppend(stages[1..], last, name);
      }
    }
  }

  lemma {:induction false} NothingLast(period: nat, stages: seq<Stage>, name: nat)
    ensures !IsReplaced(stages, name) ==> LastTicks(period, stages, name) == 0
  {
    if stages != [] && !IsReplaced(stages, name) {
      assert stages[0].name != name;
      assert forall i | 0 <= i < |stages[1..]| :: stages[1..][i] == stages[i + 1];
    }
  }

  /** The sum of the ticks kept by name is that of the stages no later one replaces. */
  lemma {:induction false} TicksByName(period: nat, stages: seq<Stage>)
    ensures Sum(StageTicks(period, stages)) == DeclaredFrom(period, stages)
    ensures forall name :: TicksOf(StageTicks(period, stages), name) == LastTicks(period, stages, name)
  {
    if stages != [] {
      var front, last := stages[..|stages| - 1], stages[|stages| - 1];
      TicksByName(period, front);
      KeptSum(StageTicks(period, front), last.name, last.cycles * period);
      DeclaredAppend(period, front, last);
      assert stages == front + [last];
    }
  }

  lemma {:induction false} CyclesAppend(a: seq<Stage>, b: seq<Stage>)
    ensures Cycles(a + b) == Cycles(a) + Cycles(b)
  {
    if a == [] {
      assert a + b == b;
    } else {
      CyclesAppend(a[1..], b);
      assert (a + b)[1..] == a[1..] + b;
    }
  }

  lemma SumTicks(period: nat, a: nat, b: nat)
    ensures (a + b) * period == a * period + b * period
  {
  }

  lemma Positive(period: nat, cycles: nat)
    requires period > 0
    ensures cycles * period == 0 <==> cycles == 0
  {
  }

  /** The declared ticks are no more than the stages' own, and equal just when no stage with
      cycles is replaced by a later one of its name. */
  lemma {:induction false} DeclaredExactly(period: nat, stages: seq<Stage>)
    requires period > 0
    ensures DeclaredFrom(period, stages) <= Cycles(stages) * period
    ensures DeclaredFrom(period, stages) == Cycles(stages) * period <==> ReplacesNothing(stages)
  {
    if stages != [] {
      DeclaredExactly(period, stages[1..]);
      SumTicks(period, stages[0].cycles, Cycles(stages[1..]));
      Positive(period, stages[0].cycles);
      ReplacesTail(stages);
    }
  }

  /** Two stages of one name, of two cycles and of three, are declared as the three alone. */
  lemma RepeatedNameIsLost()
    ensures var stages := [Stage(1, 2), Stage(1, 3)];
      && !ReplacesNothing(stages)
      && Sum(StageTicks(10, stages)) == 30 && WalkEnd(10, stages, 0) == 50
  {
    var stages := [Stage(1, 2), Stage(1, 3)];
    assert stages[1..] == [Stage(1, 3)] && stages[1..][1..] == [] && stages[1..][0].name == 1;
    assert IsReplaced(stages[0 + 1..], stages[0].name);
    TicksByName(10, stages);
    assert DeclaredFrom(10, stages) == DeclaredFrom(10, stages[1..]) == 30;
    WalkIsOneWait(10, stages, 0);
    CyclesOfEdge(10, 0);
  }

  lemma ReplacesTail(stages: seq<Stage>)
    requires stages != []
    ensures ReplacesNothing(stages) <==>
      (stages[0].cycles > 0 ==> !IsReplaced(stages[1..], stages[0].name)) && ReplacesNothing(stages[1..])
  {
    forall i | 0 <= i < |stages[1..]|
      ensures stages[1..][i] == stages[i + 1] && stages[1..][i + 1..] == stages[i + 1 + 1..]
    {
    }
    if ReplacesNothing(stages) {
      assert stages[0 + 1..] == stages[1..];
      forall i | 0 <= i < |stages[1..]| && stages[1..][i].cycles > 0
        ensures !IsReplaced(stages[1..][i + 1..], stages[1..][i].name)
      {
        assert !IsReplaced(stages[i + 1 + 1..], stages[i + 1].name);
      }
    }
    if (stages[0].cycles > 0 ==> !IsReplaced(stages[1..], stages[0].name)) && ReplacesNothing(stages[1..]) {
      forall i | 0 <= i < |stages| && stages[i].cycles > 0
        ensures !IsReplaced(stages[i + 1..], stages[i].name)
      {
        if i > 0 {
          assert stages[1..][i - 1] == stages[i] && stages[1..][i - 1 + 1..] == stages[i + 1..];
          assert !IsReplaced(stages[1..][i - 1 + 1..], stages[1..][i - 1].name);
        }
      }
    }
  }

  lemma UniqueReplacesNothing(stages: seq<Stage>)
    requires NamesUnique(stages)
    ensures ReplacesNothing(stages)
  {
    forall i | 0 <= i < |stages| && stages[i].cycles > 0
      ensures !IsReplaced(stages[i + 1..], stages[i].name)
    {
      var later := stages[i + 1..];
      assert forall j | 0 <= j < |later| :: later[j] == stages[i + 1 + j] && later[j].name != stages[i].name;
    }
  }

  /** What one side of the walk takes: its cycles' ticks, and less than a period more. */
  lemma SideTakes(period: nat, stages: seq<Stage>, now: nat)
    requires period > 0
    ensures now + Cycles(stages) * period <= WalkEnd(period, stages, now) <= now + Cycles(stages) * period + period - 1
  {
    WalkIsOneWait(period, stages, now);
    EdgeTakes(period, Cycles(stages), now);
  }

  /** The whole walk takes at least the declared latency; with stages of their own names it takes
      at most two periods less two ticks more, from any start and for any algorithm time. */
  lemma WalkAgainstLatency(period: nat, before: seq<Stage>, algorithm: nat, after: seq<Stage>, start: nat)
    requires period > 0
    ensures var taken := WholeWalk(period, before, algorithm, after, start) - start;
      var declared := Declared(period, before, algorithm, after);
      && declared <= taken
      && (NamesUnique(before + after) ==> taken <= declared + 2 * (period - 1))
  {
    SideTakes(period, before, start);
    SideTakes(period, after, WalkEnd(period, before, start) + algorithm);
    CyclesAppend(before, after);
    SumTicks(period, Cycles(before), Cycles(after));
    DeclaredExactly(period, before + after);
    TicksByName(period, before + after);
    if NamesUnique(before + after) {
      UniqueReplacesNothing(before + after);
    }
  }

  // ---------------------------------------------------- as the source runs

  /** The walk as its events come: each stage leaves at its edge and the next is entered. */
  method Walk(period: nat, stages: seq<Stage>, start: nat) returns (now: nat)
    requires period > 0
    ensures now == WalkEnd(period, stages, start)
  {
    now := start;
    var index := 0;
    while index < |stages|
      invariant index <= |stages| && WalkEnd(period, stages[index..], now) == WalkEnd(period, stages, start)
    {
      assert stages[index..][0] == stages[index] && stages[index..][1..] == stages[index + 1..];
      var step := stages[index];
      if step.cycles > 0 {
        now := Edge(period, step.cycles, now);
      }
      index := index + 1;
    }
  }

  /** The declared latency: the ticks kept by name, summed, and the algorithm's. */
  method Latency(period: nat, before: seq<Stage>, algorithm: nat, after: seq<Stage>) returns (latency: nat)
    ensures latency == Declared(period, before, algorithm, after)
  {
    var stages := before + after;
    var table: seq<Entry> := [];
    var index := 0;
    while index < |stages|
      invariant index <= |stages| && table == StageTicks(period, stages[..index])
    {
      assert stages[..index + 1][..index] == stages[..index];
      table := Keep(table, stages[index].name, stages[index].cycles * period);
      index := index + 1;
    }
    assert stages[..index] == stages;
    latency := algorithm;
    var entry := 0;
    while entry < |table|
      invariant entry <= |table| && latency + Sum(table[entry..]) == Sum(table) + algorithm
    {
      latency := latency + table[entry].ticks;
      entry := entry + 1;
    }
  }
}

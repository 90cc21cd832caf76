/** Clock edges: ticks counted in whole periods. */
module Clocks {

  /** The least number of periods that is not shorter than the span. */
  function CyclesFor(period: nat, ticks: nat): (cycles: nat)
    requires period > 0
    ensures cycles * period >= ticks && (cycles > 0 ==> (cycles - 1) * period < ticks)
  {
    var whole := ticks / period;
    var part := ticks % period;
    assert whole * period + part == ticks;
    if part == 0 then whole else whole + 1
  }

  /** Where a wait of whole cycles ends that begins at the next edge. */
  function Edge(period: nat, cycles: nat, now: nat): (tick: nat)
    requires period > 0
  {
    (CyclesFor(period, now) + cycles) * period
  }

  ghost predicate IsEdge(period: nat, tick: nat) {
    exists n: nat :: tick == n * period
  }

  lemma {:induction false} MoreCycles(a: nat, b: nat, period: nat)
    ensures a <= b ==> a * period <= b * period
    ensures a < b ==> a * period + period <= b * period
    decreases b
  {
    if b > 0 {
      MoreCycles(a, b - 1, period);
      assert b * period == (b - 1) * period + period;
    }
  }

  /** A count of cycles is the least that covers the ticks. */
  lemma CyclesAreLeast(period: nat, ticks: nat, cycles: nat)
    requires period > 0 && cycles * period >= ticks
    ensures CyclesFor(period, ticks) <= cycles
  {
    var least := CyclesFor(period, ticks);
    if least > 0 {
      MoreCycles(cycles, least - 1, period);
    }
  }

  /** On an edge the cycles are its own count. */
  lemma CyclesOfEdge(period: nat, n: nat)
    requires period > 0
    ensures CyclesFor(period, n * period) == n
  {
    CyclesAreLeast(period, n * period, n);
    var least := CyclesFor(period, n * period);
    MoreCycles(least, n, period);
  }

  /** Waiting for edges in two parts is waiting once: how cycles are split does not matter. */
  lemma EdgesCompose(period: nat, a: nat, b: nat, now: nat)
    requires period > 0
    ensures Edge(period, a, Edge(period, b, now)) == Edge(period, a + b, now)
  {
    CyclesOfEdge(period, CyclesFor(period, now) + b);
  }

  /** The edge at or after now: an edge, not before now, and none lies between. */
  lemma EdgeIsNext(period: nat, now: nat, tick: nat)
    requires period > 0
    ensures IsEdge(period, Edge(period, 0, now)) && now <= Edge(period, 0, now) < now + period
    ensures IsEdge(period, tick) && tick >= now ==> tick >= Edge(period, 0, now)
  {
    var cycles := CyclesFor(period, now);
    assert (cycles + 0) * period == cycles * period;
    assert cycles > 0 ==> cycles * period == (cycles - 1) * period + period;
    if IsEdge(period, tick) && tick >= now {
      var n: nat :| tick == n * period;
      CyclesAreLeast(period, now, n);
      assert cycles * period <= n * period;
    }
  }

  /** Two edges less than a period apart are one. */
  lemma EdgesApart(period: nat, a: nat, b: nat)
    requires period > 0 && IsEdge(period, a) && IsEdge(period, b) && a < b
    ensures a + period <= b
  {
    var m: nat :| a == m * period;
    var n: nat :| b == n * period;
    MoreCycles(n, m, period);
    MoreCycles(m, n, period);
  }
}

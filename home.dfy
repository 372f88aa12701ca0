// The home page's rolling statistics (pages/HomePage.tsx): three counters
// that every interval tick raises by a bounded random amount.
module HomePage {

  datatype Stats = Stats(threats: int, breaches: int, advisories: int)

  const InitialStats := Stats(14736, 2891, 942)

  /**
   * The two random draws of one tick, already floored:
   * Math.floor(Math.random() * 5) and Math.floor(Math.random() * 2).
   */
  datatype Draw = Draw(threats: int, breaches: int)

  predicate ValidDraw(d: Draw)
  {
    0 <= d.threats < 5 && 0 <= d.breaches < 2
  }

  /** The interval's state updater. */
  function Tick(prev: Stats, d: Draw): (next: Stats)
    requires ValidDraw(d)
    ensures prev.threats <= next.threats <= prev.threats + 4
    ensures prev.breaches <= next.breaches <= prev.breaches + 1
    ensures next.advisories == prev.advisories + 1
  {
    Stats(prev.threats + d.threats, prev.breaches + d.breaches, prev.advisories + 1)
  }

  predicate ValidDraws(ds: seq<Draw>)
  {
    forall i :: 0 <= i < |ds| ==> ValidDraw(ds[i])
  }

  /** The stats after one tick per draw, in order; every tick adds exactly one advisory. */
  function Run(s: Stats, ds: seq<Draw>): (r: Stats)
    requires ValidDraws(ds)
    ensures r.advisories == s.advisories + |ds|
    decreases |ds|
  {
    if ds == [] then s else Run(Tick(s, ds[0]), ds[1..])
  }

  /** Componentwise order on stats. */
  predicate Le(a: Stats, b: Stats)
  {
    a.threats <= b.threats && a.breaches <= b.breaches && a.advisories <= b.advisories
  }

  /** After n ticks: advisories grew by exactly n, threats by at most 4n, breaches by at most n. */
  lemma {:induction false} RunBounds(s: Stats, ds: seq<Draw>)
    requires ValidDraws(ds)
    ensures Run(s, ds).advisories == s.advisories + |ds|
    ensures s.threats <= Run(s, ds).threats <= s.threats + 4 * |ds|
    ensures s.breaches <= Run(s, ds).breaches <= s.breaches + |ds|
    decreases |ds|
  {
    if ds != [] {
      RunBounds(Tick(s, ds[0]), ds[1..]);
    }
  }

  /** Running a sequence of ticks is running its prefix and then the rest. */
  lemma {:induction false} RunSplit(s: Stats, ds: seq<Draw>, k: nat)
    requires ValidDraws(ds) && k <= |ds|
    ensures Run(s, ds) == Run(Run(s, ds[..k]), ds[k..])
    decreases k
  {
    if k > 0 {
      RunSplit(Tick(s, ds[0]), ds[1..], k - 1);
      assert ds[1..][..k - 1] == ds[..k][1..];
      assert ds[1..][k - 1..] == ds[k..];
    }
  }

  /** No counter ever decreases: the state after a prefix of the ticks is below the state after all of them. */
  lemma Monotone(s: Stats, ds: seq<Draw>, k: nat)
    requires ValidDraws(ds) && k <= |ds|
    ensures Le(s, Run(s, ds[..k]))
    ensures Le(Run(s, ds[..k]), Run(s, ds))
  {
    RunBounds(s, ds[..k]);
    RunSplit(s, ds, k);
    RunBounds(Run(s, ds[..k]), ds[k..]);
  }

  /** From the initial stats, n ticks leave 942 + n advisories. */
  lemma AdvisoriesAfter(ds: seq<Draw>)
    requires ValidDraws(ds)
    ensures Run(InitialStats, ds).advisories == 942 + |ds|
    ensures Le(InitialStats, Run(InitialStats, ds))
  {
    RunBounds(InitialStats, ds);
  }

  /** The `stats` state of the page, overwritten on every interval tick. */
  class StatsBoard {
    var stats: Stats
    ghost var ticks: nat

    /** Every tick so far added one advisory, and no counter fell below its start value. */
    ghost predicate Valid()
      reads this
    {
      stats.advisories == InitialStats.advisories + ticks
      && Le(InitialStats, stats)
      && stats.threats <= InitialStats.threats + 4 * ticks
      && stats.breaches <= InitialStats.breaches + ticks
    }

    constructor ()
      ensures Valid() && stats == InitialStats && ticks == 0
    {
      stats := InitialStats;
      ticks := 0;
    }

    /** One interval callback: setStats(prev => Tick(prev, draw)). */
    method OnTick(d: Draw)
      requires Valid() && ValidDraw(d)
      modifies this
      ensures Valid()
      ensures stats == Tick(old(stats), d) && ticks == old(ticks) + 1
    {
      stats := Tick(stats, d);
      ticks := ticks + 1;
    }
  }
}

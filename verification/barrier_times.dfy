/** What the engine's steps cost: how far a step moves a clock, and what the final clocks
    are in terms of the prices of the single steps. */
module BarrierTimes {
  import opened BarrierEngine

  // ----- One step -----

  /** The counts of the last write before a reading step are those of its own layer. */
  lemma OwnLayerCounts(g: Graph, c0: Counts, k: nat)
    requires Valid(g) && k < |g.ops| && Reads(g.ops, k)
    ensures CountsAfter(g, c0, k) == g.routed(g.ops[k].effect.layer)
  {
    assert OpOk(g.devices, g.ops, k);
    var w: nat, b: nat :| Brackets(g.devices, g.ops, w, b, k);
    CountsStable(g, c0, w + 1, k);
  }

  /** What a step costs in the reference schedule: nothing if it is costless, else its
      price, on the counts of its own layer if it reads them. */
  lemma CostInSchedule(g: Graph, c0: Counts, k: nat, d: nat)
    requires Valid(g) && k < |g.ops|
    ensures g.ops[k].costless ==> Cost(g, k, d, CountsAfter(g, c0, k)) == 0.0
    ensures !g.ops[k].costless && g.ops[k].effect.ReadCounts? ==>
      Cost(g, k, d, CountsAfter(g, c0, k)) == g.price(k, d, g.routed(g.ops[k].effect.layer))
    ensures !g.ops[k].costless && !g.ops[k].effect.ReadCounts? ==>
      Cost(g, k, d, CountsAfter(g, c0, k)) == g.price(k, d, [])
  {
    if Reads(g.ops, k) { OwnLayerCounts(g, c0, k); }
  }

  /** `from` is the latest clock in the window of d. */
  ghost predicate GoesOn(clock: seq<Time>, size: nat, d: nat, from: real)
    requires 0 < size
  {
    && (forall e: nat | e < |clock| && Peers(size, d, e) :: clock[e] <= from)
    && exists e: nat :: e < |clock| && Peers(size, d, e) && clock[e] == from
  }

  /** By how much an enabled step moves the clock of its device: by its price, on the
      counts routed for its own layer if it reads them, and by nothing if it is costless.
      A step that synchronises first goes on from the latest clock of its window, unless
      its own clock has been raised already. */
  lemma StepAdvances(g: Graph, c0: Counts, s: State, d: nat)
    requires Reachable(g, c0, s) && d < g.devices && Enabled(g, s, d)
    ensures var k, op := s.pc[d], g.ops[s.pc[d]];
      var price := if op.costless then 0.0
                   else if op.effect.ReadCounts? then g.price(k, d, g.routed(op.effect.layer))
                   else g.price(k, d, []);
      && (op.group == 0 || op.input in s.synced[d] ==> Next(g, s, d).clock[d] == s.clock[d] + price)
      && (op.group > 0 && op.input !in s.synced[d] ==> GoesOn(s.clock, op.group, d, Next(g, s, d).clock[d] - price))
  {
    ReachableInv(g, c0, s);
    if Reads(g.ops, s.pc[d]) { ReadSeesOwnLayer(g, c0, s, d); }
    if g.ops[s.pc[d]].group > 0 && g.ops[s.pc[d]].input !in s.synced[d] { LatestOfWindow(g, s, d); }
  }

  /** The maximum a window is raised to is the clock of one of its members. */
  lemma LatestOfWindow(g: Graph, s: State, d: nat)
    requires Valid(g) && Shape(g, s) && d < g.devices && Active(g, s, d) && g.ops[s.pc[d]].group > 0
    ensures g.devices % g.ops[s.pc[d]].group == 0
    ensures GoesOn(s.clock, g.ops[s.pc[d]].group, d, GroupMax(s.clock, g.ops[s.pc[d]].group, d))
  {
    PeersSymmetric(g, s.pc[d], d, d);
    WindowMax(s.clock, g.ops[s.pc[d]].group, d);
  }

  lemma SliceMax(c: seq<Time>, lo: nat, hi: nat) returns (e: nat)
    requires lo < hi <= |c|
    ensures lo <= e < hi && c[e] == MaxOf(c[lo..hi])
    ensures forall i: nat | lo <= i < hi :: c[i] <= MaxOf(c[lo..hi])
  {
    var w := c[lo..hi];
    forall i: nat | lo <= i < hi ensures c[i] <= MaxOf(w) { assert w[i - lo] == c[i]; }
    var i: nat :| i < |w| && w[i] == MaxOf(w);
    e := lo + i;
  }

  lemma WindowMax(c: seq<Time>, size: nat, d: nat)
    requires 0 < size && |c| % size == 0 && d < |c|
    ensures GoesOn(c, size, d, GroupMax(c, size, d))
  {
    var lo := Lo(size, d);
    WindowsPartition(size, d, |c|);
    var e := SliceMax(c, lo, lo + size);
    assert GroupMax(c, size, d) == MaxOf(c[lo..lo + size]);
    assert Peers(size, d, e);
  }

  // ----- Whole runs: the longest chain of dependent steps -----

  /** The duration of step k on device d, from the prices and the routed counts alone. */
  function Duration(g: Graph, k: nat, d: nat): Time
    requires k < |g.ops|
  {
    if g.ops[k].costless then 0.0
    else g.price(k, d, if g.ops[k].effect.ReadCounts? then g.routed(g.ops[k].effect.layer) else [])
  }

  /** Step k of device d waits for the step before it on device e: the same device, or
      any member of the window if the step synchronises. */
  predicate WaitsFor(g: Graph, k: nat, d: nat, e: nat)
    requires k < |g.ops|
  {
    if g.ops[k].group > 0 then Peers(g.ops[k].group, d, e) else e == d
  }

  /** p[i] performs step i, each step waits for the one before, and d performs the last. */
  ghost predicate Chain(g: Graph, p: seq<nat>, d: nat) {
    && |p| <= |g.ops|
    && (forall i | 0 <= i < |p| :: p[i] < g.devices)
    && (forall i: nat | 0 < i < |p| :: WaitsFor(g, i, p[i], p[i - 1]))
    && (p != [] ==> p[|p| - 1] == d)
  }

  /** The durations of the steps of a chain, added up. */
  function Length(g: Graph, p: seq<nat>): Time
    requires |p| <= |g.ops|
  {
    if p == [] then 0.0 else Length(g, p[..|p| - 1]) + Duration(g, |p| - 1, p[|p| - 1])
  }

  lemma LockstepNext(g: Graph, c0: Counts, k: nat, d: nat)
    requires Valid(g) && k < |g.ops| && d < g.devices
    ensures Lockstep(g, c0, k + 1)[d] == Gate(g, c0, k, d) + Duration(g, k, d)
  {
    CostInSchedule(g, c0, k, d);
  }

  lemma GateGoesOn(g: Graph, c0: Counts, k: nat, d: nat)
    requires Valid(g) && k < |g.ops| && d < g.devices
    ensures g.ops[k].group > 0 ==> GoesOn(Lockstep(g, c0, k), g.ops[k].group, d, Gate(g, c0, k, d))
    ensures g.ops[k].group == 0 ==> Gate(g, c0, k, d) == Lockstep(g, c0, k)[d]
  {
    if g.ops[k].group > 0 {
      PeersSymmetric(g, k, d, d);
      WindowMax(Lockstep(g, c0, k), g.ops[k].group, d);
    }
  }

  lemma ShorterChain(g: Graph, p: seq<nat>, d: nat)
    requires Chain(g, p, d) && |p| > 1
    ensures Chain(g, p[..|p| - 1], p[|p| - 2]) && WaitsFor(g, |p| - 1, d, p[|p| - 2]) && p[|p| - 2] < g.devices
  {
    var k := |p| - 1;
    assert WaitsFor(g, k, p[k], p[k - 1]);
    forall i: nat | 0 < i < k ensures WaitsFor(g, i, p[..k][i], p[..k][i - 1]) { assert WaitsFor(g, i, p[i], p[i - 1]); }
  }

  /** No chain of steps that ends on d is longer than the clock of d. */
  lemma {:induction false} ChainsFit(g: Graph, c0: Counts, p: seq<nat>, d: nat)
    requires Valid(g) && Chain(g, p, d) && d < g.devices
    ensures Length(g, p) <= Lockstep(g, c0, |p|)[d]
    decreases |p|
  {
    if p != [] {
      var k := |p| - 1;
      LockstepNext(g, c0, k, d);
      GateGoesOn(g, c0, k, d);
      if k > 0 {
        ShorterChain(g, p, d);
        ChainsFit(g, c0, p[..k], p[k - 1]);
      }
    }
  }

  /** Somebody the step waits for arrives when it starts. */
  lemma LastToArrive(g: Graph, c0: Counts, k: nat, d: nat) returns (e: nat)
    requires Valid(g) && k < |g.ops| && d < g.devices
    ensures e < g.devices && WaitsFor(g, k, d, e) && Lockstep(g, c0, k)[e] == Gate(g, c0, k, d)
  {
    GateGoesOn(g, c0, k, d);
    e := d;
    if g.ops[k].group > 0 {
      var c := Lockstep(g, c0, k);
      e :| e < |c| && Peers(g.ops[k].group, d, e) && c[e] == Gate(g, c0, k, d);
    }
  }

  lemma LongerChain(g: Graph, p: seq<nat>, e: nat, d: nat)
    requires Chain(g, p, e) && |p| < |g.ops| && WaitsFor(g, |p|, d, e) && d < g.devices
    ensures Chain(g, p + [d], d) && Length(g, p + [d]) == Length(g, p) + Duration(g, |p|, d)
  {
    var r := p + [d];
    assert r[..|p|] == p;
    forall i: nat | 0 < i < |r| ensures WaitsFor(g, i, r[i], r[i - 1]) {
      if i < |p| { assert WaitsFor(g, i, p[i], p[i - 1]); }
    }
  }

  /** Some chain is as long as the clock. */
  lemma {:induction false} LongestChain(g: Graph, c0: Counts, k: nat, d: nat) returns (p: seq<nat>)
    requires Valid(g) && k <= |g.ops| && d < g.devices
    ensures |p| == k && Chain(g, p, d) && Length(g, p) == Lockstep(g, c0, k)[d]
    decreases k
  {
    p := [];
    if k > 0 {
      var e := LastToArrive(g, c0, k - 1, d);
      p := LongestChain(g, c0, k - 1, e);
      LockstepNext(g, c0, k - 1, d);
      LongerChain(g, p, e, d);
      p := p + [d];
    }
  }

  /** `time` is the length of a longest chain of all steps that ends on device d. */
  ghost predicate IsLongest(g: Graph, d: nat, time: Time) {
    && (forall p | |p| == |g.ops| && Chain(g, p, d) :: Length(g, p) <= time)
    && exists p :: |p| == |g.ops| && Chain(g, p, d) && Length(g, p) == time
  }

  /** The final clock of a device is the length of the longest chain of steps, each
      waiting for the one before, that ends on it. */
  lemma CriticalPath(g: Graph, c0: Counts, d: nat)
    requires Valid(g) && d < g.devices
    ensures IsLongest(g, d, Lockstep(g, c0, |g.ops|)[d])
  {
    forall p | |p| == |g.ops| && Chain(g, p, d) ensures Length(g, p) <= Lockstep(g, c0, |g.ops|)[d] {
      ChainsFit(g, c0, p, d);
    }
    var p := LongestChain(g, c0, |g.ops|, d);
  }

  /** The prices of the first k steps of device 0 that are not costless. */
  function PriceSum(g: Graph, k: nat): Time
    requires k <= |g.ops|
  {
    if k == 0 then 0.0
    else
      var op := g.ops[k - 1];
      PriceSum(g, k - 1) +
      if op.costless then 0.0
      else if op.effect.ReadCounts? then g.price(k - 1, 0, g.routed(op.effect.layer))
      else g.price(k - 1, 0, [])
  }

  /** With one device there is nothing to wait for. */
  lemma {:induction false} OneDevice(g: Graph, c0: Counts, k: nat)
    requires Valid(g) && g.devices == 1 && k <= |g.ops|
    ensures Lockstep(g, c0, k)[0] == PriceSum(g, k)
  {
    if k > 0 {
      OneDevice(g, c0, k - 1);
      LockstepNext(g, c0, k - 1, 0);
      GateGoesOn(g, c0, k - 1, 0);
    }
  }
}

/** The engine as the simulator runs it: program counters, clocks and tensor
    flags changed in place by the polling loop. Every method is tied to the
    state machine of BarrierEngine. */
module ClusterRun {
  import opened BarrierEngine
  import opened BarrierTimes

  class Cluster {
    const g: Graph
    var pc: seq<nat>
    var clock: seq<Time>
    var ready: seq<set<nat>>
    var synced: seq<set<nat>>
    var counts: Counts
    ghost var raises: multiset<(nat, nat)>

    ghost function St(): State
      reads this
    {
      State(pc, clock, ready, synced, counts, raises)
    }

    /** Restarting the graphs: every device at its first step, only the graph input ready. */
    constructor (g: Graph, c0: Counts)
      requires Valid(g)
      ensures this.g == g && St() == Init(g, c0)
    {
      this.g := g;
      pc, clock := seq(g.devices, d => 0), seq(g.devices, d => 0.0);
      ready, synced := seq(g.devices, d => {0}), seq(g.devices, d => {});
      counts, raises := c0, multiset{};
    }

    /** Whether tensor `input` is ready on every device of the window from lo. */
    method ListReady(lo: nat, size: nat, input: nat) returns (ok: bool)
      requires lo + size <= |ready|
      ensures ok <==> forall e: nat | lo <= e < lo + size :: input in ready[e]
    {
      for e := lo to lo + size
        invariant forall f: nat | lo <= f < e :: input in ready[f]
      {
        if input !in ready[e] { return false; }
      }
      return true;
    }

    /** The latest clock in the window from lo. */
    method LatestTime(lo: nat, size: nat) returns (time: Time)
      requires lo + size <= |clock|
      ensures time == MaxOf(clock[lo..lo + size])
    {
      time := 0.0;
      for e := lo to lo + size
        invariant time == MaxOf(clock[lo..e])
      {
        assert clock[lo..e + 1] == clock[lo..e] + [clock[e]];
        time := Max(time, clock[e]);
      }
    }

    /** The first device through: flag tensor `input` and set the clock on every
        device of its window, then clear its own flag. */
    method RaiseWindow(d: nat, size: nat, input: nat, time: Time)
      requires 0 < size && d < |clock| == |synced| && Lo(size, d) + size <= |clock|
      modifies `clock, `synced
      ensures clock == Raised(old(clock), size, d, time) && synced == Flagged(old(synced), size, d, input)
    {
      var lo := Lo(size, d);
      for e := lo to lo + size
        invariant |clock| == |synced| == old(|clock|)
        invariant forall f | 0 <= f < |clock| ::
          && clock[f] == (if lo <= f < e then time else old(clock[f]))
          && synced[f] == (if lo <= f < e then old(synced[f]) + {input} else old(synced[f]))
      {
        synced := synced[e := synced[e] + {input}];
        clock := clock[e := time];
      }
      synced := synced[d := synced[d] - {input}];
      assert synced[d] == old(synced)[d] - {input};
    }

    /** Synchronising: the first device through raises its window and flags the
        others, a flagged device clears its flag. */
    method SyncDevices(d: nat)
      requires Valid(g) && Shape(g, St()) && Active(g, St(), d) && g.ops[pc[d]].group > 0
      modifies `clock, `synced, `raises
      ensures St() == Synced(g, old(St()), d)
    {
      var op := g.ops[pc[d]];
      if op.input in synced[d] {
        synced := synced[d := synced[d] - {op.input}];
      } else {
        PeersSymmetric(g, pc[d], d, d);
        WindowsPartition(op.group, d, g.devices);
        var lo := Lo(op.group, d);
        var time := LatestTime(lo, op.group);
        RaiseWindow(d, op.group, op.input, time);
        raises := raises + multiset{(pc[d], lo)};
      }
    }

    /** The work of a step: its duration, its output, and rank 0's gate update. */
    method Perform(d: nat)
      requires Valid(g) && Shape(g, St()) && Active(g, St(), d)
      modifies `pc, `clock, `ready, `counts
      ensures St() == Forward(g, old(St()), d)
    {
      var k := pc[d];
      clock := clock[d := clock[d] + Cost(g, k, d, counts)];
      ready := ready[d := ready[d] + {k + 1}];
      if g.ops[k].effect.WriteCounts? && d == 0 { counts := g.routed(g.ops[k].effect.layer); }
      pc := pc[d := k + 1];
    }

    /** Whether the step a device stands at may run. */
    method CheckReady(d: nat) returns (ok: bool)
      requires Valid(g) && Shape(g, St()) && Active(g, St(), d)
      ensures ok == Enabled(g, St(), d)
    {
      var op := g.ops[pc[d]];
      if op.group > 0 {
        PeersSymmetric(g, pc[d], d, d);
        WindowsPartition(op.group, d, g.devices);
        ok := ListReady(Lo(op.group, d), op.group, op.input);
      } else {
        ok := op.input in ready[d];
      }
    }

    /** One graph step; `passed` is false when the device is blocked. */
    method RunModule(d: nat) returns (passed: bool)
      requires Valid(g) && Shape(g, St()) && Active(g, St(), d)
      modifies this
      ensures passed == Enabled(g, old(St()), d) && St() == Next(g, old(St()), d)
    {
      passed := CheckReady(d);
      if passed {
        if g.ops[pc[d]].group > 0 { SyncDevices(d); }
        Perform(d);
      }
    }

    /** Polling a device: it runs until a step blocks it or its graph ends. */
    method RunDevice(d: nat) returns (ghost polls: seq<nat>)
      requires Valid(g) && Shape(g, St()) && d < g.devices
      modifies this
      ensures forall i | 0 <= i < |polls| :: polls[i] == d
      ensures St() == Exec(g, old(St()), polls)
      ensures !Enabled(g, St(), d)
      ensures Enabled(g, old(St()), d) ==> |polls| > 0
    {
      polls := [];
      while pc[d] < |g.ops|
        invariant Shape(g, St())
        invariant forall i | 0 <= i < |polls| :: polls[i] == d
        invariant St() == Exec(g, old(St()), polls)
        invariant polls == [] ==> St() == old(St())
        decreases |g.ops| - pc[d]
      {
        ghost var before := polls;
        var passed := RunModule(d);
        polls := polls + [d];
        assert polls[..|polls| - 1] == before;
        if !passed { return; }
      }
    }

    method Remains() returns (remain: bool)
      requires Shape(g, St())
      ensures remain <==> !Finished(g, St())
    {
      for d := 0 to g.devices
        invariant forall e: nat | e < d :: pc[e] == |g.ops|
      {
        if pc[d] < |g.ops| { return true; }
      }
      return false;
    }

    /** A poll while nobody is behind position m takes the device past m. */
    method Poll(d: nat, ghost c0: Counts, ghost m: nat) returns (ghost polls: seq<nat>)
      requires Inv(g, c0, St()) && d < g.devices && m < |g.ops| && AllPast(g, St(), m)
      modifies this
      ensures forall i | 0 <= i < |polls| :: polls[i] < g.devices
      ensures Inv(g, c0, St()) && St() == Exec(g, old(St()), polls) && AllPast(g, St(), m)
      ensures pc[d] > m && forall e | 0 <= e < g.devices :: pc[e] >= old(pc[e])
    {
      polls := RunDevice(d);
      PollProgress(g, c0, old(St()), m, d, polls);
    }

    /** One pass over the devices, in the order given. */
    method RunRound(order: seq<nat>, ghost c0: Counts, ghost m: nat) returns (ghost polls: seq<nat>)
      requires Inv(g, c0, St()) && m < |g.ops| && AllPast(g, St(), m)
      requires forall i | 0 <= i < |order| :: order[i] < g.devices
      modifies this
      ensures forall i | 0 <= i < |polls| :: polls[i] < g.devices
      ensures Inv(g, c0, St()) && St() == Exec(g, old(St()), polls)
      ensures Passed(pc, order, m)
    {
      polls := [];
      assert order[..|order|] == order;
      ghost var s := St();
      for i := 0 to |order|
        invariant forall j | 0 <= j < |polls| :: polls[j] < g.devices
        invariant Inv(g, c0, St()) && AllPast(g, St(), m)
        invariant St() == Exec(g, s, polls)
        invariant Passed(pc, order[..i], m)
      {
        ghost var before := pc;
        ghost var more := Poll(order[i], c0, m);
        PassedNext(before, pc, order, i, m);
        ExecAppend(g, s, polls, more);
        polls := polls + more;
      }
    }

    /** The polling loop: as long as a graph remains, poll every device. It
        ends with every graph finished, and the clocks, flags and counts are
        those of the lockstep schedule whatever the order: each clock is the
        length of the longest chain of steps that wait for one another. */
    method Run(order: seq<nat>, ghost c0: Counts) returns (ghost polls: seq<nat>)
      requires Valid(g) && St() == Init(g, c0) && Round(g, order)
      modifies this
      ensures forall i | 0 <= i < |polls| :: polls[i] < g.devices
      ensures Finished(g, St()) && St() == Exec(g, Init(g, c0), polls)
      ensures clock == Lockstep(g, c0, |g.ops|)
      ensures forall d: nat | d < g.devices :: IsLongest(g, d, clock[d])
      ensures g.devices == 1 ==> clock[0] == PriceSum(g, |g.ops|)
      ensures counts == CountsAfter(g, c0, |g.ops|)
      ensures forall d | 0 <= d < g.devices :: synced[d] == {}
    {
      polls := [];
      InitInv(g, c0);
      ghost var m := 0;
      var remain := Remains();
      while remain
        invariant forall i | 0 <= i < |polls| :: polls[i] < g.devices
        invariant Inv(g, c0, St()) && St() == Exec(g, Init(g, c0), polls)
        invariant m <= |g.ops| && AllPast(g, St(), m)
        invariant remain <==> !Finished(g, St())
        decreases |g.ops| - m
      {
        ghost var before := polls;
        ghost var more := RunRound(order, c0, m);
        polls := polls + more;
        ExecAppend(g, Init(g, c0), before, more);
        RoundCovers(g, St(), order, m);
        m := m + 1;
        remain := Remains();
      }
      FinalIsLockstep(g, c0, St());
      forall d: nat | d < g.devices ensures IsLongest(g, d, clock[d]) { CriticalPath(g, c0, d); }
      if g.devices == 1 { OneDevice(g, c0, |g.ops|); }
    }
  }

  lemma {:induction false} ExecAppend(g: Graph, s: State, a: seq<nat>, b: seq<nat>)
    requires Valid(g) && Shape(g, s)
    requires forall i | 0 <= i < |a| :: a[i] < g.devices
    requires forall i | 0 <= i < |b| :: b[i] < g.devices
    ensures Exec(g, s, a + b) == Exec(g, Exec(g, s, a), b)
  {
    if b == [] {
      assert a + b == a;
    } else {
      ExecAppend(g, s, a, b[..|b| - 1]);
      assert (a + b)[..|a + b| - 1] == a + b[..|b| - 1];
    }
  }

  lemma {:induction false} ExecMonotone(g: Graph, s: State, sched: seq<nat>)
    requires Valid(g) && Shape(g, s) && forall i | 0 <= i < |sched| :: sched[i] < g.devices
    ensures forall d | 0 <= d < g.devices :: Exec(g, s, sched).pc[d] >= s.pc[d]
  {
    if sched != [] { ExecMonotone(g, s, sched[..|sched| - 1]); }
  }

  /** Every listed device is past position m. */
  ghost predicate Passed(pc: seq<nat>, listed: seq<nat>, m: nat) {
    forall d | d in listed :: d < |pc| && pc[d] > m
  }

  lemma PassedNext(pc: seq<nat>, pc': seq<nat>, order: seq<nat>, i: nat, m: nat)
    requires i < |order| && Passed(pc, order[..i], m) && |pc| == |pc'|
    requires (forall d | 0 <= d < |pc| :: pc'[d] >= pc[d]) && order[i] < |pc| && pc'[order[i]] > m
    ensures Passed(pc', order[..i + 1], m)
  {
    assert order[..i + 1] == order[..i] + [order[i]];
  }

  lemma RoundCovers(g: Graph, s: State, order: seq<nat>, m: nat)
    requires Shape(g, s) && Round(g, order) && Passed(s.pc, order, m)
    ensures AllPast(g, s, m + 1)
  {
  }

  /** Polling a device past position m leaves it past m and nobody behind m. */
  lemma PollProgress(g: Graph, c0: Counts, s: State, m: nat, d: nat, polls: seq<nat>)
    requires Inv(g, c0, s) && m < |g.ops| && AllPast(g, s, m) && d < g.devices
    requires (forall i | 0 <= i < |polls| :: polls[i] == d) && (Enabled(g, s, d) ==> |polls| > 0)
    ensures var t := Exec(g, s, polls);
      Inv(g, c0, t) && AllPast(g, t, m) && t.pc[d] > m && forall e | 0 <= e < g.devices :: t.pc[e] >= s.pc[e]
  {
    RunInv(g, c0, s, polls);
    RoundProgress(g, c0, s, m, polls);
    ExecMonotone(g, s, polls);
    if s.pc[d] == m {
      LaggardMoves(g, c0, s, d);
      assert polls[0] == d;
    }
  }
}

/** The multi-device barrier engine: every device runs the same list of graph
    steps, is polled in turn, and runs until a synchronising step blocks it.
    State, one atomic step, and the lockstep schedule that every run refines. */
module BarrierEngine {
  import Quotients

  type Time = t: real | 0.0 <= t witness 0.0

  /** Tokens routed to each expert, as one layer's gate update writes them. */
  type Counts = seq<nat>

  /** What a step does to the shared expert counts of the batches. */
  datatype Effect = Local | WriteCounts(layer: nat) | ReadCounts(layer: nat)

  /** One graph step, a leaf module. Tensor 0 is the graph input and tensor
      k + 1 is the output of step k. `group` is the size of the device windows
      a synchronising step spans, 0 for a step that does not synchronise. */
  datatype Op = Op(input: nat, group: nat, costless: bool, effect: Effect)

  /** `price` is the duration of a step on a device, which may depend on the
      counts the step reads; `routed` gives the counts of a layer. */
  datatype Graph = Graph(devices: nat, ops: seq<Op>, price: (nat, nat, Counts) -> Time, routed: nat -> Counts)

  // ----- Well-formed programs -----

  /** A barrier of all devices whose input is the output of the step before it. */
  predicate FullBarrier(n: nat, ops: seq<Op>, k: nat) {
    k < |ops| && ops[k].group == n && ops[k].input == k
  }

  /** A barrier that reuses an old input directly after a costless full barrier. */
  predicate Guarded(n: nat, ops: seq<Op>, k: nat)
    requires k < |ops|
  {
    0 < k && FullBarrier(n, ops, k - 1) && ops[k - 1].costless && ops[k].input < k - 1
  }

  predicate Writes(ops: seq<Op>, k: nat)
    requires k < |ops|
  {
    ops[k].effect.WriteCounts?
  }

  predicate Reads(ops: seq<Op>, k: nat)
    requires k < |ops|
  {
    ops[k].effect.ReadCounts?
  }

  /** Step w writes the counts step k reads, and the full barrier b is between. */
  predicate Brackets(n: nat, ops: seq<Op>, w: nat, b: nat, k: nat)
    requires k < |ops| && Reads(ops, k)
  {
    && w < b <= k
    && ops[w].effect == WriteCounts(ops[k].effect.layer)
    && FullBarrier(n, ops, b)
    && (forall j: nat | w < j <= k :: !ops[j].effect.WriteCounts?)
  }

  /** The full barrier s separates the writing step k from all reads before it. */
  predicate Shields(n: nat, ops: seq<Op>, s: nat, k: nat)
    requires k < |ops|
  {
    s < k && FullBarrier(n, ops, s) && (forall j: nat | s <= j < k :: !ops[j].effect.ReadCounts?)
  }

  ghost predicate OpOk(n: nat, ops: seq<Op>, k: nat)
    requires k < |ops|
  {
    && ops[k].input <= k
    && (ops[k].group > 0 ==> n % ops[k].group == 0 && (ops[k].input == k || Guarded(n, ops, k)))
    && (Reads(ops, k) ==> exists w: nat, b: nat :: Brackets(n, ops, w, b, k))
    && (Writes(ops, k) ==> exists s: nat :: Shields(n, ops, s, k))
  }

  ghost predicate AllOk(n: nat, ops: seq<Op>) {
    0 < n && forall k: nat | k < |ops| :: OpOk(n, ops, k)
  }

  ghost predicate Valid(g: Graph) {
    AllOk(g.devices, g.ops)
  }

  // ----- Device windows -----

  function Lo(size: nat, d: nat): (lo: nat)
    requires 0 < size
    ensures lo <= d < lo + size
  {
    d / size * size
  }

  predicate Peers(size: nat, d: nat, e: nat)
    requires 0 < size
  {
    Lo(size, d) <= e < Lo(size, d) + size
  }

  lemma SameQuotient(size: nat, q: nat, e: nat)
    requires 0 < size && q * size <= e < q * size + size
    ensures e / size == q
  {
    Quotients.MulMono(e / size + 1, q, size);
    Quotients.MulMono(q + 1, e / size, size);
  }

  lemma MultipleBelow(size: nat, q: nat, n: nat)
    requires 0 < size && n % size == 0 && q * size < n
    ensures q * size + size <= n
  {
    assert n == n / size * size;
    Quotients.MulMono(n / size, q, size);
    Quotients.MulMono(q + 1, n / size, size);
  }

  /** The windows partition the devices. */
  lemma WindowsPartition(size: nat, d: nat, n: nat)
    requires 0 < size && n % size == 0 && d < n
    ensures Lo(size, d) + size <= n
    ensures forall e: nat :: Peers(size, d, e) ==> Lo(size, e) == Lo(size, d)
    ensures forall e: nat :: Peers(size, e, d) ==> Lo(size, e) == Lo(size, d)
    ensures size == n ==> Lo(size, d) == 0
  {
    MultipleBelow(size, d / size, n);
    forall e: nat | Peers(size, d, e) ensures Lo(size, e) == Lo(size, d) { SameQuotient(size, d / size, e); }
    forall e: nat | Peers(size, e, d) ensures Lo(size, e) == Lo(size, d) { SameQuotient(size, e / size, d); }
    if size == n { SameQuotient(size, 0, d); }
  }

  function Max(a: Time, b: Time): Time { if a < b then b else a }

  function MaxOf(c: seq<Time>): (m: Time)
    ensures forall i | 0 <= i < |c| :: c[i] <= m
    ensures |c| > 0 ==> m in c
  {
    if |c| == 0 then 0.0 else Max(MaxOf(c[..|c| - 1]), c[|c| - 1])
  }

  function GroupMax(c: seq<Time>, size: nat, d: nat): Time
    requires 0 < size && |c| % size == 0 && d < |c|
  {
    WindowsPartition(size, d, |c|);
    MaxOf(c[Lo(size, d)..Lo(size, d) + size])
  }

  // ----- The lockstep reference -----

  /** The shared counts once rank 0 has run the first k steps. */
  function CountsAfter(g: Graph, c0: Counts, k: nat): Counts
    requires k <= |g.ops|
  {
    if k == 0 then c0
    else if Writes(g.ops, k - 1) then g.routed(g.ops[k - 1].effect.layer)
    else CountsAfter(g, c0, k - 1)
  }

  /** The duration of step k on device d when the shared counts are c. */
  function Cost(g: Graph, k: nat, d: nat, c: Counts): Time
    requires k < |g.ops|
  {
    if g.ops[k].costless then 0.0 else g.price(k, d, if Reads(g.ops, k) then c else [])
  }

  /** The max-plus schedule: all devices run step k before any runs step k + 1. */
  ghost function Lockstep(g: Graph, c0: Counts, k: nat): (c: seq<Time>)
    requires Valid(g) && k <= |g.ops|
    ensures |c| == g.devices
    decreases k, 0
  {
    if k == 0 then seq(g.devices, d => 0.0)
    else
      seq(g.devices, d requires 0 <= d < g.devices =>
        Gate(g, c0, k - 1, d) + Cost(g, k - 1, d, CountsAfter(g, c0, k - 1)))
  }

  /** The lockstep clock of device d when it starts the work of step k. */
  ghost function Gate(g: Graph, c0: Counts, k: nat, d: nat): Time
    requires Valid(g) && k < |g.ops| && d < g.devices
    decreases k, 1
  {
    assert OpOk(g.devices, g.ops, k);
    if g.ops[k].group > 0 then GroupMax(Lockstep(g, c0, k), g.ops[k].group, d) else Lockstep(g, c0, k)[d]
  }

  // ----- The machine -----

  /** `ready[d]` and `synced[d]` hold the tensors of device d whose flag is set;
      `raises` counts how often the clocks of each window were raised per step. */
  datatype State = State(
    pc: seq<nat>, clock: seq<Time>, ready: seq<set<nat>>, synced: seq<set<nat>>,
    counts: Counts, raises: multiset<(nat, nat)>)

  ghost predicate Shape(g: Graph, s: State) {
    && |s.pc| == |s.clock| == |s.ready| == |s.synced| == g.devices
    && forall d | 0 <= d < g.devices :: s.pc[d] <= |g.ops|
  }

  predicate Active(g: Graph, s: State, d: nat) {
    d < |s.pc| && s.pc[d] < |g.ops|
  }

  /** The readiness test: a device passes a synchronising step only when the
      input of every device in its window is ready. */
  ghost predicate Enabled(g: Graph, s: State, d: nat)
    requires Valid(g) && Shape(g, s)
  {
    && Active(g, s, d)
    && var op := g.ops[s.pc[d]];
       if op.group > 0
       then forall e: nat | e < g.devices && Peers(op.group, d, e) :: op.input in s.ready[e]
       else op.input in s.ready[d]
  }

  /** The clocks after d's window has been set to time m. */
  function Raised(clock: seq<Time>, size: nat, d: nat, m: Time): (r: seq<Time>)
    requires 0 < size
    ensures |r| == |clock|
  {
    seq(|clock|, e requires 0 <= e < |clock| => if Peers(size, d, e) then m else clock[e])
  }

  /** The flags after d has flagged tensor t for the other members of its window. */
  function Flagged(synced: seq<set<nat>>, size: nat, d: nat, t: nat): (r: seq<set<nat>>)
    requires 0 < size
    ensures |r| == |synced|
  {
    seq(|synced|, e requires 0 <= e < |synced| =>
      if e == d then synced[e] - {t} else if Peers(size, d, e) then synced[e] + {t} else synced[e])
  }

  /** The first device through raises the clocks of its window to their maximum
      and flags the other members; a flagged device only clears its flag. */
  ghost function Synced(g: Graph, s: State, d: nat): (t: State)
    requires Valid(g) && Shape(g, s) && Active(g, s, d)
    ensures Shape(g, t)
  {
    var op := g.ops[s.pc[d]];
    assert OpOk(g.devices, g.ops, s.pc[d]);
    if op.group == 0 then s
    else if op.input in s.synced[d] then s.(synced := s.synced[d := s.synced[d] - {op.input}])
    else
      var m := GroupMax(s.clock, op.group, d);
      s.(clock := Raised(s.clock, op.group, d, m),
         synced := Flagged(s.synced, op.group, d, op.input),
         raises := s.raises + multiset{(s.pc[d], Lo(op.group, d))})
  }

  /** The work of the step: its duration, its output and its effect on the counts. */
  ghost function Forward(g: Graph, s: State, d: nat): (t: State)
    requires Shape(g, s) && Active(g, s, d)
    ensures Shape(g, t)
  {
    var k := s.pc[d];
    s.(pc := s.pc[d := k + 1],
       clock := s.clock[d := s.clock[d] + Cost(g, k, d, s.counts)],
       ready := s.ready[d := s.ready[d] + {k + 1}],
       counts := if Writes(g.ops, k) && d == 0 then g.routed(g.ops[k].effect.layer) else s.counts)
  }

  /** One atomic step of device d; a blocked or finished device stays put. */
  ghost function Next(g: Graph, s: State, d: nat): (t: State)
    requires Valid(g) && Shape(g, s)
    ensures Shape(g, t)
  {
    if Enabled(g, s, d) then Forward(g, Synced(g, s, d), d) else s
  }

  ghost function Init(g: Graph, c0: Counts): (s: State)
    ensures Shape(g, s)
  {
    State(seq(g.devices, d => 0), seq(g.devices, d => 0.0), seq(g.devices, d => {0}), seq(g.devices, d => {}), c0, multiset{})
  }

  // ----- The invariant -----

  /** Some device in d's window has passed step k. */
  ghost predicate Opened(g: Graph, s: State, k: nat, d: nat)
    requires Shape(g, s) && k < |g.ops| && g.ops[k].group > 0
  {
    exists e: nat :: e < g.devices && Peers(g.ops[k].group, d, e) && s.pc[e] > k
  }

  /** Step k is an opened barrier that device d has still to pass. */
  ghost predicate Pending(g: Graph, s: State, k: nat, d: nat)
    requires Shape(g, s) && d < g.devices
  {
    k < |g.ops| && g.ops[k].group > 0 && s.pc[d] <= k && Opened(g, s, k, d)
  }

  /** No device passes a fresh barrier before every member of its window arrives. */
  ghost predicate ArriveOk(g: Graph, s: State, k: nat, d: nat, e: nat)
    requires Shape(g, s)
  {
    (k < |g.ops| && g.ops[k].group > 0 && g.ops[k].input == k && d < g.devices && e < g.devices
     && Peers(g.ops[k].group, d, e) && s.pc[d] > k) ==> s.pc[e] >= k
  }

  ghost predicate Arrivals(g: Graph, s: State)
    requires Shape(g, s)
  {
    forall k: nat, d: nat, e: nat :: ArriveOk(g, s, k, d, e)
  }

  ghost predicate ReadyOk(g: Graph, s: State, d: nat)
    requires Shape(g, s) && d < g.devices
  {
    forall t: nat :: t in s.ready[d] <==> t <= s.pc[d]
  }

  ghost predicate ReadyFlags(g: Graph, s: State)
    requires Shape(g, s)
  {
    forall d: nat | d < g.devices :: ReadyOk(g, s, d)
  }

  /** Tensor t of device d is flagged exactly while an opened barrier on it awaits d. */
  ghost predicate FlagOk(g: Graph, s: State, d: nat, t: nat)
    requires Shape(g, s) && d < g.devices
  {
    t in s.synced[d] <==> exists k: nat :: Pending(g, s, k, d) && g.ops[k].input == t
  }

  ghost predicate SyncFlags(g: Graph, s: State)
    requires Shape(g, s)
  {
    forall d: nat, t: nat | d < g.devices :: FlagOk(g, s, d, t)
  }

  /** The clock of d is the lockstep clock of its position. */
  ghost predicate ClockOk(g: Graph, c0: Counts, s: State, d: nat)
    requires Valid(g) && Shape(g, s) && d < g.devices
  {
    s.clock[d] == if Pending(g, s, s.pc[d], d) then Gate(g, c0, s.pc[d], d) else Lockstep(g, c0, s.pc[d])[d]
  }

  ghost predicate Clocks(g: Graph, c0: Counts, s: State)
    requires Valid(g) && Shape(g, s)
  {
    forall d: nat | d < g.devices :: ClockOk(g, c0, s, d)
  }

  /** The window of d was raised once for step k if it is open, never otherwise. */
  ghost predicate RaisedOk(g: Graph, s: State, k: nat, d: nat)
    requires Shape(g, s) && k < |g.ops| && g.ops[k].group > 0
  {
    s.raises[(k, Lo(g.ops[k].group, d))] == if Opened(g, s, k, d) then 1 else 0
  }

  ghost predicate RaisedOnce(g: Graph, s: State)
    requires Shape(g, s)
  {
    forall k: nat, d: nat | k < |g.ops| && g.ops[k].group > 0 && d < g.devices :: RaisedOk(g, s, k, d)
  }

  ghost predicate Inv(g: Graph, c0: Counts, s: State) {
    && Valid(g) && Shape(g, s)
    && Arrivals(g, s) && ReadyFlags(g, s) && SyncFlags(g, s) && Clocks(g, c0, s) && RaisedOnce(g, s)
    && s.counts == CountsAfter(g, c0, s.pc[0])
  }

  // ----- One step keeps the invariant -----

  lemma PeersSymmetric(g: Graph, k: nat, d: nat, e: nat)
    requires Valid(g) && k < |g.ops| && g.ops[k].group > 0 && d < g.devices && e < g.devices
    ensures g.devices % g.ops[k].group == 0
    ensures Peers(g.ops[k].group, d, e) <==> Peers(g.ops[k].group, e, d)
    ensures Peers(g.ops[k].group, d, e) <==> Lo(g.ops[k].group, d) == Lo(g.ops[k].group, e)
    ensures g.ops[k].group == g.devices ==> Peers(g.ops[k].group, d, e)
  {
    assert OpOk(g.devices, g.ops, k);
    WindowsPartition(g.ops[k].group, d, g.devices);
    WindowsPartition(g.ops[k].group, e, g.devices);
  }

  lemma OpenedShared(g: Graph, s: State, k: nat, d: nat, e: nat)
    requires Valid(g) && Shape(g, s) && k < |g.ops| && g.ops[k].group > 0 && d < g.devices && e < g.devices
    requires Peers(g.ops[k].group, d, e) && Opened(g, s, k, d)
    ensures Opened(g, s, k, e)
  {
    var f: nat :| f < g.devices && Peers(g.ops[k].group, d, f) && s.pc[f] > k;
    PeersSymmetric(g, k, d, e);
    PeersSymmetric(g, k, d, f);
    PeersSymmetric(g, k, e, f);
  }

  /** A barrier pending for d is the one d stands at, or a guarded one right after it. */
  lemma PendingIsNear(g: Graph, s: State, k: nat, d: nat)
    requires Valid(g) && Shape(g, s) && Arrivals(g, s) && d < g.devices && Pending(g, s, k, d)
    ensures k == s.pc[d] || (k == s.pc[d] + 1 && Guarded(g.devices, g.ops, k) && Pending(g, s, k - 1, d))
  {
    assert OpOk(g.devices, g.ops, k);
    var e: nat :| e < g.devices && Peers(g.ops[k].group, d, e) && s.pc[e] > k;
    PeersSymmetric(g, k, d, e);
    if g.ops[k].input == k {
      assert ArriveOk(g, s, k, e, d);
    } else {
      assert FullBarrier(g.devices, g.ops, k - 1);
      PeersSymmetric(g, k - 1, d, e);
      assert ArriveOk(g, s, k - 1, e, d);
    }
  }

  /** The flag of the barrier a device stands at tells whether it is open. */
  lemma FlagMeansOpened(g: Graph, s: State, d: nat)
    requires Valid(g) && Shape(g, s) && Arrivals(g, s) && SyncFlags(g, s) && d < g.devices && Active(g, s, d) && g.ops[s.pc[d]].group > 0
    ensures g.ops[s.pc[d]].input in s.synced[d] <==> Opened(g, s, s.pc[d], d)
  {
    var k := s.pc[d];
    assert FlagOk(g, s, d, g.ops[k].input);
    if Opened(g, s, k, d) { assert Pending(g, s, k, d); }
    if g.ops[k].input in s.synced[d] {
      var j: nat :| Pending(g, s, j, d) && g.ops[j].input == g.ops[k].input;
      PendingIsNear(g, s, j, d);
    }
  }

  /** When a device may pass, everyone in its window is at its barrier, or
      one step behind at the full barrier that guards it. */
  lemma Gathered(g: Graph, s: State, d: nat, e: nat)
    requires Valid(g) && Shape(g, s) && Arrivals(g, s) && ReadyFlags(g, s) && d < g.devices && e < g.devices && Enabled(g, s, d) && g.ops[s.pc[d]].group > 0
    requires Peers(g.ops[s.pc[d]].group, d, e)
    ensures s.pc[e] >= s.pc[d] || (Guarded(g.devices, g.ops, s.pc[d]) && s.pc[e] == s.pc[d] - 1 && Pending(g, s, s.pc[e], e))
  {
    var k := s.pc[d];
    assert OpOk(g.devices, g.ops, k);
    if g.ops[k].input == k {
      assert ReadyOk(g, s, e) && k in s.ready[e];
    } else {
      assert FullBarrier(g.devices, g.ops, k - 1);
      PeersSymmetric(g, k - 1, d, e);
      assert ArriveOk(g, s, k - 1, d, e);
    }
  }

  lemma GuardedLevel(g: Graph, c0: Counts, k: nat, d: nat, e: nat)
    requires Valid(g) && k < |g.ops| && Guarded(g.devices, g.ops, k) && d < g.devices && e < g.devices
    ensures Lockstep(g, c0, k)[d] == Gate(g, c0, k - 1, d) == Gate(g, c0, k - 1, e)
  {
    PeersSymmetric(g, k - 1, d, e);
  }

  lemma LevelMax(w: seq<Time>, v: Time)
    requires |w| > 0 && forall i | 0 <= i < |w| :: w[i] == v
    ensures MaxOf(w) == v
  {
    assert MaxOf(w) in w;
  }

  /** At a guarded barrier the clocks are already level, so raising changes nothing. */
  lemma GuardedGate(g: Graph, c0: Counts, k: nat, d: nat)
    requires Valid(g) && k < |g.ops| && g.ops[k].group > 0 && Guarded(g.devices, g.ops, k) && d < g.devices
    ensures Gate(g, c0, k, d) == Lockstep(g, c0, k)[d]
  {
    var c, size, lo := Lockstep(g, c0, k), g.ops[k].group, Lo(g.ops[k].group, d);
    PeersSymmetric(g, k, d, d);
    WindowsPartition(size, d, g.devices);
    forall e: nat | e < g.devices ensures c[e] == c[d] {
      GuardedLevel(g, c0, k, e, d);
      GuardedLevel(g, c0, k, d, e);
    }
    LevelMax(c[lo..lo + size], c[d]);
  }

  lemma PeerInLockstep(g: Graph, c0: Counts, s: State, d: nat, e: nat)
    requires Valid(g) && Shape(g, s) && Arrivals(g, s) && ReadyFlags(g, s)
    requires d < g.devices && e < g.devices && Enabled(g, s, d) && g.ops[s.pc[d]].group > 0
    requires !Opened(g, s, s.pc[d], d) && Peers(g.ops[s.pc[d]].group, d, e) && ClockOk(g, c0, s, e)
    ensures s.clock[e] == Lockstep(g, c0, s.pc[d])[e]
  {
    var k := s.pc[d];
    Gathered(g, s, d, e);
    assert s.pc[e] <= k;
    if s.pc[e] == k {
      PeersSymmetric(g, k, d, e);
      if Pending(g, s, k, e) { OpenedShared(g, s, k, e, d); }
    } else {
      GuardedLevel(g, c0, k, e, e);
    }
  }

  lemma GroupMaxAgrees(c: seq<Time>, c': seq<Time>, size: nat, d: nat)
    requires 0 < size && |c| == |c'| && |c| % size == 0 && d < |c|
    requires forall e: nat | e < |c| && Peers(size, d, e) :: c[e] == c'[e]
    ensures GroupMax(c, size, d) == GroupMax(c', size, d)
  {
    var lo := Lo(size, d);
    WindowsPartition(size, d, |c|);
    assert c[lo..lo + size] == c'[lo..lo + size];
  }

  /** Before the first device passes, the clocks of its window are in lockstep. */
  lemma WindowInLockstep(g: Graph, c0: Counts, s: State, d: nat)
    requires Valid(g) && Shape(g, s) && Arrivals(g, s) && ReadyFlags(g, s) && Clocks(g, c0, s)
    requires d < g.devices && Enabled(g, s, d) && g.ops[s.pc[d]].group > 0 && !Opened(g, s, s.pc[d], d)
    ensures g.devices % g.ops[s.pc[d]].group == 0
    ensures GroupMax(s.clock, g.ops[s.pc[d]].group, d) == Gate(g, c0, s.pc[d], d)
  {
    PeersSymmetric(g, s.pc[d], d, d);
    var c := Lockstep(g, c0, s.pc[d]);
    forall e: nat | e < g.devices && Peers(g.ops[s.pc[d]].group, d, e) ensures s.clock[e] == c[e] {
      assert ClockOk(g, c0, s, e);
      PeerInLockstep(g, c0, s, d, e);
    }
    GroupMaxAgrees(s.clock, c, g.ops[s.pc[d]].group, d);
  }

  lemma CountsStable(g: Graph, c0: Counts, j: nat, k: nat)
    requires j <= k <= |g.ops| && forall i: nat | j <= i < k :: !Writes(g.ops, i)
    ensures CountsAfter(g, c0, j) == CountsAfter(g, c0, k)
    decreases k
  {
    if j < k { CountsStable(g, c0, j, k - 1); }
  }

  /** Devices 0 and d are never separated by a full barrier. */
  lemma NoneBeyond(g: Graph, s: State, h: nat, d: nat, e: nat)
    requires Valid(g) && Shape(g, s) && Arrivals(g, s) && d < g.devices && e < g.devices
    requires FullBarrier(g.devices, g.ops, h) && s.pc[d] > h
    ensures s.pc[e] >= h
  {
    PeersSymmetric(g, h, d, e);
    assert ArriveOk(g, s, h, d, e);
  }

  /** While a device stands at a reading step, no later write has happened. */
  lemma NoLaterWrite(g: Graph, s: State, d: nat, i: nat)
    requires Valid(g) && Shape(g, s) && Arrivals(g, s) && d < g.devices && Active(g, s, d) && Reads(g.ops, s.pc[d])
    requires s.pc[d] < i < s.pc[0]
    ensures !Writes(g.ops, i)
  {
    if Writes(g.ops, i) {
      assert OpOk(g.devices, g.ops, i);
      var h: nat :| Shields(g.devices, g.ops, h, i);
      NoneBeyond(g, s, h, 0, d);
    }
  }

  /** A reading step sees exactly the counts of its own layer: the write before
      it has happened and the next one cannot have. */
  lemma ReadSeesOwnLayer(g: Graph, c0: Counts, s: State, d: nat)
    requires Valid(g) && Shape(g, s) && Arrivals(g, s) && ReadyFlags(g, s) && s.counts == CountsAfter(g, c0, s.pc[0])
    requires d < g.devices && Enabled(g, s, d) && Reads(g.ops, s.pc[d])
    ensures s.counts == g.routed(g.ops[s.pc[d]].effect.layer) == CountsAfter(g, c0, s.pc[d])
  {
    var k, p := s.pc[d], s.pc[0];
    assert OpOk(g.devices, g.ops, k);
    var w: nat, b: nat :| Brackets(g.devices, g.ops, w, b, k);
    if b == k {
      PeersSymmetric(g, b, d, 0);
      assert ReadyOk(g, s, 0) && b in s.ready[0];
    } else {
      NoneBeyond(g, s, b, d, 0);
    }
    forall i: nat | w + 1 <= i < p ensures !Writes(g.ops, i) {
      if i > k { NoLaterWrite(g, s, d, i); }
    }
    CountsStable(g, c0, w + 1, p);
    CountsStable(g, c0, w + 1, k);
  }

  /** How one step changes which barriers are open. */
  lemma OpenedNext(g: Graph, s: State, d: nat, j: nat, f: nat)
    requires Valid(g) && Shape(g, s) && d < g.devices && Enabled(g, s, d)
    requires j < |g.ops| && g.ops[j].group > 0 && f < g.devices
    ensures Opened(g, Next(g, s, d), j, f) <==>
            Opened(g, s, j, f) || (j == s.pc[d] && Peers(g.ops[j].group, f, d))
  {
    var t := Next(g, s, d);
    assert t.pc == s.pc[d := s.pc[d] + 1];
    if Opened(g, t, j, f) {
      var e: nat :| e < g.devices && Peers(g.ops[j].group, f, e) && t.pc[e] > j;
      if e != d { assert s.pc[e] > j; }
    }
    if Opened(g, s, j, f) {
      var e: nat :| e < g.devices && Peers(g.ops[j].group, f, e) && s.pc[e] > j;
      assert t.pc[e] > j;
    }
  }

  lemma ArrivalsKept(g: Graph, s: State, d: nat)
    requires Valid(g) && Shape(g, s) && Arrivals(g, s) && ReadyFlags(g, s) && d < g.devices && Enabled(g, s, d)
    ensures Arrivals(g, Next(g, s, d)) && ReadyFlags(g, Next(g, s, d))
  {
    var t := Next(g, s, d);
    assert t.pc == s.pc[d := s.pc[d] + 1] && t.ready == s.ready[d := s.ready[d] + {s.pc[d] + 1}];
    forall k: nat, a: nat, e: nat ensures ArriveOk(g, t, k, a, e) {
      assert ArriveOk(g, s, k, a, e);
      if a == d && k == s.pc[d] && e < g.devices { assert ReadyOk(g, s, e); }
    }
    forall e: nat | e < g.devices ensures ReadyOk(g, t, e) { assert ReadyOk(g, s, e); }
  }

  /** A step of d clears d's own flag; the first one through flags its peers. */
  ghost predicate Raising(g: Graph, s: State, d: nat)
    requires Shape(g, s) && d < g.devices && Active(g, s, d)
  {
    g.ops[s.pc[d]].group > 0 && !Opened(g, s, s.pc[d], d)
  }

  lemma PendingNext(g: Graph, s: State, d: nat, j: nat, f: nat)
    requires Valid(g) && Shape(g, s) && d < g.devices && Enabled(g, s, d) && f < g.devices
    ensures Pending(g, Next(g, s, d), j, f) <==>
            if f == d then j != s.pc[d] && Pending(g, s, j, f)
            else Pending(g, s, j, f) || (j == s.pc[d] && Raising(g, s, d) && Peers(g.ops[j].group, d, f))
  {
    if j < |g.ops| && g.ops[j].group > 0 {
      OpenedNext(g, s, d, j, f);
      PeersSymmetric(g, j, d, f);
      if Peers(g.ops[j].group, d, f) {
        if Opened(g, s, j, d) { OpenedShared(g, s, j, d, f); }
        if s.pc[f] > j { assert Opened(g, s, j, d); }
      }
    }
  }

  lemma SyncedNext(g: Graph, s: State, d: nat, f: nat)
    requires Valid(g) && Shape(g, s) && Arrivals(g, s) && SyncFlags(g, s) && d < g.devices && Enabled(g, s, d) && f < g.devices
    ensures Next(g, s, d).synced[f] ==
            var op := g.ops[s.pc[d]];
            if f == d then if op.group > 0 then s.synced[f] - {op.input} else s.synced[f]
            else if Raising(g, s, d) && Peers(op.group, d, f) then s.synced[f] + {op.input} else s.synced[f]
  {
    if g.ops[s.pc[d]].group > 0 { FlagMeansOpened(g, s, d); }
  }

  lemma FlagSetRight(g: Graph, s: State, d: nat, f: nat, x: nat)
    requires Valid(g) && Shape(g, s) && Arrivals(g, s) && SyncFlags(g, s) && d < g.devices && Enabled(g, s, d) && f < g.devices
    requires x in Next(g, s, d).synced[f]
    ensures exists j: nat :: Pending(g, Next(g, s, d), j, f) && g.ops[j].input == x
  {
    SyncedNext(g, s, d, f);
    assert FlagOk(g, s, f, x);
    if x in s.synced[f] {
      var j: nat :| Pending(g, s, j, f) && g.ops[j].input == x;
      PendingNext(g, s, d, j, f);
    } else {
      PendingNext(g, s, d, s.pc[d], f);
    }
  }

  lemma FlagClearRight(g: Graph, s: State, d: nat, f: nat, j: nat)
    requires Valid(g) && Shape(g, s) && Arrivals(g, s) && SyncFlags(g, s) && d < g.devices && Enabled(g, s, d) && f < g.devices
    requires Pending(g, Next(g, s, d), j, f)
    ensures g.ops[j].input in Next(g, s, d).synced[f]
  {
    SyncedNext(g, s, d, f);
    PendingNext(g, s, d, j, f);
    assert FlagOk(g, s, f, g.ops[j].input);
    if f == d { PendingIsNear(g, s, j, f); }
  }

  lemma FlagsKept(g: Graph, s: State, d: nat)
    requires Valid(g) && Shape(g, s) && Arrivals(g, s) && SyncFlags(g, s) && d < g.devices && Enabled(g, s, d)
    ensures SyncFlags(g, Next(g, s, d))
  {
    var t := Next(g, s, d);
    forall f: nat, x: nat | f < g.devices
      ensures FlagOk(g, t, f, x)
    {
      if x in t.synced[f] { FlagSetRight(g, s, d, f, x); }
      forall j: nat | Pending(g, t, j, f) && g.ops[j].input == x ensures x in t.synced[f] { FlagClearRight(g, s, d, f, j); }
    }
  }

  lemma RaisesKept(g: Graph, s: State, d: nat)
    requires Valid(g) && Shape(g, s) && Arrivals(g, s) && SyncFlags(g, s) && RaisedOnce(g, s) && d < g.devices && Enabled(g, s, d)
    ensures RaisedOnce(g, Next(g, s, d))
  {
    var t, k := Next(g, s, d), s.pc[d];
    if g.ops[k].group > 0 { FlagMeansOpened(g, s, d); }
    assert t.raises == if Raising(g, s, d) then s.raises + multiset{(k, Lo(g.ops[k].group, d))} else s.raises;
    forall j: nat, f: nat | j < |g.ops| && g.ops[j].group > 0 && f < g.devices
      ensures RaisedOk(g, t, j, f)
    {
      assert RaisedOk(g, s, j, f);
      OpenedNext(g, s, d, j, f);
      PeersSymmetric(g, j, d, f);
      if j == k && Peers(g.ops[k].group, d, f) {
        if Opened(g, s, k, d) { OpenedShared(g, s, k, d, f); }
        if Opened(g, s, k, f) { OpenedShared(g, s, k, f, d); }
      }
    }
  }

  /** The clock of the stepping device once it has been synchronised. */
  lemma OwnGate(g: Graph, c0: Counts, s: State, d: nat)
    requires Inv(g, c0, s) && d < g.devices && Enabled(g, s, d)
    ensures Synced(g, s, d).clock[d] == Gate(g, c0, s.pc[d], d)
  {
    var k := s.pc[d];
    assert ClockOk(g, c0, s, d);
    if g.ops[k].group > 0 {
      FlagMeansOpened(g, s, d);
      if !Opened(g, s, k, d) { WindowInLockstep(g, c0, s, d); }
    }
  }

  lemma OwnClock(g: Graph, c0: Counts, s: State, d: nat)
    requires Inv(g, c0, s) && d < g.devices && Enabled(g, s, d)
    ensures Next(g, s, d).clock[d] == Lockstep(g, c0, s.pc[d] + 1)[d]
  {
    OwnGate(g, c0, s, d);
    if Reads(g.ops, s.pc[d]) { ReadSeesOwnLayer(g, c0, s, d); }
    assert Cost(g, s.pc[d], d, s.counts) == Cost(g, s.pc[d], d, CountsAfter(g, c0, s.pc[d]));
  }

  /** If the next barrier is already open, it is a guarded one. */
  lemma OwnNextGate(g: Graph, c0: Counts, s: State, d: nat)
    requires Valid(g) && Shape(g, s) && Arrivals(g, s) && d < g.devices && Enabled(g, s, d)
    requires Pending(g, Next(g, s, d), s.pc[d] + 1, d)
    ensures Gate(g, c0, s.pc[d] + 1, d) == Lockstep(g, c0, s.pc[d] + 1)[d]
  {
    PendingNext(g, s, d, s.pc[d] + 1, d);
    PendingIsNear(g, s, s.pc[d] + 1, d);
    GuardedGate(g, c0, s.pc[d] + 1, d);
  }

  lemma GateShared(g: Graph, c0: Counts, k: nat, d: nat, f: nat)
    requires Valid(g) && k < |g.ops| && g.ops[k].group > 0 && d < g.devices && f < g.devices && Peers(g.ops[k].group, d, f)
    ensures Gate(g, c0, k, d) == Gate(g, c0, k, f)
    ensures Guarded(g.devices, g.ops, k) ==> Gate(g, c0, k, d) == Gate(g, c0, k - 1, f)
  {
    PeersSymmetric(g, k, d, f);
    if Guarded(g.devices, g.ops, k) { GuardedShared(g, c0, k, d, f); }
  }

  lemma GuardedShared(g: Graph, c0: Counts, k: nat, d: nat, f: nat)
    requires Valid(g) && k < |g.ops| && g.ops[k].group > 0 && Guarded(g.devices, g.ops, k) && d < g.devices && f < g.devices
    ensures Gate(g, c0, k, d) == Gate(g, c0, k - 1, f)
  {
    assert Gate(g, c0, k, d) == Lockstep(g, c0, k)[d] by { GuardedGate(g, c0, k, d); }
    GuardedLevel(g, c0, k, d, f);
  }

  lemma PeerPosition(g: Graph, s: State, d: nat, f: nat)
    requires Valid(g) && Shape(g, s) && Arrivals(g, s) && ReadyFlags(g, s) && d < g.devices && Enabled(g, s, d) && f < g.devices && f != d
    requires Raising(g, s, d) && Peers(g.ops[s.pc[d]].group, d, f)
    ensures Pending(g, Next(g, s, d), s.pc[f], f)
    ensures s.pc[f] == s.pc[d] || (Guarded(g.devices, g.ops, s.pc[d]) && s.pc[f] == s.pc[d] - 1)
  {
    PeersSymmetric(g, s.pc[d], d, f);
    Gathered(g, s, d, f);
    PendingNext(g, s, d, s.pc[f], f);
    assert s.pc[f] <= s.pc[d];
  }

  lemma PeerClock(g: Graph, c0: Counts, s: State, d: nat, f: nat)
    requires Inv(g, c0, s) && d < g.devices && Enabled(g, s, d) && f < g.devices && f != d
    requires Raising(g, s, d) && Peers(g.ops[s.pc[d]].group, d, f)
    ensures Next(g, s, d).clock[f] == Gate(g, c0, s.pc[d], d)
  {
    FlagMeansOpened(g, s, d);
    WindowInLockstep(g, c0, s, d);
  }

  /** A device the step neither runs nor raises keeps its clock and its gate. */
  lemma OtherClock(g: Graph, c0: Counts, s: State, d: nat, f: nat)
    requires Valid(g) && Shape(g, s) && Arrivals(g, s) && SyncFlags(g, s)
    requires d < g.devices && Enabled(g, s, d) && f < g.devices && f != d && ClockOk(g, c0, s, f)
    requires !(Raising(g, s, d) && Peers(g.ops[s.pc[d]].group, d, f))
    ensures ClockOk(g, c0, Next(g, s, d), f)
  {
    if g.ops[s.pc[d]].group > 0 { FlagMeansOpened(g, s, d); }
    PendingNext(g, s, d, s.pc[f], f);
    assert Next(g, s, d).clock[f] == s.clock[f] && Next(g, s, d).pc[f] == s.pc[f];
  }

  lemma OwnClockOk(g: Graph, c0: Counts, s: State, d: nat)
    requires Valid(g) && Shape(g, s) && Arrivals(g, s) && d < g.devices && Enabled(g, s, d)
    requires Next(g, s, d).clock[d] == Lockstep(g, c0, s.pc[d] + 1)[d]
    ensures ClockOk(g, c0, Next(g, s, d), d)
  {
    assert Next(g, s, d).pc[d] == s.pc[d] + 1;
    if Pending(g, Next(g, s, d), s.pc[d] + 1, d) { OwnNextGate(g, c0, s, d); }
  }

  lemma PeerClockOk(g: Graph, c0: Counts, s: State, d: nat, f: nat)
    requires Valid(g) && Shape(g, s) && Arrivals(g, s) && ReadyFlags(g, s)
    requires d < g.devices && Enabled(g, s, d) && f < g.devices && f != d
    requires Raising(g, s, d) && Peers(g.ops[s.pc[d]].group, d, f)
    requires Next(g, s, d).clock[f] == Gate(g, c0, s.pc[d], d)
    ensures ClockOk(g, c0, Next(g, s, d), f)
  {
    PeerPosition(g, s, d, f);
    GateShared(g, c0, s.pc[d], d, f);
    assert Next(g, s, d).pc[f] == s.pc[f];
  }

  lemma ClockKept(g: Graph, c0: Counts, s: State, d: nat, f: nat)
    requires Inv(g, c0, s) && d < g.devices && Enabled(g, s, d) && f < g.devices
    ensures ClockOk(g, c0, Next(g, s, d), f)
  {
    if f == d {
      OwnClock(g, c0, s, d);
      OwnClockOk(g, c0, s, d);
    } else if Raising(g, s, d) && Peers(g.ops[s.pc[d]].group, d, f) {
      PeerClock(g, c0, s, d, f);
      PeerClockOk(g, c0, s, d, f);
    } else {
      assert ClockOk(g, c0, s, f);
      OtherClock(g, c0, s, d, f);
    }
  }

  lemma StepKeepsInv(g: Graph, c0: Counts, s: State, d: nat)
    requires Inv(g, c0, s) && d < g.devices
    ensures Inv(g, c0, Next(g, s, d))
  {
    if Enabled(g, s, d) {
      ArrivalsKept(g, s, d);
      FlagsKept(g, s, d);
      RaisesKept(g, s, d);
      forall f: nat | f < g.devices ensures ClockOk(g, c0, Next(g, s, d), f) { ClockKept(g, c0, s, d, f); }
    }
  }

  // ----- Whole runs -----

  /** A run: the devices that take a step, in order. */
  ghost function Exec(g: Graph, s: State, sched: seq<nat>): (t: State)
    requires Valid(g) && Shape(g, s) && forall i | 0 <= i < |sched| :: sched[i] < g.devices
    ensures Shape(g, t)
  {
    if sched == [] then s else Next(g, Exec(g, s, sched[..|sched| - 1]), sched[|sched| - 1])
  }

  lemma InitInv(g: Graph, c0: Counts)
    requires Valid(g)
    ensures Inv(g, c0, Init(g, c0))
  {
    var s := Init(g, c0);
    forall k: nat, d: nat | d < g.devices ensures !Pending(g, s, k, d) {}
    forall d: nat | d < g.devices ensures ClockOk(g, c0, s, d) {}
  }

  lemma {:induction false} RunInv(g: Graph, c0: Counts, s: State, sched: seq<nat>)
    requires Inv(g, c0, s) && forall i | 0 <= i < |sched| :: sched[i] < g.devices
    ensures Inv(g, c0, Exec(g, s, sched))
  {
    if sched != [] {
      RunInv(g, c0, s, sched[..|sched| - 1]);
      StepKeepsInv(g, c0, Exec(g, s, sched[..|sched| - 1]), sched[|sched| - 1]);
    }
  }

  /** Every state some schedule reaches from the start. */
  ghost predicate Reachable(g: Graph, c0: Counts, s: State) {
    && Valid(g) && Shape(g, s)
    && exists sched: seq<nat> :: (forall i | 0 <= i < |sched| :: sched[i] < g.devices) && s == Exec(g, Init(g, c0), sched)
  }

  lemma ReachableInv(g: Graph, c0: Counts, s: State)
    requires Reachable(g, c0, s)
    ensures Inv(g, c0, s)
  {
    var sched: seq<nat> :| (forall i | 0 <= i < |sched| :: sched[i] < g.devices) && s == Exec(g, Init(g, c0), sched);
    InitInv(g, c0);
    RunInv(g, c0, Init(g, c0), sched);
  }

  /** The barrier protocol, in every reachable state of a barrier k with a fresh
      input: nobody has passed before all arrived, the window was raised exactly
      once when it opened, and exactly the members still waiting are flagged. */
  lemma BarrierProtocol(g: Graph, c0: Counts, s: State, k: nat, d: nat, e: nat)
    requires Reachable(g, c0, s)
    requires k < |g.ops| && g.ops[k].group > 0 && g.ops[k].input == k
    requires d < g.devices && e < g.devices && Peers(g.ops[k].group, d, e)
    ensures s.pc[d] > k ==> s.pc[e] >= k
    ensures s.raises[(k, Lo(g.ops[k].group, d))] == if Opened(g, s, k, d) then 1 else 0
    ensures s.pc[d] == k ==> (k in s.synced[d] <==> Opened(g, s, k, d))
    ensures s.pc[d] == k && Opened(g, s, k, d) ==> s.clock[d] == Gate(g, c0, k, d)
    ensures s.pc[d] > k && s.pc[e] == k ==> k in s.synced[e]
  {
    ReachableInv(g, c0, s);
    assert ArriveOk(g, s, k, d, e) && RaisedOk(g, s, k, d);
    BarrierFlags(g, s, k, d, e);
    WaitingClock(g, c0, s, k, d);
  }

  lemma WaitingClock(g: Graph, c0: Counts, s: State, k: nat, d: nat)
    requires Valid(g) && Shape(g, s) && Clocks(g, c0, s) && k < |g.ops| && g.ops[k].group > 0 && d < g.devices
    ensures s.pc[d] == k && Opened(g, s, k, d) ==> s.clock[d] == Gate(g, c0, k, d)
  {
    assert ClockOk(g, c0, s, d);
  }

  lemma BarrierFlags(g: Graph, s: State, k: nat, d: nat, e: nat)
    requires Valid(g) && Shape(g, s) && Arrivals(g, s) && SyncFlags(g, s)
    requires k < |g.ops| && g.ops[k].group > 0 && g.ops[k].input == k
    requires d < g.devices && e < g.devices && Peers(g.ops[k].group, d, e)
    ensures s.pc[d] == k ==> (k in s.synced[d] <==> Opened(g, s, k, d))
    ensures s.pc[d] > k && s.pc[e] == k ==> k in s.synced[e]
  {
    if s.pc[d] == k { FlagMeansOpened(g, s, d); }
    if s.pc[e] == k { FlagMeansOpened(g, s, e); PeersSymmetric(g, k, d, e); }
  }

  /** The first device through sees its whole window at the barrier and raises
      it to the maximum of the arrival clocks; a later one changes no other clock. */
  lemma FirstRaisesOthersConsume(g: Graph, c0: Counts, s: State, d: nat, e: nat)
    requires Reachable(g, c0, s) && d < g.devices && e < g.devices && e != d
    requires Enabled(g, s, d) && g.ops[s.pc[d]].group > 0 && g.ops[s.pc[d]].input == s.pc[d]
    ensures !Opened(g, s, s.pc[d], d) && Peers(g.ops[s.pc[d]].group, d, e) ==>
              && s.pc[e] == s.pc[d]
              && s.clock[e] <= Next(g, s, d).clock[e] == Gate(g, c0, s.pc[d], d)
              && s.pc[d] in Next(g, s, d).synced[e]
    ensures Opened(g, s, s.pc[d], d) || !Peers(g.ops[s.pc[d]].group, d, e) ==>
              Next(g, s, d).clock[e] == s.clock[e] && Next(g, s, d).synced[e] == s.synced[e]
    ensures s.pc[d] !in Next(g, s, d).synced[d]
  {
    ReachableInv(g, c0, s);
    FlagMeansOpened(g, s, d);
    SyncedNext(g, s, d, d);
    SyncedNext(g, s, d, e);
    if !Opened(g, s, s.pc[d], d) && Peers(g.ops[s.pc[d]].group, d, e) {
      Gathered(g, s, d, e);
      PeerClock(g, c0, s, d, e);
      RaiseCovers(g, s, d, e);
    }
  }

  lemma RaiseCovers(g: Graph, s: State, d: nat, e: nat)
    requires Valid(g) && Shape(g, s) && d < g.devices && e < g.devices && Active(g, s, d)
    requires g.ops[s.pc[d]].group > 0 && Peers(g.ops[s.pc[d]].group, d, e)
    ensures g.devices % g.ops[s.pc[d]].group == 0
    ensures s.clock[e] <= GroupMax(s.clock, g.ops[s.pc[d]].group, d)
  {
    var size, lo := g.ops[s.pc[d]].group, Lo(g.ops[s.pc[d]].group, d);
    PeersSymmetric(g, s.pc[d], d, e);
    WindowsPartition(size, d, g.devices);
    assert s.clock[lo..lo + size][e - lo] == s.clock[e];
  }

  /** No device ever reads counts of another layer, whatever the polling order. */
  lemma ReadsNeverStale(g: Graph, c0: Counts, s: State, d: nat)
    requires Reachable(g, c0, s) && d < g.devices && Enabled(g, s, d) && Reads(g.ops, s.pc[d])
    ensures s.counts == g.routed(g.ops[s.pc[d]].effect.layer)
  {
    ReachableInv(g, c0, s);
    ReadSeesOwnLayer(g, c0, s, d);
  }

  ghost predicate AllPast(g: Graph, s: State, m: nat)
    requires Shape(g, s)
  {
    forall d: nat | d < g.devices :: s.pc[d] >= m
  }

  /** The device furthest behind is never blocked. */
  lemma LaggardMoves(g: Graph, c0: Counts, s: State, d: nat)
    requires Inv(g, c0, s) && d < g.devices && Active(g, s, d) && AllPast(g, s, s.pc[d])
    ensures Enabled(g, s, d)
  {
    assert OpOk(g.devices, g.ops, s.pc[d]);
    forall e: nat | e < g.devices ensures g.ops[s.pc[d]].input in s.ready[e] { assert ReadyOk(g, s, e); }
  }

  /** A round polls every device, in any order and any number of times. */
  ghost predicate Round(g: Graph, r: seq<nat>) {
    && (forall i | 0 <= i < |r| :: r[i] < g.devices)
    && forall d: nat | d < g.devices :: d in r
  }

  lemma StepProgress(g: Graph, c0: Counts, s: State, m: nat, d: nat)
    requires Inv(g, c0, s) && m < |g.ops| && AllPast(g, s, m) && d < g.devices
    ensures AllPast(g, Next(g, s, d), m) && Next(g, s, d).pc[d] > m
    ensures forall e: nat | e < g.devices :: Next(g, s, d).pc[e] >= s.pc[e]
  {
    if s.pc[d] == m { LaggardMoves(g, c0, s, d); }
  }

  lemma {:induction false} RoundProgress(g: Graph, c0: Counts, s: State, m: nat, r: seq<nat>)
    requires Inv(g, c0, s) && m < |g.ops| && AllPast(g, s, m) && forall i | 0 <= i < |r| :: r[i] < g.devices
    ensures AllPast(g, Exec(g, s, r), m) && forall i | 0 <= i < |r| :: Exec(g, s, r).pc[r[i]] > m
  {
    if r != [] {
      var r' := r[..|r| - 1];
      RoundProgress(g, c0, s, m, r');
      RunInv(g, c0, s, r');
      StepProgress(g, c0, Exec(g, s, r'), m, r[|r| - 1]);
    }
  }

  ghost function Rounds(g: Graph, s: State, rs: seq<seq<nat>>): (t: State)
    requires Valid(g) && Shape(g, s) && forall i | 0 <= i < |rs| :: Round(g, rs[i])
    ensures Shape(g, t)
  {
    if rs == [] then s
    else assert Round(g, rs[|rs| - 1]); Exec(g, Rounds(g, s, rs[..|rs| - 1]), rs[|rs| - 1])
  }

  /** Termination: as many rounds as there are steps finish every device. */
  lemma {:induction false} RoundsFinish(g: Graph, c0: Counts, rs: seq<seq<nat>>)
    requires Valid(g) && |rs| <= |g.ops| && forall i | 0 <= i < |rs| :: Round(g, rs[i])
    ensures var s := Rounds(g, Init(g, c0), rs); Inv(g, c0, s) && AllPast(g, s, |rs|)
  {
    if rs == [] {
      InitInv(g, c0);
    } else {
      RoundsFinish(g, c0, rs[..|rs| - 1]);
      var s := Rounds(g, Init(g, c0), rs[..|rs| - 1]);
      RoundProgress(g, c0, s, |rs| - 1, rs[|rs| - 1]);
      RunInv(g, c0, s, rs[|rs| - 1]);
      forall d: nat | d < g.devices ensures Rounds(g, Init(g, c0), rs).pc[d] >= |rs| { assert d in rs[|rs| - 1]; }
    }
  }

  ghost predicate Finished(g: Graph, s: State) {
    Shape(g, s) && forall d: nat | d < g.devices :: s.pc[d] == |g.ops|
  }

  /** Every finished run has the clocks of the lockstep schedule, no flag left
      and each window raised exactly once: the polling order leaves no trace. */
  lemma FinalIsLockstep(g: Graph, c0: Counts, s: State)
    requires Inv(g, c0, s) && Finished(g, s)
    ensures s.clock == Lockstep(g, c0, |g.ops|)
    ensures forall d: nat | d < g.devices :: s.synced[d] == {}
    ensures s.counts == CountsAfter(g, c0, |g.ops|)
    ensures forall k: nat, d: nat | k < |g.ops| && g.ops[k].group > 0 && d < g.devices ::
              s.raises[(k, Lo(g.ops[k].group, d))] == 1
  {
    forall k: nat, d: nat | k < |g.ops| && g.ops[k].group > 0 && d < g.devices
      ensures s.raises[(k, Lo(g.ops[k].group, d))] == 1
    {
      assert RaisedOk(g, s, k, d) && Peers(g.ops[k].group, d, d) && s.pc[d] > k;
    }
    forall d: nat, t: nat | d < g.devices ensures t !in s.synced[d] { assert FlagOk(g, s, d, t); }
    forall d: nat | d < g.devices ensures s.clock[d] == Lockstep(g, c0, |g.ops|)[d] { assert ClockOk(g, c0, s, d); }
  }

  /** Two complete runs agree on everything a caller can see. */
  lemma Confluence(g: Graph, c0: Counts, s: State, t: State)
    requires Inv(g, c0, s) && Inv(g, c0, t) && Finished(g, s) && Finished(g, t)
    ensures (s.pc, s.clock, s.ready, s.synced, s.counts) == (t.pc, t.clock, t.ready, t.synced, t.counts)
  {
    FinalIsLockstep(g, c0, s);
    FinalIsLockstep(g, c0, t);
    forall d: nat | d < g.devices ensures s.ready[d] == t.ready[d] && s.synced[d] == t.synced[d] {
      assert ReadyOk(g, s, d) && ReadyOk(g, t, d);
    }
    assert s.pc == t.pc && s.ready == t.ready && s.synced == t.synced;
  }
}

/** The scheduler as the driver calls it: queue, batches and rotation changed in
    place. Every method is tied to the step functions of Batching. */
module SchedulerRun {
  import opened Batching
  import opened BatchingProofs
  import opened BatchingRuns

  /** The batch without any request `id`. */
  function Without(b: Batch, id: nat): Batch {
    if b == [] then []
    else Without(b[..|b| - 1], id) + if b[|b| - 1].id == id then [] else [b[|b| - 1]]
  }

  /** What one request leaves in its batch, and what of it is returned. */
  function Stays(r: Request): seq<Request> { if r.Done() then [] else [Mark(r)] }

  function Given(r: Request): seq<Request> { if Emits(r) then [Mark(r)] else [] }

  ghost predicate DistinctIds(b: Batch) {
    forall id: nat :: Sum(b, Counting(id)) <= 1
  }

  class Scheduler {
    const c: Config
    var queue: seq<Request>
    var running: seq<Batch>
    var rotate: nat
    var now: Time
    var nextId: nat

    ghost function St(): State
      reads this
    {
      State(queue, running, rotate, now, nextId)
    }

    constructor (c: Config, ranks: nat)
      ensures this.c == c && St() == State([], seq(ranks, i => []), 0, 0.0, 0)
    {
      this.c := c;
      queue, running, rotate, now, nextId := [], seq(ranks, i => []), 0, 0.0, 0;
    }

    method GetSums(i: nat) returns (n: nat)
      requires i < |running|
      ensures n == Sums(running[i])
    {
      n := 0;
      for j := 0 to |running[i]|
        invariant n == Sums(running[i][..j])
      {
        assert running[i][..j + 1][..j] == running[i][..j];
        if running[i][j].Prefilling() { n := n + 1; }
      }
      assert running[i][..|running[i]|] == running[i];
    }

    method HasSumSeq() returns (has: bool)
      ensures has == HasSum(running)
    {
      for i := 0 to |running|
        invariant forall k | 0 <= k < i :: Sums(running[k]) == 0
      {
        var n := GetSums(i);
        if n != 0 { return true; }
      }
      return false;
    }

    /** Plan one batch: decode requests get one token, prefilling ones a share. */
    method PlanRank(i: nat, prefill: bool)
      requires i < |running|
      modifies `running
      ensures running == old(running)[i := PlanBatch(c, old(running)[i], prefill, now)]
    {
      var n := GetSums(i);
      var share := if n == 0 then 0 else c.budget / n;
      var b := running[i];
      for j := 0 to |b|
        invariant |running| == |old(running)| && |running[i]| == |b|
        invariant forall k | 0 <= k < |running| && k != i :: running[k] == old(running)[k]
        invariant forall k | 0 <= k < |b| :: running[i][k] == if k < j then Schedule(b[k], share, prefill, now) else b[k]
      {
        running := running[i := running[i][j := Schedule(running[i][j], share, prefill, now)]];
      }
      assert running[i] == PlanBatch(c, b, prefill, now);
    }

    method SetMetadata()
      modifies `running
      ensures running == Plan(c, old(running), now)
    {
      var prefill := HasSumSeq();
      for i := 0 to |running|
        invariant |running| == |old(running)|
        invariant forall k | 0 <= k < |running| ::
          running[k] == if k < i then PlanBatch(c, old(running)[k], prefill, now) else old(running)[k]
      {
        PlanRank(i, prefill);
      }
    }

    /** Run the pending tokens of one batch. */
    method UpdateRank(i: nat, time: Time)
      requires i < |running|
      modifies `running
      ensures running == old(running)[i := UpdateBatch(old(running)[i], time)]
    {
      var b := running[i];
      for j := 0 to |b|
        invariant |running| == |old(running)| && |running[i]| == |b|
        invariant forall k | 0 <= k < |running| && k != i :: running[k] == old(running)[k]
        invariant forall k | 0 <= k < |b| :: running[i][k] == if k < j then Update(b[k], time) else b[k]
      {
        running := running[i := running[i][j := Update(running[i][j], time)]];
      }
      assert running[i] == UpdateBatch(b, time);
    }

    /** Remove every request of the batch that has the id. */
    method Pop(i: nat, id: nat)
      requires i < |running|
      modifies `running
      ensures running == old(running)[i := Without(old(running)[i], id)]
    {
      var b, rest := running[i], [];
      for j := 0 to |b|
        invariant rest == Without(b[..j], id)
      {
        assert b[..j + 1][..j] == b[..j];
        if b[j].id != id { rest := rest + [b[j]]; }
      }
      assert b[..|b|] == b;
      running := running[i := rest];
    }

    /** Settle the request at position `at`: pop it by id and return it when it is
        done, return and mark it when its first token is out. */
    method SettleOne(i: nat, at: nat) returns (out: seq<Request>)
      requires i < |running| && at < |running[i]| && Sum(running[i], Counting(running[i][at].id)) <= 1
      modifies `running
      ensures var b := old(running)[i];
        && running == old(running)[i := b[..at] + Stays(b[at]) + b[at + 1..]]
        && out == Given(b[at])
    {
      var b, r := running[i], running[i][at];
      out := [];
      if r.Done() {
        assert b == b[..at] + [r] + b[at + 1..];
        PopOne(b[..at], r, b[at + 1..]);
        Pop(i, r.id);
        out := [r];
        assert b[..at] + Stays(r) + b[at + 1..] == b[..at] + b[at + 1..];
      } else {
        if r.current == r.input {
          if !r.record { out := [r.(record := true)]; }
          running := running[i := running[i][at := r.(record := true)]];
        }
        assert running[i] == b[..at] + Stays(r) + b[at + 1..];
      }
    }

    /** Settle a whole batch. The loop goes over a copy while requests are popped. */
    method SettleRank(i: nat) returns (out: seq<Request>)
      requires i < |running| && DistinctIds(running[i])
      modifies `running
      ensures running == old(running)[i := Kept(old(running)[i])]
      ensures out == Out(old(running)[i])
    {
      ghost var start := running;
      var b := running[i];
      out := [];
      SoFarEnds(b);
      for j := 0 to |b|
        invariant |running| == |start| && running == start[i := SoFar(b, j)]
        invariant out == Out(b[..j])
      {
        SettledSoFar(b, j);
        var at := |running[i]| - (|b| - j);
        var more := SettleOne(i, at);
        assert running == start[i := SoFar(b, j + 1)];
        out := out + more;
      }
    }

    method UpdateScheduler(time: Time) returns (out: seq<Request>)
      requires forall i | 0 <= i < |running| :: DistinctIds(running[i])
      modifies `running
      ensures running == KeptAll(old(running), time) && out == OutAll(old(running), time)
    {
      out := [];
      for i := 0 to |running|
        invariant |running| == |old(running)| && out == OutAll(old(running)[..i], time)
        invariant forall k | 0 <= k < |running| ::
          running[k] == if k < i then Kept(UpdateBatch(old(running)[k], time)) else old(running)[k]
      {
        assert old(running)[..i + 1][..i] == old(running)[..i];
        UpdateRank(i, time);
        UpdateIds(old(running)[i], time);
        var more := SettleRank(i);
        out := out + more;
      }
      assert old(running)[..|old(running)|] == old(running);
    }

    method GetBatchSize() returns (n: nat)
      ensures n == Size(running)
    {
      n := 0;
      for i := 0 to |running|
        invariant n == Size(running[..i])
      {
        assert running[..i + 1][..i] == running[..i];
        n := n + |running[i]|;
      }
      assert running[..|running|] == running;
    }

    /** Look for a rank with room for the head of the queue, from the rotation on. */
    method PlaceHead()
      requires |queue| > 0
      modifies `queue, `running, `rotate
      ensures St() == FillOnce(old(St()), c.perRank)
    {
      var r, i := queue[0], 0;
      while i < |running|
        invariant i <= |running| && queue == old(queue) && running == old(running)
        invariant Place(running, rotate, c.perRank, |running| - i, r) == Place(running, old(rotate), c.perRank, |running|, r)
      {
        var k := rotate % |running|;
        rotate := rotate + 1;
        if |running[k]| < c.perRank {
          queue := queue[1..];
          running := running[k := running[k] + [r]];
          return;
        }
        i := i + 1;
      }
    }

    method FillRunningQueue()
      modifies `queue, `running, `rotate
      ensures St() == FillRunning(c, old(St()))
    {
      var size := GetBatchSize();
      var empty := c.totalBatch - size;
      if empty > |queue| { empty := |queue|; }
      var i := 0;
      while i < empty
        invariant empty > 0 ==> 0 <= i <= empty && empty - i <= |queue| && empty <= |old(queue)|
        invariant empty > 0 ==> Fill(St(), c.perRank, empty - i) == Fill(old(St()), c.perRank, empty)
        invariant empty <= 0 ==> i == 0 && St() == old(St())
      {
        PlaceHead();
        i := i + 1;
      }
    }

    method FillSequenceQueue(arrivals: seq<Arrival>)
      modifies `queue, `nextId
      ensures St() == Enqueue(old(St()), arrivals)
    {
      for i := 0 to |arrivals|
        invariant St() == Enqueue(old(St()), arrivals[..i])
      {
        assert arrivals[..i + 1][..i] == arrivals[..i];
        queue := queue + [Admit(arrivals[i], nextId)];
        nextId := nextId + 1;
      }
      assert arrivals[..|arrivals|] == arrivals;
    }

    method GetNumProcessToken() returns (n: nat)
      ensures n == Total(running, Pending)
    {
      n := 0;
      for i := 0 to |running|
        invariant n == Total(running[..i], Pending)
      {
        assert running[..i + 1][..i] == running[..i];
        var b, m := running[i], 0;
        for j := 0 to |b|
          invariant m == Sum(b[..j], Pending)
        {
          assert b[..j + 1][..j] == b[..j];
          m := m + b[j].pending;
        }
        assert b[..|b|] == b;
        n := n + m;
      }
      assert running[..|running|] == running;
    }

    /** Record the time on every returned request. */
    method AddLatency(out: seq<Request>)
      modifies `running
      ensures running == StampAll(old(running), out, now)
    {
      for i := 0 to |running|
        invariant |running| == |old(running)|
        invariant forall k | 0 <= k < |running| :: running[k] == if k < i then Stamp(old(running)[k], out, now) else old(running)[k]
      {
        running := running[i := Stamp(running[i], out, now)];
      }
    }

    /** One step of the warm-up loop. */
    method HittingStep(arrivals: seq<Arrival>) returns (out: seq<Request>)
      requires Ok(c, St()) && StepOk(Warmup(arrivals))
      modifies this
      ensures Outcome(St(), out) == StepOf(c, old(St()), Warmup(arrivals)) && Ok(c, St())
    {
      PlannedIds(c, St());
      StepKeepsOk(c, St(), Warmup(arrivals));
      SetMetadata();
      out := UpdateScheduler(0.0);
      FillSequenceQueue(arrivals);
      FillRunningQueue();
    }

    /** The part of a measuring step that follows a plan with tokens to run. */
    method FinishIteration(time: Time, arrivals: seq<Arrival>) returns (out: seq<Request>)
      requires forall i | 0 <= i < |running| :: DistinctIds(running[i])
      modifies this
      ensures out == OutAll(old(running), time)
      ensures
        var stamped := StampAll(KeptAll(old(running), time), out, old(now) + time);
        St() == FillRunning(c, Enqueue(old(St()).(running := stamped, now := old(now) + time), arrivals))
    {
      now := now + time;
      out := UpdateScheduler(time);
      AddLatency(out);
      FillSequenceQueue(arrivals);
      FillRunningQueue();
    }

    /** One step of the measuring loop, whose iteration takes `time`. */
    method IterationStep(time: Time, arrivals: seq<Arrival>) returns (out: seq<Request>)
      requires Ok(c, St()) && StepOk(Iterate(time, arrivals))
      modifies this
      ensures Outcome(St(), out) == StepOf(c, old(St()), Iterate(time, arrivals)) && Ok(c, St())
    {
      PlannedIds(c, St());
      StepKeepsOk(c, St(), Iterate(time, arrivals));
      SetMetadata();
      var tokens := GetNumProcessToken();
      if tokens == 0 { return []; }
      out := FinishIteration(time, arrivals);
    }

    /** The driver: any sequence of warm-up and measuring steps. */
    method Drive(steps: seq<Step>) returns (out: seq<Request>)
      requires Ok(c, St()) && forall i | 0 <= i < |steps| :: StepOk(steps[i])
      modifies this
      ensures Outcome(St(), out) == Run(c, old(St()), steps) && Ok(c, St())
    {
      out := [];
      for i := 0 to |steps|
        invariant Outcome(St(), out) == Run(c, old(St()), steps[..i]) && Ok(c, St())
      {
        assert steps[..i + 1][..i] == steps[..i];
        var more;
        match steps[i] {
          case Warmup(arrivals) => more := HittingStep(arrivals);
          case Iterate(time, arrivals) => more := IterationStep(time, arrivals);
        }
        out := out + more;
      }
      assert steps[..|steps|] == steps;
    }
  }

  lemma {:induction false} KeptCount(b: Batch, id: nat)
    ensures Sum(Kept(b), Counting(id)) <= Sum(b, Counting(id))
  {
    if b != [] {
      KeptCount(b[..|b| - 1], id);
      SumAppend(Kept(b[..|b| - 1]), if b[|b| - 1].Done() then [] else [Mark(b[|b| - 1])], Counting(id));
    }
  }

  lemma SumThree(a: Batch, r: Request, b: Batch, f: Request -> nat)
    ensures Sum(a + [r] + b, f) == Sum(a, f) + f(r) + Sum(b, f)
  {
    SumAppend(a + [r], b, f);
    assert (a + [r])[..|a + [r]| - 1] == a;
  }

  /** The batch when the first j requests of the copy have been settled. */
  function SoFar(b: Batch, j: nat): Batch
    requires j <= |b|
  {
    Kept(b[..j]) + b[j..]
  }

  lemma SoFarEnds(b: Batch)
    ensures SoFar(b, 0) == b && SoFar(b, |b|) == Kept(b) && b[..|b|] == b && Out(b[..0]) == []
  {
    assert b[..0] == [] && b[..|b|] == b;
  }

  lemma SettledSoFar(b: Batch, j: nat)
    requires j < |b| && DistinctIds(b)
    ensures var x, at := SoFar(b, j), |SoFar(b, j)| - (|b| - j);
      && 0 <= at < |x| && x[at] == b[j] && Sum(x, Counting(b[j].id)) <= 1
      && x[..at] + Stays(b[j]) + x[at + 1..] == SoFar(b, j + 1)
    ensures Out(b[..j + 1]) == Out(b[..j]) + Given(b[j])
  {
    var k, id := Kept(b[..j]), b[j].id;
    assert b[..j + 1][..j] == b[..j];
    assert k + b[j..] == k + [b[j]] + b[j + 1..];
    assert b == b[..j] + [b[j]] + b[j + 1..];
    SumThree(k, b[j], b[j + 1..], Counting(id));
    SumThree(b[..j], b[j], b[j + 1..], Counting(id));
    KeptCount(b[..j], id);
    assert (k + b[j..])[|k| + 1..] == b[j + 1..];
  }

  lemma {:induction false} WithoutNone(b: Batch, id: nat)
    requires Sum(b, Counting(id)) == 0
    ensures Without(b, id) == b
  {
    if b != [] { WithoutNone(b[..|b| - 1], id); }
  }

  lemma {:induction false} WithoutAppend(a: Batch, b: Batch, id: nat)
    ensures Without(a + b, id) == Without(a, id) + Without(b, id)
  {
    if b == [] {
      assert a + b == a;
    } else {
      WithoutAppend(a, b[..|b| - 1], id);
      assert (a + b)[..|a + b| - 1] == a + b[..|b| - 1];
    }
  }

  /** Popping by id removes just the one request, since ids are unique. */
  lemma PopOne(a: Batch, r: Request, b: Batch)
    requires Sum(a + [r] + b, Counting(r.id)) <= 1
    ensures Without(a + [r] + b, r.id) == a + b
  {
    SumThree(a, r, b, Counting(r.id));
    WithoutAppend(a + [r], b, r.id);
    WithoutAppend(a, [r], r.id);
    WithoutNone(a, r.id);
    WithoutNone(b, r.id);
    var one := [r];
    assert one[..|one| - 1] == [];
  }

  lemma UpdateIds(b: Batch, time: Time)
    requires DistinctIds(b)
    ensures DistinctIds(UpdateBatch(b, time))
  {
    forall id: nat ensures Sum(UpdateBatch(b, time), Counting(id)) <= 1 {
      SumAgrees(UpdateBatch(b, time), b, Counting(id), Counting(id));
    }
  }

  /** Ids are unique within a batch, also after planning. */
  lemma PlannedIds(c: Config, s: State)
    requires Ok(c, s)
    ensures forall i | 0 <= i < |s.running| :: DistinctIds(Plan(c, s.running, s.now)[i])
  {
    forall i, id: nat | 0 <= i < |s.running| ensures Sum(Plan(c, s.running, s.now)[i], Counting(id)) <= 1 {
      SumAgrees(Plan(c, s.running, s.now)[i], s.running[i], Counting(id), Counting(id));
      assert IdOk(s, id);
      TotalRank(s.running, i, Counting(id));
    }
  }
}

/** When the scheduler starves nobody: the exact condition on the requests that may
    arrive and on the prefill budget, over every run from the empty scheduler. */
module BatchingFairness {
  import opened Batching
  import opened BatchingProofs
  import opened BatchingRuns
  import opened BatchingLiveness
  import Quotients

  /** The requests the scheduler accepts: some input, at least one output token (the
      total counts all but the last), and no more cached than the input. */
  predicate Accepted(a: Arrival) { 0 < a.input <= a.total && a.cached <= a.input }

  /** The scheduler as it is built: nothing waits and every batch is empty. */
  function Fresh(ranks: nat): State { State([], seq(ranks, _ => []), 0, 0.0, 0) }

  ghost predicate StepFrom(step: Step, accepts: Arrival -> bool) {
    forall i | 0 <= i < |step.arrivals| :: accepts(step.arrivals[i])
  }

  ghost predicate EnvFrom(env: nat -> Step, accepts: Arrival -> bool) {
    forall k: nat :: StepFrom(env(k), accepts)
  }

  /** Everything returned in the first n steps. */
  function Outs(c: Config, s: State, env: nat -> Step, n: nat): seq<Request> { Run(c, s, Prefix(env, n)).out }

  /** How much of f they hold. */
  function Counted(c: Config, s: State, env: nat -> Step, n: nat, f: Request -> nat): nat { Sum(Outs(c, s, env, n), f) }

  ghost predicate Completes(c: Config, s: State, env: nat -> Step, id: nat) {
    exists n: nat :: Counted(c, s, env, n, DoneOf(id)) >= 1
  }

  ghost predicate Present(c: Config, s: State, env: nat -> Step, m: nat, id: nat) {
    Owed(After(c, s, env, m), Counting(id)) >= 1
  }

  /** Whatever acceptable requests arrive, and whenever, each one that enters completes. */
  ghost predicate NeverStarves(c: Config, ranks: nat, accepts: Arrival -> bool) {
    forall env: nat -> Step, m: nat, id: nat | EnvFrom(env, accepts) && Present(c, Fresh(ranks), env, m, id) ::
      Completes(c, Fresh(ranks), env, id)
  }

  ghost predicate All(accepts: Arrival -> bool, mix: Mix) {
    forall a: Arrival | accepts(a) :: Suits(mix, a)
  }

  /** Nothing arrives; or a rank has room, no request arrives already at its total
      length, the budget covers a full batch or nothing has to prefill, and all requests
      decode before they complete, or none does, or there is a single slot. */
  ghost predicate FairMix(c: Config, ranks: nat, accepts: Arrival -> bool) {
    (forall a: Arrival :: !accepts(a)) || (0 < c.perRank && ServedMix(c, ranks, accepts))
  }

  ghost predicate ServedMix(c: Config, ranks: nat, accepts: Arrival -> bool) {
    && (forall a: Arrival | accepts(a) :: a.cached < a.total)
    && (c.perRank <= c.budget || All(accepts, Cached))
    && (All(accepts, Generating) || All(accepts, PrefillOnly) || ranks * c.perRank == 1)
  }

  ghost predicate Setting(c: Config, ranks: nat, accepts: Arrival -> bool) {
    0 < ranks && ranks * c.perRank <= c.totalBatch && forall a: Arrival | accepts(a) :: Accepted(a)
  }

  // ----- What a run has returned -----

  lemma OutsNext(c: Config, s: State, env: nat -> Step, n: nat, f: Request -> nat)
    ensures Sum(Outs(c, s, env, n + 1), f) == Sum(Outs(c, s, env, n), f) + Sum(StepOf(c, After(c, s, env, n), env(n)).out, f)
  {
    var p := Prefix(env, n + 1);
    assert p[..|p| - 1] == Prefix(env, n) && p[|p| - 1] == env(n);
    SumAppend(Outs(c, s, env, n), StepOf(c, After(c, s, env, n), env(n)).out, f);
  }

  lemma CountedNext(c: Config, s: State, env: nat -> Step, n: nat, f: Request -> nat)
    ensures Counted(c, s, env, n, f) <= Counted(c, s, env, n + 1, f)
  {
    OutsNext(c, s, env, n, f);
  }

  lemma {:induction false} OutsGrow(c: Config, s: State, env: nat -> Step, m: nat, n: nat, f: Request -> nat)
    requires m <= n
    ensures Counted(c, s, env, m, f) <= Counted(c, s, env, n, f)
    decreases n
  {
    if m < n {
      OutsGrow(c, s, env, m, n - 1, f);
      CountedNext(c, s, env, n - 1, f);
    }
  }

  lemma RunOne(c: Config, s: State, step: Step)
    ensures Run(c, s, [step]) == StepOf(c, s, step)
  {
    assert [step][..0] == [];
  }

  /** A request present at time m is still there or has been returned since. */
  lemma {:induction false} PresentOrReturned(c: Config, mix: Mix, s: State, env: nat -> Step, m: nat, n: nat, id: nat)
    requires Live(c, mix, s) && EnvLive(mix, env) && m <= n && id < After(c, s, env, m).nextId
    ensures id < After(c, s, env, n).nextId
    ensures Owed(After(c, s, env, n), Counting(id)) + Sum(Outs(c, s, env, n), DoneOf(id))
            == Owed(After(c, s, env, m), Counting(id)) + Sum(Outs(c, s, env, m), DoneOf(id))
    decreases n
  {
    if m < n {
      var t := After(c, s, env, n - 1);
      PresentOrReturned(c, mix, s, env, m, n - 1, id);
      AfterLive(c, mix, s, env, n - 1);
      AfterNext(c, s, env, n - 1);
      OutsNext(c, s, env, n - 1, DoneOf(id));
      assert StepLive(mix, env(n - 1));
      RunCounts(c, t, [env(n - 1)], id);
      RunOne(c, t, env(n - 1));
    }
  }

  // ----- A fair mix starves nobody -----

  lemma {:induction false} EmptyTotal(running: seq<Batch>, f: Request -> nat)
    requires forall i | 0 <= i < |running| :: running[i] == []
    ensures Total(running, f) == 0 == Size(running)
  {
    if running != [] { EmptyTotal(running[..|running| - 1], f); }
  }

  lemma FreshOk(c: Config, ranks: nat)
    requires 0 < ranks && ranks * c.perRank <= c.totalBatch
    ensures Ok(c, Fresh(ranks)) && Busy(c, Fresh(ranks)) && forall f :: Owed(Fresh(ranks), f) == 0
  {
    var s := Fresh(ranks);
    forall f ensures Owed(s, f) == 0 { EmptyTotal(s.running, f); }
    forall id: nat ensures IdOk(s, id) { EmptyTotal(s.running, Counting(id)); }
  }

  lemma BusyStays(c: Config, s: State, step: Step)
    requires Ok(c, s) && Busy(c, s)
    ensures Busy(c, StepOf(c, s, step).state)
  {
    if Skipped(c, s, step) {
      SkipIsIdentity(c, s, step);
    } else {
      StepShape(c, s, step);
      SettledFits(c, s, step);
      var k := FillRunningEffect(c, BeforeFill(c, s, step));
    }
  }

  lemma {:induction false} AfterBusy(c: Config, mix: Mix, s: State, env: nat -> Step, n: nat)
    requires Live(c, mix, s) && Busy(c, s) && EnvLive(mix, env)
    ensures Busy(c, After(c, s, env, n))
  {
    if n > 0 {
      AfterBusy(c, mix, s, env, n - 1);
      AfterNext(c, s, env, n - 1);
      AfterLive(c, mix, s, env, n - 1);
      BusyStays(c, After(c, s, env, n - 1), env(n - 1));
    }
  }

  /** Once a request has left, it has been returned as completed. */
  lemma GoneIsCompleted(c: Config, mix: Mix, s: State, env: nat -> Step, m: nat, n: nat, id: nat)
    requires Live(c, mix, s) && EnvLive(mix, env) && m <= n && Present(c, s, env, m, id)
    requires Owed(After(c, s, env, n), Counting(id)) == 0
    ensures Completes(c, s, env, id)
  {
    AfterLive(c, mix, s, env, m);
    assert IdOk(After(c, s, env, m), id);
    PresentOrReturned(c, mix, s, env, m, n, id);
    assert Counted(c, s, env, n, DoneOf(id)) >= 1;
  }

  /** In a live execution that starts busy, every request present at any time completes. */
  lemma PresentCompletes(c: Config, mix: Mix, s: State, env: nat -> Step, m: nat, id: nat)
    requires Live(c, mix, s) && Busy(c, s) && EnvLive(mix, env) && Present(c, s, env, m, id)
    ensures Completes(c, s, env, id)
  {
    var ts := Trace(c, s, env);
    AfterIsExecution(c, mix, s, env);
    AfterLive(c, mix, s, env, m);
    AfterBusy(c, mix, s, env, m);
    var n;
    if Total(ts(m).running, Counting(id)) >= 1 {
      var i, j := ResidentOnly(c, ts(m), id);
      n := Leaves(c, mix, env, ts, m, id);
    } else {
      var p := SumWitness(ts(m).queue, Counting(id));
      n := EventuallyGone(c, mix, env, ts, m, p, id);
    }
    GoneIsCompleted(c, mix, s, env, m, n, id);
  }

  /** The mix a fair class of requests belongs to. */
  ghost function MixOf(c: Config, accepts: Arrival -> bool): Mix {
    if All(accepts, Cached) then Cached
    else if All(accepts, Generating) then Generating
    else if All(accepts, PrefillOnly) then PrefillOnly
    else SingleSlot
  }

  lemma FairEnv(c: Config, ranks: nat, accepts: Arrival -> bool, env: nat -> Step)
    requires Setting(c, ranks, accepts) && ServedMix(c, ranks, accepts) && EnvFrom(env, accepts)
    ensures EnvLive(MixOf(c, accepts), env)
  {
    forall k: nat ensures StepLive(MixOf(c, accepts), env(k)) {
      assert StepFrom(env(k), accepts);
      forall i | 0 <= i < |env(k).arrivals|
        ensures ArrivalOk(env(k).arrivals[i]) && Suits(MixOf(c, accepts), env(k).arrivals[i])
      {
        assert accepts(env(k).arrivals[i]);
      }
    }
  }

  lemma FairNeverStarves(c: Config, ranks: nat, accepts: Arrival -> bool)
    requires Setting(c, ranks, accepts) && 0 < c.perRank && ServedMix(c, ranks, accepts)
    ensures NeverStarves(c, ranks, accepts)
  {
    var mix := MixOf(c, accepts);
    FreshOk(c, ranks);
    assert Live(c, mix, Fresh(ranks));
    forall env: nat -> Step, m: nat, id: nat | EnvFrom(env, accepts) && Present(c, Fresh(ranks), env, m, id)
      ensures Completes(c, Fresh(ranks), env, id)
    {
      FairEnv(c, ranks, accepts, env);
      PresentCompletes(c, mix, Fresh(ranks), env, m, id);
    }
  }

  // ----- Starving runs -----

  /** An invariant under which no step returns request `id` as completed. */
  ghost predicate Keeps(c: Config, env: nat -> Step, k: nat, id: nat, inv: State -> bool, s: State) {
    inv(s) ==> inv(StepOf(c, s, env(k)).state) && Sum(StepOf(c, s, env(k)).out, DoneOf(id)) == 0
  }

  /** After n steps the invariant holds and nothing of the request has been returned. */
  ghost predicate Quiet(c: Config, s: State, env: nat -> Step, id: nat, inv: State -> bool, n: nat) {
    inv(After(c, s, env, n)) && Counted(c, s, env, n, DoneOf(id)) == 0
  }

  lemma QuietNext(c: Config, s: State, env: nat -> Step, id: nat, inv: State -> bool, n: nat)
    requires Quiet(c, s, env, id, inv, n) && Keeps(c, env, n, id, inv, After(c, s, env, n))
    ensures Quiet(c, s, env, id, inv, n + 1)
  {
    AfterNext(c, s, env, n);
    OutsNext(c, s, env, n, DoneOf(id));
  }

  lemma {:induction false} StaysQuiet(c: Config, s: State, env: nat -> Step, id: nat, inv: State -> bool, m: nat, n: nat)
    requires m <= n && Quiet(c, s, env, id, inv, m)
    requires forall k: nat, t: State | k >= m :: Keeps(c, env, k, id, inv, t)
    ensures Quiet(c, s, env, id, inv, n)
    decreases n
  {
    if n > m {
      StaysQuiet(c, s, env, id, inv, m, n - 1);
      QuietNext(c, s, env, id, inv, n - 1);
    }
  }

  lemma Starves(c: Config, s: State, env: nat -> Step, id: nat, inv: State -> bool, m: nat)
    requires Quiet(c, s, env, id, inv, m)
    requires forall k: nat, t: State | k >= m :: Keeps(c, env, k, id, inv, t)
    ensures !Completes(c, s, env, id)
  {
    forall n: nat ensures Counted(c, s, env, n, DoneOf(id)) == 0 {
      if n >= m {
        StaysQuiet(c, s, env, id, inv, m, n);
      } else {
        OutsGrow(c, s, env, n, m, DoneOf(id));
      }
    }
  }

  /** One step, then another for ever. */
  function Then(first: Step, rest: Step): nat -> Step { (k: nat) => if k == 0 then first else rest }

  lemma ThenFrom(first: Step, rest: Step, accepts: Arrival -> bool)
    requires StepFrom(first, accepts) && StepFrom(rest, accepts)
    ensures EnvFrom(Then(first, rest), accepts)
  {
    forall k: nat ensures StepFrom(Then(first, rest)(k), accepts) {}
  }

  // ----- What a first step of arrivals leaves -----

  lemma {:induction false} NothingOut(running: seq<Batch>, time: Time)
    requires forall i | 0 <= i < |running| :: running[i] == []
    ensures OutAll(running, time) == []
  {
    if running != [] { NothingOut(running[..|running| - 1], time); }
  }

  lemma FirstStep(c: Config, ranks: nat, arrivals: seq<Arrival>)
    ensures StepOf(c, Fresh(ranks), Warmup(arrivals))
            == Outcome(FillRunning(c, Enqueue(Fresh(ranks), arrivals)), [])
  {
    var s, step := Fresh(ranks), Warmup(arrivals);
    var p := Plan(c, s.running, s.now);
    assert forall i | 0 <= i < |p| :: p[i] == [];
    NothingOut(p, 0.0);
    StepShape(c, s, step);
    assert Settled(c, s, step) == s.running;
    assert Updated(c, s, step) == s;
  }

  /** Filling the empty scheduler: nothing is lost, and no room is left unused. */
  lemma FirstFill(c: Config, ranks: nat, arrivals: seq<Arrival>) returns (t: State)
    requires 0 < ranks && ranks * c.perRank <= c.totalBatch
    ensures StepOf(c, Fresh(ranks), Warmup(arrivals)) == Outcome(t, [])
    ensures Fits(c, t.running) && |t.running| == ranks && t.nextId == |arrivals| && (t.queue == [] || AllFull(t.running, c.perRank))
    ensures Size(t.running) + |t.queue| == |arrivals|
    ensures forall f :: Owed(t, f) == Sum(Enqueue(Fresh(ranks), arrivals).queue, f)
  {
    var m := Enqueue(Fresh(ranks), arrivals);
    FirstStep(c, ranks, arrivals);
    t := FillRunning(c, m);
    var k := FillRunningEffect(c, m);
    EmptyTotal(m.running, Zero);
    EnqueueLength(Fresh(ranks), arrivals);
    forall f ensures Owed(t, f) == Sum(m.queue, f) {
      FillRunningSum(c, m, f);
      EmptyTotal(m.running, f);
    }
  }

  lemma {:induction false} EnqueueLength(s: State, arrivals: seq<Arrival>)
    ensures |Enqueue(s, arrivals).queue| == |s.queue| + |arrivals| && Enqueue(s, arrivals).nextId == s.nextId + |arrivals|
  {
    if arrivals != [] { EnqueueLength(s, arrivals[..|arrivals| - 1]); }
  }

  lemma FirstState(c: Config, s: State, env: nat -> Step)
    ensures After(c, s, env, 0) == s && Outs(c, s, env, 0) == []
    ensures After(c, s, env, 1) == StepOf(c, s, env(0)).state
    ensures forall f :: Sum(Outs(c, s, env, 1), f) == Sum(StepOf(c, s, env(0)).out, f)
  {
    AfterNext(c, s, env, 0);
    forall f ensures Sum(Outs(c, s, env, 1), f) == Sum(StepOf(c, s, env(0)).out, f) { OutsNext(c, s, env, 0, f); }
  }

  // ----- A rank over its budget -----

  function NotWaiting(r: Request): nat { if r.Prefilling() then 0 else 1 }

  lemma {:induction false} AllWaiting(b: Batch)
    requires Sum(b, NotWaiting) == 0
    ensures Sums(b) == |b| && forall j | 0 <= j < |b| :: b[j].Prefilling()
  {
    if b != [] { AllWaiting(b[..|b| - 1]); }
  }

  /** A full first fill of requests that all prefill puts rank 0 over a smaller budget,
      for good, whatever arrives later. */
  lemma FullFillOverBudget(c: Config, ranks: nat, a: Arrival) returns (id: nat)
    requires 0 < ranks && ranks * c.perRank <= c.totalBatch && ArrivalOk(a) && a.cached < a.input && c.budget < c.perRank
    ensures var t := StepOf(c, Fresh(ranks), Warmup(Copies(a, ranks * c.perRank))).state;
      Ok(c, t) && OverBudget(c, t, 0, id) && Owed(t, Counting(id)) >= 1
  {
    var n, step := ranks * c.perRank, Warmup(Copies(a, ranks * c.perRank));
    var t := FirstFill(c, ranks, Copies(a, n));
    FreshOk(c, ranks);
    StepKeepsOk(c, Fresh(ranks), step);
    EnqueueSum(Fresh(ranks), Copies(a, n), NotWaiting);
    SizeBound(t.running, c.perRank);
    TotalRank(t.running, 0, NotWaiting);
    AllWaiting(t.running[0]);
    id := t.running[0][0].id;
    SumElement(t.running[0], 0, Stuck(id));
    TotalElement(t.running, 0, 0, Counting(id));
  }

  function Copies(a: Arrival, n: nat): seq<Arrival> { seq(n, _ => a) }

  ghost predicate Starved(c: Config, id: nat, s: State) { Ok(c, s) && OverBudget(c, s, 0, id) }

  lemma OverBudgetStep(c: Config, s: State, step: Step, id: nat)
    requires Starved(c, id, s) && StepOk(step)
    ensures Starved(c, id, StepOf(c, s, step).state) && Sum(StepOf(c, s, step).out, DoneOf(id)) == 0
  {
    StepKeepsOk(c, s, step);
    OverBudgetStays(c, s, step, 0, id);
    OverBudgetNeverCompletes(c, s, [step], 0, id);
    RunOne(c, s, step);
  }

  /** A budget below the batch size starves some run of every class with a request to
      prefill, from the empty scheduler on. */
  lemma BudgetIsNeeded(c: Config, ranks: nat, accepts: Arrival -> bool, a: Arrival)
    requires Setting(c, ranks, accepts) && accepts(a) && a.cached < a.input && c.budget < c.perRank
    ensures !NeverStarves(c, ranks, accepts)
  {
    var s, first := Fresh(ranks), Warmup(Copies(a, ranks * c.perRank));
    var env := Then(first, Iterate(1.0, []));
    var id := FullFillOverBudget(c, ranks, a);
    ThenFrom(first, Iterate(1.0, []), accepts);
    FirstState(c, s, env);
    var t := FirstFill(c, ranks, first.arrivals);
    ghost var inv := (u: State) => Starved(c, id, u);
    forall k: nat, u: State | k >= 1 ensures Keeps(c, env, k, id, inv, u) {
      if inv(u) { OverBudgetStep(c, u, env(k), id); }
    }
    Starves(c, s, env, id, inv, 1);
    assert Present(c, s, env, 1, id);
  }

  // ----- A request that decodes, among requests that do not -----

  /** Nothing that h does not owe is returned. */
  lemma ReturnedAtMost(c: Config, s: State, step: Step, g: Request -> nat, h: Request -> nat)
    requires forall i, j | 0 <= i < |s.running| && 0 <= j < |s.running[i]| ::
      Parts(Zero, g, Update(Plan(c, s.running, s.now)[i][j], TimeOf(step))) <= h(s.running[i][j])
    ensures Sum(Returned(c, s, step), g) <= Total(s.running, h)
  {
    var p, time := Plan(c, s.running, s.now), TimeOf(step);
    var k := (x: Request) => Parts(Zero, g, Update(x, time));
    SplitAll(p, time, Zero, g, k);
    TotalPointwise(p, s.running, k, h);
  }

  /** Request `id` past the end of its input, or without anything to decode. */
  function Beyond(id: nat): Request -> nat { (r: Request) => if r.id == id && (r.current > r.input || r.input >= r.total) then 1 else 0 }

  function Others(id: nat): Request -> nat { (r: Request) => if r.id != id then 1 else 0 }

  function OtherLong(id: nat): Request -> nat { (r: Request) => if r.id != id && r.input < r.total then 1 else 0 }

  /** Request `id` has tokens to decode but has decoded none; every other request
      completes with its prefill, and at least one of them is resident. */
  ghost predicate Blocked(c: Config, id: nat, s: State) {
    && Ok(c, s) && id < s.nextId && Capacity(c, s.running) >= 2
    && Total(s.running, Counting(id)) == 1 && Total(s.running, Others(id)) >= 1
    && Owed(s, Beyond(id)) == 0 && Owed(s, OtherLong(id)) == 0
  }

  /** The others always have something to prefill. */
  lemma BlockedHasSum(c: Config, id: nat, s: State)
    requires Blocked(c, id, s)
    ensures HasSum(s.running)
  {
    var i, j := TotalWitness(s.running, Others(id));
    TotalElement(s.running, i, j, OtherLong(id));
    assert Sound(s.running[i][j], s.now);
    SumElement(s.running[i], j, Waiting);
  }

  /** A request within its input, advanced in a prefill step, stays within it. */
  lemma BlockedRequest(id: nat, r: Request, x: Request, time: Time)
    requires x == r.(pending := x.pending) && (r.id == id ==> r.current <= r.input < r.total)
    requires if r.Prefilling() then r.current + x.pending <= r.input else x.pending == 0
    ensures Rest(Beyond(id), time)(x) == 0 && Rest(OtherLong(id), time)(x) <= OtherLong(id)(r)
    ensures Parts(Zero, DoneOf(id), Update(x, time)) == 0
  {
    RestIs(Beyond(id), x, time);
    RestIs(OtherLong(id), x, time);
    MarkedFields(x, time);
  }

  lemma BlockedPoint(c: Config, id: nat, s: State, step: Step, i: nat, j: nat)
    requires Blocked(c, id, s) && i < |s.running| && j < |s.running[i]|
    ensures var r, x := s.running[i][j], Plan(c, s.running, s.now)[i][j];
      && Rest(Beyond(id), TimeOf(step))(x) <= Beyond(id)(r)
      && Rest(OtherLong(id), TimeOf(step))(x) <= OtherLong(id)(r)
      && Parts(Zero, DoneOf(id), Update(x, TimeOf(step))) <= Beyond(id)(r)
  {
    var r, x := s.running[i][j], Plan(c, s.running, s.now)[i][j];
    assert Beyond(id)(r) == 0 by { TotalElement(s.running, i, j, Beyond(id)); }
    assert r.pending == 0 by { assert Sound(r, s.now); }
    BlockedHasSum(c, id, s);
    PlannedWithin(c, s, i, j);
    OnePhase(c, s, i, j);
    BlockedRequest(id, r, x, TimeOf(step));
  }

  lemma BlockedShrinks(c: Config, id: nat, s: State, step: Step)
    requires Blocked(c, id, s)
    ensures Shrinks(c, s, step, Beyond(id)) && Shrinks(c, s, step, OtherLong(id))
    ensures StampFree(Beyond(id)) && StampFree(OtherLong(id))
  {
    forall i, j | 0 <= i < |s.running| && 0 <= j < |s.running[i]|
      ensures Rest(Beyond(id), TimeOf(step))(Plan(c, s.running, s.now)[i][j]) <= Beyond(id)(s.running[i][j])
      ensures Rest(OtherLong(id), TimeOf(step))(Plan(c, s.running, s.now)[i][j]) <= OtherLong(id)(s.running[i][j])
    {
      BlockedPoint(c, id, s, step, i, j);
    }
  }

  lemma BlockedReturns(c: Config, id: nat, s: State, step: Step)
    requires Blocked(c, id, s)
    ensures Sum(Returned(c, s, step), DoneOf(id)) == 0
  {
    forall i, j | 0 <= i < |s.running| && 0 <= j < |s.running[i]|
      ensures Parts(Zero, DoneOf(id), Update(Plan(c, s.running, s.now)[i][j], TimeOf(step))) <= Beyond(id)(s.running[i][j])
    {
      BlockedPoint(c, id, s, step, i, j);
    }
    ReturnedAtMost(c, s, step, DoneOf(id), Beyond(id));
  }

  lemma {:induction false} SplitById(b: Batch, id: nat)
    ensures Sum(b, Counting(id)) + Sum(b, Others(id)) == |b|
  {
    if b != [] { SplitById(b[..|b| - 1], id); }
  }

  lemma {:induction false} SizeById(running: seq<Batch>, id: nat)
    ensures Total(running, Counting(id)) + Total(running, Others(id)) == Size(running)
  {
    if running != [] {
      SizeById(running[..|running| - 1], id);
      SplitById(running[|running| - 1], id);
    }
  }

  /** After a step with an arrival some other request is resident again. */
  lemma OthersResident(c: Config, id: nat, s: State, step: Step)
    requires Ok(c, s) && id < s.nextId && Capacity(c, s.running) >= 2 && step.arrivals != []
    requires Total(Refilled(c, s, step).running, Counting(id)) == 1
    ensures Total(Refilled(c, s, step).running, Others(id)) >= 1
  {
    var m, t := BeforeFill(c, s, step), Refilled(c, s, step);
    SettledFits(c, s, step);
    var k := FillRunningEffect(c, m);
    if t.queue == [] {
      FillRunningSum(c, m, Others(id));
      EnqueueIds(Updated(c, s, step), step.arrivals, id);
      EnqueueIds(Updated(c, s, step), step.arrivals, s.nextId);
      SplitById(m.queue, s.nextId);
      OtherThan(m.queue, s.nextId, id);
    } else {
      SizeBound(t.running, c.perRank);
      SizeById(t.running, id);
    }
  }

  lemma {:induction false} OtherThan(b: Batch, fresher: nat, id: nat)
    requires fresher != id
    ensures Sum(b, Counting(fresher)) <= Sum(b, Others(id))
  {
    if b != [] { OtherThan(b[..|b| - 1], fresher, id); }
  }

  /** A step that brings at least one more request of the other kind. */
  predicate Feeds(step: Step) {
    StepOk(step) && step.arrivals != [] && forall i | 0 <= i < |step.arrivals| :: step.arrivals[i].input == step.arrivals[i].total
  }

  lemma BlockedResident(c: Config, id: nat, s: State, step: Step)
    requires Blocked(c, id, s)
    ensures Total(Refilled(c, s, step).running, Counting(id)) == 1
  {
    BlockedReturns(c, id, s, step);
    SettledIds(c, s, step, id);
    assert IdOk(s, id);
    FillBringsNone(c, s, step, id);
  }

  lemma FedKinds(id: nat, a: Arrival, later: nat)
    requires later != id && a.input == a.total
    ensures Beyond(id)(Admit(a, later)) == 0 && OtherLong(id)(Admit(a, later)) == 0
  {
  }

  lemma BlockedKind(c: Config, id: nat, s: State, step: Step, f: Request -> nat)
    requires Blocked(c, id, s) && Feeds(step) && (f == Beyond(id) || f == OtherLong(id))
    ensures Owed(Refilled(c, s, step), f) == 0
  {
    BlockedShrinks(c, id, s, step);
    forall a: Arrival, later: nat | a in step.arrivals && s.nextId <= later < s.nextId + |step.arrivals|
      ensures f(Admit(a, later)) == 0
    {
      FedKinds(id, a, later);
    }
    KindAbsent(c, s, step, f);
  }

  lemma BlockedStays(c: Config, id: nat, s: State, step: Step)
    requires Blocked(c, id, s) && Feeds(step)
    ensures Blocked(c, id, StepOf(c, s, step).state) && Sum(StepOf(c, s, step).out, DoneOf(id)) == 0
  {
    assert Ok(c, StepOf(c, s, step).state) by { StepKeepsOk(c, s, step); }
    if Skipped(c, s, step) {
      SkipIsIdentity(c, s, step);
    } else {
      StepShape(c, s, step);
      assert Sum(Returned(c, s, step), DoneOf(id)) == 0 by { BlockedReturns(c, id, s, step); }
      BlockedResident(c, id, s, step);
      OthersResident(c, id, s, step);
      BlockedKind(c, id, s, step, Beyond(id));
      BlockedKind(c, id, s, step, OtherLong(id));
      assert Refilled(c, s, step).nextId >= s.nextId by { IdsKept(c, s, step, id); }
    }
  }

  /** For every configuration, from every such state: as long as requests that complete
      with their prefill keep arriving, the decoding request waits for ever. */
  lemma {:induction false} ShortArrivalsStarve(c: Config, id: nat, s: State, steps: seq<Step>)
    requires Blocked(c, id, s) && forall i | 0 <= i < |steps| :: Feeds(steps[i])
    ensures Blocked(c, id, Run(c, s, steps).state) && Sum(Run(c, s, steps).out, DoneOf(id)) == 0
  {
    if steps != [] {
      var n := |steps| - 1;
      var o := Run(c, s, steps[..n]);
      ShortArrivalsStarve(c, id, s, steps[..n]);
      BlockedStays(c, id, o.state, steps[n]);
      SumAppend(o.out, StepOf(c, o.state, steps[n]).out, DoneOf(id));
    }
  }

  lemma PairQueued(s: State, g: Arrival, b: Arrival, f: Request -> nat)
    requires s.queue == []
    ensures Sum(Enqueue(s, [g, b]).queue, f) == f(Admit(g, s.nextId)) + f(Admit(b, s.nextId + 1))
  {
    var x, y := Admit(g, s.nextId), Admit(b, s.nextId + 1);
    assert [g, b][..1] == [g] && [g][..0] == [];
    assert Enqueue(s, [g]).queue == [x];
    assert Enqueue(s, [g, b]).queue == [x] + [y];
    SumAppend([x], [y], f);
    assert [x][..0] == [] && [y][..0] == [];
  }

  /** A first fill with one request of each kind is such a state. */
  lemma MixedFillBlocks(c: Config, ranks: nat, g: Arrival, b: Arrival)
    requires 0 < ranks && 2 <= ranks * c.perRank <= c.totalBatch && ArrivalOk(g) && ArrivalOk(b)
    requires g.input < g.total && b.input == b.total
    ensures var t := StepOf(c, Fresh(ranks), Warmup([g, b])).state; Blocked(c, 0, t) && Owed(t, Counting(0)) >= 1
  {
    var t := FirstFill(c, ranks, [g, b]);
    FreshOk(c, ranks);
    StepKeepsOk(c, Fresh(ranks), Warmup([g, b]));
    SizeBound(t.running, c.perRank);
    assert t.queue == [];
    PairQueued(Fresh(ranks), g, b, Counting(0));
    PairQueued(Fresh(ranks), g, b, Others(0));
    PairQueued(Fresh(ranks), g, b, Beyond(0));
    PairQueued(Fresh(ranks), g, b, OtherLong(0));
  }

  /** Both kinds together starve some run when there are two slots or more. */
  lemma MixIsNeeded(c: Config, ranks: nat, accepts: Arrival -> bool, g: Arrival, b: Arrival)
    requires Setting(c, ranks, accepts) && ranks * c.perRank >= 2 && accepts(g) && accepts(b)
    requires g.input < g.total && b.input == b.total && b.cached < b.total
    ensures !NeverStarves(c, ranks, accepts)
  {
    var s, first, rest := Fresh(ranks), Warmup([g, b]), Iterate(1.0, [b]);
    var env := Then(first, rest);
    ThenFrom(first, rest, accepts);
    MixedFillBlocks(c, ranks, g, b);
    FirstState(c, s, env);
    var t := FirstFill(c, ranks, [g, b]);
    ghost var inv := (u: State) => Blocked(c, 0, u);
    forall k: nat, u: State | k >= 1 ensures Keeps(c, env, k, 0, inv, u) {
      if inv(u) { BlockedStays(c, 0, u, env(k)); }
    }
    Starves(c, s, env, 0, inv, 1);
    assert Present(c, s, env, 1, 0);
  }

  // ----- A request that arrives at its total length -----

  /** Request `id` in any state but past its total length. */
  function NotPast(id: nat): Request -> nat { (r: Request) => if r.id == id && r.current <= r.total then 1 else 0 }

  ghost predicate Overrun(c: Config, id: nat, s: State) {
    Fits(c, s.running) && id < s.nextId && Owed(s, NotPast(id)) == 0
  }

  lemma SettledShorter(c: Config, s: State, step: Step)
    requires Fits(c, s.running)
    ensures Fits(c, BeforeFill(c, s, step).running)
  {
    forall i | 0 <= i < |s.running| ensures |Settled(c, s, step)[i]| <= |s.running[i]| {
      KeptShorter(UpdateBatch(Plan(c, s.running, s.now)[i], TimeOf(step)));
    }
  }

  /** Planning changes nothing but the pending tokens. */
  lemma PlannedRequest(c: Config, s: State, i: nat, j: nat)
    requires i < |s.running| && j < |s.running[i]|
    ensures var r, x := s.running[i][j], Plan(c, s.running, s.now)[i][j]; x == r.(pending := x.pending)
  {
  }

  lemma OverrunRequest(id: nat, r: Request, x: Request, time: Time)
    requires x == r.(pending := x.pending)
    ensures Rest(NotPast(id), time)(x) <= NotPast(id)(r) && NotPast(id)(x) <= NotPast(id)(r)
    ensures Parts(Zero, DoneOf(id), Update(x, time)) <= NotPast(id)(r)
  {
    RestIs(NotPast(id), x, time);
    MarkedFields(x, time);
  }

  lemma OverrunPoint(c: Config, id: nat, s: State, step: Step, i: nat, j: nat)
    requires i < |s.running| && j < |s.running[i]|
    ensures var r, x := s.running[i][j], Plan(c, s.running, s.now)[i][j];
      && Rest(NotPast(id), TimeOf(step))(x) <= NotPast(id)(r)
      && Parts(Zero, DoneOf(id), Update(x, TimeOf(step))) <= NotPast(id)(r)
      && NotPast(id)(x) <= NotPast(id)(r)
  {
    PlannedRequest(c, s, i, j);
    OverrunRequest(id, s.running[i][j], Plan(c, s.running, s.now)[i][j], TimeOf(step));
  }

  lemma OverrunReturns(c: Config, id: nat, s: State, step: Step)
    requires Overrun(c, id, s)
    ensures Sum(Returned(c, s, step), DoneOf(id)) == 0
  {
    forall i, j | 0 <= i < |s.running| && 0 <= j < |s.running[i]|
      ensures Parts(Zero, DoneOf(id), Update(Plan(c, s.running, s.now)[i][j], TimeOf(step))) <= NotPast(id)(s.running[i][j])
    {
      OverrunPoint(c, id, s, step, i, j);
    }
    ReturnedAtMost(c, s, step, DoneOf(id), NotPast(id));
  }

  lemma OverrunPlanned(c: Config, id: nat, s: State, step: Step)
    requires Overrun(c, id, s)
    ensures Overrun(c, id, s.(running := Plan(c, s.running, s.now)))
  {
    forall i, j | 0 <= i < |s.running| && 0 <= j < |s.running[i]|
      ensures NotPast(id)(Plan(c, s.running, s.now)[i][j]) <= NotPast(id)(s.running[i][j])
    {
      OverrunPoint(c, id, s, step, i, j);
    }
    TotalPointwise(Plan(c, s.running, s.now), s.running, NotPast(id), NotPast(id));
  }

  lemma OverrunShrinks(c: Config, id: nat, s: State, step: Step)
    ensures Shrinks(c, s, step, NotPast(id)) && StampFree(NotPast(id))
  {
    forall i, j | 0 <= i < |s.running| && 0 <= j < |s.running[i]|
      ensures Rest(NotPast(id), TimeOf(step))(Plan(c, s.running, s.now)[i][j]) <= NotPast(id)(s.running[i][j])
    {
      OverrunPoint(c, id, s, step, i, j);
    }
  }

  /** Past its total length a request is never returned as completed: the length is
      only ever compared for equality. */
  lemma OverrunStays(c: Config, id: nat, s: State, step: Step)
    requires Overrun(c, id, s)
    ensures Overrun(c, id, StepOf(c, s, step).state) && Sum(StepOf(c, s, step).out, DoneOf(id)) == 0
  {
    if Skipped(c, s, step) {
      OverrunPlanned(c, id, s, step);
      assert StepOf(c, s, step) == Outcome(s.(running := Plan(c, s.running, s.now)), []);
    } else {
      StepShape(c, s, step);
      OverrunReturns(c, id, s, step);
      OverrunFilled(c, id, s, step);
    }
  }

  lemma OverrunFilled(c: Config, id: nat, s: State, step: Step)
    requires Overrun(c, id, s)
    ensures Overrun(c, id, Refilled(c, s, step))
  {
    assert Total(Settled(c, s, step), NotPast(id)) == 0 by {
      OverrunShrinks(c, id, s, step);
      StepAtMost(c, s, step, NotPast(id));
    }
    NotPastFilled(c, id, s, step);
  }

  lemma NotPastFilled(c: Config, id: nat, s: State, step: Step)
    requires Fits(c, s.running) && id < s.nextId
    requires Total(Settled(c, s, step), NotPast(id)) == 0 && Sum(s.queue, NotPast(id)) == 0
    ensures Overrun(c, id, Refilled(c, s, step))
  {
    SettledShorter(c, s, step);
    EnqueueSum(Updated(c, s, step), step.arrivals, NotPast(id));
    var k := FillRunningEffect(c, BeforeFill(c, s, step));
    FillRunningSum(c, BeforeFill(c, s, step), NotPast(id));
  }

  lemma {:induction false} OverrunNeverCompletes(c: Config, id: nat, s: State, steps: seq<Step>)
    requires Overrun(c, id, s)
    ensures Overrun(c, id, Run(c, s, steps).state) && Sum(Run(c, s, steps).out, DoneOf(id)) == 0
  {
    if steps != [] {
      var n := |steps| - 1;
      var o := Run(c, s, steps[..n]);
      OverrunNeverCompletes(c, id, s, steps[..n]);
      OverrunStays(c, id, o.state, steps[n]);
      SumAppend(o.out, StepOf(c, o.state, steps[n]).out, DoneOf(id));
    }
  }

  /** Request `id` in any state but whole on arrival: at its total length, not run yet. */
  predicate Whole(r: Request) { r.current == r.total && r.input <= r.current && r.pending == 0 && r.genStart == 0.0 }

  function NotWhole(id: nat): Request -> nat { (r: Request) => if r.id == id && !Whole(r) then 1 else 0 }

  lemma WholeRequest(id: nat, r: Request, x: Request, time: Time)
    requires x == r.(pending := x.pending) && (Whole(r) ==> x.pending == 1)
    ensures Rest(NotPast(id), time)(x) <= NotWhole(id)(r) && Parts(Zero, DoneOf(id), Update(x, time)) <= NotWhole(id)(r)
  {
    RestIs(NotPast(id), x, time);
    MarkedFields(x, time);
  }

  lemma WholePoint(c: Config, id: nat, s: State, step: Step, i: nat, j: nat)
    requires i < |s.running| && j < |s.running[i]| && !HasSum(s.running)
    ensures Rest(NotPast(id), TimeOf(step))(Plan(c, s.running, s.now)[i][j]) <= NotWhole(id)(s.running[i][j])
    ensures Parts(Zero, DoneOf(id), Update(Plan(c, s.running, s.now)[i][j], TimeOf(step))) <= NotWhole(id)(s.running[i][j])
  {
    PlannedRequest(c, s, i, j);
    WholeRequest(id, s.running[i][j], Plan(c, s.running, s.now)[i][j], TimeOf(step));
  }

  lemma WholeReturns(c: Config, id: nat, s: State, step: Step)
    requires !HasSum(s.running) && Total(s.running, NotWhole(id)) == 0
    ensures Sum(Returned(c, s, step), DoneOf(id)) == 0
  {
    forall i, j | 0 <= i < |s.running| && 0 <= j < |s.running[i]|
      ensures Parts(Zero, DoneOf(id), Update(Plan(c, s.running, s.now)[i][j], TimeOf(step))) <= NotWhole(id)(s.running[i][j])
    {
      WholePoint(c, id, s, step, i, j);
    }
    ReturnedAtMost(c, s, step, DoneOf(id), NotWhole(id));
  }

  lemma WholeSettles(c: Config, id: nat, s: State, step: Step)
    requires !HasSum(s.running) && Total(s.running, NotWhole(id)) == 0
    ensures Total(Settled(c, s, step), NotPast(id)) == 0
  {
    WholeRests(c, id, s, step);
    assert StampFree(NotPast(id));
    StepRest(c, s, step, NotPast(id));
  }

  lemma WholeRests(c: Config, id: nat, s: State, step: Step)
    requires !HasSum(s.running) && Total(s.running, NotWhole(id)) == 0
    ensures Total(Plan(c, s.running, s.now), Rest(NotPast(id), TimeOf(step))) == 0
  {
    var p, time := Plan(c, s.running, s.now), TimeOf(step);
    forall i, j | 0 <= i < |s.running| && 0 <= j < |s.running[i]|
      ensures Rest(NotPast(id), time)(p[i][j]) <= NotWhole(id)(s.running[i][j])
    {
      WholePoint(c, id, s, step, i, j);
    }
    TotalPointwise(p, s.running, Rest(NotPast(id), time), NotWhole(id));
  }

  /** In a decode step a request that is whole runs past its total length. */
  lemma WholeOverruns(c: Config, id: nat, s: State, step: Step)
    requires Fits(c, s.running) && id < s.nextId && !HasSum(s.running) && !Skipped(c, s, step)
    requires Total(s.running, NotWhole(id)) == 0 && Sum(s.queue, Counting(id)) == 0
    ensures Overrun(c, id, StepOf(c, s, step).state) && Sum(StepOf(c, s, step).out, DoneOf(id)) == 0
  {
    StepShape(c, s, step);
    WholeReturns(c, id, s, step);
    WholeSettles(c, id, s, step);
    SumAtMost(s.queue, s.queue, NotPast(id), Counting(id));
    NotPastFilled(c, id, s, step);
  }

  /** In a prefill step it is given nothing and found complete. */
  lemma WholeReturned(c: Config, id: nat, s: State, step: Step)
    requires HasSum(s.running) && !Skipped(c, s, step)
    requires Total(s.running, Counting(id)) >= 1 && Total(s.running, NotWhole(id)) == 0
    ensures Sum(StepOf(c, s, step).out, DoneOf(id)) >= 1
  {
    var p, time := Plan(c, s.running, s.now), TimeOf(step);
    var k := (x: Request) => Parts(Zero, DoneOf(id), Update(x, time));
    var i, j := TotalWitness(s.running, Counting(id));
    TotalElement(s.running, i, j, NotWhole(id));
    MarkedFields(p[i][j], time);
    StepShape(c, s, step);
    SplitAll(p, time, Zero, DoneOf(id), k);
    KeptZero(p, time);
    TotalElement(p, i, j, k);
  }

  lemma KeptZero(p: seq<Batch>, time: Time)
    ensures Total(KeptAll(p, time), Zero) == 0
  {
    var kept := KeptAll(p, time);
    forall i | 0 <= i < |kept| ensures Sum(kept[i], Zero) == 0 { SumZero(kept[i]); }
    TotalZeros(kept);
  }

  lemma {:induction false} TotalZeros(running: seq<Batch>)
    requires forall i | 0 <= i < |running| :: Sum(running[i], Zero) == 0
    ensures Total(running, Zero) == 0
  {
    if running != [] { TotalZeros(running[..|running| - 1]); }
  }

  /** A request that is at its total length when it becomes resident is returned as
      completed, in any run, if and only if the first step that runs is a prefill step. */
  lemma FirstStepDecides(c: Config, id: nat, s: State, step: Step, steps: seq<Step>)
    requires Fits(c, s.running) && id < s.nextId && !Skipped(c, s, step)
    requires Total(s.running, Counting(id)) >= 1 && Sum(s.queue, Counting(id)) == 0 && Total(s.running, NotWhole(id)) == 0
    ensures var o := StepOf(c, s, step);
      Sum(o.out, DoneOf(id)) + Sum(Run(c, o.state, steps).out, DoneOf(id)) >= 1 <==> HasSum(s.running)
  {
    if HasSum(s.running) {
      WholeReturned(c, id, s, step);
    } else {
      WholeOverruns(c, id, s, step);
      OverrunNeverCompletes(c, id, StepOf(c, s, step).state, steps);
    }
  }

  lemma OneQueued(s: State, a: Arrival, f: Request -> nat)
    requires s.queue == []
    ensures Sum(Enqueue(s, [a]).queue, f) == f(Admit(a, s.nextId))
  {
    var x := Admit(a, s.nextId);
    assert [a][..0] == [] && Enqueue(s, [a]).queue == [x] && [x][..0] == [];
  }

  lemma WholeFill(c: Config, ranks: nat, a: Arrival, step: Step) returns (t: State)
    requires 0 < ranks && 0 < c.perRank && ranks * c.perRank <= c.totalBatch && a.cached == a.input == a.total
    ensures StepOf(c, Fresh(ranks), Warmup([a])) == Outcome(t, []) && Owed(t, Counting(0)) >= 1
    ensures Overrun(c, 0, StepOf(c, t, step).state) && Sum(StepOf(c, t, step).out, DoneOf(0)) == 0
  {
    t := FirstFill(c, ranks, [a]);
    OneQueued(Fresh(ranks), a, Counting(0));
    OneQueued(Fresh(ranks), a, NotWhole(0));
    OneQueued(Fresh(ranks), a, Waiting);
    SizeBound(t.running, c.perRank);
    Quotients.MulMono(1, ranks, c.perRank);
    assert t.queue == [];
    if HasSum(t.running) {
      var i, j := SomePrefilling(c, t);
      TotalElement(t.running, i, j, Waiting);
    }
    var i, j := TotalWitness(t.running, Counting(0));
    TotalElement(t.running, i, j, NotWhole(0));
    TotalElement(Plan(c, t.running, t.now), i, j, Pending);
    WholeOverruns(c, 0, t, step);
  }

  lemma WholeQuiet(c: Config, ranks: nat, a: Arrival, env: nat -> Step, inv: State -> bool)
    requires 0 < ranks && 0 < c.perRank && ranks * c.perRank <= c.totalBatch && a.cached == a.input == a.total
    requires env(0) == Warmup([a]) && forall u: State :: Overrun(c, 0, u) ==> inv(u)
    ensures Quiet(c, Fresh(ranks), env, 0, inv, 2) && Present(c, Fresh(ranks), env, 1, 0)
  {
    var s := Fresh(ranks);
    var t := WholeFill(c, ranks, a, env(1));
    FirstState(c, s, env);
    AfterNext(c, s, env, 1);
    OutsNext(c, s, env, 1, DoneOf(0));
  }

  /** A class with a request that arrives at its total length starves some run. */
  lemma WholeIsStarved(c: Config, ranks: nat, accepts: Arrival -> bool, a: Arrival)
    requires Setting(c, ranks, accepts) && 0 < c.perRank && accepts(a) && a.cached >= a.total
    ensures !NeverStarves(c, ranks, accepts)
  {
    var s, first, rest := Fresh(ranks), Warmup([a]), Iterate(1.0, []);
    var env := Then(first, rest);
    ThenFrom(first, rest, accepts);
    ghost var inv := (u: State) => Overrun(c, 0, u);
    WholeQuiet(c, ranks, a, env, inv);
    forall k: nat, u: State | k >= 2 ensures Keeps(c, env, k, 0, inv, u) {
      if inv(u) { OverrunStays(c, 0, u, env(k)); }
    }
    Starves(c, s, env, 0, inv, 2);
    assert EnvFrom(env, accepts) && Present(c, s, env, 1, 0);
  }

  // ----- No room, or no request -----

  /** Without room in any batch nothing is ever returned. */
  lemma NoRoomStep(c: Config, s: State, step: Step)
    requires c.perRank == 0 && Fits(c, s.running)
    ensures Fits(c, StepOf(c, s, step).state.running) && StepOf(c, s, step).out == []
  {
    var p := Plan(c, s.running, s.now);
    assert forall i | 0 <= i < |p| :: p[i] == [];
    NothingOut(p, TimeOf(step));
    if !Skipped(c, s, step) {
      StepShape(c, s, step);
      SettledShorter(c, s, step);
      var k := FillRunningEffect(c, BeforeFill(c, s, step));
    }
  }

  lemma RoomIsNeeded(c: Config, ranks: nat, accepts: Arrival -> bool, a: Arrival)
    requires Setting(c, ranks, accepts) && c.perRank == 0 && accepts(a)
    ensures !NeverStarves(c, ranks, accepts)
  {
    var s, first, rest := Fresh(ranks), Warmup([a]), Iterate(1.0, []);
    var env := Then(first, rest);
    ThenFrom(first, rest, accepts);
    var t := FirstFill(c, ranks, [a]);
    OneQueued(s, a, Counting(0));
    FirstState(c, s, env);
    ghost var inv := (u: State) => Fits(c, u.running);
    forall k: nat, u: State | k >= 1 ensures Keeps(c, env, k, 0, inv, u) {
      if inv(u) { NoRoomStep(c, u, env(k)); }
    }
    Starves(c, s, env, 0, inv, 1);
    assert EnvFrom(env, accepts) && Present(c, s, env, 1, 0);
  }

  ghost predicate Nobody(s: State) { s.queue == [] && forall i | 0 <= i < |s.running| :: s.running[i] == [] }

  lemma NobodyStays(c: Config, s: State, step: Step)
    requires Nobody(s) && step.arrivals == []
    ensures Nobody(StepOf(c, s, step).state)
  {
    var p := Plan(c, s.running, s.now);
    assert forall i | 0 <= i < |p| :: p[i] == [];
    if !Skipped(c, s, step) { StepShape(c, s, step); }
  }

  lemma {:induction false} NobodyAfter(c: Config, s: State, env: nat -> Step, n: nat)
    requires Nobody(s) && forall k: nat :: env(k).arrivals == []
    ensures Nobody(After(c, s, env, n))
  {
    if n > 0 {
      NobodyAfter(c, s, env, n - 1);
      AfterNext(c, s, env, n - 1);
      NobodyStays(c, After(c, s, env, n - 1), env(n - 1));
    }
  }

  lemma FirstIsAccepted(step: Step, accepts: Arrival -> bool)
    ensures StepFrom(step, accepts) && step.arrivals != [] ==> accepts(step.arrivals[0])
  {
  }

  lemma NobodyStarves(c: Config, ranks: nat, accepts: Arrival -> bool)
    requires forall a: Arrival :: !accepts(a)
    ensures NeverStarves(c, ranks, accepts)
  {
    forall env: nat -> Step, m: nat, id: nat | EnvFrom(env, accepts) ensures !Present(c, Fresh(ranks), env, m, id) {
      assert forall k: nat :: StepFrom(env(k), accepts);
      forall k: nat ensures env(k).arrivals == [] {
        FirstIsAccepted(env(k), accepts);
      }
      NobodyAfter(c, Fresh(ranks), env, m);
      EmptyTotal(After(c, Fresh(ranks), env, m).running, Counting(id));
    }
  }

  // ----- The exact condition -----

  /** For every configuration and every class of acceptable requests: no run from the
      empty scheduler starves a request if and only if the class is a fair mix. */
  lemma NeverStarvesExactly(c: Config, ranks: nat, accepts: Arrival -> bool)
    requires Setting(c, ranks, accepts)
    ensures NeverStarves(c, ranks, accepts) <==> FairMix(c, ranks, accepts)
  {
    if forall a: Arrival :: !accepts(a) {
      NobodyStarves(c, ranks, accepts);
    } else if c.perRank == 0 {
      var a: Arrival :| accepts(a);
      RoomIsNeeded(c, ranks, accepts, a);
    } else if ServedMix(c, ranks, accepts) {
      FairNeverStarves(c, ranks, accepts);
    } else {
      UnservedStarves(c, ranks, accepts);
    }
  }

  lemma UnservedStarves(c: Config, ranks: nat, accepts: Arrival -> bool)
    requires Setting(c, ranks, accepts) && 0 < c.perRank && !ServedMix(c, ranks, accepts)
    ensures !NeverStarves(c, ranks, accepts)
  {
    if a: Arrival :| accepts(a) && a.cached >= a.total {
      WholeIsStarved(c, ranks, accepts, a);
    } else if c.budget < c.perRank && !All(accepts, Cached) {
      var a: Arrival :| accepts(a) && !Suits(Cached, a);
      BudgetIsNeeded(c, ranks, accepts, a);
    } else {
      var g: Arrival :| accepts(g) && !Suits(PrefillOnly, g);
      var b: Arrival :| accepts(b) && !Suits(Generating, b);
      Quotients.MulMono(1, ranks, c.perRank);
      MixIsNeeded(c, ranks, accepts, g, b);
    }
  }
}

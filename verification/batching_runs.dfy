/** Whole runs of the scheduler: the invariant at step boundaries, what a step
    schedules, exactly-once reporting and freedom from starvation. */
module BatchingRuns {
  import opened Batching
  import opened BatchingProofs
  import Quotients

  function Counting(id: nat): Request -> nat { (r: Request) => if r.id == id then 1 else 0 }

  /** Requests `id` whose first token has not been returned. */
  function Unreported(id: nat): Request -> nat { (r: Request) => if r.id == id && !r.record then 1 else 0 }

  function FirstOf(id: nat): Request -> nat { (r: Request) => if r.id == id && !r.Done() then 1 else 0 }

  function DoneOf(id: nat): Request -> nat { (r: Request) => if r.id == id && r.Done() then 1 else 0 }

  /** Tokens request `id` still has to run. */
  function Left(id: nat): Request -> nat { (r: Request) => if r.id == id && r.current < r.total then r.total - r.current else 0 }

  function ToPrefill(r: Request): nat { if r.Prefilling() then r.input - r.current else 0 }

  function Zero(r: Request): nat { 0 }

  // ----- The invariant at step boundaries -----

  ghost predicate Sound(r: Request, now: Time) {
    0 < r.input <= r.total && r.current < r.total && r.pending == 0 && r.genStart <= now
  }

  ghost predicate AllSound(b: Batch, now: Time) {
    forall i | 0 <= i < |b| :: Sound(b[i], now)
  }

  ghost predicate IdOk(s: State, id: nat) {
    Total(s.running, Counting(id)) + Sum(s.queue, Counting(id)) <= if id < s.nextId then 1 else 0
  }

  ghost predicate UniqueIds(s: State) {
    forall id: nat :: IdOk(s, id)
  }

  ghost predicate Ok(c: Config, s: State) {
    && Fits(c, s.running) && UniqueIds(s) && AllSound(s.queue, s.now)
    && forall i | 0 <= i < |s.running| :: AllSound(s.running[i], s.now)
  }

  predicate ArrivalOk(a: Arrival) {
    0 < a.input <= a.total && a.cached < a.total && a.cached <= a.input
  }

  predicate StepOk(step: Step) {
    forall i | 0 <= i < |step.arrivals| :: ArrivalOk(step.arrivals[i])
  }

  // ----- What a step schedules -----

  /** Either only prefill or only decode tokens run, across all ranks. */
  lemma OnePhase(c: Config, s: State, i: nat, j: nat)
    requires Ok(c, s) && i < |s.running| && j < |s.running[i]|
    ensures Plan(c, s.running, s.now)[i][j].pending > 0 ==> (s.running[i][j].Prefilling() <==> HasSum(s.running))
    ensures !HasSum(s.running) ==> Plan(c, s.running, s.now)[i][j].pending == 1
  {
    assert Sound(s.running[i][j], s.now);
    SumElement(s.running[i], j, Waiting);
  }

  lemma {:induction false} ShareBound(b: Batch, share: nat, now: Time)
    requires forall i | 0 <= i < |b| :: b[i].pending == 0
    ensures Sum(seq(|b|, i requires 0 <= i < |b| => Schedule(b[i], share, true, now)), Pending) <= share * Sum(b, Waiting)
  {
    var p := seq(|b|, i requires 0 <= i < |b| => Schedule(b[i], share, true, now));
    if b != [] {
      var n := |b| - 1;
      ShareBound(b[..n], share, now);
      assert p[..n] == seq(n, i requires 0 <= i < n => Schedule(b[..n][i], share, true, now));
      assert share * (Sum(b[..n], Waiting) + 1) == share * Sum(b[..n], Waiting) + share;
    }
  }

  /** A rank's prefill tokens never exceed the budget. */
  lemma PrefillBudget(c: Config, s: State, i: nat)
    requires Ok(c, s) && i < |s.running| && HasSum(s.running)
    ensures Sum(Plan(c, s.running, s.now)[i], Pending) <= c.budget
  {
    var b := s.running[i];
    forall j | 0 <= j < |b| ensures b[j].pending == 0 { assert Sound(b[j], s.now); }
    ShareBound(b, Share(c, b), s.now);
    if Sums(b) > 0 { ShareFits(c.budget, Sums(b)); }
  }

  /** The quotient as a share: as much as fits n times. */
  lemma ShareFits(a: nat, n: nat)
    requires n > 0
    ensures a / n * n <= a < (a / n + 1) * n
  {
    assert a == a / n * n + a % n;
  }

  /** The positions of the requests that are still prefilling. */
  function PrefillingAt(b: Batch): set<nat> { set k: nat | k < |b| && b[k].Prefilling() }

  lemma {:induction false} SumsCounts(b: Batch)
    ensures Sums(b) == |PrefillingAt(b)|
  {
    if b != [] {
      var n := |b| - 1;
      SumsCounts(b[..n]);
      assert PrefillingAt(b) == PrefillingAt(b[..n]) + if b[n].Prefilling() then {n} else {};
    }
  }

  /** In a prefill step a prefilling resident gets all it still has to prefill or, if
      that is more, an equal share of the budget, rounded down. */
  lemma PrefillShare(c: Config, s: State, i: nat, j: nat)
    requires i < |s.running| && j < |s.running[i]| && s.running[i][j].Prefilling()
    ensures var r, n, pending := s.running[i][j], |PrefillingAt(s.running[i])|, Plan(c, s.running, s.now)[i][j].pending;
      && n > 0 && HasSum(s.running) && pending <= r.input - r.current
      && (pending == r.input - r.current || pending * n <= c.budget < (pending + 1) * n)
      && (pending * n <= c.budget)
  {
    var n := Sums(s.running[i]);
    SumsCounts(s.running[i]);
    SumElement(s.running[i], j, Waiting);
    ShareFits(c.budget, n);
    Quotients.MulMono(Plan(c, s.running, s.now)[i][j].pending, c.budget / n, n);
  }

  /** The shares are fair: who is left short has got at least as much as any other. */
  lemma ShortIsServed(c: Config, s: State, i: nat, j: nat, k: nat)
    requires i < |s.running| && j < |s.running[i]| && k < |s.running[i]|
    requires s.running[i][j].Prefilling() && s.running[i][k].Prefilling()
    requires Plan(c, s.running, s.now)[i][j].pending < s.running[i][j].input - s.running[i][j].current
    ensures Plan(c, s.running, s.now)[i][k].pending <= Plan(c, s.running, s.now)[i][j].pending
  {
    SumElement(s.running[i], j, Waiting);
  }

  /** A prefill step completes the prefill of resident k of rank i. */
  predicate FinishesPrefill(c: Config, s: State, i: nat, k: nat)
    requires i < |s.running| && k < |s.running[i]|
  {
    var r := s.running[i][k];
    r.Prefilling() && Plan(c, s.running, s.now)[i][k].pending == r.input - r.current
  }

  lemma {:induction false} ShareUsed(b: Batch, p: Batch, share: nat)
    requires |p| == |b| && forall i | 0 <= i < |b| :: b[i].Prefilling() ==> p[i].pending == share
    ensures share * Sum(b, Waiting) <= Sum(p, Pending)
  {
    if b != [] {
      var n := |b| - 1;
      ShareUsed(b[..n], p[..n], share);
      assert share * (Sum(b[..n], Waiting) + 1) == share * Sum(b[..n], Waiting) + share;
    }
  }

  /** The budget of a rank is used up: either some resident completes its prefill, or
      what is left of the budget is less than one token for each. */
  lemma BudgetIsUsed(c: Config, s: State, i: nat)
    requires i < |s.running| && PrefillingAt(s.running[i]) != {}
    ensures (exists k | 0 <= k < |s.running[i]| :: FinishesPrefill(c, s, i, k))
            || c.budget < Sum(Plan(c, s.running, s.now)[i], Pending) + |PrefillingAt(s.running[i])|
  {
    SumsCounts(s.running[i]);
    if forall k | 0 <= k < |s.running[i]| :: !FinishesPrefill(c, s, i, k) { AllLeftShort(c, s, i); }
  }

  lemma AllLeftShort(c: Config, s: State, i: nat)
    requires i < |s.running| && Sums(s.running[i]) > 0
    requires forall k | 0 <= k < |s.running[i]| :: !FinishesPrefill(c, s, i, k)
    ensures c.budget < Sum(Plan(c, s.running, s.now)[i], Pending) + Sums(s.running[i])
  {
    var b, p := s.running[i], Plan(c, s.running, s.now)[i];
    forall k | 0 <= k < |b| && b[k].Prefilling() ensures p[k].pending == Share(c, b) { LeftShort(c, s, i, k); }
    ShareUsed(b, p, Share(c, b));
    BudgetBelow(c.budget, Sums(b), Share(c, b), Sum(p, Pending));
  }

  lemma BudgetBelow(budget: nat, n: nat, share: nat, used: nat)
    requires n > 0 && share == budget / n && share * n <= used
    ensures budget < used + n
  {
    ShareFits(budget, n);
  }

  lemma LeftShort(c: Config, s: State, i: nat, k: nat)
    requires i < |s.running| && k < |s.running[i]| && s.running[i][k].Prefilling() && !FinishesPrefill(c, s, i, k)
    ensures Plan(c, s.running, s.now)[i][k].pending == Share(c, s.running[i])
  {
    PrefillPlan(c, s, i, k);
  }

  lemma PrefillPlan(c: Config, s: State, i: nat, k: nat)
    requires i < |s.running| && k < |s.running[i]| && s.running[i][k].Prefilling()
    ensures Plan(c, s.running, s.now)[i][k].pending == Min(Share(c, s.running[i]), s.running[i][k].input - s.running[i][k].current)
  {
    SumElement(s.running[i], k, Waiting);
  }

  /** A request once the step has run it: prefill lands on `input` at most and
      decode moves by one, so it lands on `total` exactly. */
  lemma Landing(c: Config, s: State, i: nat, j: nat, time: Time)
    requires Ok(c, s) && i < |s.running| && j < |s.running[i]|
    ensures var r, x := s.running[i][j], Update(Plan(c, s.running, s.now)[i][j], time);
      && (x.id, x.input, x.total, x.record, x.genStart, x.pending) == (r.id, r.input, r.total, r.record, r.genStart, 0)
      && r.current <= x.current <= x.total
      && (r.Prefilling() ==> x.current <= x.input && HasSum(s.running))
      && (!r.Prefilling() ==> x.current == r.current + if HasSum(s.running) then 0 else 1)
      && (x.sumStage <==> r.sumStage && x.current != x.input)
      && (!r.sumStage ==> x.firstTime == r.firstTime)
  {
    assert Sound(s.running[i][j], s.now);
    SumElement(s.running[i], j, Waiting);
  }

  // ----- Sums over one step -----

  /** The batches a step hands to filling. */
  function Settled(c: Config, s: State, step: Step): (r: seq<Batch>)
    ensures |r| == |s.running|
  {
    var planned := Plan(c, s.running, s.now);
    match step
    case Warmup(_) => KeptAll(planned, 0.0)
    case Iterate(time, _) =>
      StampAll(KeptAll(planned, time), OutAll(planned, time), s.now + time)
  }

  predicate Skipped(c: Config, s: State, step: Step) {
    step.Iterate? && Total(Plan(c, s.running, s.now), Pending) == 0
  }

  function TimeOf(step: Step): Time { if step.Warmup? then 0.0 else step.time }

  function Updated(c: Config, s: State, step: Step): State {
    s.(running := Settled(c, s, step), now := s.now + TimeOf(step))
  }

  /** The state filling starts from. */
  function BeforeFill(c: Config, s: State, step: Step): State {
    Enqueue(Updated(c, s, step), step.arrivals)
  }

  function Refilled(c: Config, s: State, step: Step): State {
    FillRunning(c, BeforeFill(c, s, step))
  }

  function Returned(c: Config, s: State, step: Step): seq<Request> {
    OutAll(Plan(c, s.running, s.now), TimeOf(step))
  }

  lemma StepShape(c: Config, s: State, step: Step)
    requires !Skipped(c, s, step)
    ensures StepOf(c, s, step) == Outcome(Refilled(c, s, step), Returned(c, s, step))
  {
  }

  /** f does not look at the stamp. */
  ghost predicate StampFree(f: Request -> nat) {
    forall r: Request, t: Time :: f(r.(genStart := t)) == f(r)
  }

  lemma SettledSum(c: Config, s: State, step: Step, f: Request -> nat)
    requires StampFree(f)
    ensures Total(Settled(c, s, step), f) == Total(KeptAll(Plan(c, s.running, s.now), TimeOf(step)), f)
  {
    var kept, r := KeptAll(Plan(c, s.running, s.now), TimeOf(step)), Settled(c, s, step);
    forall i | 0 <= i < |kept| ensures Sum(r[i], f) == Sum(kept[i], f) {
      forall j | 0 <= j < |kept[i]| ensures f(r[i][j]) == f(kept[i][j]) {
        assert r[i][j] == kept[i][j] || r[i][j] == kept[i][j].(genStart := s.now + TimeOf(step));
      }
      SumAgrees(r[i], kept[i], f, f);
    }
    TotalAgrees(r, kept, f, f);
  }

  /** If the parts of every advanced request add up to h, so do the sums. */
  lemma StepSum(c: Config, s: State, step: Step, f: Request -> nat, g: Request -> nat, h: Request -> nat)
    requires StampFree(f)
    requires forall i, j | 0 <= i < |s.running| && 0 <= j < |s.running[i]| ::
      Parts(f, g, Update(Plan(c, s.running, s.now)[i][j], TimeOf(step))) == h(s.running[i][j])
    ensures Total(Settled(c, s, step), f) + Sum(OutAll(Plan(c, s.running, s.now), TimeOf(step)), g) == Total(s.running, h)
  {
    var p, time := Plan(c, s.running, s.now), TimeOf(step);
    var k := (x: Request) => Parts(f, g, Update(x, time));
    SplitAll(p, time, f, g, k);
    forall i | 0 <= i < |p| ensures Sum(p[i], k) == Sum(s.running[i], h) { SumAgrees(p[i], s.running[i], k, h); }
    TotalAgrees(p, s.running, k, h);
    SettledSum(c, s, step, f);
  }

  lemma TotalPointwise(x: seq<Batch>, y: seq<Batch>, k: Request -> nat, h: Request -> nat)
    requires |x| == |y| && forall i | 0 <= i < |x| :: |x[i]| == |y[i]|
    requires forall i, j | 0 <= i < |x| && 0 <= j < |x[i]| :: k(x[i][j]) <= h(y[i][j])
    ensures Total(x, k) <= Total(y, h)
  {
    forall i | 0 <= i < |x| ensures Sum(x[i], k) <= Sum(y[i], h) { SumAtMost(x[i], y[i], k, h); }
    TotalAtMost(x, y, k, h);
  }

  lemma TotalStrict(x: seq<Batch>, y: seq<Batch>, k: Request -> nat, h: Request -> nat, a: nat, b: nat)
    requires |x| == |y| && forall i | 0 <= i < |x| :: |x[i]| == |y[i]|
    requires forall i, j | 0 <= i < |x| && 0 <= j < |x[i]| :: k(x[i][j]) <= h(y[i][j])
    requires a < |x| && b < |x[a]| && k(x[a][b]) < h(y[a][b])
    ensures Total(x, k) < Total(y, h)
  {
    forall i | 0 <= i < |x| ensures Sum(x[i], k) <= Sum(y[i], h) { SumAtMost(x[i], y[i], k, h); }
    SumAtMost(x[a], y[a], k, h);
    TotalAtMost(x, y, k, h);
  }

  /** f of what stays of a planned request after the update. */
  function Rest(f: Request -> nat, time: Time): Request -> nat {
    (x: Request) => Parts(f, Zero, Update(x, time))
  }

  /** What a step leaves of the requests, measured by f: the parts of the plan. */
  lemma StepRest(c: Config, s: State, step: Step, f: Request -> nat)
    requires StampFree(f)
    ensures Total(Settled(c, s, step), f) ==
            Total(Plan(c, s.running, s.now), Rest(f, TimeOf(step)))
  {
    var p, rest := Plan(c, s.running, s.now), Rest(f, TimeOf(step));
    SplitAll(p, TimeOf(step), f, Zero, rest);
    SumZero(OutAll(p, TimeOf(step)));
    SettledSum(c, s, step, f);
  }

  lemma {:induction false} SumZero(b: Batch)
    ensures Sum(b, Zero) == 0
  {
    if b != [] { SumZero(b[..|b| - 1]); }
  }

  // ----- One step keeps the invariant -----

  lemma {:induction false} EnqueueSum(s: State, arrivals: seq<Arrival>, f: Request -> nat)
    requires forall a: Arrival, id: nat | a in arrivals && s.nextId <= id < s.nextId + |arrivals| :: f(Admit(a, id)) == 0
    ensures Sum(Enqueue(s, arrivals).queue, f) == Sum(s.queue, f)
    ensures Enqueue(s, arrivals).nextId == s.nextId + |arrivals|
  {
    if arrivals != [] {
      var p := Enqueue(s, arrivals[..|arrivals| - 1]);
      EnqueueSum(s, arrivals[..|arrivals| - 1], f);
      SumAppend(p.queue, [Admit(arrivals[|arrivals| - 1], p.nextId)], f);
      assert p.queue + [Admit(arrivals[|arrivals| - 1], p.nextId)] == Enqueue(s, arrivals).queue;
    }
  }

  /** Arrivals join the queue at its end, in order, with the next ids, their lengths and
      what of them is cached, and with nothing run. */
  lemma {:induction false} EnqueueInOrder(s: State, arrivals: seq<Arrival>)
    ensures var t := Enqueue(s, arrivals);
      && t.nextId == s.nextId + |arrivals| && |t.queue| == |s.queue| + |arrivals| && s.queue <= t.queue
      && forall i: nat | i < |arrivals| :: t.queue[|s.queue| + i] ==
           Request(s.nextId + i, arrivals[i].input, arrivals[i].total, arrivals[i].cached, 0, true, false, 0, 0.0, 0.0, 0.0)
  {
    if arrivals != [] { EnqueueInOrder(s, arrivals[..|arrivals| - 1]); }
  }

  /** New requests get the next ids, each once. */
  lemma {:induction false} EnqueueIds(s: State, arrivals: seq<Arrival>, id: nat)
    ensures var t := Enqueue(s, arrivals);
      && t.nextId == s.nextId + |arrivals| && s.queue <= t.queue
      && Sum(t.queue, Counting(id)) == Sum(s.queue, Counting(id)) + if s.nextId <= id < t.nextId then 1 else 0
  {
    if arrivals != [] {
      var p := Enqueue(s, arrivals[..|arrivals| - 1]);
      EnqueueIds(s, arrivals[..|arrivals| - 1], id);
    }
  }

  lemma {:induction false} EnqueueSound(s: State, arrivals: seq<Arrival>)
    requires AllSound(s.queue, s.now) && forall i | 0 <= i < |arrivals| :: ArrivalOk(arrivals[i])
    ensures AllSound(Enqueue(s, arrivals).queue, s.now)
  {
    if arrivals != [] { EnqueueSound(s, arrivals[..|arrivals| - 1]); }
  }

  lemma {:induction false} KeptFrom(b: Batch, k: nat)
    requires k < |Kept(b)|
    ensures exists i :: 0 <= i < |b| && !b[i].Done() && Kept(b)[k] == Mark(b[i])
  {
    var n := |b| - 1;
    if k < |Kept(b[..n])| {
      KeptFrom(b[..n], k);
      var i :| 0 <= i < n && !b[..n][i].Done() && Kept(b[..n])[k] == Mark(b[..n][i]);
      assert b[..n][i] == b[i];
    }
  }

  /** The requests that stay in a batch keep their order. */
  lemma {:induction false} KeptInOrder(b: Batch, k: nat, l: nat) returns (i: nat, j: nat)
    requires k < l < |Kept(b)|
    ensures i < j < |b| && Kept(b)[k] == Mark(b[i]) && Kept(b)[l] == Mark(b[j])
  {
    var n := |b| - 1;
    if l < |Kept(b[..n])| {
      i, j := KeptInOrder(b[..n], k, l);
    } else {
      KeptFrom(b[..n], k);
      i :| 0 <= i < n && !b[..n][i].Done() && Kept(b[..n])[k] == Mark(b[..n][i]);
      j := n;
    }
  }

  lemma {:induction false} KeptShorter(b: Batch)
    ensures |Kept(b)| <= |b|
  {
    if b != [] { KeptShorter(b[..|b| - 1]); }
  }

  lemma SettledSound(c: Config, s: State, step: Step, i: nat)
    requires Ok(c, s) && i < |s.running|
    ensures AllSound(Settled(c, s, step)[i], s.now + TimeOf(step)) && |Settled(c, s, step)[i]| <= |s.running[i]|
  {
    var time, p := TimeOf(step), Plan(c, s.running, s.now);
    var u := UpdateBatch(p[i], time);
    KeptShorter(u);
    forall k | 0 <= k < |Kept(u)| ensures Sound(Kept(u)[k], s.now + time) {
      KeptFrom(u, k);
      var j :| 0 <= j < |u| && !u[j].Done() && Kept(u)[k] == Mark(u[j]);
      Landing(c, s, i, j, time);
      assert Sound(s.running[i][j], s.now);
    }
  }

  lemma SettledIds(c: Config, s: State, step: Step, id: nat)
    requires Ok(c, s)
    ensures Total(Settled(c, s, step), Counting(id)) + Sum(OutAll(Plan(c, s.running, s.now), TimeOf(step)), DoneOf(id))
            == Total(s.running, Counting(id))
  {
    forall i, j | 0 <= i < |s.running| && 0 <= j < |s.running[i]|
      ensures Parts(Counting(id), DoneOf(id), Update(Plan(c, s.running, s.now)[i][j], TimeOf(step))) == Counting(id)(s.running[i][j])
    {
      Landing(c, s, i, j, TimeOf(step));
    }
    StepSum(c, s, step, Counting(id), DoneOf(id), Counting(id));
  }

  /** A skipped step changes nothing. */
  lemma SkipIsIdentity(c: Config, s: State, step: Step)
    requires Ok(c, s) && Skipped(c, s, step)
    ensures StepOf(c, s, step) == Outcome(s, [])
  {
    var p := Plan(c, s.running, s.now);
    forall i | 0 <= i < |p| ensures p[i] == s.running[i] {
      forall j | 0 <= j < |p[i]| ensures p[i][j] == s.running[i][j] {
        TotalRank(p, i, Pending);
        SumElement(p[i], j, Pending);
        assert Sound(s.running[i][j], s.now);
      }
    }
    assert p == s.running;
  }

  lemma EnqueueKeeps(c: Config, s: State, step: Step)
    requires Ok(c, s) && StepOk(step)
    ensures AllSound(BeforeFill(c, s, step).queue, s.now + TimeOf(step))
  {
    forall i | 0 <= i < |s.queue| ensures Sound(s.queue[i], s.now + TimeOf(step)) { assert Sound(s.queue[i], s.now); }
    EnqueueSound(Updated(c, s, step), step.arrivals);
  }

  lemma FilledSound(m: State, t: State, cap: nat, k: nat)
    requires Admitted(m, t, cap, k) && AllSound(m.queue, m.now)
    requires forall i | 0 <= i < |m.running| :: AllSound(m.running[i], m.now)
    ensures AllSound(t.queue, t.now) && forall i | 0 <= i < |t.running| :: AllSound(t.running[i], t.now)
  {
    forall i | 0 <= i < |t.running| ensures AllSound(t.running[i], t.now) {
      assert Grown(m.running[i], t.running[i], m.queue[..k], cap);
      forall j | 0 <= j < |t.running[i]| ensures Sound(t.running[i][j], t.now) {
        if j < |m.running[i]| { assert t.running[i][j] == m.running[i][j]; }
      }
    }
  }

  lemma SettledFits(c: Config, s: State, step: Step)
    requires Ok(c, s)
    ensures Fits(c, BeforeFill(c, s, step).running)
    ensures forall i | 0 <= i < |s.running| :: AllSound(BeforeFill(c, s, step).running[i], s.now + TimeOf(step))
  {
    forall i | 0 <= i < |s.running|
      ensures AllSound(Settled(c, s, step)[i], s.now + TimeOf(step)) && |Settled(c, s, step)[i]| <= |s.running[i]|
    {
      SettledSound(c, s, step, i);
    }
  }

  lemma IdsKept(c: Config, s: State, step: Step, id: nat)
    requires Ok(c, s)
    ensures Refilled(c, s, step).nextId == s.nextId + |step.arrivals|
    ensures Total(Refilled(c, s, step).running, Counting(id)) + Sum(Refilled(c, s, step).queue, Counting(id))
            + Sum(Returned(c, s, step), DoneOf(id))
            == Total(s.running, Counting(id)) + Sum(s.queue, Counting(id))
            + if s.nextId <= id < s.nextId + |step.arrivals| then 1 else 0
  {
    SettledFits(c, s, step);
    FillRunningSum(c, BeforeFill(c, s, step), Counting(id));
    SettledIds(c, s, step, id);
    EnqueueIds(Updated(c, s, step), step.arrivals, id);
  }

  lemma RefilledSound(c: Config, s: State, step: Step)
    requires Ok(c, s) && StepOk(step)
    ensures var t := Refilled(c, s, step);
      Fits(c, t.running) && AllSound(t.queue, t.now) && forall i | 0 <= i < |t.running| :: AllSound(t.running[i], t.now)
  {
    SettledFits(c, s, step);
    EnqueueKeeps(c, s, step);
    var k := FillRunningEffect(c, BeforeFill(c, s, step));
    FilledSound(BeforeFill(c, s, step), Refilled(c, s, step), c.perRank, k);
  }

  /** Every step keeps the invariant: unique ids, no resident at its end, no
      pending tokens at a step boundary, batches within their size. */
  lemma StepKeepsOk(c: Config, s: State, step: Step)
    requires Ok(c, s) && StepOk(step)
    ensures Ok(c, StepOf(c, s, step).state)
  {
    if Skipped(c, s, step) {
      SkipIsIdentity(c, s, step);
    } else {
      StepShape(c, s, step);
      RefilledSound(c, s, step);
      forall id: nat ensures IdOk(Refilled(c, s, step), id) {
        assert IdOk(s, id);
        IdsKept(c, s, step, id);
      }
    }
  }

  // ----- Reported exactly once -----

  /** At step boundaries the stage flag and the record flag both tell whether
      the request has run its whole input. */
  ghost predicate Tracked(r: Request) {
    r.input < r.total && (r.sumStage <==> r.Prefilling()) && (r.record <==> !r.Prefilling())
  }

  ghost predicate TracksIn(b: Batch, id: nat) {
    forall i | 0 <= i < |b| :: b[i].id == id ==> Tracked(b[i])
  }

  ghost predicate Tracks(s: State, id: nat) {
    TracksIn(s.queue, id) && forall i | 0 <= i < |s.running| :: TracksIn(s.running[i], id)
  }

  lemma ReportParts(c: Config, s: State, i: nat, j: nat, time: Time, id: nat)
    requires Ok(c, s) && i < |s.running| && j < |s.running[i]|
    requires s.running[i][j].id == id ==> Tracked(s.running[i][j])
    ensures var r, x := s.running[i][j], Update(Plan(c, s.running, s.now)[i][j], time);
      && Parts(Unreported(id), FirstOf(id), x) == Unreported(id)(r)
      && (r.id == id && !x.Done() ==> Tracked(Mark(x)))
  {
    Landing(c, s, i, j, time);
  }

  lemma SettledReports(c: Config, s: State, step: Step, id: nat)
    requires Ok(c, s) && Tracks(s, id)
    ensures Total(Settled(c, s, step), Unreported(id)) + Sum(Returned(c, s, step), FirstOf(id)) == Total(s.running, Unreported(id))
  {
    forall i, j | 0 <= i < |s.running| && 0 <= j < |s.running[i]|
      ensures Parts(Unreported(id), FirstOf(id), Update(Plan(c, s.running, s.now)[i][j], TimeOf(step))) == Unreported(id)(s.running[i][j])
    {
      assert TracksIn(s.running[i], id);
      ReportParts(c, s, i, j, TimeOf(step), id);
    }
    StepSum(c, s, step, Unreported(id), FirstOf(id), Unreported(id));
  }

  lemma SettledTracks(c: Config, s: State, step: Step, id: nat, i: nat)
    requires Ok(c, s) && Tracks(s, id) && i < |s.running|
    ensures TracksIn(Settled(c, s, step)[i], id)
  {
    var time, p := TimeOf(step), Plan(c, s.running, s.now);
    var u := UpdateBatch(p[i], time);
    assert TracksIn(s.running[i], id);
    forall k | 0 <= k < |Kept(u)| && Kept(u)[k].id == id ensures Tracked(Kept(u)[k]) {
      KeptFrom(u, k);
      var j :| 0 <= j < |u| && !u[j].Done() && Kept(u)[k] == Mark(u[j]);
      Landing(c, s, i, j, time);
      ReportParts(c, s, i, j, time, id);
    }
  }

  /** Request `id` is in the system already, so no new arrival takes its id. */
  lemma {:induction false} EnqueueTracks(s: State, arrivals: seq<Arrival>, id: nat)
    requires TracksIn(s.queue, id) && id < s.nextId
    ensures TracksIn(Enqueue(s, arrivals).queue, id)
    ensures Sum(Enqueue(s, arrivals).queue, Unreported(id)) == Sum(s.queue, Unreported(id))
    ensures Enqueue(s, arrivals).nextId == s.nextId + |arrivals|
  {
    if arrivals != [] {
      var p := Enqueue(s, arrivals[..|arrivals| - 1]);
      EnqueueTracks(s, arrivals[..|arrivals| - 1], id);
    }
  }

  lemma FilledTracks(m: State, t: State, cap: nat, k: nat, id: nat)
    requires Admitted(m, t, cap, k) && Tracks(m, id)
    ensures Tracks(t, id)
  {
    forall i | 0 <= i < |t.running| ensures TracksIn(t.running[i], id) {
      assert Grown(m.running[i], t.running[i], m.queue[..k], cap) && TracksIn(m.running[i], id);
      forall j | 0 <= j < |t.running[i]| && t.running[i][j].id == id ensures Tracked(t.running[i][j]) {
        if j < |m.running[i]| { assert t.running[i][j] == m.running[i][j]; }
      }
    }
  }

  /** One step: what is returned of request `id` is what it stops owing. */
  lemma StepReports(c: Config, s: State, step: Step, id: nat)
    requires Ok(c, s) && StepOk(step) && Tracks(s, id) && id < s.nextId
    ensures var o := StepOf(c, s, step);
      && Tracks(o.state, id) && id < o.state.nextId
      && Owed(o.state, Counting(id)) + Sum(o.out, DoneOf(id)) == Owed(s, Counting(id))
      && Owed(o.state, Unreported(id)) + Sum(o.out, FirstOf(id)) == Owed(s, Unreported(id))
  {
    if Skipped(c, s, step) {
      SkipIsIdentity(c, s, step);
    } else {
      StepShape(c, s, step);
      IdsKept(c, s, step, id);
      SettledFits(c, s, step);
      StepTracks(c, s, step, id);
      FillRunningSum(c, BeforeFill(c, s, step), Unreported(id));
      SettledReports(c, s, step, id);
    }
  }

  lemma StepTracks(c: Config, s: State, step: Step, id: nat)
    requires Ok(c, s) && Tracks(s, id) && id < s.nextId
    ensures Tracks(Refilled(c, s, step), id)
    ensures Sum(BeforeFill(c, s, step).queue, Unreported(id)) == Sum(s.queue, Unreported(id))
  {
    SettledFits(c, s, step);
    forall i | 0 <= i < |s.running| ensures TracksIn(Settled(c, s, step)[i], id) { SettledTracks(c, s, step, id, i); }
    EnqueueTracks(Updated(c, s, step), step.arrivals, id);
    var k := FillRunningEffect(c, BeforeFill(c, s, step));
    FilledTracks(BeforeFill(c, s, step), Refilled(c, s, step), c.perRank, k, id);
  }

  /** A sum over every request in the system. */
  function Owed(s: State, f: Request -> nat): nat { Total(s.running, f) + Sum(s.queue, f) }

  /** A run, with everything it returned. */
  function Run(c: Config, s: State, steps: seq<Step>): Outcome {
    if steps == [] then Outcome(s, [])
    else
      var o := Run(c, s, steps[..|steps| - 1]);
      var p := StepOf(c, o.state, steps[|steps| - 1]);
      Outcome(p.state, o.out + p.out)
  }

  lemma {:induction false} RunKeepsOk(c: Config, s: State, steps: seq<Step>)
    requires Ok(c, s) && forall i | 0 <= i < |steps| :: StepOk(steps[i])
    ensures Ok(c, Run(c, s, steps).state)
  {
    if steps != [] {
      RunKeepsOk(c, s, steps[..|steps| - 1]);
      StepKeepsOk(c, Run(c, s, steps[..|steps| - 1]).state, steps[|steps| - 1]);
    }
  }

  lemma {:induction false} RunReports(c: Config, s: State, steps: seq<Step>, id: nat)
    requires Ok(c, s) && Tracks(s, id) && id < s.nextId && forall i | 0 <= i < |steps| :: StepOk(steps[i])
    ensures var o := Run(c, s, steps);
      && Ok(c, o.state) && Tracks(o.state, id) && id < o.state.nextId
      && Owed(o.state, Counting(id)) + Sum(o.out, DoneOf(id)) == Owed(s, Counting(id))
      && Owed(o.state, Unreported(id)) + Sum(o.out, FirstOf(id)) == Owed(s, Unreported(id))
  {
    if steps != [] {
      var n := |steps| - 1;
      var o := Run(c, s, steps[..n]);
      RunReports(c, s, steps[..n], id);
      StepKeepsOk(c, o.state, steps[n]);
      StepReports(c, o.state, steps[n], id);
      SumAppend(o.out, StepOf(c, o.state, steps[n]).out, DoneOf(id));
      SumAppend(o.out, StepOf(c, o.state, steps[n]).out, FirstOf(id));
    }
  }

  lemma {:induction false} UnreportedAtMost(b: Batch, id: nat)
    ensures Sum(b, Unreported(id)) <= Sum(b, Counting(id))
  {
    if b != [] { UnreportedAtMost(b[..|b| - 1], id); }
  }

  /** A request waiting with current < input < total is returned, over any run,
      at most once as first token and at most once as completed; once it has
      left the system, exactly once as each. */
  lemma ReportedExactlyOnce(c: Config, s: State, steps: seq<Step>, id: nat)
    requires Ok(c, s) && Tracks(s, id) && forall i | 0 <= i < |steps| :: StepOk(steps[i])
    requires Owed(s, Counting(id)) == Owed(s, Unreported(id)) == 1
    ensures var o := Run(c, s, steps);
      && Sum(o.out, DoneOf(id)) == 1 - Owed(o.state, Counting(id))
      && Sum(o.out, FirstOf(id)) == 1 - Owed(o.state, Unreported(id))
      && Owed(o.state, Unreported(id)) <= Owed(o.state, Counting(id))
  {
    assert IdOk(s, id);
    RunReports(c, s, steps, id);
    var t := Run(c, s, steps).state;
    UnreportedAtMost(t.queue, id);
    forall i | 0 <= i < |t.running| ensures Sum(t.running[i], Unreported(id)) <= Sum(t.running[i], Counting(id)) {
      UnreportedAtMost(t.running[i], id);
    }
    TotalAtMost(t.running, t.running, Unreported(id), Counting(id));
  }

  /** A request that arrives with current < input < total starts out tracked. */
  lemma ArrivalIsTracked(c: Config, s: State, a: Arrival)
    requires Ok(c, s) && ArrivalOk(a) && a.cached < a.input < a.total
    ensures var t, id := Enqueue(s, [a]), s.nextId;
      Tracks(t, id) && Owed(t, Counting(id)) == Owed(t, Unreported(id)) == 1
  {
    var t, id := Enqueue(s, [a]), s.nextId;
    var arrivals := [a];
    assert arrivals[..|arrivals| - 1] == [];
    assert Enqueue(s, []) == s && t.queue == s.queue + [Admit(a, id)];
    assert IdOk(s, id);
    NoneWithId(s.queue, id);
    forall i | 0 <= i < |s.running| ensures TracksIn(s.running[i], id) {
      TotalRank(s.running, i, Counting(id));
      NoneWithId(s.running[i], id);
    }
    forall i | 0 <= i < |s.running| ensures Sum(s.running[i], Unreported(id)) <= Sum(s.running[i], Counting(id)) {
      UnreportedAtMost(s.running[i], id);
    }
    TotalAtMost(s.running, s.running, Unreported(id), Counting(id));
    UnreportedAtMost(s.queue, id);
  }

  lemma NoneWithId(b: Batch, id: nat)
    requires Sum(b, Counting(id)) == 0
    ensures forall i | 0 <= i < |b| :: b[i].id != id
  {
    forall i | 0 <= i < |b| ensures b[i].id != id { SumElement(b, i, Counting(id)); }
  }
}

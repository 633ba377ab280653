/** No request starves: every resident request completes and every queued one is
    admitted, for any arrivals of a fair mix; and a rank over its budget starves. */
module BatchingLiveness {
  import opened Batching
  import opened BatchingProofs
  import opened BatchingRuns
  import Quotients

  /** A request whose completion would be its first token. */
  function Short(r: Request): nat { if r.input < r.total then 0 else 1 }

  /** A request that decodes before it completes. */
  function Long(r: Request): nat { if r.input < r.total then 1 else 0 }

  function DoneUnit(r: Request): nat { if r.Done() then 1 else 0 }

  /** The mixes of requests that starve nobody: all decode before they complete, none
      does, none has to prefill, or there is a single slot. */
  datatype Mix = Generating | PrefillOnly | Cached | SingleSlot

  ghost predicate Fair(c: Config, mix: Mix, s: State) {
    match mix
    case Generating => c.perRank <= c.budget && Owed(s, Short) == 0
    case PrefillOnly => c.perRank <= c.budget && Owed(s, Long) == 0
    case Cached => Owed(s, Waiting) == 0
    case SingleSlot => c.perRank <= c.budget && Capacity(c, s.running) == 1
  }

  ghost predicate Live(c: Config, mix: Mix, s: State) {
    Ok(c, s) && 0 < c.perRank && Fair(c, mix, s)
  }

  predicate Suits(mix: Mix, a: Arrival) {
    match mix
    case Generating => a.input < a.total
    case PrefillOnly => a.input == a.total
    case Cached => a.cached == a.input
    case SingleSlot => true
  }

  predicate StepLive(mix: Mix, step: Step) {
    StepOk(step) && forall i | 0 <= i < |step.arrivals| :: Suits(mix, step.arrivals[i])
  }

  /** The queue is empty or every batch is full: what filling establishes. */
  ghost predicate Busy(c: Config, s: State) {
    s.queue == [] || AllFull(s.running, c.perRank)
  }

  lemma {:induction false} SumWitness(b: Batch, f: Request -> nat) returns (j: nat)
    requires Sum(b, f) > 0
    ensures j < |b| && f(b[j]) > 0
  {
    j := |b| - 1;
    if f(b[j]) == 0 { j := SumWitness(b[..j], f); }
  }

  lemma {:induction false} TotalWitness(running: seq<Batch>, f: Request -> nat) returns (i: nat, j: nat)
    requires Total(running, f) > 0
    ensures i < |running| && j < |running[i]| && f(running[i][j]) > 0
  {
    i := |running| - 1;
    if Sum(running[i], f) > 0 {
      j := SumWitness(running[i], f);
    } else {
      i, j := TotalWitness(running[..i], f);
    }
  }

  lemma TotalElement(running: seq<Batch>, i: nat, j: nat, f: Request -> nat)
    requires i < |running| && j < |running[i]|
    ensures f(running[i][j]) <= Total(running, f)
  {
    SumElement(running[i], j, f);
    TotalRank(running, i, f);
  }

  lemma SomePrefilling(c: Config, s: State) returns (a: nat, b: nat)
    requires HasSum(s.running)
    ensures a < |s.running| && b < |s.running[a]| && s.running[a][b].Prefilling()
  {
    a :| 0 <= a < |s.running| && Sums(s.running[a]) > 0;
    b := SumWitness(s.running[a], Waiting);
  }

  lemma PrefillMeansBudget(c: Config, mix: Mix, s: State)
    requires Live(c, mix, s) && HasSum(s.running)
    ensures mix != Cached && c.perRank <= c.budget
  {
    var a, b := SomePrefilling(c, s);
    TotalElement(s.running, a, b, Waiting);
  }

  /** In a prefill step every prefilling resident of a live state gets a token. */
  lemma PrefillAdvances(c: Config, mix: Mix, s: State, a: nat, b: nat)
    requires Live(c, mix, s) && a < |s.running| && b < |s.running[a]| && s.running[a][b].Prefilling()
    ensures HasSum(s.running) && Plan(c, s.running, s.now)[a][b].pending > 0
  {
    SumElement(s.running[a], b, Waiting);
    assert HasSum(s.running);
    PrefillMeansBudget(c, mix, s);
    SumsAtMost(s.running[a]);
    DivideAtLeastOne(c.budget, Sums(s.running[a]));
  }

  /** Some prefilling resident gets a token whenever prefill runs, and every resident
      gets one when decode runs. */
  lemma SomeoneAdvances(c: Config, mix: Mix, s: State, i: nat, j: nat) returns (a: nat, b: nat)
    requires Live(c, mix, s) && i < |s.running| && j < |s.running[i]|
    ensures a < |s.running| && b < |s.running[a]| && Plan(c, s.running, s.now)[a][b].pending > 0
    ensures HasSum(s.running) ==> s.running[a][b].Prefilling()
    ensures !HasSum(s.running) ==> (a, b) == (i, j)
  {
    a, b := i, j;
    if HasSum(s.running) {
      a, b := SomePrefilling(c, s);
      PrefillAdvances(c, mix, s, a, b);
    } else {
      OnePhase(c, s, i, j);
    }
  }

  lemma DivideAtLeastOne(a: nat, n: nat)
    requires 0 < n <= a
    ensures a / n >= 1
  {
  }

  lemma SumsAtMost(b: Batch)
    ensures Sums(b) <= |b|
  {
    SumUnit(b);
    SumAtMost(b, b, Waiting, Unit);
  }

  lemma NotSkipped(c: Config, mix: Mix, s: State, step: Step, i: nat, j: nat)
    requires Live(c, mix, s) && i < |s.running| && j < |s.running[i]|
    ensures !Skipped(c, s, step)
  {
    var a, b := SomeoneAdvances(c, mix, s, i, j);
    TotalElement(Plan(c, s.running, s.now), a, b, Pending);
  }

  // ----- What one step does to the measure -----

  lemma RestIs(f: Request -> nat, x: Request, time: Time)
    ensures Rest(f, time)(x) == if Update(x, time).Done() then 0 else f(Mark(Update(x, time)))
  {
  }

  lemma MarkedFields(x: Request, time: Time)
    ensures var u := Mark(Update(x, time));
      (u.id, u.input, u.total, u.current) == (x.id, x.input, x.total, x.current + x.pending)
    ensures Update(x, time).Done() <==> x.current + x.pending == x.total
  {
  }

  /** What stays of a request once x.pending of its tokens have run. */
  lemma RestOfLeft(r: Request, x: Request, time: Time, id: nat)
    requires r.current < r.total && x == r.(pending := x.pending) && r.current + x.pending <= r.total
    ensures Rest(Left(id), time)(x) + (if r.id == id then x.pending else 0) == Left(id)(r)
  {
    RestIs(Left(id), x, time);
    MarkedFields(x, time);
  }

  lemma RestOfPrefill(r: Request, x: Request, time: Time)
    requires r.current < r.total && r.input <= r.total && x == r.(pending := x.pending) && r.current + x.pending <= r.total
    requires r.Prefilling() ==> r.current + x.pending <= r.input
    ensures Rest(ToPrefill, time)(x) + (if r.Prefilling() then x.pending else 0) == ToPrefill(r)
  {
    RestIs(ToPrefill, x, time);
    MarkedFields(x, time);
  }

  lemma RestOfShort(x: Request, time: Time)
    ensures Rest(Short, time)(x) <= Short(x)
  {
    RestIs(Short, x, time);
    MarkedFields(x, time);
  }

  lemma RestOfKinds(r: Request, x: Request, time: Time)
    requires x == r.(pending := x.pending)
    ensures Rest(Long, time)(x) <= Long(r) && Rest(Waiting, time)(x) <= Waiting(r)
  {
    RestIs(Long, x, time);
    RestIs(Waiting, x, time);
    MarkedFields(x, time);
  }

  /** Planning only sets the pending tokens, within the request's own bounds. */
  lemma PlannedWithin(c: Config, s: State, i: nat, j: nat)
    requires Ok(c, s) && i < |s.running| && j < |s.running[i]|
    ensures var r, x := s.running[i][j], Plan(c, s.running, s.now)[i][j];
      && x == r.(pending := x.pending) && r.current < r.total && r.input <= r.total
      && r.current + x.pending <= if r.Prefilling() then r.input else r.total
  {
    assert Sound(s.running[i][j], s.now);
  }

  lemma RestPoint(c: Config, s: State, time: Time, id: nat, i: nat, j: nat)
    requires Ok(c, s) && i < |s.running| && j < |s.running[i]|
    ensures var r, x := s.running[i][j], Plan(c, s.running, s.now)[i][j];
      && Rest(Left(id), time)(x) + (if r.id == id then x.pending else 0) == Left(id)(r)
      && Rest(ToPrefill, time)(x) + (if r.Prefilling() then x.pending else 0) == ToPrefill(r)
      && Rest(Short, time)(x) <= Short(r) && Rest(Long, time)(x) <= Long(r) && Rest(Waiting, time)(x) <= Waiting(r)
  {
    PlannedWithin(c, s, i, j);
    var r, x := s.running[i][j], Plan(c, s.running, s.now)[i][j];
    RestOfLeft(r, x, time, id);
    RestOfPrefill(r, x, time);
    RestOfShort(x, time);
    RestOfKinds(r, x, time);
  }

  /** What stays of a resident request is, by f, at most what it was. */
  ghost predicate Shrinks(c: Config, s: State, step: Step, f: Request -> nat) {
    forall i, j | 0 <= i < |s.running| && 0 <= j < |s.running[i]| ::
      Rest(f, TimeOf(step))(Plan(c, s.running, s.now)[i][j]) <= f(s.running[i][j])
  }

  ghost predicate ShrinksAt(c: Config, s: State, step: Step, f: Request -> nat, a: nat, b: nat) {
    a < |s.running| && b < |s.running[a]|
    && Rest(f, TimeOf(step))(Plan(c, s.running, s.now)[a][b]) < f(s.running[a][b])
  }

  lemma StepShrinks(c: Config, s: State, step: Step, id: nat)
    requires Ok(c, s)
    ensures Shrinks(c, s, step, Left(id)) && Shrinks(c, s, step, ToPrefill) && Shrinks(c, s, step, Short)
    ensures StampFree(Left(id)) && StampFree(ToPrefill) && StampFree(Short)
  {
    forall i, j | 0 <= i < |s.running| && 0 <= j < |s.running[i]|
      ensures Rest(Left(id), TimeOf(step))(Plan(c, s.running, s.now)[i][j]) <= Left(id)(s.running[i][j])
      ensures Rest(ToPrefill, TimeOf(step))(Plan(c, s.running, s.now)[i][j]) <= ToPrefill(s.running[i][j])
      ensures Rest(Short, TimeOf(step))(Plan(c, s.running, s.now)[i][j]) <= Short(s.running[i][j])
    {
      RestPoint(c, s, TimeOf(step), id, i, j);
    }
  }

  lemma StepAtMost(c: Config, s: State, step: Step, f: Request -> nat)
    requires StampFree(f) && Shrinks(c, s, step, f)
    ensures Total(Settled(c, s, step), f) <= Total(s.running, f)
  {
    TotalPointwise(Plan(c, s.running, s.now), s.running, Rest(f, TimeOf(step)), f);
    StepRest(c, s, step, f);
  }

  lemma StepLess(c: Config, s: State, step: Step, f: Request -> nat, a: nat, b: nat)
    requires StampFree(f) && Shrinks(c, s, step, f) && ShrinksAt(c, s, step, f, a, b)
    ensures Total(Settled(c, s, step), f) < Total(s.running, f)
  {
    TotalStrict(Plan(c, s.running, s.now), s.running, Rest(f, TimeOf(step)), f, a, b);
    StepRest(c, s, step, f);
  }

  /** What is left of any request never grows. */
  lemma LeftShrinks(c: Config, s: State, step: Step, id: nat)
    requires Ok(c, s)
    ensures Total(Settled(c, s, step), Left(id)) <= Total(s.running, Left(id))
  {
    StepShrinks(c, s, step, id);
    StepAtMost(c, s, step, Left(id));
  }

  lemma KindsShrink(c: Config, s: State, step: Step)
    requires Ok(c, s)
    ensures Shrinks(c, s, step, Short) && Shrinks(c, s, step, Long) && Shrinks(c, s, step, Waiting)
    ensures StampFree(Short) && StampFree(Long) && StampFree(Waiting)
  {
    forall i, j | 0 <= i < |s.running| && 0 <= j < |s.running[i]|
      ensures Rest(Short, TimeOf(step))(Plan(c, s.running, s.now)[i][j]) <= Short(s.running[i][j])
      ensures Rest(Long, TimeOf(step))(Plan(c, s.running, s.now)[i][j]) <= Long(s.running[i][j])
      ensures Rest(Waiting, TimeOf(step))(Plan(c, s.running, s.now)[i][j]) <= Waiting(s.running[i][j])
    {
      RestPoint(c, s, TimeOf(step), 0, i, j);
    }
  }

  /** A resident that gets a token has less left. */
  lemma PlannedShrinks(c: Config, s: State, step: Step, id: nat, a: nat, b: nat)
    requires Ok(c, s) && a < |s.running| && b < |s.running[a]| && s.running[a][b].id == id
    requires Plan(c, s.running, s.now)[a][b].pending > 0
    ensures Total(Settled(c, s, step), Left(id)) < Total(s.running, Left(id))
  {
    assert ShrinksAt(c, s, step, Left(id), a, b) by { RestPoint(c, s, TimeOf(step), id, a, b); }
    assert StampFree(Left(id)) && Shrinks(c, s, step, Left(id)) by { StepShrinks(c, s, step, id); }
    StepLess(c, s, step, Left(id), a, b);
  }

  lemma PrefillPoint(c: Config, s: State, step: Step, a: nat, b: nat)
    requires Ok(c, s) && a < |s.running| && b < |s.running[a]|
    requires s.running[a][b].Prefilling() && Plan(c, s.running, s.now)[a][b].pending > 0
    ensures ShrinksAt(c, s, step, ToPrefill, a, b)
  {
    RestPoint(c, s, TimeOf(step), 0, a, b);
  }

  /** A prefill step takes tokens off the prefilling residents. */
  lemma PrefillShrinks(c: Config, s: State, step: Step, a: nat, b: nat)
    requires Ok(c, s) && a < |s.running| && b < |s.running[a]|
    requires s.running[a][b].Prefilling() && Plan(c, s.running, s.now)[a][b].pending > 0
    ensures Total(Settled(c, s, step), ToPrefill) < Total(s.running, ToPrefill)
  {
    assert ShrinksAt(c, s, step, ToPrefill, a, b) by { PrefillPoint(c, s, step, a, b); }
    assert StampFree(ToPrefill) && Shrinks(c, s, step, ToPrefill) by { StepShrinks(c, s, step, 0); }
    StepLess(c, s, step, ToPrefill, a, b);
  }

  /** Nobody leaves in a prefill step, since no completion is a first token. */
  lemma PrefillKeepsAll(c: Config, s: State, step: Step)
    requires Live(c, Generating, s) && HasSum(s.running)
    ensures Size(Settled(c, s, step)) == Size(s.running)
  {
    forall i, j | 0 <= i < |s.running| && 0 <= j < |s.running[i]|
      ensures Parts(Unit, Zero, Update(Plan(c, s.running, s.now)[i][j], TimeOf(step))) == Unit(s.running[i][j])
    {
      Landing(c, s, i, j, TimeOf(step));
      TotalElement(s.running, i, j, Short);
      assert Sound(s.running[i][j], s.now);
    }
    StepSum(c, s, step, Unit, Zero, Unit);
    SumZero(Returned(c, s, step));
    SizeIsTotal(s.running);
    SizeIsTotal(Settled(c, s, step));
  }

  lemma SuffixNone(q: Batch, k: nat, id: nat)
    requires k <= |q| && Sum(q, Counting(id)) == 0
    ensures Sum(q[k..], Counting(id)) == 0 && Sum(q[k..], Left(id)) == 0 && Sum(q, Left(id)) == 0
  {
    assert q == q[..k] + q[k..];
    SumAppend(q[..k], q[k..], Counting(id));
    LeftOfNone(q, id);
    LeftOfNone(q[k..], id);
  }

  lemma StaysUnqueued(c: Config, s: State, step: Step, id: nat)
    requires Ok(c, s) && Sum(s.queue, Counting(id)) == 0 && id < s.nextId
    ensures Fits(c, BeforeFill(c, s, step).running)
    ensures Sum(BeforeFill(c, s, step).queue, Counting(id)) == 0 == Sum(BeforeFill(c, s, step).queue, Left(id))
    ensures Sum(Refilled(c, s, step).queue, Counting(id)) == 0 == Sum(Refilled(c, s, step).queue, Left(id))
  {
    SettledFits(c, s, step);
    EnqueueIds(Updated(c, s, step), step.arrivals, id);
    var k := FillRunningEffect(c, BeforeFill(c, s, step));
    SuffixNone(BeforeFill(c, s, step).queue, k, id);
  }

  /** Request `id` is not waiting, so filling brings none of it. */
  lemma FillBringsNone(c: Config, s: State, step: Step, id: nat)
    requires Ok(c, s) && Sum(s.queue, Counting(id)) == 0 && id < s.nextId
    ensures Sum(Refilled(c, s, step).queue, Counting(id)) == 0
    ensures Total(Refilled(c, s, step).running, Counting(id)) == Total(Settled(c, s, step), Counting(id))
    ensures Total(Refilled(c, s, step).running, Left(id)) == Total(Settled(c, s, step), Left(id))
  {
    StaysUnqueued(c, s, step, id);
    FillRunningSum(c, BeforeFill(c, s, step), Counting(id));
    FillRunningSum(c, BeforeFill(c, s, step), Left(id));
  }

  lemma {:induction false} LeftOfNone(b: Batch, id: nat)
    requires Sum(b, Counting(id)) == 0
    ensures Sum(b, Left(id)) == 0
  {
    if b != [] { LeftOfNone(b[..|b| - 1], id); }
  }

  function Free(c: Config, s: State): int { Capacity(c, s.running) - Size(s.running) }

  /** The step is a prefill step that admits nobody, or the measure drops earlier. */
  lemma FillMeasure(c: Config, s: State, step: Step)
    requires Live(c, Generating, s) && HasSum(s.running)
    ensures var t := Refilled(c, s, step);
      && 0 <= Free(c, t) <= Free(c, s)
      && (Free(c, t) == Free(c, s) ==> t.running == Settled(c, s, step))
  {
    SettledFits(c, s, step);
    PrefillKeepsAll(c, s, step);
    var k := FillRunningEffect(c, BeforeFill(c, s, step));
    SizeBound(Refilled(c, s, step).running, c.perRank);
  }

  /** A kind of request that neither stays nor arrives is not there. */
  lemma KindAbsent(c: Config, s: State, step: Step, f: Request -> nat)
    requires Ok(c, s) && StampFree(f) && Shrinks(c, s, step, f) && Owed(s, f) == 0
    requires forall a: Arrival, id: nat | a in step.arrivals && s.nextId <= id < s.nextId + |step.arrivals| :: f(Admit(a, id)) == 0
    ensures Owed(Refilled(c, s, step), f) == 0
  {
    StepAtMost(c, s, step, f);
    SettledFits(c, s, step);
    EnqueueSum(Updated(c, s, step), step.arrivals, f);
    FillRunningSum(c, BeforeFill(c, s, step), f);
  }

  lemma FairStays(c: Config, mix: Mix, s: State, step: Step)
    requires Live(c, mix, s) && StepLive(mix, step)
    ensures Fair(c, mix, Refilled(c, s, step))
  {
    KindsShrink(c, s, step);
    match mix
    case Generating => KindAbsent(c, s, step, Short);
    case PrefillOnly => KindAbsent(c, s, step, Long);
    case Cached => KindAbsent(c, s, step, Waiting);
    case SingleSlot =>
  }

  lemma StepKeepsLive(c: Config, mix: Mix, s: State, step: Step)
    requires Live(c, mix, s) && StepLive(mix, step)
    ensures Live(c, mix, StepOf(c, s, step).state)
  {
    StepKeepsOk(c, s, step);
    if Skipped(c, s, step) { SkipIsIdentity(c, s, step); } else { StepShape(c, s, step); FairStays(c, mix, s, step); }
  }

  /** The measure of a resident request: its own remaining tokens, the free
      slots, the tokens all residents have to prefill. */
  predicate Drops(c: Config, s: State, t: State, id: nat) {
    var (l, f, p) := (Total(s.running, Left(id)), Free(c, s), Total(s.running, ToPrefill));
    var (l', f', p') := (Total(t.running, Left(id)), Free(c, t), Total(t.running, ToPrefill));
    l' < l || (l' == l && 0 <= f' < f) || (l' == l && f' == f && p' < p)
  }

  lemma PrefillDrops(c: Config, s: State, step: Step, id: nat, i: nat, j: nat)
    requires Live(c, Generating, s) && HasSum(s.running) && Sum(s.queue, Counting(id)) == 0 && id < s.nextId
    requires i < |s.running| && j < |s.running[i]|
    ensures Drops(c, s, Refilled(c, s, step), id)
  {
    var a, b := SomeoneAdvances(c, Generating, s, i, j);
    LeftShrinks(c, s, step, id);
    PrefillShrinks(c, s, step, a, b);
    FillBringsNone(c, s, step, id);
    FillMeasure(c, s, step);
  }

  lemma ResidentOnly(c: Config, s: State, id: nat) returns (i: nat, j: nat)
    requires Ok(c, s) && Total(s.running, Counting(id)) >= 1
    ensures i < |s.running| && j < |s.running[i]| && s.running[i][j].id == id
    ensures id < s.nextId && Total(s.running, Counting(id)) == 1 && Sum(s.queue, Counting(id)) == 0
  {
    assert IdOk(s, id);
    i, j := TotalWitness(s.running, Counting(id));
  }

  /** With one slot there is one resident at most. */
  lemma OnlyResident(c: Config, s: State, i: nat, j: nat, a: nat, b: nat)
    requires Fits(c, s.running) && Capacity(c, s.running) == 1
    requires i < |s.running| && j < |s.running[i]| && a < |s.running| && b < |s.running[a]|
    ensures (a, b) == (i, j)
  {
    var n, k := |s.running|, c.perRank;
    Quotients.MulMono(1, k, n);
    assert n * k >= n && k * n >= k;
  }

  /** In every other mix, and in a decode step, a resident request itself advances. */
  lemma ResidentAdvances(c: Config, mix: Mix, s: State, i: nat, j: nat)
    requires Live(c, mix, s) && i < |s.running| && j < |s.running[i]|
    requires mix == Generating ==> !HasSum(s.running)
    ensures Plan(c, s.running, s.now)[i][j].pending > 0
  {
    if HasSum(s.running) {
      PrefillMeansBudget(c, mix, s);
      var a, b := SomeoneAdvances(c, mix, s, i, j);
      if mix == SingleSlot {
        OnlyResident(c, s, i, j, a, b);
      } else {
        assert Sound(s.running[i][j], s.now);
        TotalElement(s.running, i, j, Long);
        PrefillAdvances(c, mix, s, i, j);
      }
    } else {
      OnePhase(c, s, i, j);
    }
  }

  /** One step of a resident request: it leaves, or its measure drops. */
  lemma StepDecreases(c: Config, mix: Mix, s: State, step: Step, id: nat)
    requires Live(c, mix, s) && Total(s.running, Counting(id)) >= 1
    ensures var t := StepOf(c, s, step).state;
      && Sum(t.queue, Counting(id)) == 0
      && Drops(c, s, t, id)
  {
    var i, j := ResidentOnly(c, s, id);
    NotSkipped(c, mix, s, step, i, j);
    StepShape(c, s, step);
    FillBringsNone(c, s, step, id);
    if mix == Generating && HasSum(s.running) {
      PrefillDrops(c, s, step, id, i, j);
    } else {
      ResidentAdvances(c, mix, s, i, j);
      PlannedShrinks(c, s, step, id, i, j);
    }
  }

  // ----- No starvation -----

  /** The first n steps of an endless environment. */
  function Prefix(env: nat -> Step, n: nat): (p: seq<Step>)
    ensures |p| == n
  {
    seq(n, i requires 0 <= i < n => env(i))
  }

  ghost predicate EnvLive(mix: Mix, env: nat -> Step) {
    forall k: nat :: StepLive(mix, env(k))
  }

  function After(c: Config, s: State, env: nat -> Step, n: nat): State { Run(c, s, Prefix(env, n)).state }

  lemma AfterNext(c: Config, s: State, env: nat -> Step, n: nat)
    ensures After(c, s, env, n + 1) == StepOf(c, After(c, s, env, n), env(n)).state
  {
    var p := Prefix(env, n + 1);
    assert p[..|p| - 1] == Prefix(env, n) && p[|p| - 1] == env(n);
  }

  lemma {:induction false} AfterLive(c: Config, mix: Mix, s: State, env: nat -> Step, n: nat)
    requires Live(c, mix, s) && EnvLive(mix, env)
    ensures Live(c, mix, After(c, s, env, n))
  {
    if n > 0 {
      AfterLive(c, mix, s, env, n - 1);
      AfterNext(c, s, env, n - 1);
      StepKeepsLive(c, mix, After(c, s, env, n - 1), env(n - 1));
    }
  }

  /** Position n of an execution: live, and one step before position n + 1. */
  ghost predicate Follows(c: Config, mix: Mix, env: nat -> Step, ts: nat -> State, n: nat) {
    Live(c, mix, ts(n)) && ts(n + 1) == StepOf(c, ts(n), env(n)).state
  }

  /** An endless execution, given by the state at every step boundary. */
  ghost predicate Execution(c: Config, mix: Mix, env: nat -> Step, ts: nat -> State) {
    forall n: nat :: Follows(c, mix, env, ts, n)
  }

  function Trace(c: Config, s: State, env: nat -> Step): nat -> State { (n: nat) => After(c, s, env, n) }

  lemma AfterIsExecution(c: Config, mix: Mix, s: State, env: nat -> Step)
    requires Live(c, mix, s) && EnvLive(mix, env)
    ensures Execution(c, mix, env, Trace(c, s, env)) && Trace(c, s, env)(0) == s
  {
    var ts := Trace(c, s, env);
    forall n: nat ensures Follows(c, mix, env, ts, n) {
      AfterLive(c, mix, s, env, n);
      AfterNext(c, s, env, n);
    }
  }

  lemma {:induction false} Leaves(c: Config, mix: Mix, env: nat -> Step, ts: nat -> State, m: nat, id: nat) returns (n: nat)
    requires Execution(c, mix, env, ts) && Sum(ts(m).queue, Counting(id)) == 0
    ensures n >= m && Owed(ts(n), Counting(id)) == 0
    decreases Total(ts(m).running, Left(id)), Free(c, ts(m)), Total(ts(m).running, ToPrefill)
  {
    n := m;
    if Total(ts(m).running, Counting(id)) >= 1 {
      assert Follows(c, mix, env, ts, m);
      StepDecreases(c, mix, ts(m), env(m), id);
      SizeBound(ts(m).running, c.perRank);
      n := Leaves(c, mix, env, ts, m + 1, id);
    }
  }

  lemma {:induction false} RunCounts(c: Config, s: State, steps: seq<Step>, id: nat)
    requires Ok(c, s) && id < s.nextId && forall i | 0 <= i < |steps| :: StepOk(steps[i])
    ensures var o := Run(c, s, steps);
      Ok(c, o.state) && id < o.state.nextId && Owed(o.state, Counting(id)) + Sum(o.out, DoneOf(id)) == Owed(s, Counting(id))
  {
    if steps != [] {
      var n := |steps| - 1;
      var o := Run(c, s, steps[..n]);
      RunCounts(c, s, steps[..n], id);
      StepKeepsOk(c, o.state, steps[n]);
      if Skipped(c, o.state, steps[n]) {
        SkipIsIdentity(c, o.state, steps[n]);
      } else {
        StepShape(c, o.state, steps[n]);
        IdsKept(c, o.state, steps[n], id);
      }
      SumAppend(o.out, StepOf(c, o.state, steps[n]).out, DoneOf(id));
    }
  }

  /** No starvation: whatever arrives, and however long the steps take, every
      resident request is returned as completed after finitely many steps. */
  lemma ResidentCompletes(c: Config, mix: Mix, s: State, env: nat -> Step, id: nat) returns (n: nat)
    requires Live(c, mix, s) && EnvLive(mix, env) && Total(s.running, Counting(id)) >= 1
    ensures Sum(Run(c, s, Prefix(env, n)).out, DoneOf(id)) == 1
    ensures Owed(After(c, s, env, n), Counting(id)) == 0
  {
    var i, j := ResidentOnly(c, s, id);
    AfterIsExecution(c, mix, s, env);
    n := Leaves(c, mix, env, Trace(c, s, env), 0, id);
    RunCounts(c, s, Prefix(env, n), id);
  }

  // ----- No queued request waits forever -----

  /** A step that admits nobody to full batches has nobody leaving either. */
  lemma NobodyLeft(c: Config, s: State, step: Step, id: nat)
    requires Ok(c, s) && AllFull(s.running, c.perRank) && Total(s.running, Counting(id)) >= 1
    requires Refilled(c, s, step).running == Settled(c, s, step) && AllFull(Refilled(c, s, step).running, c.perRank)
    ensures Total(Refilled(c, s, step).running, Counting(id)) >= 1
  {
    forall i, j | 0 <= i < |s.running| && 0 <= j < |s.running[i]|
      ensures Parts(Unit, DoneUnit, Update(Plan(c, s.running, s.now)[i][j], TimeOf(step))) == Unit(s.running[i][j])
    {
    }
    StepSum(c, s, step, Unit, DoneUnit, Unit);
    SizeIsTotal(s.running);
    SizeIsTotal(Settled(c, s, step));
    SettledFits(c, s, step);
    SizeBound(s.running, c.perRank);
    SizeBound(Settled(c, s, step), c.perRank);
    SumAtMost(Returned(c, s, step), Returned(c, s, step), DoneOf(id), DoneUnit);
    SettledIds(c, s, step, id);
  }

  lemma AdmittedId(m: State, t: State, cap: nat, k: nat, p: nat)
    requires Admitted(m, t, cap, k) && p < k
    requires Total(t.running, Counting(m.queue[p].id)) + Sum(t.queue, Counting(m.queue[p].id))
             == Total(m.running, Counting(m.queue[p].id)) + Sum(m.queue, Counting(m.queue[p].id))
    ensures Total(t.running, Counting(m.queue[p].id)) >= 1
  {
    var id := m.queue[p].id;
    assert m.queue == m.queue[..k] + t.queue;
    SumAppend(m.queue[..k], t.queue, Counting(id));
    assert m.queue[..k][p].id == id;
    SumElement(m.queue[..k], p, Counting(id));
  }

  /** The request at position p moves up by the number admitted, or is admitted. */
  lemma QueueStep(c: Config, s: State, step: Step, p: nat) returns (k: nat)
    requires Ok(c, s) && p < |s.queue|
    ensures Busy(c, Refilled(c, s, step))
    ensures k <= p ==> p - k < |Refilled(c, s, step).queue| && Refilled(c, s, step).queue[p - k].id == s.queue[p].id
    ensures k > p ==> Total(Refilled(c, s, step).running, Counting(s.queue[p].id)) >= 1
    ensures k == 0 ==> Refilled(c, s, step).running == Settled(c, s, step)
  {
    var m, id := BeforeFill(c, s, step), s.queue[p].id;
    SettledFits(c, s, step);
    EnqueueIds(Updated(c, s, step), step.arrivals, id);
    assert m.queue[p] == s.queue[p];
    k := FillRunningEffect(c, m);
    if k > p {
      FillRunningSum(c, m, Counting(id));
      AdmittedId(m, Refilled(c, s, step), c.perRank, k, p);
    }
  }

  /** Request `id` is at position p of the queue. */
  ghost predicate QueuedAt(s: State, p: nat, id: nat) {
    p < |s.queue| && s.queue[p].id == id
  }

  ghost predicate Resident(s: State, id: nat) { Total(s.running, Counting(id)) >= 1 }

  /** Refilling full batches: the request is admitted or moves up, or nobody left and
      the batches are still full. */
  lemma RefillMovesUp(c: Config, s: State, step: Step, p: nat, id: nat, first: nat) returns (q: nat)
    requires Ok(c, s) && AllFull(s.running, c.perRank) && QueuedAt(s, p, id) && Resident(s, first)
    ensures var t := Refilled(c, s, step);
      Busy(c, t) && (Resident(t, id) || (q < p && QueuedAt(t, q, id))
          || (QueuedAt(t, p, id) && AllFull(t.running, c.perRank) && Resident(t, first)))
  {
    var t := Refilled(c, s, step);
    var k := QueueStep(c, s, step, p);
    q := if k <= p then p - k else 0;
    if k <= p { assert QueuedAt(t, q, id); }
    if k == 0 {
      assert AllFull(t.running, c.perRank);
      NobodyLeft(c, s, step, first);
    }
  }

  lemma MovesUpOnce(c: Config, mix: Mix, s: State, step: Step, p: nat, id: nat, first: nat) returns (q: nat)
    requires Live(c, mix, s) && AllFull(s.running, c.perRank) && QueuedAt(s, p, id) && Resident(s, first)
    ensures var t := StepOf(c, s, step).state;
      Busy(c, t) && (Resident(t, id) || (q < p && QueuedAt(t, q, id))
          || (QueuedAt(t, p, id) && AllFull(t.running, c.perRank) && Resident(t, first)))
  {
    assert !Skipped(c, s, step) by {
      var i, j := ResidentOnly(c, s, first);
      NotSkipped(c, mix, s, step, i, j);
    }
    assert StepOf(c, s, step).state == Refilled(c, s, step) by { StepShape(c, s, step); }
    q := RefillMovesUp(c, s, step, p, id, first);
  }

  lemma MovesUpAt(c: Config, mix: Mix, env: nat -> Step, ts: nat -> State, m: nat, p: nat, id: nat, first: nat) returns (q: nat)
    requires Execution(c, mix, env, ts) && AllFull(ts(m).running, c.perRank) && QueuedAt(ts(m), p, id) && Resident(ts(m), first)
    ensures Busy(c, ts(m + 1))
    ensures || Resident(ts(m + 1), id) || (q < p && QueuedAt(ts(m + 1), q, id))
            || (QueuedAt(ts(m + 1), p, id) && AllFull(ts(m + 1).running, c.perRank) && Resident(ts(m + 1), first))
  {
    assert Follows(c, mix, env, ts, m);
    q := MovesUpOnce(c, mix, ts(m), env(m), p, id, first);
  }

  /** By the time request `first` has left the full batches, the request at
      position p has moved up or been admitted. */
  lemma {:induction false} MovesUp(c: Config, mix: Mix, env: nat -> Step, ts: nat -> State, m: nat, end: nat, p: nat, id: nat, first: nat)
    returns (n: nat, q: nat)
    requires Execution(c, mix, env, ts) && m <= end && AllFull(ts(m).running, c.perRank)
    requires QueuedAt(ts(m), p, id) && Resident(ts(m), first) && !Resident(ts(end), first)
    ensures n > m && Busy(c, ts(n)) && (Resident(ts(n), id) || (q < p && QueuedAt(ts(n), q, id)))
    decreases end - m
  {
    n := m + 1;
    q := MovesUpAt(c, mix, env, ts, m, p, id, first);
    if !Resident(ts(n), id) && !(q < p && QueuedAt(ts(n), q, id)) {
      n, q := MovesUp(c, mix, env, ts, m + 1, end, p, id, first);
    }
  }

  lemma {:induction false} Admission(c: Config, mix: Mix, env: nat -> Step, ts: nat -> State, m: nat, p: nat, id: nat) returns (n: nat)
    requires Execution(c, mix, env, ts) && Busy(c, ts(m)) && QueuedAt(ts(m), p, id)
    ensures n >= m && Resident(ts(n), id)
    decreases p
  {
    assert Follows(c, mix, env, ts, m);
    var first := ts(m).running[0][0].id;
    TotalElement(ts(m).running, 0, 0, Counting(first));
    var i, j := ResidentOnly(c, ts(m), first);
    var end := Leaves(c, mix, env, ts, m, first);
    var q;
    n, q := MovesUp(c, mix, env, ts, m, end, p, id, first);
    if !Resident(ts(n), id) { n := Admission(c, mix, env, ts, n, q, id); }
  }

  lemma EventuallyGone(c: Config, mix: Mix, env: nat -> Step, ts: nat -> State, m: nat, p: nat, id: nat) returns (n: nat)
    requires Execution(c, mix, env, ts) && Busy(c, ts(m)) && QueuedAt(ts(m), p, id)
    ensures n >= m && Owed(ts(n), Counting(id)) == 0
  {
    var a := Admission(c, mix, env, ts, m, p, id);
    assert Follows(c, mix, env, ts, a);
    var i, j := ResidentOnly(c, ts(a), id);
    n := Leaves(c, mix, env, ts, a, id);
  }

  /** Every queued request is admitted, and completes, after finitely many steps. */
  lemma QueuedCompletes(c: Config, mix: Mix, s: State, env: nat -> Step, p: nat) returns (n: nat)
    requires Live(c, mix, s) && Busy(c, s) && EnvLive(mix, env) && p < |s.queue|
    ensures Sum(Run(c, s, Prefix(env, n)).out, DoneOf(s.queue[p].id)) == 1
  {
    var id := s.queue[p].id;
    AfterIsExecution(c, mix, s, env);
    n := EventuallyGone(c, mix, env, Trace(c, s, env), 0, p, id);
    assert IdOk(s, id);
    SumElement(s.queue, p, Counting(id));
    RunCounts(c, s, Prefix(env, n), id);
  }

  // ----- The budget condition is needed -----

  /** Request `id`, still prefilling. */
  function Stuck(id: nat): Request -> nat { (r: Request) => if r.id == id && r.Prefilling() then 1 else 0 }

  /** Rank i has more prefilling requests than tokens to give them. */
  ghost predicate OverBudget(c: Config, s: State, i: nat, id: nat) {
    i < |s.running| && Sums(s.running[i]) > c.budget && Sum(s.running[i], Stuck(id)) >= 1
  }

  lemma {:induction false} SumPrefix(b: Batch, b': Batch, f: Request -> nat)
    requires b <= b'
    ensures Sum(b, f) <= Sum(b', f)
  {
    SumAppend(b, b'[|b|..], f);
    assert b' == b + b'[|b|..];
  }

  /** f looks only at the identity and the progress of a request. */
  ghost predicate ByProgress(f: Request -> nat) {
    forall r: Request, x: Request :: SameProgress(f, r, x)
  }

  predicate SameProgress(f: Request -> nat, r: Request, x: Request) {
    (x.id, x.input, x.current) == (r.id, r.input, r.current) ==> f(x) == f(r)
  }

  lemma FrozenRest(c: Config, s: State, i: nat, j: nat, f: Request -> nat, time: Time)
    requires Ok(c, s) && i < |s.running| && Sums(s.running[i]) > c.budget && j < |s.running[i]| && ByProgress(f)
    ensures Rest(f, time)(Plan(c, s.running, s.now)[i][j]) == f(s.running[i][j])
  {
    FrozenPoint(c, s, i, j);
    RestIdle(s.running[i][j], f, time);
  }

  lemma RestIdle(r: Request, f: Request -> nat, time: Time)
    requires r.pending == 0 && r.current < r.total && ByProgress(f)
    ensures Rest(f, time)(r) == f(r)
  {
    RestIs(f, r, time);
    MarkedFields(r, time);
    assert SameProgress(f, r, Mark(Update(r, time)));
  }

  lemma KeptIsRest(p: Batch, time: Time, f: Request -> nat)
    ensures Sum(Kept(UpdateBatch(p, time)), f) == Sum(p, Rest(f, time))
  {
    SplitRank(p, time, f, Zero, Rest(f, time));
    SumZero(Out(UpdateBatch(p, time)));
  }

  lemma SettledRank(c: Config, s: State, step: Step, i: nat, f: Request -> nat)
    requires i < |s.running| && ByProgress(f)
    ensures Sum(Settled(c, s, step)[i], f) == Sum(Kept(UpdateBatch(Plan(c, s.running, s.now)[i], TimeOf(step))), f)
  {
    var r, kept := Settled(c, s, step)[i], Kept(UpdateBatch(Plan(c, s.running, s.now)[i], TimeOf(step)));
    forall j | 0 <= j < |kept| ensures f(r[j]) == f(kept[j]) { assert SameProgress(f, kept[j], r[j]); }
    SumAgrees(r, kept, f, f);
  }

  lemma PlanFrozen(c: Config, s: State, i: nat, f: Request -> nat, time: Time)
    requires Ok(c, s) && i < |s.running| && Sums(s.running[i]) > c.budget && ByProgress(f)
    ensures Sum(Plan(c, s.running, s.now)[i], Rest(f, time)) == Sum(s.running[i], f)
  {
    var p := Plan(c, s.running, s.now)[i];
    forall j | 0 <= j < |p| ensures Rest(f, time)(p[j]) == f(s.running[i][j]) { FrozenRest(c, s, i, j, f, time); }
    SumAgrees(p, s.running[i], Rest(f, time), f);
  }

  /** Such a rank keeps every request it is prefilling, unchanged. */
  lemma RankFrozen(c: Config, s: State, step: Step, i: nat, f: Request -> nat)
    requires Ok(c, s) && i < |s.running| && Sums(s.running[i]) > c.budget && ByProgress(f)
    ensures Sum(Settled(c, s, step)[i], f) == Sum(s.running[i], f)
  {
    SettledRank(c, s, step, i, f);
    KeptIsRest(Plan(c, s.running, s.now)[i], TimeOf(step), f);
    PlanFrozen(c, s, i, f, TimeOf(step));
  }

  lemma FrozenPoint(c: Config, s: State, i: nat, j: nat)
    requires Ok(c, s) && i < |s.running| && Sums(s.running[i]) > c.budget && j < |s.running[i]|
    ensures Plan(c, s.running, s.now)[i][j] == s.running[i][j]
    ensures s.running[i][j].current < s.running[i][j].total && s.running[i][j].pending == 0
  {
    assert Sound(s.running[i][j], s.now);
    DivideToZero(c.budget, Sums(s.running[i]));
    assert HasSum(s.running);
  }

  lemma DivideToZero(a: nat, n: nat)
    requires a < n
    ensures a / n == 0
  {
  }

  lemma OverBudgetStays(c: Config, s: State, step: Step, i: nat, id: nat)
    requires Ok(c, s) && OverBudget(c, s, i, id)
    ensures OverBudget(c, StepOf(c, s, step).state, i, id)
  {
    if Skipped(c, s, step) {
      SkipIsIdentity(c, s, step);
    } else {
      StepShape(c, s, step);
      SettledFits(c, s, step);
      var k := FillRunningEffect(c, BeforeFill(c, s, step));
      assert Grown(Settled(c, s, step)[i], Refilled(c, s, step).running[i], BeforeFill(c, s, step).queue[..k], c.perRank);
      RankFrozen(c, s, step, i, Waiting);
      RankFrozen(c, s, step, i, Stuck(id));
      SumPrefix(Settled(c, s, step)[i], Refilled(c, s, step).running[i], Waiting);
      SumPrefix(Settled(c, s, step)[i], Refilled(c, s, step).running[i], Stuck(id));
    }
  }

  /** A rank over its budget starves its prefilling requests forever. */
  lemma {:induction false} OverBudgetStarves(c: Config, s: State, steps: seq<Step>, i: nat, id: nat)
    requires Ok(c, s) && OverBudget(c, s, i, id) && forall j | 0 <= j < |steps| :: StepOk(steps[j])
    ensures OverBudget(c, Run(c, s, steps).state, i, id)
  {
    if steps != [] {
      OverBudgetStarves(c, s, steps[..|steps| - 1], i, id);
      RunKeepsOk(c, s, steps[..|steps| - 1]);
      OverBudgetStays(c, Run(c, s, steps[..|steps| - 1]).state, steps[|steps| - 1], i, id);
    }
  }

  lemma OverBudgetNeverCompletes(c: Config, s: State, steps: seq<Step>, i: nat, id: nat)
    requires Ok(c, s) && OverBudget(c, s, i, id) && forall j | 0 <= j < |steps| :: StepOk(steps[j])
    ensures Sum(Run(c, s, steps).out, DoneOf(id)) == 0
  {
    StuckIsCounted(s.running[i], id);
    TotalRank(s.running, i, Counting(id));
    assert IdOk(s, id);
    OverBudgetStarves(c, s, steps, i, id);
    RunCounts(c, s, steps, id);
    var t := Run(c, s, steps).state;
    StuckIsCounted(t.running[i], id);
    TotalRank(t.running, i, Counting(id));
  }

  lemma StuckIsCounted(b: Batch, id: nat)
    ensures Sum(b, Stuck(id)) <= Sum(b, Counting(id))
  {
    SumAtMost(b, b, Stuck(id), Counting(id));
  }
}

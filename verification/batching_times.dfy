/** The times a request carries: how long it was resident, how long until its first
    token, in how many steps, and when it was last returned, over any run. */
module BatchingTimes {
  import opened Batching
  import opened BatchingProofs
  import opened BatchingRuns
  import Liveness = BatchingLiveness

  /** What a request has recorded: time resident, time to its first token, the steps
      before it, and the stamp of the driver. */
  datatype Times = Times(end: Time, first: Time, iters: nat, stamp: Time)

  predicate Shows(r: Request, t: Times) {
    r.endTime == t.end && r.firstTime == t.first && r.sumIters == t.iters && r.genStart == t.stamp
  }

  predicate ShowsIn(b: Batch, id: nat, t: Times) { forall i | 0 <= i < |b| :: b[i].id == id ==> Shows(b[i], t) }

  /** Request `id`, wherever it is, has recorded t. */
  ghost predicate ShowsAll(s: State, id: nat, t: Times) {
    ShowsIn(s.queue, id, t) && forall i | 0 <= i < |s.running| :: ShowsIn(s.running[i], id, t)
  }

  // ----- Who is resident -----

  /** How a resident is looked at: at all, with its stage flag set, or prefilling. */
  datatype Phase = Anyhow | AtStage | AtPrefill

  predicate Is(r: Request, p: Phase) {
    match p
    case Anyhow => true
    case AtStage => r.sumStage
    case AtPrefill => r.current < r.input
  }

  /** Request `id` is resident, in phase p. */
  ghost predicate In(s: State, id: nat, p: Phase) {
    exists i, j | 0 <= i < |s.running| && 0 <= j < |s.running[i]| :: s.running[i][j].id == id && Is(s.running[i][j], p)
  }

  lemma {:induction false} TwoInBatch(b: Batch, i: nat, j: nat, id: nat)
    requires i < j < |b| && b[i].id == id && b[j].id == id
    ensures Sum(b, Counting(id)) >= 2
  {
    if j < |b| - 1 {
      TwoInBatch(b[..|b| - 1], i, j, id);
    } else {
      SumElement(b[..j], i, Counting(id));
    }
  }

  lemma {:induction false} TwoBatches(running: seq<Batch>, i: nat, j: nat, id: nat)
    requires i < j < |running| && Sum(running[i], Counting(id)) >= 1 && Sum(running[j], Counting(id)) >= 1
    ensures Total(running, Counting(id)) >= 2
  {
    if j < |running| - 1 {
      TwoBatches(running[..|running| - 1], i, j, id);
    } else {
      TotalRank(running[..j], i, Counting(id));
    }
  }

  /** A request is resident in one place only, and then not queued. */
  lemma OnePlace(s: State, id: nat, i: nat, j: nat)
    requires IdOk(s, id) && i < |s.running| && j < |s.running[i]| && s.running[i][j].id == id
    ensures forall k, l | 0 <= k < |s.running| && 0 <= l < |s.running[k]| && s.running[k][l].id == id :: k == i && l == j
    ensures forall k | 0 <= k < |s.queue| :: s.queue[k].id != id
  {
    SumElement(s.running[i], j, Counting(id));
    TotalRank(s.running, i, Counting(id));
    forall k | 0 <= k < |s.queue| ensures s.queue[k].id != id { SumElement(s.queue, k, Counting(id)); }
    forall k, l | 0 <= k < |s.running| && 0 <= l < |s.running[k]| && s.running[k][l].id == id ensures k == i && l == j {
      SumElement(s.running[k], l, Counting(id));
      if k != i { TwoBatches(s.running, if k < i then k else i, if k < i then i else k, id); }
      if k == i && l != j {
        TotalRank(s.running, i, Counting(id));
        TwoInBatch(s.running[i], if l < j then l else j, if l < j then j else l, id);
      }
    }
  }

  // ----- One step -----

  ghost predicate IsReturned(out: seq<Request>, id: nat) { exists k | 0 <= k < |out| :: out[k].id == id }

  /** The time a step adds for request `id` in phase p: its whole time if the request is
      resident in that phase, unless the step is skipped; a warm-up step takes none. */
  ghost function Adds(c: Config, s: State, step: Step, id: nat, p: Phase): Time {
    if Skipped(c, s, step) || !In(s, id, p) then 0.0
    else match step case Warmup(_) => 0.0 case Iterate(time, _) => time
  }

  ghost function Turns(c: Config, s: State, step: Step, id: nat, p: Phase): nat {
    if !Skipped(c, s, step) && In(s, id, p) then 1 else 0
  }

  /** What request `id` has recorded after a step. */
  ghost function After(c: Config, s: State, step: Step, id: nat, t: Times): Times {
    Times(t.end + Adds(c, s, step, id, Anyhow), t.first + Adds(c, s, step, id, AtStage),
          t.iters + Turns(c, s, step, id, AtStage),
          if step.Iterate? && In(s, id, Anyhow) && IsReturned(StepOf(c, s, step).out, id) then s.now + step.time else t.stamp)
  }

  lemma {:induction false} OutFrom(b: Batch, k: nat)
    requires k < |Out(b)|
    ensures exists i :: 0 <= i < |b| && Emits(b[i]) && Out(b)[k] == Mark(b[i])
  {
    var n := |b| - 1;
    if k < |Out(b[..n])| {
      OutFrom(b[..n], k);
      var i :| 0 <= i < n && Emits(b[..n][i]) && Out(b[..n])[k] == Mark(b[..n][i]);
      assert b[..n][i] == b[i];
    }
  }

  /** Every returned request is a resident, updated and marked. */
  lemma {:induction false} ReturnedFrom(running: seq<Batch>, time: Time, k: nat) returns (i: nat, j: nat)
    requires k < |OutAll(running, time)|
    ensures i < |running| && j < |running[i]|
    ensures Emits(Update(running[i][j], time)) && OutAll(running, time)[k] == Mark(Update(running[i][j], time))
  {
    var n := |running| - 1;
    if k < |OutAll(running[..n], time)| {
      i, j := ReturnedFrom(running[..n], time, k);
    } else {
      i := n;
      var u := UpdateBatch(running[n], time);
      OutFrom(u, k - |OutAll(running[..n], time)|);
      j :| 0 <= j < |u| && Emits(u[j]) && Out(u)[k - |OutAll(running[..n], time)|] == Mark(u[j]);
    }
  }

  /** A resident's record once the step has run it. */
  lemma UpdatedShows(c: Config, s: State, step: Step, id: nat, t: Times, i: nat, j: nat)
    requires Ok(c, s) && !Skipped(c, s, step) && i < |s.running| && j < |s.running[i]|
    requires s.running[i][j].id == id && Shows(s.running[i][j], t)
    ensures var x, a := Mark(Update(Plan(c, s.running, s.now)[i][j], TimeOf(step))), After(c, s, step, id, t);
      x.id == id && x.endTime == a.end && x.firstTime == a.first && x.sumIters == a.iters && x.genStart == t.stamp
  {
    assert IdOk(s, id);
    OnePlace(s, id, i, j);
    var r := s.running[i][j];
    assert Is(r, Anyhow) && (Is(r, AtStage) <==> r.sumStage);
    assert In(s, id, Anyhow);
    assert In(s, id, AtStage) <==> r.sumStage;
  }

  /** What a step returns of request `id` shows what it has recorded then. */
  lemma ReturnedShows(c: Config, s: State, step: Step, id: nat, t: Times, k: nat)
    requires Ok(c, s) && ShowsAll(s, id, t) && k < |StepOf(c, s, step).out| && StepOf(c, s, step).out[k].id == id
    ensures var x, a := StepOf(c, s, step).out[k], After(c, s, step, id, t);
      && In(s, id, Anyhow) && !Skipped(c, s, step)
      && x.endTime == a.end && x.firstTime == a.first && x.sumIters == a.iters
  {
    var p, time := Plan(c, s.running, s.now), TimeOf(step);
    StepShape(c, s, step);
    var i, j := ReturnedFrom(p, time, k);
    assert s.running[i][j].id == id;
    assert ShowsIn(s.running[i], id, t);
    assert Is(s.running[i][j], Anyhow);
    UpdatedShows(c, s, step, id, t, i, j);
  }

  lemma KeptOrigin(c: Config, s: State, step: Step, i: nat, k: nat) returns (j: nat)
    requires i < |s.running| && k < |KeptAll(Plan(c, s.running, s.now), TimeOf(step))[i]|
    ensures j < |s.running[i]|
    ensures KeptAll(Plan(c, s.running, s.now), TimeOf(step))[i][k] == Mark(Update(Plan(c, s.running, s.now)[i][j], TimeOf(step)))
  {
    var u := UpdateBatch(Plan(c, s.running, s.now)[i], TimeOf(step));
    KeptFrom(u, k);
    j :| 0 <= j < |u| && !u[j].Done() && Kept(u)[k] == Mark(u[j]);
  }

  /** Apart from the stamp, what stays in a batch is what the update made of it. */
  lemma SettledStamp(c: Config, s: State, step: Step, i: nat, k: nat)
    requires !Skipped(c, s, step) && i < |s.running| && k < |Settled(c, s, step)[i]|
    ensures k < |KeptAll(Plan(c, s.running, s.now), TimeOf(step))[i]|
    ensures var x := KeptAll(Plan(c, s.running, s.now), TimeOf(step))[i][k];
      Settled(c, s, step)[i][k] ==
      if step.Iterate? && IsReturned(StepOf(c, s, step).out, x.id) then x.(genStart := s.now + step.time) else x
  {
    StepShape(c, s, step);
  }

  lemma KeptShows(c: Config, s: State, step: Step, id: nat, t: Times, i: nat, k: nat)
    requires Ok(c, s) && !Skipped(c, s, step) && ShowsAll(s, id, t) && i < |s.running|
    requires k < |Settled(c, s, step)[i]| && Settled(c, s, step)[i][k].id == id
    ensures Shows(Settled(c, s, step)[i][k], After(c, s, step, id, t))
  {
    SettledStamp(c, s, step, i, k);
    var j := KeptOrigin(c, s, step, i, k);
    assert ShowsIn(s.running[i], id, t) && s.running[i][j].id == id;
    assert Is(s.running[i][j], Anyhow);
    UpdatedShows(c, s, step, id, t, i, j);
  }

  lemma {:induction false} EnqueueShows(s: State, arrivals: seq<Arrival>, id: nat, t: Times)
    requires ShowsIn(s.queue, id, t) && id < s.nextId
    ensures ShowsIn(Enqueue(s, arrivals).queue, id, t) && Enqueue(s, arrivals).nextId >= s.nextId
  {
    if arrivals != [] { EnqueueShows(s, arrivals[..|arrivals| - 1], id, t); }
  }

  lemma QueueUntouched(c: Config, s: State, step: Step, id: nat, t: Times)
    requires Ok(c, s) && id < s.nextId && ShowsAll(s, id, t)
    ensures ShowsIn(s.queue, id, After(c, s, step, id, t))
  {
    forall k | 0 <= k < |s.queue| && s.queue[k].id == id ensures Shows(s.queue[k], After(c, s, step, id, t)) {
      forall i, j | 0 <= i < |s.running| && 0 <= j < |s.running[i]| ensures s.running[i][j].id != id {
        if s.running[i][j].id == id {
          assert IdOk(s, id);
          OnePlace(s, id, i, j);
        }
      }
    }
  }

  lemma FilledShows(m: State, r: State, cap: nat, k: nat, id: nat, t: Times)
    requires Admitted(m, r, cap, k) && ShowsAll(m, id, t)
    ensures ShowsAll(r, id, t)
  {
    forall i | 0 <= i < |r.running| ensures ShowsIn(r.running[i], id, t) {
      assert Grown(m.running[i], r.running[i], m.queue[..k], cap) && ShowsIn(m.running[i], id, t);
      forall j | 0 <= j < |r.running[i]| && r.running[i][j].id == id ensures Shows(r.running[i][j], t) {
        if j < |m.running[i]| { assert r.running[i][j] == m.running[i][j]; }
      }
    }
  }

  /** One step adds its time to the record of a resident, to its first-token time while
      the stage flag is set, and stamps it if it returns it; it changes no other record. */
  lemma StepShows(c: Config, s: State, step: Step, id: nat, t: Times)
    requires Ok(c, s) && id < s.nextId && ShowsAll(s, id, t)
    ensures ShowsAll(StepOf(c, s, step).state, id, After(c, s, step, id, t))
  {
    var a := After(c, s, step, id, t);
    if Skipped(c, s, step) {
      SkipIsIdentity(c, s, step);
    } else {
      StepShape(c, s, step);
      SettledFits(c, s, step);
      QueueUntouched(c, s, step, id, t);
      EnqueueShows(Updated(c, s, step), step.arrivals, id, a);
      var m := BeforeFill(c, s, step);
      forall i | 0 <= i < |m.running| ensures ShowsIn(m.running[i], id, a) {
        forall k | 0 <= k < |m.running[i]| && m.running[i][k].id == id ensures Shows(m.running[i][k], a) {
          KeptShows(c, s, step, id, t, i, k);
        }
      }
      var k := FillRunningEffect(c, m);
      FilledShows(m, Refilled(c, s, step), c.perRank, k, id, a);
    }
  }

  // ----- Whole runs -----

  /** The time of the steps of a run that find request `id` resident, in phase p. */
  ghost function TimeIn(c: Config, s: State, steps: seq<Step>, id: nat, p: Phase): Time {
    if steps == [] then 0.0
    else
      var n := |steps| - 1;
      TimeIn(c, s, steps[..n], id, p) + Adds(c, Run(c, s, steps[..n]).state, steps[n], id, p)
  }

  /** How many steps of a run do. */
  ghost function TurnsIn(c: Config, s: State, steps: seq<Step>, id: nat, p: Phase): nat {
    if steps == [] then 0
    else
      var n := |steps| - 1;
      TurnsIn(c, s, steps[..n], id, p) + Turns(c, Run(c, s, steps[..n]).state, steps[n], id, p)
  }

  /** What request `id` has recorded after a run. */
  ghost function Record(c: Config, s: State, steps: seq<Step>, id: nat, t: Times): Times {
    if steps == [] then t
    else
      var n := |steps| - 1;
      After(c, Run(c, s, steps[..n]).state, steps[n], id, Record(c, s, steps[..n], id, t))
  }

  lemma {:induction false} RunShows(c: Config, s: State, steps: seq<Step>, id: nat, t: Times)
    requires Ok(c, s) && id < s.nextId && ShowsAll(s, id, t) && forall i | 0 <= i < |steps| :: StepOk(steps[i])
    ensures Ok(c, Run(c, s, steps).state) && id < Run(c, s, steps).state.nextId
    ensures ShowsAll(Run(c, s, steps).state, id, Record(c, s, steps, id, t))
  {
    Liveness.RunCounts(c, s, steps, id);
    if steps != [] {
      var n := |steps| - 1;
      RunShows(c, s, steps[..n], id, t);
      StepShows(c, Run(c, s, steps[..n]).state, steps[n], id, Record(c, s, steps[..n], id, t));
    }
  }

  /** The records of a run are sums over its steps. */
  lemma {:induction false} RecordIsSum(c: Config, s: State, steps: seq<Step>, id: nat, t: Times)
    ensures Record(c, s, steps, id, t).end == t.end + TimeIn(c, s, steps, id, Anyhow)
    ensures Record(c, s, steps, id, t).first == t.first + TimeIn(c, s, steps, id, AtStage)
    ensures Record(c, s, steps, id, t).iters == t.iters + TurnsIn(c, s, steps, id, AtStage)
  {
    if steps != [] { RecordIsSum(c, s, steps[..|steps| - 1], id, t); }
  }

  /** Once a request has left the system no step finds it resident. */
  lemma GoneAddsNothing(c: Config, s: State, step: Step, id: nat, t: Times)
    requires Total(s.running, Counting(id)) == 0
    ensures After(c, s, step, id, t) == t
  {
    forall i, j | 0 <= i < |s.running| && 0 <= j < |s.running[i]| ensures s.running[i][j].id != id {
      SumElement(s.running[i], j, Counting(id));
      TotalRank(s.running, i, Counting(id));
    }
  }

  predicate Tells(r: Request, t: Times) { r.endTime == t.end && r.firstTime == t.first && r.sumIters == t.iters }

  /** Once it has been returned as completed, a request is resident no more. */
  lemma GoneSince(c: Config, s: State, steps: seq<Step>, id: nat, r: Request)
    requires Ok(c, s) && id < s.nextId && forall i | 0 <= i < |steps| :: StepOk(steps[i])
    requires r in Run(c, s, steps).out && r.id == id && r.Done()
    ensures Total(Run(c, s, steps).state.running, Counting(id)) == 0
  {
    var out := Run(c, s, steps).out;
    Liveness.RunCounts(c, s, steps, id);
    var k :| 0 <= k < |out| && out[k] == r;
    SumElement(out, k, DoneOf(id));
    assert IdOk(s, id);
  }

  lemma StillShows(c: Config, s: State, steps: seq<Step>, step: Step, id: nat, t: Times, r: Request)
    requires Ok(c, s) && id < s.nextId && forall i | 0 <= i < |steps| :: StepOk(steps[i])
    requires r in Run(c, s, steps).out && r.id == id && r.Done() && Tells(r, t)
    ensures Tells(r, After(c, Run(c, s, steps).state, step, id, t))
  {
    GoneSince(c, s, steps, id, r);
    GoneAddsNothing(c, Run(c, s, steps).state, step, id, t);
  }

  lemma NextStepShows(c: Config, s: State, step: Step, id: nat, t: Times, r: Request)
    requires Ok(c, s) && ShowsAll(s, id, t) && r in StepOf(c, s, step).out && r.id == id
    ensures Tells(r, After(c, s, step, id, t))
  {
    var out := StepOf(c, s, step).out;
    var k :| 0 <= k < |out| && out[k] == r;
    ReturnedShows(c, s, step, id, t, k);
  }

  lemma RunNext(c: Config, s: State, steps: seq<Step>, r: Request)
    requires steps != [] && r in Run(c, s, steps).out
    ensures var o := Run(c, s, steps[..|steps| - 1]);
      r in o.out || r in StepOf(c, o.state, steps[|steps| - 1]).out
  {
  }

  /** A request returned as completed carries, at any later time, the record of the run. */
  lemma {:induction false} CompletedShows(c: Config, s: State, steps: seq<Step>, id: nat, t: Times, r: Request)
    requires Ok(c, s) && id < s.nextId && ShowsAll(s, id, t) && forall i | 0 <= i < |steps| :: StepOk(steps[i])
    requires r in Run(c, s, steps).out && r.id == id && r.Done()
    ensures Tells(r, Record(c, s, steps, id, t))
    decreases |steps|
  {
    if steps != [] {
      var n := |steps| - 1;
      var before, u := steps[..n], Record(c, s, steps[..n], id, t);
      assert Record(c, s, steps, id, t) == After(c, Run(c, s, before).state, steps[n], id, u);
      RunNext(c, s, steps, r);
      if r in Run(c, s, before).out {
        CompletedShows(c, s, before, id, t, r);
        StillShows(c, s, before, steps[n], id, u, r);
      } else {
        RunShows(c, s, before, id, t);
        NextStepShows(c, Run(c, s, before).state, steps[n], id, u, r);
      }
    }
  }

  /** The times of a run: a request returned as completed, and one still in the system,
      has been resident for just the time it says, and had its stage flag set for the
      first-token time and the number of steps it says. */
  lemma TimesOfRun(c: Config, s: State, steps: seq<Step>, id: nat, t: Times, r: Request)
    requires Ok(c, s) && id < s.nextId && ShowsAll(s, id, t) && forall i | 0 <= i < |steps| :: StepOk(steps[i])
    requires var o := Run(c, s, steps);
      r.id == id && ((r in o.out && r.Done()) || r in o.state.queue || exists b | b in o.state.running :: r in b)
    ensures r.endTime == t.end + TimeIn(c, s, steps, id, Anyhow)
    ensures r.firstTime == t.first + TimeIn(c, s, steps, id, AtStage)
    ensures r.sumIters == t.iters + TurnsIn(c, s, steps, id, AtStage)
  {
    var o := Run(c, s, steps);
    RunShows(c, s, steps, id, t);
    RecordIsSum(c, s, steps, id, t);
    if r in o.out && r.Done() {
      CompletedShows(c, s, steps, id, t, r);
    } else if r !in o.state.queue {
      var b :| b in o.state.running && r in b;
      var i :| 0 <= i < |o.state.running| && o.state.running[i] == b;
      assert ShowsIn(o.state.running[i], id, Record(c, s, steps, id, t));
    }
  }

  // ----- The first token -----

  lemma {:induction false} SumPositive(b: Batch, f: Request -> nat) returns (j: nat)
    requires Sum(b, f) >= 1
    ensures j < |b| && f(b[j]) >= 1
  {
    j := |b| - 1;
    if f(b[j]) == 0 { j := SumPositive(b[..|b| - 1], f); }
  }

  lemma {:induction false} TotalPositive(running: seq<Batch>, f: Request -> nat) returns (i: nat, j: nat)
    requires Total(running, f) >= 1
    ensures i < |running| && j < |running[i]| && f(running[i][j]) >= 1
  {
    i := |running| - 1;
    if Sum(running[i], f) >= 1 { j := SumPositive(running[i], f); } else { i, j := TotalPositive(running[..i], f); }
  }

  /** A tracked resident has its stage flag set exactly while it prefills. */
  lemma StageIsPrefill(s: State, id: nat)
    requires Tracks(s, id)
    ensures In(s, id, AtStage) <==> In(s, id, AtPrefill)
  {
    if In(s, id, AtStage) {
      var i, j :| 0 <= i < |s.running| && 0 <= j < |s.running[i]| && s.running[i][j].id == id && Is(s.running[i][j], AtStage);
      assert TracksIn(s.running[i], id) && Is(s.running[i][j], AtPrefill);
    }
    if In(s, id, AtPrefill) {
      var i, j :| 0 <= i < |s.running| && 0 <= j < |s.running[i]| && s.running[i][j].id == id && Is(s.running[i][j], AtPrefill);
      assert TracksIn(s.running[i], id) && Is(s.running[i][j], AtStage);
    }
  }

  /** A request whose first token is still out prefills whenever it is resident. */
  lemma UnreportedPrefills(s: State, id: nat)
    requires UniqueIds(s) && Tracks(s, id) && Owed(s, Unreported(id)) >= 1
    ensures In(s, id, Anyhow) <==> In(s, id, AtStage)
  {
    if In(s, id, Anyhow) {
      var i, j :| 0 <= i < |s.running| && 0 <= j < |s.running[i]| && s.running[i][j].id == id && Is(s.running[i][j], Anyhow);
      assert IdOk(s, id);
      OnePlace(s, id, i, j);
      if Sum(s.queue, Unreported(id)) >= 1 { var k := SumPositive(s.queue, Unreported(id)); }
      var k, l := TotalPositive(s.running, Unreported(id));
      assert TracksIn(s.running[k], id);
      assert Is(s.running[k][l], AtStage);
    }
    if In(s, id, AtStage) {
      var i, j :| 0 <= i < |s.running| && 0 <= j < |s.running[i]| && s.running[i][j].id == id && Is(s.running[i][j], AtStage);
      assert Is(s.running[i][j], Anyhow);
    }
  }

  /** For a request that arrives with current < input < total the stage flag marks the
      steps that find it prefilling. */
  lemma {:induction false} StageTime(c: Config, s: State, steps: seq<Step>, id: nat)
    requires Ok(c, s) && Tracks(s, id) && id < s.nextId && forall i | 0 <= i < |steps| :: StepOk(steps[i])
    ensures TimeIn(c, s, steps, id, AtStage) == TimeIn(c, s, steps, id, AtPrefill)
    ensures TurnsIn(c, s, steps, id, AtStage) == TurnsIn(c, s, steps, id, AtPrefill)
  {
    if steps != [] {
      var n := |steps| - 1;
      StageTime(c, s, steps[..n], id);
      RunReports(c, s, steps[..n], id);
      StageIsPrefill(Run(c, s, steps[..n]).state, id);
    }
  }

  /** As long as the first token is out, all the time resident is prefill time. */
  lemma {:induction false} UnreportedTime(c: Config, s: State, steps: seq<Step>, id: nat)
    requires Ok(c, s) && Tracks(s, id) && id < s.nextId && forall i | 0 <= i < |steps| :: StepOk(steps[i])
    requires Owed(Run(c, s, steps).state, Unreported(id)) >= 1
    ensures TimeIn(c, s, steps, id, Anyhow) == TimeIn(c, s, steps, id, AtStage)
  {
    if steps != [] {
      var n := |steps| - 1;
      var o := Run(c, s, steps[..n]).state;
      RunReports(c, s, steps[..n], id);
      StepReports(c, o, steps[n], id);
      UnreportedTime(c, s, steps[..n], id);
      UnreportedPrefills(o, id);
    }
  }

  /** The step that returns the first token ends a time that was all prefill: the
      first-token time reported is all the time the request has been resident. */
  lemma FirstTokenTime(c: Config, s: State, steps: seq<Step>, step: Step, id: nat, t: Times, k: nat)
    requires Ok(c, s) && Tracks(s, id) && id < s.nextId && ShowsAll(s, id, t)
    requires StepOk(step) && forall i | 0 <= i < |steps| :: StepOk(steps[i])
    requires var o := StepOf(c, Run(c, s, steps).state, step).out; k < |o| && o[k].id == id && !o[k].Done()
    ensures var x := StepOf(c, Run(c, s, steps).state, step).out[k];
      && x.endTime == t.end + TimeIn(c, s, steps, id, AtPrefill) + TimeOf(step)
      && x.firstTime == t.first + TimeIn(c, s, steps, id, AtPrefill) + TimeOf(step)
      && x.sumIters == t.iters + TurnsIn(c, s, steps, id, AtPrefill) + 1
  {
    var o := Run(c, s, steps).state;
    RunReports(c, s, steps, id);
    RunShows(c, s, steps, id, t);
    RecordIsSum(c, s, steps, id, t);
    StageTime(c, s, steps, id);
    StepReports(c, o, step, id);
    SumElement(StepOf(c, o, step).out, k, FirstOf(id));
    UnreportedTime(c, s, steps, id);
    UnreportedPrefills(o, id);
    ReturnedShows(c, o, step, id, Record(c, s, steps, id, t), k);
  }

  /** A request starts with nothing recorded. */
  lemma ArrivalStartsAtZero(c: Config, s: State, a: Arrival)
    requires Ok(c, s)
    ensures ShowsAll(Enqueue(s, [a]), s.nextId, Times(0.0, 0.0, 0, 0.0))
  {
    var id := s.nextId;
    EnqueueInOrder(s, [a]);
    assert IdOk(s, id);
    forall i, j | 0 <= i < |s.running| && 0 <= j < |s.running[i]| ensures s.running[i][j].id != id {
      SumElement(s.running[i], j, Counting(id));
      TotalRank(s.running, i, Counting(id));
    }
    forall k | 0 <= k < |s.queue| ensures s.queue[k].id != id { SumElement(s.queue, k, Counting(id)); }
  }

  // ----- The clock of the driver -----

  /** The time of the steps of a run that are not skipped. */
  function Elapsed(c: Config, s: State, steps: seq<Step>): Time {
    if steps == [] then 0.0
    else
      var n := |steps| - 1;
      Elapsed(c, s, steps[..n]) + if Skipped(c, Run(c, s, steps[..n]).state, steps[n]) then 0.0 else TimeOf(steps[n])
  }

  lemma {:induction false} ClockOfRun(c: Config, s: State, steps: seq<Step>)
    ensures Run(c, s, steps).state.now == s.now + Elapsed(c, s, steps)
  {
    if steps != [] {
      var n := |steps| - 1;
      ClockOfRun(c, s, steps[..n]);
      var o := Run(c, s, steps[..n]).state;
      if !Skipped(c, o, steps[n]) { StepShape(c, o, steps[n]); }
    }
  }
}

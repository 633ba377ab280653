/** Continuous batching without disaggregation: what one scheduler step does to
    the waiting queue and the running batches, one batch per data-parallel rank. */
module Batching {

  type Time = t: real | 0.0 <= t witness 0.0

  /** A request. `pending` is the number of tokens the current step processes. */
  datatype Request = Request(
    id: nat, input: nat, total: nat, current: nat, pending: nat,
    sumStage: bool, record: bool, sumIters: nat,
    genStart: Time, firstTime: Time, endTime: Time)
  {
    predicate Prefilling() { current < input }
    predicate Done() { current == total }
  }

  type Batch = seq<Request>

  /** `perRank` is the batch size per rank, `budget` the prefill tokens per rank. */
  datatype Config = Config(totalBatch: nat, perRank: nat, budget: nat)

  datatype State = State(queue: seq<Request>, running: seq<Batch>, rotate: nat, now: Time, nextId: nat)

  /** A request as it arrives: its lengths and how much of it is already cached. */
  datatype Arrival = Arrival(input: nat, total: nat, cached: nat)

  function Admit(a: Arrival, id: nat): Request {
    Request(id, a.input, a.total, a.cached, 0, true, false, 0, 0.0, 0.0, 0.0)
  }

  /** The sum of f over a batch, and over all batches. */
  function Sum(b: Batch, f: Request -> nat): nat {
    if b == [] then 0 else Sum(b[..|b| - 1], f) + f(b[|b| - 1])
  }

  function Total(running: seq<Batch>, f: Request -> nat): nat {
    if running == [] then 0 else Total(running[..|running| - 1], f) + Sum(running[|running| - 1], f)
  }

  // ----- setMetadata -----

  function Waiting(r: Request): nat { if r.Prefilling() then 1 else 0 }

  function Pending(r: Request): nat { r.pending }

  /** How many requests of a batch are still prefilling. */
  function Sums(b: Batch): nat { Sum(b, Waiting) }

  predicate HasSum(running: seq<Batch>) {
    exists i :: 0 <= i < |running| && Sums(running[i]) > 0
  }

  function Min(a: nat, b: nat): nat { if b < a then b else a }

  /** The tokens given to r in a prefill-only or a decode-only step. */
  function Schedule(r: Request, share: nat, prefill: bool, now: Time): Request {
    if r.Prefilling() then
      if prefill then r.(pending := Min(share, r.input - r.current)) else r
    else if !prefill && (r.genStart == 0.0 || r.genStart <= now) then r.(pending := 1)
    else r
  }

  function Share(c: Config, b: Batch): nat {
    if Sums(b) == 0 then 0 else c.budget / Sums(b)
  }

  function PlanBatch(c: Config, b: Batch, prefill: bool, now: Time): (p: Batch)
    ensures |p| == |b|
  {
    seq(|b|, i requires 0 <= i < |b| => Schedule(b[i], Share(c, b), prefill, now))
  }

  function Plan(c: Config, running: seq<Batch>, now: Time): (p: seq<Batch>)
    ensures |p| == |running|
  {
    seq(|running|, i requires 0 <= i < |running| => PlanBatch(c, running[i], HasSum(running), now))
  }

  // ----- updateScheduler -----

  function Update(r: Request, time: Time): Request {
    var current := r.current + r.pending;
    r.(endTime := r.endTime + time,
       firstTime := if r.sumStage then r.firstTime + time else r.firstTime,
       sumIters := if r.sumStage then r.sumIters + 1 else r.sumIters,
       current := current, pending := 0,
       sumStage := r.sumStage && current != r.input)
  }

  function UpdateBatch(b: Batch, time: Time): (u: Batch)
    ensures |u| == |b|
  {
    seq(|b|, i requires 0 <= i < |b| => Update(b[i], time))
  }

  predicate Emits(r: Request) {
    r.Done() || (r.current == r.input && !r.record)
  }

  /** A returned request has its first token out; so `record` is set unless done. */
  function Mark(r: Request): Request {
    if !r.Done() && r.current == r.input then r.(record := true) else r
  }

  /** The requests that stay in the batch. */
  function Kept(b: Batch): Batch {
    if b == [] then []
    else
      var r := b[|b| - 1];
      Kept(b[..|b| - 1]) + if r.Done() then [] else [Mark(r)]
  }

  /** The requests returned: first token out, or completed. */
  function Out(b: Batch): seq<Request> {
    if b == [] then []
    else
      var r := b[|b| - 1];
      Out(b[..|b| - 1]) + if Emits(r) then [Mark(r)] else []
  }

  function KeptAll(running: seq<Batch>, time: Time): (k: seq<Batch>)
    ensures |k| == |running|
  {
    seq(|running|, i requires 0 <= i < |running| => Kept(UpdateBatch(running[i], time)))
  }

  function OutAll(running: seq<Batch>, time: Time): seq<Request> {
    if running == [] then []
    else OutAll(running[..|running| - 1], time) + Out(UpdateBatch(running[|running| - 1], time))
  }

  // ----- fillRunningQueue -----

  datatype Placed = Placed(running: seq<Batch>, rotate: nat, ok: bool)

  /** Try at most `tries` ranks from the rotation on for one with room. */
  function Place(running: seq<Batch>, rotate: nat, cap: nat, tries: nat, r: Request): (p: Placed)
    requires tries > 0 ==> |running| > 0
    ensures |p.running| == |running|
    decreases tries
  {
    if tries == 0 then Placed(running, rotate, false)
    else
      var i := rotate % |running|;
      if |running[i]| < cap then Placed(running[i := running[i] + [r]], rotate + 1, true)
      else Place(running, rotate + 1, cap, tries - 1, r)
  }

  /** n rounds of taking the head of the queue and looking for a rank with room. */
  function Fill(s: State, cap: nat, n: nat): (t: State)
    requires n <= |s.queue|
    ensures |t.running| == |s.running| && t.now == s.now && t.nextId == s.nextId
    decreases n
  {
    if n == 0 then s
    else
      var p := Place(s.running, s.rotate, cap, |s.running|, s.queue[0]);
      Fill(s.(running := p.running, rotate := p.rotate, queue := if p.ok then s.queue[1..] else s.queue), cap, n - 1)
  }

  function Size(running: seq<Batch>): nat {
    if running == [] then 0 else Size(running[..|running| - 1]) + |running[|running| - 1]|
  }

  function FillRunning(c: Config, s: State): (t: State)
    ensures |t.running| == |s.running| && t.now == s.now && t.nextId == s.nextId
  {
    var free := c.totalBatch - Size(s.running);
    Fill(s, c.perRank, if free < 0 then 0 else Min(free, |s.queue|))
  }

  // ----- fillSequenceQueue -----

  function Enqueue(s: State, arrivals: seq<Arrival>): (t: State)
    ensures t.running == s.running && t.now == s.now
  {
    if arrivals == [] then s
    else
      var p := Enqueue(s, arrivals[..|arrivals| - 1]);
      p.(queue := p.queue + [Admit(arrivals[|arrivals| - 1], p.nextId)], nextId := p.nextId + 1)
  }

  // ----- One driver step -----

  /** The driver stamps the time on every returned request, resident or not. */
  function Stamp(b: Batch, out: seq<Request>, now: Time): (t: Batch)
    ensures |t| == |b|
  {
    seq(|b|, i requires 0 <= i < |b| =>
      if exists j :: 0 <= j < |out| && out[j].id == b[i].id then b[i].(genStart := now) else b[i])
  }

  function StampAll(running: seq<Batch>, out: seq<Request>, now: Time): (t: seq<Batch>)
    ensures |t| == |running|
  {
    seq(|running|, i requires 0 <= i < |running| => Stamp(running[i], out, now))
  }

  /** A step of the warm-up loop, which takes no time and reports nothing, or of
      the measuring loop, which takes `time` and is skipped when no token runs. */
  datatype Step = Warmup(arrivals: seq<Arrival>) | Iterate(time: Time, arrivals: seq<Arrival>)

  datatype Outcome = Outcome(state: State, out: seq<Request>)

  function StepOf(c: Config, s: State, step: Step): Outcome {
    var planned := Plan(c, s.running, s.now);
    match step
    case Warmup(arrivals) =>
      var t := s.(running := KeptAll(planned, 0.0));
      Outcome(FillRunning(c, Enqueue(t, arrivals)), OutAll(planned, 0.0))
    case Iterate(time, arrivals) =>
      if Total(planned, Pending) == 0 then Outcome(s.(running := planned), [])
      else
        var out, kept := OutAll(planned, time), KeptAll(planned, time);
        var stamped := StampAll(kept, out, s.now + time);
        Outcome(FillRunning(c, Enqueue(s.(running := stamped, now := s.now + time), arrivals)), out)
  }
}

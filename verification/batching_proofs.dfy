/** What every scheduler step keeps, and what holds over whole runs: conservation,
    bounds, exactly-once reporting, and that no request starves. */
module BatchingProofs {
  import opened Batching
  import Quotients

  // ----- Sums over batches -----

  lemma {:induction false} SumAgrees(b: Batch, b': Batch, f: Request -> nat, g: Request -> nat)
    requires |b| == |b'| && forall i | 0 <= i < |b| :: f(b[i]) == g(b'[i])
    ensures Sum(b, f) == Sum(b', g)
  {
    if b != [] { SumAgrees(b[..|b| - 1], b'[..|b| - 1], f, g); }
  }

  lemma {:induction false} SumAtMost(b: Batch, b': Batch, f: Request -> nat, g: Request -> nat)
    requires |b| == |b'| && forall i | 0 <= i < |b| :: f(b[i]) <= g(b'[i])
    ensures Sum(b, f) <= Sum(b', g)
    ensures (exists i :: 0 <= i < |b| && f(b[i]) < g(b'[i])) ==> Sum(b, f) < Sum(b', g)
  {
    if b != [] {
      var n := |b| - 1;
      SumAtMost(b[..n], b'[..n], f, g);
      if exists i :: 0 <= i < |b| && f(b[i]) < g(b'[i]) {
        var i :| 0 <= i < |b| && f(b[i]) < g(b'[i]);
        if i < n { assert f(b[..n][i]) < g(b'[..n][i]); }
      }
    }
  }

  lemma {:induction false} SumAppend(a: Batch, b: Batch, f: Request -> nat)
    ensures Sum(a + b, f) == Sum(a, f) + Sum(b, f)
  {
    if b == [] {
      assert a + b == a;
    } else {
      SumAppend(a, b[..|b| - 1], f);
      assert (a + b)[..|a + b| - 1] == a + b[..|b| - 1];
    }
  }

  lemma {:induction false} SumElement(b: Batch, i: nat, f: Request -> nat)
    requires i < |b|
    ensures f(b[i]) <= Sum(b, f)
  {
    if i < |b| - 1 { SumElement(b[..|b| - 1], i, f); }
  }

  lemma {:induction false} TotalRank(running: seq<Batch>, i: nat, f: Request -> nat)
    requires i < |running|
    ensures Sum(running[i], f) <= Total(running, f)
  {
    if i < |running| - 1 { TotalRank(running[..|running| - 1], i, f); }
  }

  lemma {:induction false} TotalUpdate(running: seq<Batch>, i: nat, b: Batch, f: Request -> nat)
    requires i < |running|
    ensures Total(running[i := b], f) + Sum(running[i], f) == Total(running, f) + Sum(b, f)
  {
    var n := |running| - 1;
    if i < n {
      TotalUpdate(running[..n], i, b, f);
      assert running[i := b][..n] == running[..n][i := b];
    } else {
      assert running[i := b][..n] == running[..n];
    }
  }

  lemma {:induction false} TotalAtMost(x: seq<Batch>, y: seq<Batch>, f: Request -> nat, g: Request -> nat)
    requires |x| == |y| && forall i | 0 <= i < |x| :: Sum(x[i], f) <= Sum(y[i], g)
    ensures Total(x, f) <= Total(y, g)
    ensures (exists i :: 0 <= i < |x| && Sum(x[i], f) < Sum(y[i], g)) ==> Total(x, f) < Total(y, g)
  {
    if x != [] {
      var n := |x| - 1;
      TotalAtMost(x[..n], y[..n], f, g);
      if exists i :: 0 <= i < |x| && Sum(x[i], f) < Sum(y[i], g) {
        var i :| 0 <= i < |x| && Sum(x[i], f) < Sum(y[i], g);
        if i < n { assert Sum(x[..n][i], f) < Sum(y[..n][i], g); }
      }
    }
  }

  lemma TotalAgrees(x: seq<Batch>, y: seq<Batch>, f: Request -> nat, g: Request -> nat)
    requires |x| == |y| && forall i | 0 <= i < |x| :: Sum(x[i], f) == Sum(y[i], g)
    ensures Total(x, f) == Total(y, g)
  {
    TotalAtMost(x, y, f, g);
    TotalAtMost(y, x, g, f);
  }

  function Unit(r: Request): nat { 1 }

  lemma {:induction false} SizeIsTotal(running: seq<Batch>)
    ensures Size(running) == Total(running, Unit)
  {
    if running != [] {
      SizeIsTotal(running[..|running| - 1]);
      SumUnit(running[|running| - 1]);
    }
  }

  lemma {:induction false} SumUnit(b: Batch)
    ensures Sum(b, Unit) == |b|
  {
    if b != [] { SumUnit(b[..|b| - 1]); }
  }

  /** f of what stays of a request plus g of what is returned of it. */
  function Parts(f: Request -> nat, g: Request -> nat, r: Request): nat {
    (if r.Done() then 0 else f(Mark(r))) + (if Emits(r) then g(Mark(r)) else 0)
  }

  lemma {:induction false} Split(b: Batch, f: Request -> nat, g: Request -> nat)
    ensures Sum(Kept(b), f) + Sum(Out(b), g) == Sum(b, r => Parts(f, g, r))
  {
    if b != [] {
      var n, r := |b| - 1, b[|b| - 1];
      Split(b[..n], f, g);
      SumAppend(Kept(b[..n]), if r.Done() then [] else [Mark(r)], f);
      SumAppend(Out(b[..n]), if Emits(r) then [Mark(r)] else [], g);
    }
  }

  lemma SplitRank(b: Batch, time: Time, f: Request -> nat, g: Request -> nat, h: Request -> nat)
    requires forall j | 0 <= j < |b| :: Parts(f, g, Update(b[j], time)) == h(b[j])
    ensures Sum(Kept(UpdateBatch(b, time)), f) + Sum(Out(UpdateBatch(b, time)), g) == Sum(b, h)
  {
    var u := UpdateBatch(b, time);
    Split(u, f, g);
    SumAgrees(u, b, r => Parts(f, g, r), h);
  }

  /** If the parts of every request add up to h, so do the sums over a step. */
  lemma {:induction false} SplitAll(running: seq<Batch>, time: Time, f: Request -> nat, g: Request -> nat, h: Request -> nat)
    requires forall i, j | 0 <= i < |running| && 0 <= j < |running[i]| ::
      Parts(f, g, Update(running[i][j], time)) == h(running[i][j])
    ensures Total(KeptAll(running, time), f) + Sum(OutAll(running, time), g) == Total(running, h)
  {
    if running != [] {
      var n := |running| - 1;
      SplitAll(running[..n], time, f, g, h);
      assert KeptAll(running, time)[..n] == KeptAll(running[..n], time);
      SplitRank(running[n], time, f, g, h);
      SumAppend(OutAll(running[..n], time), Out(UpdateBatch(running[n], time)), g);
    }
  }

  // ----- fillRunningQueue -----

  predicate FullAt(running: seq<Batch>, x: nat, cap: nat)
    requires |running| > 0
  {
    |running[x % |running|]| >= cap
  }

  predicate AllFull(running: seq<Batch>, cap: nat) {
    forall i | 0 <= i < |running| :: |running[i]| >= cap
  }

  /** The m ranks from rotation x on are full. */
  predicate FullRun(running: seq<Batch>, x: nat, cap: nat, m: nat)
    requires |running| > 0
    decreases m
  {
    m == 0 || (FullAt(running, x, cap) && FullRun(running, x + 1, cap, m - 1))
  }

  lemma {:induction false} FullRunAt(running: seq<Batch>, x: nat, cap: nat, m: nat, j: nat)
    requires |running| > 0 && FullRun(running, x, cap, m) && j < m
    ensures FullAt(running, x + j, cap)
    decreases j
  {
    if j > 0 { FullRunAt(running, x + 1, cap, m - 1, j - 1); }
  }

  /** The batches after r joins the rank at rotation x. */
  function Join(running: seq<Batch>, x: nat, r: Request): seq<Batch>
    requires |running| > 0
  {
    running[x % |running| := running[x % |running|] + [r]]
  }

  /** Placement takes the first rank with room, from the rotation on. */
  lemma {:induction false} PlaceAt(running: seq<Batch>, rotate: nat, cap: nat, tries: nat, r: Request) returns (k: nat)
    requires |running| > 0
    ensures k <= tries && FullRun(running, rotate, cap, k)
    ensures k < tries ==>
      !FullAt(running, rotate + k, cap)
      && Place(running, rotate, cap, tries, r) == Placed(Join(running, rotate + k, r), rotate + k + 1, true)
    ensures k == tries ==> Place(running, rotate, cap, tries, r) == Placed(running, rotate + tries, false)
    decreases tries
  {
    k := 0;
    if tries > 0 && FullAt(running, rotate, cap) {
      k := PlaceAt(running, rotate + 1, cap, tries - 1, r);
      k := k + 1;
    }
  }

  /** Every rank is reached within one turn of the rotation. */
  lemma TurnReaches(rotate: nat, n: nat, i: nat) returns (j: nat)
    requires i < n
    ensures j < n && (rotate + j) % n == i
  {
    var a := rotate % n;
    j := if a <= i then i - a else i + n - a;
    var q := rotate / n;
    assert rotate + j == q * n + a + j;
    if a <= i {
      ModUnique(rotate + j, n, q, i);
    } else {
      ModUnique(rotate + j, n, q + 1, i);
    }
  }

  lemma ModUnique(x: nat, n: nat, q: nat, i: nat)
    requires i < n && x == q * n + i
    ensures x % n == i && x / n == q
  {
    var p := x / n;
    assert x == p * n + x % n;
    Quotients.MulMono(p + 1, q, n);
    Quotients.MulMono(q + 1, p, n);
  }

  lemma TurnFull(running: seq<Batch>, rotate: nat, cap: nat)
    requires |running| > 0 && FullRun(running, rotate, cap, |running|)
    ensures AllFull(running, cap)
  {
    forall i | 0 <= i < |running| ensures |running[i]| >= cap {
      var j := TurnReaches(rotate, |running|, i);
      FullRunAt(running, rotate, cap, |running|, j);
    }
  }

  /** `b` grew to `b'` by requests from `q`, not beyond cap. */
  ghost predicate Grown(b: Batch, b': Batch, q: seq<Request>, cap: nat) {
    b <= b' && (b' == b || |b'| <= cap) && forall j | |b| <= j < |b'| :: b'[j] in q
  }

  /** `t` is `s` with the first k queued requests appended to batches with room. */
  ghost predicate Admitted(s: State, t: State, cap: nat, k: nat) {
    && k <= |s.queue| && t.queue == s.queue[k..] && |t.running| == |s.running|
    && t.now == s.now && t.nextId == s.nextId
    && (forall i | 0 <= i < |s.running| :: Grown(s.running[i], t.running[i], s.queue[..k], cap))
  }

  lemma JoinSum(running: seq<Batch>, x: nat, r: Request, f: Request -> nat)
    requires |running| > 0
    ensures Total(Join(running, x, r), f) == Total(running, f) + f(r)
  {
    var i := x % |running|;
    TotalUpdate(running, i, running[i] + [r], f);
    SumAppend(running[i], [r], f);
    assert [r][..0] == [];
  }

  lemma SumHead(q: seq<Request>, f: Request -> nat)
    requires q != []
    ensures Sum(q, f) == f(q[0]) + Sum(q[1..], f)
  {
    assert q == [q[0]] + q[1..] && [q[0]][..0] == [];
    SumAppend([q[0]], q[1..], f);
  }

  /** The state after one round of filling. */
  function FillOnce(s: State, cap: nat): State
    requires |s.queue| > 0
  {
    var p := Place(s.running, s.rotate, cap, |s.running|, s.queue[0]);
    s.(running := p.running, rotate := p.rotate, queue := if p.ok then s.queue[1..] else s.queue)
  }

  lemma FillOnceConserves(s: State, cap: nat, f: Request -> nat)
    requires |s.queue| > 0 && |s.running| > 0
    ensures var t := FillOnce(s, cap);
      Total(t.running, f) + Sum(t.queue, f) == Total(s.running, f) + Sum(s.queue, f)
  {
    var k := PlaceAt(s.running, s.rotate, cap, |s.running|, s.queue[0]);
    SumHead(s.queue, f);
    if k < |s.running| { JoinSum(s.running, s.rotate + k, s.queue[0], f); }
  }

  /** Every sum over all requests in the system is conserved by filling. */
  lemma {:induction false} FillConserves(s: State, cap: nat, n: nat, f: Request -> nat)
    requires n <= |s.queue| && |s.running| > 0
    ensures var t := Fill(s, cap, n);
      Total(t.running, f) + Sum(t.queue, f) == Total(s.running, f) + Sum(s.queue, f)
    decreases n
  {
    if n > 0 {
      FillOnceConserves(s, cap, f);
      FillConserves(FillOnce(s, cap), cap, n - 1, f);
    }
  }

  lemma JoinEffect(running: seq<Batch>, x: nat, r: Request, cap: nat)
    requires |running| > 0 && !FullAt(running, x, cap)
    ensures |Join(running, x, r)| == |running|
    ensures forall i | 0 <= i < |running| :: Grown(running[i], Join(running, x, r)[i], [r], cap)
  {
  }

  lemma GrownTwice(b: Batch, b': Batch, b'': Batch, q: seq<Request>, cap: nat, k: nat)
    requires k < |q| && Grown(b, b', [q[0]], cap) && Grown(b', b'', q[1..][..k], cap)
    ensures Grown(b, b'', q[..k + 1], cap)
  {
    assert q[..k + 1] == [q[0]] + q[1..][..k];
    forall j | |b| <= j < |b''| ensures b''[j] in q[..k + 1] {
      if j < |b'| { assert b''[j] == b'[j]; }
    }
  }

  lemma AdmittedOne(s: State, s': State, t: State, cap: nat, k: nat)
    requires |s.queue| > 0 && s'.queue == s.queue[1..] && Admitted(s', t, cap, k)
    requires |s'.running| == |s.running| && s'.now == s.now && s'.nextId == s.nextId
    requires forall i | 0 <= i < |s.running| :: Grown(s.running[i], s'.running[i], [s.queue[0]], cap)
    ensures Admitted(s, t, cap, k + 1)
  {
    assert s.queue[1..][k..] == s.queue[k + 1..];
    forall i | 0 <= i < |s.running| ensures Grown(s.running[i], t.running[i], s.queue[..k + 1], cap) {
      GrownTwice(s.running[i], s'.running[i], t.running[i], s.queue, cap, k);
    }
  }

  lemma {:induction false} FillEffect(s: State, cap: nat, n: nat) returns (k: nat)
    requires n <= |s.queue| && |s.running| > 0
    ensures var t := Fill(s, cap, n); k <= n && Admitted(s, t, cap, k)
    ensures k < n ==> AllFull(Fill(s, cap, n).running, cap)
    ensures k == 0 ==> Fill(s, cap, n).running == s.running
    decreases n
  {
    k := 0;
    if n > 0 {
      var m := PlaceAt(s.running, s.rotate, cap, |s.running|, s.queue[0]);
      var s' := FillOnce(s, cap);
      if m < |s.running| {
        k := FillEffect(s', cap, n - 1);
        JoinEffect(s.running, s.rotate + m, s.queue[0], cap);
        AdmittedOne(s, s', Fill(s', cap, n - 1), cap, k);
        k := k + 1;
      } else {
        TurnFull(s.running, s.rotate, cap);
        FillWhenFull(s', cap, n - 1);
      }
    }
  }

  lemma {:induction false} FillWhenFull(s: State, cap: nat, n: nat)
    requires n <= |s.queue| && |s.running| > 0 && AllFull(s.running, cap)
    ensures Fill(s, cap, n) == s.(rotate := Fill(s, cap, n).rotate)
    decreases n
  {
    if n > 0 {
      var k := PlaceAt(s.running, s.rotate, cap, |s.running|, s.queue[0]);
      FillWhenFull(s.(rotate := s.rotate + |s.running|), cap, n - 1);
    }
  }

  lemma ModInjective(x: nat, n: nat, i: nat, j: nat)
    requires i < n && j < n && (x + i) % n == (x + j) % n
    ensures i == j
  {
    var p, q := (x + i) / n, (x + j) / n;
    assert x + i == p * n + (x + i) % n && x + j == q * n + (x + j) % n;
    Quotients.MulMono(p + 1, q, n);
    Quotients.MulMono(q + 1, p, n);
  }

  lemma ModNext(x: nat, n: nat)
    requires n > 0
    ensures (x + 1) % n == if x % n == n - 1 then 0 else x % n + 1
  {
    assert x == x / n * n + x % n;
    if x % n == n - 1 {
      ModUnique(x + 1, n, x / n + 1, 0);
    } else {
      ModUnique(x + 1, n, x / n, x % n + 1);
    }
  }

  lemma ModSuccessor(x: nat, y: nat, n: nat)
    requires n > 0 && x % n == y % n
    ensures (x + 1) % n == (y + 1) % n && (x + n) % n == x % n
  {
    ModNext(x, n);
    ModNext(y, n);
    assert x == x / n * n + x % n;
    ModUnique(x + n, n, x / n + 1, x % n);
  }

  /** The i-th rank from rotation x holds q requests, one more if i < j. */
  ghost predicate LevelAt(running: seq<Batch>, x: nat, q: nat, j: nat, i: nat)
    requires |running| > 0
  {
    |running[(x + i) % |running|]| == q + if i < j then 1 else 0
  }

  ghost predicate Level(s: State, x: nat, q: nat, j: nat) {
    && j < |s.running| && s.rotate % |s.running| == (x + j) % |s.running|
    && forall i: nat | i < |s.running| :: LevelAt(s.running, x, q, j, i)
  }

  lemma LevelSpread(s: State, x: nat, q: nat, j: nat)
    requires Level(s, x, q, j)
    ensures forall a | 0 <= a < |s.running| :: q <= |s.running[a]| <= q + 1
  {
    forall a | 0 <= a < |s.running| ensures q <= |s.running[a]| <= q + 1 {
      var i := TurnReaches(x, |s.running|, a);
      assert LevelAt(s.running, x, q, j, i);
    }
  }

  lemma LevelSlot(s: State, x: nat, q: nat, j: nat, i: nat, r: Request)
    requires Level(s, x, q, j) && i < |s.running|
    ensures LevelAt(Join(s.running, s.rotate, r), x, q, j + 1, i)
  {
    var a, b := (x + i) % |s.running|, (x + j) % |s.running|;
    assert LevelAt(s.running, x, q, j, i);
    assert Join(s.running, s.rotate, r) == s.running[b := s.running[b] + [r]];
    if a == b { ModInjective(x, |s.running|, i, j); }
  }

  lemma LevelJoin(s: State, t: State, x: nat, q: nat, j: nat, r: Request)
    requires Level(s, x, q, j) && t.running == Join(s.running, s.rotate, r) && t.rotate == s.rotate + 1
    ensures if j + 1 < |s.running| then Level(t, x, q, j + 1) else Level(t, x, q + 1, 0)
  {
    ModSuccessor(s.rotate, x + j, |s.running|);
    ModSuccessor(x, x, |s.running|);
    var j', q' := j + 1, q + 1;
    forall i: nat | i < |s.running| ensures LevelAt(t.running, x, q, j', i) { LevelSlot(s, x, q, j, i, r); }
    if j' == |s.running| {
      forall i: nat | i < |s.running| ensures LevelAt(t.running, x, q', 0, i) {
        assert LevelAt(t.running, x, q, j', i);
      }
    }
  }

  lemma {:induction false} FillLevel(s: State, cap: nat, n: nat, x: nat, q: nat, j: nat) returns (q': nat)
    requires n <= |s.queue| && Level(s, x, q, j) && (q < cap || (q == cap && j == 0))
    ensures forall a | 0 <= a < |s.running| :: q' <= |Fill(s, cap, n).running[a]| <= q' + 1
    decreases n
  {
    q' := q;
    if n == 0 {
      LevelSpread(s, x, q, j);
    } else if q < cap {
      var r := s.queue[0];
      assert LevelAt(s.running, x, q, j, j);
      assert Place(s.running, s.rotate, cap, |s.running|, r) == Placed(Join(s.running, s.rotate, r), s.rotate + 1, true);
      LevelJoin(s, FillOnce(s, cap), x, q, j, r);
      q' := FillLevel(FillOnce(s, cap), cap, n - 1, x, if j + 1 < |s.running| then q else q + 1, if j + 1 < |s.running| then j + 1 else 0);
    } else {
      LevelSpread(s, x, q, j);
      FillWhenFull(s, cap, n);
    }
  }

  // ----- Filling the batches: the whole operation -----

  function Capacity(c: Config, running: seq<Batch>): nat { |running| * c.perRank }

  /** The batches fit: what the scheduler's configuration gives. */
  ghost predicate Fits(c: Config, running: seq<Batch>) {
    && |running| > 0 && Capacity(c, running) <= c.totalBatch
    && forall i | 0 <= i < |running| :: |running[i]| <= c.perRank
  }

  lemma {:induction false} SizeBound(running: seq<Batch>, cap: nat)
    requires forall i | 0 <= i < |running| :: |running[i]| <= cap
    ensures Size(running) <= |running| * cap
    ensures Size(running) == |running| * cap ==> AllFull(running, cap)
    ensures AllFull(running, cap) ==> Size(running) == |running| * cap
  {
    if running != [] {
      var n := |running| - 1;
      SizeBound(running[..n], cap);
      assert |running| * cap == n * cap + cap;
      if AllFull(running, cap) { assert AllFull(running[..n], cap); }
    }
  }

  /** Filling the running batches from any rotation: the queue gives up a prefix,
      in order; no request is lost or made; no batch outgrows its size; and it is
      work-conserving, even when the ranks do not divide the total batch size. */
  lemma FillRunningEffect(c: Config, s: State) returns (k: nat)
    requires Fits(c, s.running)
    ensures Admitted(s, FillRunning(c, s), c.perRank, k) && Fits(c, FillRunning(c, s).running)
    ensures Size(FillRunning(c, s).running) == Size(s.running) + k
    ensures FillRunning(c, s).queue == [] || AllFull(FillRunning(c, s).running, c.perRank)
    ensures k == 0 ==> FillRunning(c, s).running == s.running
  {
    SizeBound(s.running, c.perRank);
    var free: nat := c.totalBatch - Size(s.running);
    var n, t := Min(free, |s.queue|), FillRunning(c, s);
    k := FillEffect(s, c.perRank, n);
    FillRunningCount(c, s, k);
    SizeBound(t.running, c.perRank);
  }

  lemma FillRunningCount(c: Config, s: State, k: nat)
    requires Fits(c, s.running) && k <= |s.queue| && |FillRunning(c, s).queue| == |s.queue| - k
    ensures Size(FillRunning(c, s).running) == Size(s.running) + k
  {
    var t := FillRunning(c, s);
    FillRunningSum(c, s, Unit);
    SizeIsTotal(s.running);
    SizeIsTotal(t.running);
    SumUnit(s.queue);
    SumUnit(t.queue);
  }

  lemma FillRunningSum(c: Config, s: State, f: Request -> nat)
    requires Fits(c, s.running)
    ensures var t := FillRunning(c, s);
      Total(t.running, f) + Sum(t.queue, f) == Total(s.running, f) + Sum(s.queue, f)
  {
    SizeBound(s.running, c.perRank);
    FillConserves(s, c.perRank, Min(c.totalBatch - Size(s.running), |s.queue|), f);
  }

  /** Starting from empty batches, the sizes end up within one of each other. */
  lemma FillFromEmptyIsBalanced(c: Config, s: State)
    requires Fits(c, s.running) && forall i | 0 <= i < |s.running| :: s.running[i] == []
    ensures var t := FillRunning(c, s);
      forall a, b | 0 <= a < |t.running| && 0 <= b < |t.running| :: |t.running[a]| <= |t.running[b]| + 1
  {
    SizeBound(s.running, c.perRank);
    forall i: nat | i < |s.running| ensures LevelAt(s.running, s.rotate, 0, 0, i) {}
    var q := FillLevel(s, c.perRank, Min(c.totalBatch - Size(s.running), |s.queue|), s.rotate, 0, 0);
  }
}

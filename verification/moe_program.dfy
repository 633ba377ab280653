/** The step list a device pushes while the model is built: embedding, dense and
    MoE decoder layers in any order, language-model head. Shows that the list is well-formed for
    any number of layers, so every result about the engine applies to it. */
module MoEProgram {
  import opened BarrierEngine
  import Quotients

  /** Degrees and how many local steps the variable parts of a layer have. */
  datatype Plan = Plan(devices: nat, neTp: nat, eTp: nat, attention: nat, dense: nat, experts: nat, shared: nat)

  predicate PlanOk(p: Plan) {
    0 < p.neTp && 0 < p.eTp && 0 < p.devices && p.devices % p.neTp == 0 && p.devices % p.eTp == 0
  }

  function Local(input: nat): Op { Op(input, 0, false, Effect.Local) }

  /** `steps` local steps, each reading the output of the one before. */
  function Chain(ops: seq<Op>, steps: nat, effect: Effect): seq<Op> {
    if steps == 0 then ops
    else
      var r := Chain(ops, steps - 1, effect);
      r + [Op(|r|, 0, false, effect)]
  }

  /** A `Sync` module: produce a fresh tensor, then wait on it with all devices. */
  function SyncAll(p: Plan, ops: seq<Op>, x: nat): seq<Op> {
    ops + [Op(x, 0, true, Effect.Local), Op(|ops| + 1, p.devices, true, Effect.Local)]
  }

  /** Attention up to the layer norm whose output feeds the expert block. */
  function Attention(p: Plan, ops: seq<Op>): seq<Op> {
    var a := Chain(ops + [Local(1)], p.attention, Effect.Local);
    var r := a + [Op(|a|, p.neTp, false, Effect.Local)];
    r + [Local(|r|)] + [Local(|r|)]
  }

  /** `sync_0`, the gate, rank 0's gate update, the scatter barrier. */
  function Gating(p: Plan, ops: seq<Op>, layer: nat): seq<Op> {
    var x := |ops|;
    var r := SyncAll(p, ops, x) + [Local(x)] + [Op(x, 0, false, WriteCounts(layer))];
    r + [Op(|r|, p.devices, false, ReadCounts(layer))]
  }

  /** Routing and the experts of the device. */
  function Experts(p: Plan, ops: seq<Op>, x: nat, layer: nat): seq<Op> {
    var r := SyncAll(p, ops, x);
    Chain(r + [Op(|ops|, 0, false, ReadCounts(layer))], p.experts, ReadCounts(layer))
  }

  /** The guarded all-reduces, the gather and the shared experts. */
  function Combine(p: Plan, ops: seq<Op>, x: nat, layer: nat): seq<Op> {
    var c1 := SyncAll(p, ops, x) + [Op(x, p.eTp, false, Effect.Local)];
    var c2 := SyncAll(p, c1, x) + [Op(|ops|, 0, false, ReadCounts(layer))];
    var c3 := SyncAll(p, c2, x) + [Op(x, p.neTp, false, Effect.Local)];
    var c4 := SyncAll(p, Chain(SyncAll(p, c3, x), p.shared, Effect.Local), x);
    c4 + [Local(|c4|)]
  }

  function MoELayer(p: Plan, ops: seq<Op>, layer: nat): seq<Op> {
    var a := Attention(p, ops);
    Combine(p, Experts(p, Gating(p, a, layer), |a|, layer), |a|, layer)
  }

  /** A dense decoder: attention, the feed-forward steps, an all-reduce, the residual. */
  function DenseLayer(p: Plan, ops: seq<Op>): seq<Op> {
    var f := Chain(Attention(p, ops), p.dense, Effect.Local);
    var r := f + [Op(|f|, p.neTp, false, Effect.Local)];
    r + [Local(|r|)]
  }

  /** Which layers are MoE layers: every so many, or all but the first few. */
  function EveryNth(freq: nat): nat -> bool { (layer: nat) => freq != 0 && layer % freq == 0 }

  function AfterFirst(dense: nat): nat -> bool { (layer: nat) => layer >= dense }

  function Layers(p: Plan, moe: nat -> bool, n: nat): seq<Op> {
    if n == 0 then [Local(0)]
    else if moe(n - 1) then MoELayer(p, Layers(p, moe, n - 1), n - 1)
    else DenseLayer(p, Layers(p, moe, n - 1))
  }

  function Model(p: Plan, moe: nat -> bool, n: nat): seq<Op> {
    Layers(p, moe, n) + [Local(|Layers(p, moe, n)|)]
  }

  // ----- Well-formedness -----

  /** Appending a step that is itself well-formed keeps the list well-formed. */
  lemma Append(n: nat, ops: seq<Op>, op: Op)
    requires AllOk(n, ops) && OpOk(n, ops + [op], |ops|)
    ensures AllOk(n, ops + [op])
  {
    var r := ops + [op];
    forall k: nat | k < |r| ensures OpOk(n, r, k) {
      if k < |ops| {
        assert OpOk(n, ops, k);
        if Reads(ops, k) {
          var w: nat, b: nat :| Brackets(n, ops, w, b, k);
          assert Brackets(n, r, w, b, k);
        }
        if Writes(ops, k) {
          var s: nat :| Shields(n, ops, s, k);
          assert Shields(n, r, s, k);
        }
      }
    }
  }

  /** The counts of `layer` were written at w, behind the full barrier b, and not since. */
  ghost predicate Fenced(n: nat, ops: seq<Op>, layer: nat, w: nat, b: nat) {
    && w < b < |ops| && ops[w].effect == WriteCounts(layer) && FullBarrier(n, ops, b)
    && forall j: nat | w < j < |ops| :: !ops[j].effect.WriteCounts?
  }

  ghost predicate Extends(ops: seq<Op>, r: seq<Op>) {
    |ops| <= |r| && r[..|ops|] == ops && forall j: nat | |ops| <= j < |r| :: !r[j].effect.WriteCounts?
  }

  lemma FencedExtends(n: nat, ops: seq<Op>, r: seq<Op>, layer: nat, w: nat, b: nat)
    requires Fenced(n, ops, layer, w, b) && Extends(ops, r)
    ensures Fenced(n, r, layer, w, b)
  {
    assert forall j: nat | j < |ops| :: r[j] == r[..|ops|][j] == ops[j];
  }

  lemma AppendReader(n: nat, ops: seq<Op>, input: nat, layer: nat, w: nat, b: nat)
    requires AllOk(n, ops) && Fenced(n, ops, layer, w, b) && input <= |ops|
    ensures AllOk(n, ops + [Op(input, 0, false, ReadCounts(layer))])
    ensures Extends(ops, ops + [Op(input, 0, false, ReadCounts(layer))])
  {
    assert Brackets(n, ops + [Op(input, 0, false, ReadCounts(layer))], w, b, |ops|);
    Append(n, ops, Op(input, 0, false, ReadCounts(layer)));
  }

  lemma AppendLocal(n: nat, ops: seq<Op>, input: nat, costless: bool)
    requires AllOk(n, ops) && input <= |ops|
    ensures AllOk(n, ops + [Op(input, 0, costless, Effect.Local)])
    ensures Extends(ops, ops + [Op(input, 0, costless, Effect.Local)])
  {
    Append(n, ops, Op(input, 0, costless, Effect.Local));
  }

  lemma AppendBarrier(n: nat, ops: seq<Op>, input: nat, group: nat, costless: bool)
    requires AllOk(n, ops) && 0 < group && n % group == 0 && input <= |ops|
    requires input == |ops| || (|ops| > 0 && FullBarrier(n, ops, |ops| - 1) && ops[|ops| - 1].costless && input < |ops| - 1)
    ensures AllOk(n, ops + [Op(input, group, costless, Effect.Local)])
    ensures Extends(ops, ops + [Op(input, group, costless, Effect.Local)])
  {
    Append(n, ops, Op(input, group, costless, Effect.Local));
  }

  lemma SyncAllOk(p: Plan, ops: seq<Op>, x: nat)
    requires PlanOk(p) && AllOk(p.devices, ops) && x <= |ops|
    ensures var r := SyncAll(p, ops, x);
      AllOk(p.devices, r) && Extends(ops, r) && |r| == |ops| + 2
      && FullBarrier(p.devices, r, |r| - 1) && r[|r| - 1].costless
      && (forall j: nat | |ops| <= j < |r| :: !r[j].effect.ReadCounts?)
  {
    var a := ops + [Op(x, 0, true, Effect.Local)];
    AppendLocal(p.devices, ops, x, true);
    AppendBarrier(p.devices, a, |a|, p.devices, true);
    assert SyncAll(p, ops, x) == a + [Op(|a|, p.devices, true, Effect.Local)];
  }

  lemma {:induction false} ChainOk(n: nat, ops: seq<Op>, steps: nat)
    requires AllOk(n, ops)
    ensures AllOk(n, Chain(ops, steps, Effect.Local)) && Extends(ops, Chain(ops, steps, Effect.Local))
  {
    if steps > 0 {
      ChainOk(n, ops, steps - 1);
      var r := Chain(ops, steps - 1, Effect.Local);
      AppendLocal(n, r, |r|, false);
    }
  }

  lemma {:induction false} ReadChainOk(n: nat, ops: seq<Op>, steps: nat, layer: nat, w: nat, b: nat)
    requires AllOk(n, ops) && Fenced(n, ops, layer, w, b)
    ensures AllOk(n, Chain(ops, steps, ReadCounts(layer))) && Extends(ops, Chain(ops, steps, ReadCounts(layer)))
  {
    if steps > 0 {
      ReadChainOk(n, ops, steps - 1, layer, w, b);
      var r := Chain(ops, steps - 1, ReadCounts(layer));
      FencedExtends(n, ops, r, layer, w, b);
      AppendReader(n, r, |r|, layer, w, b);
    }
  }

  lemma AttentionOk(p: Plan, ops: seq<Op>)
    requires PlanOk(p) && AllOk(p.devices, ops) && |ops| > 0
    ensures AllOk(p.devices, Attention(p, ops))
  {
    var a0 := ops + [Local(1)];
    AppendLocal(p.devices, ops, 1, false);
    ChainOk(p.devices, a0, p.attention);
    var a := Chain(a0, p.attention, Effect.Local);
    AppendBarrier(p.devices, a, |a|, p.neTp, false);
    var r := a + [Op(|a|, p.neTp, false, Effect.Local)];
    AppendLocal(p.devices, r, |r|, false);
    AppendLocal(p.devices, r + [Local(|r|)], |r|, false);
  }

  lemma GatingOk(p: Plan, ops: seq<Op>, layer: nat)
    requires PlanOk(p) && AllOk(p.devices, ops)
    ensures AllOk(p.devices, Gating(p, ops, layer)) && |Gating(p, ops, layer)| == |ops| + 5
    ensures Fenced(p.devices, Gating(p, ops, layer), layer, |ops| + 3, |ops| + 4)
  {
    var x, n := |ops|, p.devices;
    var s := SyncAll(p, ops, x);
    SyncAllOk(p, ops, x);
    var gate := s + [Local(x)];
    AppendLocal(n, s, x, false);
    var update := Op(x, 0, false, WriteCounts(layer));
    assert Shields(n, gate + [update], |s| - 1, |gate|);
    Append(n, gate, update);
    var r := gate + [update];
    var scatter := Op(|r|, n, false, ReadCounts(layer));
    assert Brackets(n, r + [scatter], |gate|, |r|, |r|);
    Append(n, r, scatter);
  }

  lemma ExpertsOk(p: Plan, ops: seq<Op>, x: nat, layer: nat, w: nat, b: nat)
    requires PlanOk(p) && AllOk(p.devices, ops) && Fenced(p.devices, ops, layer, w, b) && x <= |ops|
    ensures var r := Experts(p, ops, x, layer);
      AllOk(p.devices, r) && Fenced(p.devices, r, layer, w, b) && |ops| <= |r|
  {
    var n, s := p.devices, SyncAll(p, ops, x);
    SyncAllOk(p, ops, x);
    FencedExtends(n, ops, s, layer, w, b);
    AppendReader(n, s, |ops|, layer, w, b);
    var r := s + [Op(|ops|, 0, false, ReadCounts(layer))];
    FencedExtends(n, s, r, layer, w, b);
    ReadChainOk(n, r, p.experts, layer, w, b);
    FencedExtends(n, r, Chain(r, p.experts, ReadCounts(layer)), layer, w, b);
  }

  lemma CombineOk(p: Plan, ops: seq<Op>, x: nat, layer: nat, w: nat, b: nat)
    requires PlanOk(p) && AllOk(p.devices, ops) && Fenced(p.devices, ops, layer, w, b) && x <= |ops|
    ensures AllOk(p.devices, Combine(p, ops, x, layer)) && |Combine(p, ops, x, layer)| > 0
  {
    var n, s1 := p.devices, SyncAll(p, ops, x);
    SyncAllOk(p, ops, x);
    AppendBarrier(n, s1, x, p.eTp, false);
    var c1 := s1 + [Op(x, p.eTp, false, Effect.Local)];
    var s2 := SyncAll(p, c1, x);
    SyncAllOk(p, c1, x);
    FencedExtends(n, ops, s1, layer, w, b);
    FencedExtends(n, s1, c1, layer, w, b);
    FencedExtends(n, c1, s2, layer, w, b);
    AppendReader(n, s2, |ops|, layer, w, b);
    var c2 := s2 + [Op(|ops|, 0, false, ReadCounts(layer))];
    SyncAllOk(p, c2, x);
    var s3 := SyncAll(p, c2, x);
    AppendBarrier(n, s3, x, p.neTp, false);
    var c3 := s3 + [Op(x, p.neTp, false, Effect.Local)];
    SyncAllOk(p, c3, x);
    ChainOk(n, SyncAll(p, c3, x), p.shared);
    var c4 := Chain(SyncAll(p, c3, x), p.shared, Effect.Local);
    SyncAllOk(p, c4, x);
    AppendLocal(n, SyncAll(p, c4, x), |SyncAll(p, c4, x)|, false);
  }

  lemma DenseLayerOk(p: Plan, ops: seq<Op>)
    requires PlanOk(p) && AllOk(p.devices, ops) && |ops| > 0
    ensures AllOk(p.devices, DenseLayer(p, ops)) && |DenseLayer(p, ops)| > 0
  {
    AttentionOk(p, ops);
    ChainOk(p.devices, Attention(p, ops), p.dense);
    var f := Chain(Attention(p, ops), p.dense, Effect.Local);
    AppendBarrier(p.devices, f, |f|, p.neTp, false);
    var r := f + [Op(|f|, p.neTp, false, Effect.Local)];
    AppendLocal(p.devices, r, |r|, false);
  }

  lemma MoELayerOk(p: Plan, ops: seq<Op>, l: nat)
    requires PlanOk(p) && AllOk(p.devices, ops) && |ops| > 0
    ensures AllOk(p.devices, MoELayer(p, ops, l)) && |MoELayer(p, ops, l)| > 0
  {
    AttentionOk(p, ops);
    var a := Attention(p, ops);
    GatingOk(p, a, l);
    var gt := Gating(p, a, l);
    ExpertsOk(p, gt, |a|, l, |a| + 3, |a| + 4);
    CombineOk(p, Experts(p, gt, |a|, l), |a|, l, |a| + 3, |a| + 4);
  }

  /** The program of the whole model is well-formed for any number and order of layers. */
  lemma {:induction false} LayersOk(p: Plan, moe: nat -> bool, n: nat)
    requires PlanOk(p)
    ensures AllOk(p.devices, Layers(p, moe, n)) && |Layers(p, moe, n)| > 0
  {
    if n > 0 {
      LayersOk(p, moe, n - 1);
      var ops := Layers(p, moe, n - 1);
      if moe(n - 1) { MoELayerOk(p, ops, n - 1); } else { DenseLayerOk(p, ops); }
    }
  }

  lemma ModelOk(p: Plan, moe: nat -> bool, n: nat)
    requires PlanOk(p)
    ensures AllOk(p.devices, Model(p, moe, n))
  {
    LayersOk(p, moe, n);
    AppendLocal(p.devices, Layers(p, moe, n), |Layers(p, moe, n)|, false);
  }

  // ----- What the list contains -----

  /** Steps of a kind: those that write or read the counts of a layer, those that wait
      for the devices of a window of some size, costless ones, and all. */
  datatype Kind = Writing(layer: nat) | Reading(layer: nat) | Waiting(size: nat) | Costless | Any

  predicate Is(op: Op, kind: Kind) {
    match kind
    case Writing(layer) => op.effect == WriteCounts(layer)
    case Reading(layer) => op.effect == ReadCounts(layer)
    case Waiting(size) => op.group > 0 && op.group == size
    case Costless => op.costless
    case Any => true
  }

  function One(op: Op, kind: Kind): nat { if Is(op, kind) then 1 else 0 }

  function If(b: bool): nat { if b then 1 else 0 }

  function Count(ops: seq<Op>, kind: Kind): nat {
    if ops == [] then 0 else Count(ops[..|ops| - 1], kind) + One(ops[|ops| - 1], kind)
  }

  lemma CountSnoc(ops: seq<Op>, op: Op, kind: Kind)
    ensures Count(ops + [op], kind) == Count(ops, kind) + One(op, kind)
  {
    assert (ops + [op])[..|ops|] == ops;
  }

  lemma CountSyncAll(p: Plan, ops: seq<Op>, x: nat, kind: Kind)
    requires p.devices > 0
    ensures Count(SyncAll(p, ops, x), kind) == Count(ops, kind) +
      match kind case Waiting(size) => If(size == p.devices) case Costless => 2 case Any => 2 case _ => 0
  {
    var a, b := Op(x, 0, true, Effect.Local), Op(|ops| + 1, p.devices, true, Effect.Local);
    assert SyncAll(p, ops, x) == ops + [a] + [b];
    CountSnoc(ops, a, kind);
    CountSnoc(ops + [a], b, kind);
  }

  lemma {:induction false} CountChain(ops: seq<Op>, steps: nat, effect: Effect, kind: Kind)
    ensures Count(Chain(ops, steps, effect), kind) == Count(ops, kind) + steps * One(Op(0, 0, false, effect), kind)
  {
    if steps > 0 {
      CountChain(ops, steps - 1, effect, kind);
      var r := Chain(ops, steps - 1, effect);
      CountSnoc(r, Op(|r|, 0, false, effect), kind);
      assert One(Op(|r|, 0, false, effect), kind) == One(Op(0, 0, false, effect), kind);
      OneMore(steps - 1, One(Op(0, 0, false, effect), kind));
    }
  }

  lemma CountAttention(p: Plan, ops: seq<Op>, kind: Kind)
    requires p.neTp > 0
    ensures Count(Attention(p, ops), kind) == Count(ops, kind) +
      match kind case Waiting(size) => If(size == p.neTp) case Any => p.attention + 4 case _ => 0
  {
    CountSnoc(ops, Local(1), kind);
    CountChain(ops + [Local(1)], p.attention, Effect.Local, kind);
    var a := Chain(ops + [Local(1)], p.attention, Effect.Local);
    var r := a + [Op(|a|, p.neTp, false, Effect.Local)];
    CountSnoc(a, Op(|a|, p.neTp, false, Effect.Local), kind);
    CountSnoc(r, Local(|r|), kind);
    CountSnoc(r + [Local(|r|)], Local(|r|), kind);
  }

  lemma CountGating(p: Plan, ops: seq<Op>, layer: nat, kind: Kind)
    requires p.devices > 0
    ensures Count(Gating(p, ops, layer), kind) == Count(ops, kind) +
      match kind case Writing(l) => if l == layer then 1 else 0
                 case Reading(l) => if l == layer then 1 else 0
                 case Waiting(size) => 2 * If(size == p.devices)
                 case Costless => 2
                 case Any => 5
  {
    var x := |ops|;
    CountSyncAll(p, ops, x, kind);
    var s := SyncAll(p, ops, x);
    CountSnoc(s, Local(x), kind);
    CountSnoc(s + [Local(x)], Op(x, 0, false, WriteCounts(layer)), kind);
    var r := s + [Local(x)] + [Op(x, 0, false, WriteCounts(layer))];
    CountSnoc(r, Op(|r|, p.devices, false, ReadCounts(layer)), kind);
  }

  lemma CountExperts(p: Plan, ops: seq<Op>, x: nat, layer: nat, kind: Kind)
    requires p.devices > 0
    ensures Count(Experts(p, ops, x, layer), kind) == Count(ops, kind) +
      match kind case Writing(_) => 0
                 case Reading(l) => if l == layer then p.experts + 1 else 0
                 case Waiting(size) => If(size == p.devices)
                 case Costless => 2
                 case Any => p.experts + 3
  {
    CountSyncAll(p, ops, x, kind);
    var s := SyncAll(p, ops, x);
    CountSnoc(s, Op(|ops|, 0, false, ReadCounts(layer)), kind);
    CountChain(s + [Op(|ops|, 0, false, ReadCounts(layer))], p.experts, ReadCounts(layer), kind);
  }

  lemma CountCombine(p: Plan, ops: seq<Op>, x: nat, layer: nat, kind: Kind)
    requires p.devices > 0 && p.eTp > 0 && p.neTp > 0
    ensures Count(Combine(p, ops, x, layer), kind) == Count(ops, kind) +
      match kind case Writing(_) => 0
                 case Reading(l) => if l == layer then 1 else 0
                 case Waiting(size) => 5 * If(size == p.devices) + If(size == p.neTp) + If(size == p.eTp)
                 case Costless => 10
                 case Any => p.shared + 14
  {
    CountSyncAll(p, ops, x, kind);
    CountSnoc(SyncAll(p, ops, x), Op(x, p.eTp, false, Effect.Local), kind);
    var c1 := SyncAll(p, ops, x) + [Op(x, p.eTp, false, Effect.Local)];
    CountSyncAll(p, c1, x, kind);
    CountSnoc(SyncAll(p, c1, x), Op(|ops|, 0, false, ReadCounts(layer)), kind);
    var c2 := SyncAll(p, c1, x) + [Op(|ops|, 0, false, ReadCounts(layer))];
    CountSyncAll(p, c2, x, kind);
    CountSnoc(SyncAll(p, c2, x), Op(x, p.neTp, false, Effect.Local), kind);
    var c3 := SyncAll(p, c2, x) + [Op(x, p.neTp, false, Effect.Local)];
    CountSyncAll(p, c3, x, kind);
    CountChain(SyncAll(p, c3, x), p.shared, Effect.Local, kind);
    var shared := Chain(SyncAll(p, c3, x), p.shared, Effect.Local);
    CountSyncAll(p, shared, x, kind);
    CountSnoc(SyncAll(p, shared, x), Local(|SyncAll(p, shared, x)|), kind);
  }

  /** Steps of a kind in one MoE layer, and in one dense layer. */
  function InMoE(p: Plan, layer: nat, kind: Kind): nat {
    match kind
    case Writing(l) => if l == layer then 1 else 0
    case Reading(l) => if l == layer then p.experts + 3 else 0
    case Waiting(size) => 8 * If(size == p.devices) + 2 * If(size == p.neTp) + If(size == p.eTp)
    case Costless => 14
    case Any => p.attention + p.experts + p.shared + 26
  }

  function InDense(p: Plan, kind: Kind): nat {
    match kind
    case Waiting(size) => 2 * If(size == p.neTp)
    case Any => p.attention + p.dense + 6
    case _ => 0
  }

  lemma CountMoE(p: Plan, ops: seq<Op>, layer: nat, kind: Kind)
    requires PlanOk(p)
    ensures Count(MoELayer(p, ops, layer), kind) == Count(ops, kind) + InMoE(p, layer, kind)
  {
    var a := Attention(p, ops);
    CountAttention(p, ops, kind);
    CountGating(p, a, layer, kind);
    CountExperts(p, Gating(p, a, layer), |a|, layer, kind);
    CountCombine(p, Experts(p, Gating(p, a, layer), |a|, layer), |a|, layer, kind);
  }

  lemma CountDense(p: Plan, ops: seq<Op>, kind: Kind)
    requires PlanOk(p)
    ensures Count(DenseLayer(p, ops), kind) == Count(ops, kind) + InDense(p, kind)
  {
    CountAttention(p, ops, kind);
    CountChain(Attention(p, ops), p.dense, Effect.Local, kind);
    var f := Chain(Attention(p, ops), p.dense, Effect.Local);
    var r := f + [Op(|f|, p.neTp, false, Effect.Local)];
    CountSnoc(f, Op(|f|, p.neTp, false, Effect.Local), kind);
    CountSnoc(r, Local(|r|), kind);
  }

  /** How many of the first n layers are MoE layers. */
  function MoELayers(moe: nat -> bool, n: nat): (k: nat)
    ensures k <= n
  {
    if n == 0 then 0 else MoELayers(moe, n - 1) + if moe(n - 1) then 1 else 0
  }

  /** With every so-manyth layer a MoE layer, they are the layers over that number, rounded
      up; with all but the first few, the rest; with the number zero there is none. */
  lemma {:induction false} HowManyMoE(k: nat, n: nat)
    ensures MoELayers(EveryNth(k), n) == if k == 0 then 0 else Quotients.Ceil(n, k)
    ensures MoELayers(AfterFirst(k), n) == if n < k then 0 else n - k
  {
    if n > 0 {
      HowManyMoE(k, n - 1);
      if k > 0 { Quotients.CeilStep(n - 1, k); }
    } else if k > 0 {
      Quotients.DivUnique(k - 1, k, 0, k - 1);
    }
  }

  /** Steps of a kind in the first n layers. */
  function InLayers(p: Plan, moe: nat -> bool, n: nat, kind: Kind): nat {
    if n == 0 then 0 else InLayers(p, moe, n - 1, kind) + if moe(n - 1) then InMoE(p, n - 1, kind) else InDense(p, kind)
  }

  lemma {:induction false} CountLayers(p: Plan, moe: nat -> bool, n: nat, kind: Kind)
    requires PlanOk(p)
    ensures Count(Layers(p, moe, n), kind) == InLayers(p, moe, n, kind) + One(Local(0), kind)
  {
    if n == 0 {
      assert Layers(p, moe, 0) == [] + [Local(0)];
      CountSnoc([], Local(0), kind);
    } else {
      CountLayers(p, moe, n - 1, kind);
      var ops := Layers(p, moe, n - 1);
      if moe(n - 1) { CountMoE(p, ops, n - 1, kind); } else { CountDense(p, ops, kind); }
    }
  }

  /** A kind that every MoE layer holds x times and every dense layer y times. */
  lemma {:induction false} InEvenly(p: Plan, moe: nat -> bool, n: nat, kind: Kind, x: nat, y: nat)
    requires InDense(p, kind) == y && forall l: nat :: InMoE(p, l, kind) == x
    ensures InLayers(p, moe, n, kind) == MoELayers(moe, n) * x + (n - MoELayers(moe, n)) * y
  {
    if n > 0 {
      InEvenly(p, moe, n - 1, kind, x, y);
      var k := MoELayers(moe, n - 1);
      OneMore(k, x);
      OneMore(n - 1 - k, y);
    }
  }

  /** A kind that only the MoE layer with its number holds, x times. */
  lemma {:induction false} InOwn(p: Plan, moe: nat -> bool, n: nat, kind: Kind, layer: nat, x: nat)
    requires InDense(p, kind) == 0 && forall l: nat :: InMoE(p, l, kind) == if l == layer then x else 0
    ensures InLayers(p, moe, n, kind) == if layer < n && moe(layer) then x else 0
  {
    if n > 0 { InOwn(p, moe, n - 1, kind, layer, x); }
  }

  lemma OneMore(k: nat, x: nat)
    ensures (k + 1) * x == k * x + x
  {
  }

  lemma {:induction false} CountAny(ops: seq<Op>)
    ensures Count(ops, Any) == |ops|
  {
    if ops != [] { CountAny(ops[..|ops| - 1]); }
  }

  lemma CountModel(p: Plan, moe: nat -> bool, n: nat, kind: Kind)
    requires PlanOk(p)
    ensures Count(Model(p, moe, n), kind) == InLayers(p, moe, n, kind) + One(Local(0), kind) + One(Local(0), kind)
  {
    CountLayers(p, moe, n, kind);
    CountSnoc(Layers(p, moe, n), Local(|Layers(p, moe, n)|), kind);
  }

  /** What the built model does with the expert counts: each MoE layer writes its own once
      and reads them in the scatter, the routing, every expert and the gather. */
  lemma ModelCounts(p: Plan, moe: nat -> bool, n: nat, layer: nat)
    requires PlanOk(p)
    ensures Count(Model(p, moe, n), Writing(layer)) == if layer < n && moe(layer) then 1 else 0
    ensures Count(Model(p, moe, n), Reading(layer)) == if layer < n && moe(layer) then p.experts + 3 else 0
  {
    CountModel(p, moe, n, Writing(layer));
    CountModel(p, moe, n, Reading(layer));
    InOwn(p, moe, n, Writing(layer), layer, 1);
    InOwn(p, moe, n, Reading(layer), layer, p.experts + 3);
  }

  /** How often it waits: an MoE layer eight times for all devices, twice for those that
      share attention and once for those that share experts, a dense layer twice for
      those that share attention. Only the seven barriers of an MoE layer cost nothing,
      with the steps that give them fresh tensors. */
  lemma ModelWaits(p: Plan, moe: nat -> bool, n: nat, size: nat)
    requires PlanOk(p)
    ensures var k := MoELayers(moe, n);
      && Count(Model(p, moe, n), Waiting(size)) ==
         k * (8 * If(size == p.devices) + 2 * If(size == p.neTp) + If(size == p.eTp)) + (n - k) * (2 * If(size == p.neTp))
      && Count(Model(p, moe, n), Costless) == k * 14 + (n - k) * 0
  {
    CountModel(p, moe, n, Waiting(size));
    CountModel(p, moe, n, Costless);
    InEvenly(p, moe, n, Waiting(size), 8 * If(size == p.devices) + 2 * If(size == p.neTp) + If(size == p.eTp), 2 * If(size == p.neTp));
    InEvenly(p, moe, n, Costless, 14, 0);
  }

  /** How many steps it has. */
  lemma ModelSize(p: Plan, moe: nat -> bool, n: nat)
    requires PlanOk(p)
    ensures var k := MoELayers(moe, n);
      |Model(p, moe, n)| == k * (p.attention + p.experts + p.shared + 26) + (n - k) * (p.attention + p.dense + 6) + 2
  {
    CountModel(p, moe, n, Any);
    InEvenly(p, moe, n, Any, p.attention + p.experts + p.shared + 26, p.attention + p.dense + 6);
    CountAny(Model(p, moe, n));
  }

  /** Expert-count reads of the built model: in any run under any polling order
      a step of layer l that reads the counts sees the counts routed for l. */
  lemma ModelReadsOwnLayer(p: Plan, moe: nat -> bool, n: nat, price: (nat, nat, Counts) -> Time, routed: nat -> Counts, c0: Counts, s: State, d: nat)
    requires PlanOk(p) && d < p.devices
    requires var g := Graph(p.devices, Model(p, moe, n), price, routed);
      Reachable(g, c0, s) && Enabled(g, s, d) && Reads(g.ops, s.pc[d])
    ensures s.counts == routed(Model(p, moe, n)[s.pc[d]].effect.layer)
  {
    ReadsNeverStale(Graph(p.devices, Model(p, moe, n), price, routed), c0, s, d);
  }

  /** Polling every device once per step finishes the built model, with the
      clocks of the lockstep schedule. */
  lemma ModelFinishes(p: Plan, moe: nat -> bool, n: nat, price: (nat, nat, Counts) -> Time, routed: nat -> Counts, c0: Counts, rounds: seq<seq<nat>>)
    requires PlanOk(p) && |rounds| == |Model(p, moe, n)|
    requires forall i | 0 <= i < |rounds| :: Round(Graph(p.devices, Model(p, moe, n), price, routed), rounds[i])
    ensures AllOk(p.devices, Model(p, moe, n))
    ensures var g := Graph(p.devices, Model(p, moe, n), price, routed);
      var s := Rounds(g, Init(g, c0), rounds);
      Finished(g, s) && s.clock == Lockstep(g, c0, |g.ops|)
  {
    ModelOk(p, moe, n);
    var g := Graph(p.devices, Model(p, moe, n), price, routed);
    RoundsFinish(g, c0, rounds);
    FinalIsLockstep(g, c0, Rounds(g, Init(g, c0), rounds));
  }
}

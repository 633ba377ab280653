/** The tokens a scatter of the mixture-of-experts layer moves between devices: what
    each device counts as sent and as received, per class of link. */
module MoETraffic {
  import opened Quotients
  import opened TokenCounts

  /** `perNode` devices on each of `nodes` nodes; groups of `ep` devices share experts,
      groups of `tp` devices share tokens. */
  datatype Layout = Layout(experts: nat, perNode: nat, nodes: nat, ep: nat, tp: nat)

  function Devices(l: Layout): nat { l.perNode * l.nodes }

  /** What building the expert layer demands of the degrees. */
  predicate LayoutOk(l: Layout) {
    && 0 < l.perNode && 0 < l.nodes && 0 < l.ep && 0 < l.tp
    && Devices(l) > 0 && Mod(Devices(l), l.ep) == 0
  }

  function ExpertsPerDevice(l: Layout): nat
    requires LayoutOk(l)
  {
    Div(l.experts, Devices(l))
  }

  function Span(l: Layout): nat
    requires LayoutOk(l)
  {
    ExpertsPerDevice(l) * l.ep
  }

  /** First expert of a device. */
  function Start(l: Layout, dst: nat): nat
    requires LayoutOk(l)
  {
    ExpertsPerDevice(l) * Div(dst, l.ep) * l.ep
  }

  /** Tokens of one batch for the experts of one device. */
  function Load(l: Layout, counts: seq<nat>, dst: nat): nat
    requires LayoutOk(l) && |counts| == l.experts && dst < Devices(l)
  {
    WindowInRange(l, dst);
    Total(counts[Start(l, dst)..Start(l, dst) + Span(l)])
  }

  lemma WindowInRange(l: Layout, dst: nat)
    requires LayoutOk(l) && dst < Devices(l)
    ensures Start(l, dst) == Div(dst, l.ep) * Span(l)
    ensures Start(l, dst) + Span(l) <= ExpertsPerDevice(l) * Devices(l) <= l.experts
  {
    var g, w, n := Div(dst, l.ep), ExpertsPerDevice(l), Devices(l);
    assert (g + 1) * l.ep <= n by { GroupWithin(l, dst); }
    MulMono((g + 1) * l.ep, n, w);
    assert w * n <= l.experts by { DivMod(l.experts, n); }
    Regrouped(w, g, l.ep);
  }

  /** The whole group of a device lies among the devices. */
  lemma GroupWithin(l: Layout, dst: nat)
    requires LayoutOk(l) && dst < Devices(l)
    ensures (Div(dst, l.ep) + 1) * l.ep <= Devices(l)
  {
    DivMod(Devices(l), l.ep);
    DivBelow(dst, l.ep, Div(Devices(l), l.ep));
    MulMono(Div(dst, l.ep) + 1, Div(Devices(l), l.ep), l.ep);
  }

  lemma Regrouped(w: nat, g: nat, e: nat)
    ensures w * g * e == g * (w * e) && w * g * e + w * e == (g + 1) * e * w
  {
  }

  datatype Link = Own | Intra | Inter

  /** Offset of the group of devices that share the tokens of src. */
  function TokenGroup(l: Layout, src: nat): nat
    requires LayoutOk(l)
  {
    Div(src, l.tp) * l.tp
  }

  /** The link class as the sender sees it: node of eight devices for the destination. */
  function SendClass(l: Layout, src: nat, dst: nat): Link
    requires LayoutOk(l)
  {
    if TokenGroup(l, src) <= dst < TokenGroup(l, src) + l.tp then Own
    else if Div(dst, 8) == Div(src, l.perNode) then Intra
    else Inter
  }

  /** The link class as the receiver sees it. */
  function ReceiveClass(l: Layout, rank: nat, dst: nat): Link
    requires LayoutOk(l)
  {
    if rank == Div(dst, l.tp) then Own
    else if Div(dst, l.perNode) == Div(rank * l.tp, l.perNode) then Intra
    else Inter
  }

  /** The local counts of the batches of all data-parallel ranks. */
  predicate RowsOk(l: Layout, rows: seq<seq<nat>>)
    requires LayoutOk(l)
  {
    |rows| == Div(Devices(l), l.tp) && Shaped(rows, l.experts)
  }

  // ----- Sums over a grid of devices -----

  function SumTo(f: nat -> nat, n: nat): nat {
    if n == 0 then 0 else SumTo(f, n - 1) + f(n - 1)
  }

  lemma {:induction false} SumAgree(f: nat -> nat, g: nat -> nat, n: nat)
    requires forall i: nat | i < n :: f(i) == g(i)
    ensures SumTo(f, n) == SumTo(g, n)
  {
    if n > 0 { SumAgree(f, g, n - 1); }
  }

  lemma {:induction false} SumBelow(f: nat -> nat, g: nat -> nat, n: nat)
    requires forall i: nat | i < n :: f(i) <= g(i)
    ensures SumTo(f, n) <= SumTo(g, n)
  {
    if n > 0 { SumBelow(f, g, n - 1); }
  }

  lemma {:induction false} SumStrict(f: nat -> nat, g: nat -> nat, n: nat, k: nat)
    requires k < n && f(k) < g(k) && forall i: nat | i < n :: f(i) <= g(i)
    ensures SumTo(f, n) < SumTo(g, n)
  {
    if k < n - 1 { SumStrict(f, g, n - 1, k); } else { SumBelow(f, g, n - 1); }
  }

  type Grid = (nat, nat) -> nat

  function RowOf(f: Grid, i: nat): nat -> nat { (j: nat) => f(i, j) }

  function ColumnOf(f: Grid, j: nat): nat -> nat { (i: nat) => f(i, j) }

  function RowSums(f: Grid, n: nat): nat -> nat { (i: nat) => SumTo(RowOf(f, i), n) }

  function ColumnSums(f: Grid, m: nat): nat -> nat { (j: nat) => SumTo(ColumnOf(f, j), m) }

  lemma {:induction false} SumAdd(f: nat -> nat, g: nat -> nat, h: nat -> nat, n: nat)
    requires forall i: nat | i < n :: h(i) == f(i) + g(i)
    ensures SumTo(h, n) == SumTo(f, n) + SumTo(g, n)
  {
    if n > 0 { SumAdd(f, g, h, n - 1); }
  }

  lemma {:induction false} SumOfZeros(f: nat -> nat, n: nat)
    requires forall i: nat | i < n :: f(i) == 0
    ensures SumTo(f, n) == 0
  {
    if n > 0 { SumOfZeros(f, n - 1); }
  }

  /** Summing a grid by rows or by columns is the same. */
  lemma {:induction false} GridSum(f: Grid, m: nat, n: nat)
    ensures SumTo(RowSums(f, n), m) == SumTo(ColumnSums(f, m), n)
    decreases m
  {
    if m == 0 {
      SumOfZeros(ColumnSums(f, 0), n);
    } else {
      GridSum(f, m - 1, n);
      SumAdd(ColumnSums(f, m - 1), RowOf(f, m - 1), ColumnSums(f, m), n);
    }
  }

  // ----- Sent and received -----

  /** Tokens device src sends to device dst over links of one class. */
  function SentCell(l: Layout, rows: seq<seq<nat>>, link: Link): Grid
    requires LayoutOk(l) && RowsOk(l, rows)
  {
    (src: nat, dst: nat) =>
      if src < Devices(l) && Div(src, l.tp) < |rows| && dst < Devices(l) && SendClass(l, src, dst) == link
      then Load(l, rows[Div(src, l.tp)], dst) else 0
  }

  /** Tokens device dst receives from the batch of a data-parallel rank. */
  function ReceivedCell(l: Layout, rows: seq<seq<nat>>, link: Link): Grid
    requires LayoutOk(l) && RowsOk(l, rows)
  {
    (rank: nat, dst: nat) =>
      if rank < |rows| && dst < Devices(l) && ReceiveClass(l, rank, dst) == link
      then Load(l, rows[rank], dst) else 0
  }

  function Sent(l: Layout, rows: seq<seq<nat>>, src: nat, link: Link): nat
    requires LayoutOk(l) && RowsOk(l, rows)
  {
    SumTo(RowOf(SentCell(l, rows, link), src), Devices(l))
  }

  function Received(l: Layout, rows: seq<seq<nat>>, dst: nat, link: Link): nat
    requires LayoutOk(l) && RowsOk(l, rows)
  {
    SumTo(ColumnOf(ReceivedCell(l, rows, link), dst), |rows|)
  }

  /** The send loop of device src. */
  method SendTokens(l: Layout, rows: seq<seq<nat>>, src: nat) returns (intra: nat, inter: nat)
    requires LayoutOk(l) && RowsOk(l, rows) && src < Devices(l) && Div(src, l.tp) < |rows|
    ensures intra == Sent(l, rows, src, Intra) && inter == Sent(l, rows, src, Inter)
  {
    intra, inter := 0, 0;
    var counts := rows[Div(src, l.tp)];
    var group := TokenGroup(l, src);
    for dst := 0 to Devices(l)
      invariant intra == SumTo(RowOf(SentCell(l, rows, Intra), src), dst)
      invariant inter == SumTo(RowOf(SentCell(l, rows, Inter), src), dst)
    {
      if dst < group || group + l.tp <= dst {
        var load := SumWindow(l, counts, dst);
        if Div(dst, 8) == Div(src, l.perNode) {
          intra := intra + load;
        } else {
          inter := inter + load;
        }
      }
    }
  }

  /** The receive loop of device dst. */
  method ReceiveTokens(l: Layout, rows: seq<seq<nat>>, dst: nat) returns (intra: nat, inter: nat)
    requires LayoutOk(l) && RowsOk(l, rows) && dst < Devices(l)
    ensures intra == Received(l, rows, dst, Intra) && inter == Received(l, rows, dst, Inter)
  {
    intra, inter := 0, 0;
    for rank := 0 to |rows|
      invariant intra == SumTo(ColumnOf(ReceivedCell(l, rows, Intra), dst), rank)
      invariant inter == SumTo(ColumnOf(ReceivedCell(l, rows, Inter), dst), rank)
    {
      if rank != Div(dst, l.tp) {
        var load := SumWindow(l, rows[rank], dst);
        if Div(dst, l.perNode) == Div(rank * l.tp, l.perNode) {
          intra := intra + load;
        } else {
          inter := inter + load;
        }
      }
    }
  }

  method SumWindow(l: Layout, counts: seq<nat>, dst: nat) returns (load: nat)
    requires LayoutOk(l) && |counts| == l.experts && dst < Devices(l)
    ensures load == Load(l, counts, dst)
  {
    WindowInRange(l, dst);
    load := 0;
    var first := Start(l, dst);
    for e := first to first + Span(l)
      invariant load == Total(counts[first..e])
    {
      assert counts[first..e + 1][..e - first] == counts[first..e];
      load := load + counts[e];
    }
  }

  /** A device that sends nothing to others. */
  predicate Idle(l: Layout, rows: seq<seq<nat>>, src: nat)
    requires LayoutOk(l) && RowsOk(l, rows)
  {
    Sent(l, rows, src, Intra) == 0 && Sent(l, rows, src, Inter) == 0
  }

  /** What a device counts as received: nothing at all if it sends nothing. */
  function Counted(l: Layout, rows: seq<seq<nat>>, dst: nat, link: Link): nat
    requires LayoutOk(l) && RowsOk(l, rows)
  {
    if Idle(l, rows, dst) then 0 else Received(l, rows, dst, link)
  }

  /** The whole scatter of one device: it returns early when it sends nothing, before it
      looks at what it receives. */
  method Scatter(l: Layout, rows: seq<seq<nat>>, device: nat)
    returns (sentIntra: nat, sentInter: nat, countedIntra: nat, countedInter: nat)
    requires LayoutOk(l) && RowsOk(l, rows) && device < Devices(l) && Div(device, l.tp) < |rows|
    ensures sentIntra == Sent(l, rows, device, Intra) && sentInter == Sent(l, rows, device, Inter)
    ensures countedIntra == Counted(l, rows, device, Intra) && countedInter == Counted(l, rows, device, Inter)
    ensures sentIntra + sentInter == 0 ==> countedIntra == 0 == countedInter
    ensures sentIntra + sentInter > 0 ==>
      countedIntra == Received(l, rows, device, Intra) && countedInter == Received(l, rows, device, Inter)
  {
    sentIntra, sentInter := SendTokens(l, rows, device);
    countedIntra, countedInter := 0, 0;
    if sentIntra == 0 && sentInter == 0 { return; }
    countedIntra, countedInter := ReceiveTokens(l, rows, device);
  }

  // ----- Conservation at one device -----

  function LoadOf(l: Layout, counts: seq<nat>): nat -> nat
    requires LayoutOk(l) && |counts| == l.experts
  {
    (dst: nat) => if dst < Devices(l) then Load(l, counts, dst) else 0
  }

  lemma {:induction false} TotalConcat(a: seq<nat>, b: seq<nat>)
    ensures Total(a + b) == Total(a) + Total(b)
  {
    if b == [] {
      assert a + b == a;
    } else {
      TotalConcat(a, b[..|b| - 1]);
      assert (a + b)[..|a + b| - 1] == a + b[..|b| - 1];
    }
  }

  /** First device and first expert of group g. */
  function FirstDevice(l: Layout, g: nat): nat { g * l.ep }

  function FirstExpert(l: Layout, g: nat): nat
    requires LayoutOk(l)
  {
    g * Span(l)
  }

  predicate GroupExists(l: Layout, g: nat)
    requires LayoutOk(l)
  {
    FirstDevice(l, g) + l.ep <= Devices(l) && FirstExpert(l, g) + Span(l) <= l.experts
  }

  lemma NextGroup(l: Layout, g: nat)
    requires LayoutOk(l)
    ensures FirstDevice(l, g + 1) == FirstDevice(l, g) + l.ep
    ensures FirstExpert(l, g + 1) == FirstExpert(l, g) + Span(l)
    ensures FirstDevice(l, g) + l.ep <= Devices(l) ==> GroupExists(l, g)
  {
    if FirstDevice(l, g) + l.ep <= Devices(l) { OneLoadStart(l, g, 0); }
  }

  lemma OneLoadStart(l: Layout, g: nat, r: nat)
    requires LayoutOk(l) && r < l.ep && FirstDevice(l, g) + l.ep <= Devices(l)
    ensures Start(l, FirstDevice(l, g) + r) == FirstExpert(l, g) && GroupExists(l, g)
  {
    DivUnique(FirstDevice(l, g) + r, l.ep, g, r);
    WindowInRange(l, FirstDevice(l, g) + r);
  }

  /** Tokens for the experts of group g. */
  function Tile(l: Layout, counts: seq<nat>, g: nat): nat
    requires LayoutOk(l) && |counts| == l.experts && GroupExists(l, g)
  {
    Total(counts[FirstExpert(l, g)..FirstExpert(l, g) + Span(l)])
  }

  lemma {:induction false} SumConstant(f: nat -> nat, from: nat, r: nat, v: nat)
    requires forall j: nat | from <= j < from + r :: f(j) == v
    ensures SumTo(f, from + r) == SumTo(f, from) + r * v
  {
    if r > 0 {
      SumConstant(f, from, r - 1, v);
      Distribute(v, r - 1, 1);
    }
  }

  /** Each device of a group holds the window of its group. */
  lemma LoadsOfGroup(l: Layout, counts: seq<nat>, g: nat)
    requires LayoutOk(l) && |counts| == l.experts && GroupExists(l, g)
    ensures SumTo(LoadOf(l, counts), FirstDevice(l, g) + l.ep)
            == SumTo(LoadOf(l, counts), FirstDevice(l, g)) + l.ep * Tile(l, counts, g)
  {
    var from := FirstDevice(l, g);
    forall j: nat | from <= j < from + l.ep ensures LoadOf(l, counts)(j) == Tile(l, counts, g) {
      OneLoadStart(l, g, j - from);
    }
    SumConstant(LoadOf(l, counts), from, l.ep, Tile(l, counts, g));
  }

  /** The windows of the groups tile the experts. */
  lemma {:induction false} LoadsTile(l: Layout, counts: seq<nat>, g: nat)
    requires LayoutOk(l) && |counts| == l.experts && FirstDevice(l, g) <= Devices(l)
    ensures FirstExpert(l, g) <= l.experts
    ensures SumTo(LoadOf(l, counts), FirstDevice(l, g)) == l.ep * Total(counts[..FirstExpert(l, g)])
  {
    if g > 0 {
      NextGroup(l, g - 1);
      LoadsTile(l, counts, g - 1);
      LoadsOfGroup(l, counts, g - 1);
      NextHead(l, counts, g - 1);
      Distribute(l.ep, Total(counts[..FirstExpert(l, g - 1)]), Tile(l, counts, g - 1));
    }
  }

  lemma NextHead(l: Layout, counts: seq<nat>, g: nat)
    requires LayoutOk(l) && |counts| == l.experts && GroupExists(l, g) && FirstExpert(l, g + 1) <= l.experts
    ensures Total(counts[..FirstExpert(l, g + 1)]) == Total(counts[..FirstExpert(l, g)]) + Tile(l, counts, g)
  {
    var from, to := FirstExpert(l, g), FirstExpert(l, g) + Span(l);
    assert FirstExpert(l, g + 1) == to by { NextGroup(l, g); }
    TotalConcat(counts[..from], counts[from..to]);
    assert counts[..to] == counts[..from] + counts[from..to];
  }

  /** How many experts some device holds. */
  function Held(l: Layout): (h: nat)
    requires LayoutOk(l)
    ensures h <= l.experts
    ensures Mod(l.experts, Devices(l)) == 0 ==> h == l.experts
  {
    DivMod(l.experts, Devices(l));
    Div(l.experts, Devices(l)) * Devices(l)
  }

  lemma WholeGroups(l: Layout)
    requires LayoutOk(l)
    ensures FirstDevice(l, Div(Devices(l), l.ep)) == Devices(l) && FirstExpert(l, Div(Devices(l), l.ep)) == Held(l)
  {
    var k := Div(Devices(l), l.ep);
    DivMod(Devices(l), l.ep);
    assert k * (ExpertsPerDevice(l) * l.ep) == ExpertsPerDevice(l) * (k * l.ep);
  }

  /** Every token of a batch reaches each device of the group that holds its expert:
      own, intra-node and inter-node tokens add up to the group size times the tokens
      of the experts that some device holds. */
  lemma ScatterTotal(l: Layout, rows: seq<seq<nat>>, src: nat)
    requires LayoutOk(l) && RowsOk(l, rows) && src < Devices(l) && Div(src, l.tp) < |rows|
    ensures |rows[Div(src, l.tp)]| == l.experts
    ensures Sent(l, rows, src, Own) + Sent(l, rows, src, Intra) + Sent(l, rows, src, Inter)
            == l.ep * Total(rows[Div(src, l.tp)][..Held(l)])
  {
    SentClasses(l, rows, src, Devices(l));
    WholeGroups(l);
    LoadsTile(l, rows[Div(src, l.tp)], Div(Devices(l), l.ep));
  }

  lemma {:induction false} SentClasses(l: Layout, rows: seq<seq<nat>>, src: nat, n: nat)
    requires LayoutOk(l) && RowsOk(l, rows) && src < Devices(l) && Div(src, l.tp) < |rows| && n <= Devices(l)
    ensures |rows[Div(src, l.tp)]| == l.experts
    ensures SumTo(RowOf(SentCell(l, rows, Own), src), n) + SumTo(RowOf(SentCell(l, rows, Intra), src), n)
            + SumTo(RowOf(SentCell(l, rows, Inter), src), n) == SumTo(LoadOf(l, rows[Div(src, l.tp)]), n)
  {
    assert rows[Div(src, l.tp)] in rows;
    if n > 0 { SentClasses(l, rows, src, n - 1); }
  }

  /** Conservation holds exactly when no token goes to an expert beyond the last
      device's window; there is no such expert when the devices divide the experts. */
  lemma ScatterConserves(l: Layout, rows: seq<seq<nat>>, src: nat, batches: seq<seq<seq<Choice>>>, topK: nat)
    requires LayoutOk(l) && src < Devices(l) && RowsOk(l, rows) && RowsOf(rows, batches, l.experts)
    requires Div(src, l.tp) < |rows| && BatchesOk(batches, l.experts, topK)
    ensures
      var rank := Div(src, l.tp);
      Sent(l, rows, src, Own) + Sent(l, rows, src, Intra) + Sent(l, rows, src, Inter) == l.ep * (topK * |Flat(batches[rank])|)
      <==> Total(rows[rank][Held(l)..]) == 0
    ensures Mod(l.experts, Devices(l)) == 0 ==> Total(rows[Div(src, l.tp)][Held(l)..]) == 0
  {
    var rank := Div(src, l.tp);
    ScatterTotal(l, rows, src);
    assert batches[rank] in batches;
    DemandTotal(Flat(batches[rank]), l.experts, topK);
    SplitTotal(rows[rank], Held(l), l.ep);
  }

  lemma SplitTotal(counts: seq<nat>, held: nat, k: nat)
    requires held <= |counts| && k > 0
    ensures k * Total(counts[..held]) == k * Total(counts) <==> Total(counts[held..]) == 0
  {
    var x, y := Total(counts[..held]), Total(counts[held..]);
    assert Total(counts) == x + y by {
      TotalConcat(counts[..held], counts[held..]);
      assert counts == counts[..held] + counts[held..];
    }
    ScaledRest(k, x, y, Total(counts));
  }

  lemma ScaledRest(k: nat, x: nat, y: nat, z: nat)
    requires k > 0 && z == x + y
    ensures k * x == k * z <==> y == 0
  {
    Distribute(k, x, y);
    MulMono(1, y, k);
  }

  /** The local counts of the batches. */
  function RowsFor(l: Layout, batches: seq<seq<seq<Choice>>>): (rows: seq<seq<nat>>)
    requires LayoutOk(l)
    ensures RowsOf(rows, batches, l.experts) && Shaped(rows, l.experts)
  {
    seq(|batches|, (i: nat) requires i < |batches| => Demand(Flat(batches[i]), l.experts))
  }

  ghost predicate DemandOk(l: Layout, batches: seq<seq<seq<Choice>>>, topK: nat)
    requires LayoutOk(l)
  {
    |batches| == Div(Devices(l), l.tp) && BatchesOk(batches, l.experts, topK)
  }

  ghost predicate Conserved(l: Layout, batches: seq<seq<seq<Choice>>>, src: nat, topK: nat)
    requires LayoutOk(l) && DemandOk(l, batches, topK) && Div(src, l.tp) < |batches|
  {
    var rows := RowsFor(l, batches);
    Sent(l, rows, src, Own) + Sent(l, rows, src, Intra) + Sent(l, rows, src, Inter)
    == l.ep * (topK * |Flat(batches[Div(src, l.tp)])|)
  }

  /** A batch of one token that selects expert e only. */
  function OneToken(e: nat, topK: nat): seq<seq<Choice>> { [[seq(topK, _ => e)]] }

  /** One such token per batch, for the last expert. */
  function LastExpert(l: Layout, topK: nat): seq<seq<seq<Choice>>>
    requires LayoutOk(l) && l.experts > 0
  {
    seq(Div(Devices(l), l.tp), _ => OneToken(l.experts - 1, topK))
  }

  lemma {:induction false} TotalElement(counts: seq<nat>, e: nat)
    requires e < |counts|
    ensures counts[e] <= Total(counts)
  {
    if e < |counts| - 1 { TotalElement(counts[..|counts| - 1], e); }
  }

  lemma OneTokenFlat(e: nat, topK: nat)
    ensures Flat(OneToken(e, topK)) == [seq(topK, _ => e)]
  {
    assert OneToken(e, topK)[..0] == [];
  }

  lemma OneTokenHits(e: nat, topK: nat)
    requires topK > 0
    ensures Hits(Flat(OneToken(e, topK)), e) > 0
  {
    var ch: Choice := seq(topK, _ => e);
    OneTokenFlat(e, topK);
    assert ch[0] in multiset(ch);
  }

  lemma LastExpertOk(l: Layout, topK: nat)
    requires LayoutOk(l) && l.experts > 0
    ensures DemandOk(l, LastExpert(l, topK), topK)
  {
    OneTokenFlat(l.experts - 1, topK);
    forall b | b in LastExpert(l, topK) ensures ChoicesOk(Flat(b), l.experts, topK) {
      assert b == OneToken(l.experts - 1, topK);
    }
  }

  /** Such a demand loses the token when the last expert is not held. */
  lemma LastExpertLost(l: Layout, src: nat, topK: nat)
    requires LayoutOk(l) && src < Devices(l) && Div(src, l.tp) < Div(Devices(l), l.tp) && topK > 0 && Held(l) < l.experts
    ensures DemandOk(l, LastExpert(l, topK), topK) && !Conserved(l, LastExpert(l, topK), src, topK)
  {
    var batches, rank := LastExpert(l, topK), Div(src, l.tp);
    var rows := RowsFor(l, batches);
    LastExpertOk(l, topK);
    assert rows[rank][l.experts - 1] > 0 by { OneTokenHits(l.experts - 1, topK); }
    TotalElement(rows[rank][Held(l)..], l.experts - 1 - Held(l));
    ScatterConserves(l, rows, src, batches, topK);
  }

  /** A rank's tokens are conserved for every demand if and only if every expert is held
      by some device, that is if the devices divide the experts. */
  lemma ScatterForEveryDemand(l: Layout, src: nat, topK: nat)
    requires LayoutOk(l) && src < Devices(l) && Div(src, l.tp) < Div(Devices(l), l.tp) && topK > 0
    ensures (forall batches | DemandOk(l, batches, topK) :: Conserved(l, batches, src, topK)) <==> Mod(l.experts, Devices(l)) == 0
  {
    if Mod(l.experts, Devices(l)) == 0 {
      forall batches | DemandOk(l, batches, topK) ensures Conserved(l, batches, src, topK) {
        ScatterConserves(l, RowsFor(l, batches), src, batches, topK);
      }
    } else {
      DivMod(l.experts, Devices(l));
      LastExpertLost(l, src, topK);
    }
  }

  /** Experts per device group as the expert layer and its routing compute them. */
  function RouteSpan(l: Layout): nat
    requires LayoutOk(l) && Div(Devices(l), l.ep) > 0
  {
    Div(l.experts, Div(Devices(l), l.ep))
  }

  /** The scatter divides by the devices first, the expert layer by the groups: the two
      windows agree if and only if the experts left over do not reach one per group. */
  lemma WindowsAgree(l: Layout)
    requires LayoutOk(l)
    ensures Div(Devices(l), l.ep) > 0
    ensures Span(l) == RouteSpan(l) <==> Mod(l.experts, Devices(l)) < Div(Devices(l), l.ep)
    ensures Span(l) == RouteSpan(l) ==>
      forall dst: nat | dst < Devices(l) :: Start(l, dst) == RouteSpan(l) * Div(dst, l.ep)
  {
    var n, g := Devices(l), Div(Devices(l), l.ep);
    var w, r := Div(l.experts, n), Mod(l.experts, n);
    DivMod(n, l.ep);
    assert g > 0;
    DivMod(l.experts, n);
    DivMod(r, g);
    SpanOfRest(w, l.ep, g, r, Div(r, g), Mod(r, g));
    DivUnique(l.experts, g, w * l.ep + Div(r, g), Mod(r, g));
    DivBelow(r, g, 1);
    forall dst: nat | dst < n ensures Start(l, dst) == Div(dst, l.ep) * Span(l) { WindowInRange(l, dst); }
  }

  lemma SpanOfRest(w: nat, e: nat, g: nat, r: nat, q: nat, m: nat)
    requires r == q * g + m
    ensures w * (g * e) + r == (w * e + q) * g + m
  {
  }

  // ----- Shared tokens -----

  /** The devices that share tokens stand on one node. */
  predicate Shared(l: Layout)
    requires LayoutOk(l)
  {
    Mod(l.perNode, l.tp) == 0
  }

  /** A single rank: all devices share the same tokens. */
  predicate OneRank(l: Layout) { Devices(l) == l.tp }

  /** Tokens stay at home exactly between devices of one group; the receiver agrees. */
  lemma OwnExactly(l: Layout, src: nat, dst: nat)
    requires LayoutOk(l)
    ensures SendClass(l, src, dst) == Own <==> Div(src, l.tp) == Div(dst, l.tp)
    ensures ReceiveClass(l, Div(src, l.tp), dst) == Own <==> Div(src, l.tp) == Div(dst, l.tp)
  {
    DivMod(dst, l.tp);
    if TokenGroup(l, src) <= dst < TokenGroup(l, src) + l.tp {
      DivUnique(dst, l.tp, Div(src, l.tp), dst - TokenGroup(l, src));
    }
  }

  lemma SharersOnOneNode(l: Layout, a: nat, b: nat)
    requires LayoutOk(l) && Shared(l) && Div(a, l.tp) == Div(b, l.tp)
    ensures Div(a, l.perNode) == Div(b, l.perNode)
  {
    var k := Div(l.perNode, l.tp);
    DivMod(l.perNode, l.tp);
    DivDiv(a, l.tp, k);
    DivDiv(b, l.tp, k);
  }

  /** Devices that share tokens see every destination in the same class. */
  lemma SharersSendAlike(l: Layout, src: nat, src': nat, dst: nat)
    requires LayoutOk(l) && Shared(l) && Div(src, l.tp) == Div(src', l.tp)
    ensures SendClass(l, src, dst) == SendClass(l, src', dst)
  {
    OwnExactly(l, src, dst);
    OwnExactly(l, src', dst);
    SharersOnOneNode(l, src, src');
  }

  /** Devices that share tokens send the same over each class of link. */
  lemma SharersSendTheSame(l: Layout, rows: seq<seq<nat>>, src: nat, src': nat, link: Link)
    requires LayoutOk(l) && Shared(l) && RowsOk(l, rows) && src < Devices(l) && src' < Devices(l)
    requires Div(src, l.tp) == Div(src', l.tp)
    ensures Sent(l, rows, src, link) == Sent(l, rows, src', link)
  {
    var f, g := RowOf(SentCell(l, rows, link), src), RowOf(SentCell(l, rows, link), src');
    forall dst: nat | dst < Devices(l) ensures f(dst) == g(dst) { SharersSendAlike(l, src, src', dst); }
    SumAgree(f, g, Devices(l));
  }

  lemma RanksFit(l: Layout)
    requires LayoutOk(l) && Shared(l)
    ensures Devices(l) == Div(Devices(l), l.tp) * l.tp && Div(Devices(l), l.tp) > 0
    ensures forall src: nat | src < Devices(l) :: Div(src, l.tp) < Div(Devices(l), l.tp)
  {
    var k := Div(l.perNode, l.tp);
    DivMod(l.perNode, l.tp);
    assert Devices(l) == k * l.nodes * l.tp;
    DivUnique(Devices(l), l.tp, k * l.nodes, 0);
    forall src: nat | src < Devices(l) ensures Div(src, l.tp) < Div(Devices(l), l.tp) {
      DivBelow(src, l.tp, Div(Devices(l), l.tp));
    }
  }

  // ----- Conservation over the cluster -----

  function SentByAll(l: Layout, rows: seq<seq<nat>>, link: Link): nat
    requires LayoutOk(l) && RowsOk(l, rows)
  {
    SumTo(RowSums(SentCell(l, rows, link), Devices(l)), Devices(l))
  }

  function ReceivedByAll(l: Layout, rows: seq<seq<nat>>, link: Link): nat
    requires LayoutOk(l) && RowsOk(l, rows)
  {
    SumTo(ColumnSums(ReceivedCell(l, rows, link), |rows|), Devices(l))
  }

  predicate NodesAgree(l: Layout) { l.perNode == 8 || (l.nodes == 1 && l.perNode <= 8) }

  /** Where the nodes agree, or nothing leaves the single rank, sender and receiver see
      the same class of link. */
  lemma ClassesAgree(l: Layout, src: nat, dst: nat)
    requires LayoutOk(l) && Shared(l) && (NodesAgree(l) || OneRank(l)) && src < Devices(l) && dst < Devices(l)
    ensures SendClass(l, src, dst) == ReceiveClass(l, Div(src, l.tp), dst)
  {
    var rank := Div(src, l.tp);
    OwnExactly(l, src, dst);
    if OneRank(l) {
      DivUnique(src, l.tp, 0, src);
      DivUnique(dst, l.tp, 0, dst);
    } else {
      DivUnique(rank * l.tp, l.tp, rank, 0);
      SharersOnOneNode(l, src, rank * l.tp);
      if l.perNode != 8 {
        DivUnique(dst, 8, 0, dst);
        DivUnique(dst, l.perNode, 0, dst);
        DivUnique(src, l.perNode, 0, src);
      }
    }
  }

  /** A sum over blocks of k equal terms. */
  lemma {:induction false} BlockSum(f: nat -> nat, g: nat -> nat, k: nat, blocks: nat)
    requires k > 0 && forall i: nat | i < blocks * k :: f(i) == g(Div(i, k))
    ensures SumTo(f, blocks * k) == k * SumTo(g, blocks)
    decreases blocks
  {
    if blocks > 0 {
      var from := (blocks - 1) * k;
      assert from + k == blocks * k;
      BlockSum(f, g, k, blocks - 1);
      forall j: nat | from <= j < from + k ensures f(j) == g(blocks - 1) { DivUnique(j, k, blocks - 1, j - from); }
      SumConstant(f, from, k, g(blocks - 1));
      Distribute(k, SumTo(g, blocks - 1), g(blocks - 1));
    }
  }

  /** If every device sends as h says for its rank, the cluster sends `tp` times its sum. */
  lemma SentByRanks(l: Layout, rows: seq<seq<nat>>, link: Link, h: nat -> nat)
    requires LayoutOk(l) && Shared(l) && RowsOk(l, rows)
    requires forall src: nat | src < Devices(l) :: Sent(l, rows, src, link) == h(Div(src, l.tp))
    ensures SentByAll(l, rows, link) == l.tp * SumTo(h, |rows|)
  {
    RanksFit(l);
    BlockSum(RowSums(SentCell(l, rows, link), Devices(l)), h, l.tp, |rows|);
  }

  /** Every token is sent once by each of the devices that share it, and received once:
      where the classes agree the cluster sends `tp` times what it receives on each. */
  lemma CellsAgree(l: Layout, rows: seq<seq<nat>>, link: Link)
    requires LayoutOk(l) && Shared(l) && (NodesAgree(l) || OneRank(l)) && RowsOk(l, rows)
    ensures SentByAll(l, rows, link) == l.tp * ReceivedByAll(l, rows, link)
  {
    var n, f, g := Devices(l), SentCell(l, rows, link), ReceivedCell(l, rows, link);
    RanksFit(l);
    forall src: nat | src < n ensures Sent(l, rows, src, link) == RowSums(g, n)(Div(src, l.tp)) {
      forall dst: nat | dst < n ensures f(src, dst) == g(Div(src, l.tp), dst) { ClassesAgree(l, src, dst); }
      SumAgree(RowOf(f, src), RowOf(g, Div(src, l.tp)), n);
    }
    SentByRanks(l, rows, link, RowSums(g, n));
    GridSum(g, |rows|, n);
  }

  /** A cluster in which only one rank has tokens, one for every expert. */
  function OnlyRank(l: Layout, r: nat): (rows: seq<seq<nat>>)
    requires LayoutOk(l)
    ensures RowsOk(l, rows)
  {
    seq(Div(Devices(l), l.tp), (i: nat) => seq(l.experts, (e: nat) => if i == r then 1 else 0))
  }

  lemma {:induction false} TotalOnes(counts: seq<nat>, v: nat)
    requires forall i | 0 <= i < |counts| :: counts[i] == v
    ensures Total(counts) == |counts| * v
  {
    if counts != [] {
      TotalOnes(counts[..|counts| - 1], v);
      Distribute(v, |counts| - 1, 1);
    }
  }

  lemma FlatWindow(counts: seq<nat>, from: nat, span: nat, v: nat)
    requires from + span <= |counts| && forall i | 0 <= i < |counts| :: counts[i] == v
    ensures Total(counts[from..from + span]) == span * v
  {
    TotalOnes(counts[from..from + span], v);
  }

  lemma OnlyRankLoads(l: Layout, r: nat, rank: nat, dst: nat)
    requires LayoutOk(l) && rank < |OnlyRank(l, r)| && dst < Devices(l)
    ensures Load(l, OnlyRank(l, r)[rank], dst) == if rank == r then Span(l) else 0
  {
    FlatLoad(l, OnlyRank(l, r)[rank], dst, if rank == r then 1 else 0);
  }

  lemma FlatLoad(l: Layout, counts: seq<nat>, dst: nat, v: nat)
    requires LayoutOk(l) && |counts| == l.experts && dst < Devices(l) && forall i | 0 <= i < |counts| :: counts[i] == v
    ensures Load(l, counts, dst) == Span(l) * v
  {
    assert Start(l, dst) + Span(l) <= l.experts by { WindowInRange(l, dst); }
    FlatWindow(counts, Start(l, dst), Span(l), v);
  }

  /** The tokens of rank r by destination, in the class the sender and the receiver see. */
  function SentBy(l: Layout, r: nat, link: Link): nat -> nat
    requires LayoutOk(l)
  {
    (dst: nat) => if SendClass(l, r * l.tp, dst) == link then Span(l) else 0
  }

  function ReceivedFrom(l: Layout, r: nat, link: Link): nat -> nat
    requires LayoutOk(l)
  {
    (dst: nat) => if ReceiveClass(l, r, dst) == link then Span(l) else 0
  }

  /** A function that is x at r and zero elsewhere. */
  function Single(r: nat, x: nat): nat -> nat { (i: nat) => if i == r then x else 0 }

  lemma {:induction false} SumSingle(r: nat, x: nat, n: nat)
    ensures SumTo(Single(r, x), n) == if r < n then x else 0
  {
    if n > 0 { SumSingle(r, x, n - 1); }
  }

  lemma OnlyRankSent(l: Layout, r: nat, link: Link)
    requires LayoutOk(l) && Shared(l) && r < Div(Devices(l), l.tp)
    ensures SentByAll(l, OnlyRank(l, r), link) == l.tp * SumTo(SentBy(l, r, link), Devices(l))
  {
    var n, rows, f := Devices(l), OnlyRank(l, r), SentCell(l, OnlyRank(l, r), link);
    var h := Single(r, SumTo(SentBy(l, r, link), n));
    RanksFit(l);
    forall src: nat | src < n ensures Sent(l, rows, src, link) == h(Div(src, l.tp)) {
      OnlyRankRow(l, r, link, src);
    }
    SentByRanks(l, rows, link, h);
    SumSingle(r, SumTo(SentBy(l, r, link), n), |rows|);
  }

  lemma OnlyRankCell(l: Layout, r: nat, link: Link, src: nat, dst: nat)
    requires LayoutOk(l) && Shared(l) && r < Div(Devices(l), l.tp) && src < Devices(l) && dst < Devices(l)
    ensures SentCell(l, OnlyRank(l, r), link)(src, dst) == if Div(src, l.tp) == r then SentBy(l, r, link)(dst) else 0
  {
    RanksFit(l);
    OnlyRankLoads(l, r, Div(src, l.tp), dst);
    if Div(src, l.tp) == r {
      DivUnique(r * l.tp, l.tp, r, 0);
      SharersSendAlike(l, src, r * l.tp, dst);
    }
  }

  lemma OnlyRankRow(l: Layout, r: nat, link: Link, src: nat)
    requires LayoutOk(l) && Shared(l) && r < Div(Devices(l), l.tp) && src < Devices(l)
    ensures Sent(l, OnlyRank(l, r), src, link) == if Div(src, l.tp) == r then SumTo(SentBy(l, r, link), Devices(l)) else 0
  {
    var f := RowOf(SentCell(l, OnlyRank(l, r), link), src);
    forall dst: nat | dst < Devices(l) ensures f(dst) == if Div(src, l.tp) == r then SentBy(l, r, link)(dst) else 0 {
      OnlyRankCell(l, r, link, src, dst);
    }
    if Div(src, l.tp) == r { SumAgree(f, SentBy(l, r, link), Devices(l)); } else { SumOfZeros(f, Devices(l)); }
  }

  lemma OnlyRankArrives(l: Layout, r: nat, link: Link, rank: nat)
    requires LayoutOk(l) && rank < Div(Devices(l), l.tp)
    ensures SumTo(RowOf(ReceivedCell(l, OnlyRank(l, r), link), rank), Devices(l))
            == if rank == r then SumTo(ReceivedFrom(l, r, link), Devices(l)) else 0
  {
    var f := RowOf(ReceivedCell(l, OnlyRank(l, r), link), rank);
    forall dst: nat | dst < Devices(l) ensures f(dst) == if rank == r then ReceivedFrom(l, r, link)(dst) else 0 {
      OnlyRankLoads(l, r, rank, dst);
    }
    if rank == r { SumAgree(f, ReceivedFrom(l, r, link), Devices(l)); } else { SumOfZeros(f, Devices(l)); }
  }

  lemma OnlyRankReceived(l: Layout, r: nat, link: Link)
    requires LayoutOk(l) && r < Div(Devices(l), l.tp)
    ensures ReceivedByAll(l, OnlyRank(l, r), link) == SumTo(ReceivedFrom(l, r, link), Devices(l))
  {
    var n, m, g := Devices(l), |OnlyRank(l, r)|, ReceivedCell(l, OnlyRank(l, r), link);
    var h := Single(r, SumTo(ReceivedFrom(l, r, link), n));
    forall rank: nat | rank < m ensures RowSums(g, n)(rank) == h(rank) { OnlyRankArrives(l, r, link, rank); }
    SumAgree(RowSums(g, n), h, m);
    SumSingle(r, SumTo(ReceivedFrom(l, r, link), n), m);
    GridSum(g, m, n);
  }

  lemma SpanPositive(l: Layout)
    requires LayoutOk(l)
    ensures Span(l) > 0 <==> Devices(l) <= l.experts
  {
    DivBelow(l.experts, Devices(l), 1);
    MulMono(1, ExpertsPerDevice(l), l.ep);
  }

  lemma Differs(l: Layout, r: nat, link: Link)
    requires LayoutOk(l) && Shared(l) && r < Div(Devices(l), l.tp)
    requires SumTo(SentBy(l, r, link), Devices(l)) != SumTo(ReceivedFrom(l, r, link), Devices(l))
    ensures SentByAll(l, OnlyRank(l, r), link) != l.tp * ReceivedByAll(l, OnlyRank(l, r), link)
  {
    OnlyRankSent(l, r, link);
    OnlyRankReceived(l, r, link);
    Scaled(SumTo(SentBy(l, r, link), Devices(l)), SumTo(ReceivedFrom(l, r, link), Devices(l)), l.tp);
  }

  lemma Scaled(x: nat, y: nat, k: nat)
    requires k > 0
    ensures k * x == k * y <==> x == y
    ensures k * x < k * y <==> x < y
  {
    MulMono(x + 1, y, k);
    MulMono(y, x, k);
    MulMono(y + 1, x, k);
  }

  /** The classes of the tokens of rank 0, whose devices stand on node 0. */
  lemma FirstClasses(l: Layout, dst: nat)
    requires LayoutOk(l) && Shared(l)
    ensures SendClass(l, 0, dst) == if dst < l.tp then Own else if dst < 8 then Intra else Inter
    ensures ReceiveClass(l, 0, dst) == if dst < l.tp then Own else if dst < l.perNode then Intra else Inter
  {
    var zero: nat := 0;
    DivUnique(zero, l.tp, 0, 0);
    DivUnique(zero, l.perNode, 0, 0);
    DivBelow(dst, l.tp, 1);
    DivBelow(dst, 8, 1);
    DivBelow(dst, l.perNode, 1);
    OwnExactly(l, 0, dst);
  }

  lemma DevicesAtLeast(l: Layout)
    requires LayoutOk(l) && Shared(l)
    ensures l.tp <= l.perNode <= Devices(l)
    ensures l.tp < l.perNode ==> 2 * l.tp <= l.perNode
    ensures l.nodes >= 2 ==> 2 * l.perNode <= Devices(l)
  {
    MulMono(1, l.nodes, l.perNode);
    MulMono(2, l.nodes, l.perNode);
    DivMod(l.perNode, l.tp);
    MulMono(Div(l.perNode, l.tp), 1, l.tp);
    MulMono(2, Div(l.perNode, l.tp), l.tp);
    MulMono(1, Div(l.perNode, l.tp), l.tp);
  }

  /** Nodes of fewer than eight: the sender takes the next node for its own. */
  lemma SmallNodesDiffer(l: Layout)
    requires LayoutOk(l) && Shared(l) && l.perNode < 8 && l.nodes >= 2 && Devices(l) <= l.experts
    ensures SentByAll(l, OnlyRank(l, 0), Intra) != l.tp * ReceivedByAll(l, OnlyRank(l, 0), Intra)
  {
    DevicesAtLeast(l);
    RanksFit(l);
    SpanPositive(l);
    var f, g := ReceivedFrom(l, 0, Intra), SentBy(l, 0, Intra);
    forall dst: nat | dst < Devices(l) ensures f(dst) <= g(dst) { FirstClasses(l, dst); }
    FirstClasses(l, l.perNode);
    SumStrict(f, g, Devices(l), l.perNode);
    Differs(l, 0, Intra);
  }

  /** Nodes of more than eight: the sender takes the devices from the eighth on for another. */
  lemma LargeNodesDiffer(l: Layout)
    requires LayoutOk(l) && Shared(l) && 8 < l.perNode && l.tp < l.perNode && Devices(l) <= l.experts
    ensures SentByAll(l, OnlyRank(l, 0), Intra) != l.tp * ReceivedByAll(l, OnlyRank(l, 0), Intra)
  {
    DevicesAtLeast(l);
    RanksFit(l);
    SpanPositive(l);
    var f, g := SentBy(l, 0, Intra), ReceivedFrom(l, 0, Intra);
    forall dst: nat | dst < Devices(l) ensures f(dst) <= g(dst) { FirstClasses(l, dst); }
    FirstClasses(l, l.perNode - 1);
    SumStrict(f, g, Devices(l), l.perNode - 1);
    Differs(l, 0, Intra);
  }

  /** Large nodes that share all their tokens: only the sender of the second node sees a
      device of the first on its own. */
  lemma WholeNodesDiffer(l: Layout)
    requires LayoutOk(l) && Shared(l) && 8 < l.perNode == l.tp && l.nodes >= 2 && Devices(l) <= l.experts
    ensures SentByAll(l, OnlyRank(l, 1), Intra) != l.tp * ReceivedByAll(l, OnlyRank(l, 1), Intra)
  {
    DevicesAtLeast(l);
    RanksFit(l);
    SpanPositive(l);
    DivUnique(l.tp, l.tp, 1, 0);
    var f, g := ReceivedFrom(l, 1, Intra), SentBy(l, 1, Intra);
    assert forall dst: nat :: f(dst) == 0;
    DivUnique(8, 8, 1, 0);
    DivUnique(8, l.tp, 0, 8);
    OwnExactly(l, l.tp, 8);
    SumStrict(f, g, Devices(l), 8);
    DivBelow(l.tp, l.tp, Div(Devices(l), l.tp));
    Differs(l, 1, Intra);
  }

  lemma NoLoad(l: Layout, counts: seq<nat>, dst: nat)
    requires LayoutOk(l) && |counts| == l.experts && dst < Devices(l) && Span(l) == 0
    ensures Load(l, counts, dst) == 0
  {
    WindowInRange(l, dst);
    assert counts[Start(l, dst)..Start(l, dst) + Span(l)] == [];
  }

  lemma NoCells(l: Layout, rows: seq<seq<nat>>, link: Link, x: nat, y: nat)
    requires LayoutOk(l) && RowsOk(l, rows) && Span(l) == 0
    ensures SentCell(l, rows, link)(x, y) == 0 == ReceivedCell(l, rows, link)(x, y)
  {
    if y < Devices(l) {
      if Div(x, l.tp) < |rows| { NoLoad(l, rows[Div(x, l.tp)], y); }
      if x < |rows| { NoLoad(l, rows[x], y); }
    }
  }

  lemma GridZero(f: Grid, m: nat, n: nat)
    requires forall x: nat, y: nat | x < m && y < n :: f(x, y) == 0
    ensures SumTo(RowSums(f, n), m) == 0
  {
    forall x: nat | x < m ensures RowSums(f, n)(x) == 0 { SumOfZeros(RowOf(f, x), n); }
    SumOfZeros(RowSums(f, n), m);
  }

  /** With fewer experts than devices no device has any. */
  lemma NoExperts(l: Layout, rows: seq<seq<nat>>, link: Link)
    requires LayoutOk(l) && RowsOk(l, rows) && l.experts < Devices(l)
    ensures SentByAll(l, rows, link) == 0 == ReceivedByAll(l, rows, link)
  {
    SpanPositive(l);
    var f, g := SentCell(l, rows, link), ReceivedCell(l, rows, link);
    forall x: nat, y: nat ensures f(x, y) == 0 == g(x, y) { NoCells(l, rows, link, x, y); }
    GridZero(f, Devices(l), Devices(l));
    GridZero(g, |rows|, Devices(l));
    GridSum(g, |rows|, Devices(l));
  }

  /** Every token leaves each device that shares it and arrives once. */
  predicate LinkBalanced(l: Layout, rows: seq<seq<nat>>, link: Link)
    requires LayoutOk(l) && RowsOk(l, rows)
  {
    SentByAll(l, rows, link) == l.tp * ReceivedByAll(l, rows, link)
  }

  /** The two loops alone, where the devices that share tokens stand on one node: what all
      send loops count is `tp` times what all receive loops would count on every class of
      link, for every demand, if and only if a node has eight devices, or there is a
      single node of at most eight, or a single rank, or no device holds an expert. */
  lemma LoopsConserve(l: Layout)
    requires LayoutOk(l) && Shared(l)
    ensures (forall rows, link | RowsOk(l, rows) :: LinkBalanced(l, rows, link))
            <==> NodesAgree(l) || OneRank(l) || l.experts < Devices(l)
  {
    if NodesAgree(l) || OneRank(l) || l.experts < Devices(l) {
      forall rows, link | RowsOk(l, rows) ensures LinkBalanced(l, rows, link) {
        if l.experts < Devices(l) { NoExperts(l, rows, link); } else { CellsAgree(l, rows, link); }
      }
    } else {
      DevicesAtLeast(l);
      if l.perNode < 8 {
        SmallNodesDiffer(l);
        assert !LinkBalanced(l, OnlyRank(l, 0), Intra);
      } else if l.tp < l.perNode {
        LargeNodesDiffer(l);
        assert !LinkBalanced(l, OnlyRank(l, 0), Intra);
      } else {
        WholeNodesDiffer(l);
        assert !LinkBalanced(l, OnlyRank(l, 1), Intra);
      }
    }
  }

  // ----- With the early return -----

  function CountedOf(l: Layout, rows: seq<seq<nat>>, link: Link): nat -> nat
    requires LayoutOk(l) && RowsOk(l, rows)
  {
    (dst: nat) => Counted(l, rows, dst, link)
  }

  function CountedByAll(l: Layout, rows: seq<seq<nat>>, link: Link): nat
    requires LayoutOk(l) && RowsOk(l, rows)
  {
    SumTo(CountedOf(l, rows, link), Devices(l))
  }

  predicate Balanced(l: Layout, rows: seq<seq<nat>>)
    requires LayoutOk(l) && RowsOk(l, rows)
  {
    && SentByAll(l, rows, Intra) == l.tp * CountedByAll(l, rows, Intra)
    && SentByAll(l, rows, Inter) == l.tp * CountedByAll(l, rows, Inter)
  }

  /** No device that sends nothing has something to receive. */
  predicate NobodyMisses(l: Layout, rows: seq<seq<nat>>)
    requires LayoutOk(l) && RowsOk(l, rows)
  {
    forall dst: nat | dst < Devices(l) && Idle(l, rows, dst) :: MissesNothing(l, rows, dst)
  }

  predicate MissesNothing(l: Layout, rows: seq<seq<nat>>, dst: nat)
    requires LayoutOk(l) && RowsOk(l, rows)
  {
    Received(l, rows, dst, Intra) == 0 && Received(l, rows, dst, Inter) == 0
  }

  lemma CountedAtMost(l: Layout, rows: seq<seq<nat>>, link: Link)
    requires LayoutOk(l) && RowsOk(l, rows)
    ensures CountedByAll(l, rows, link) <= ReceivedByAll(l, rows, link)
    ensures NobodyMisses(l, rows) && link != Own ==> CountedByAll(l, rows, link) == ReceivedByAll(l, rows, link)
  {
    var f, g := CountedOf(l, rows, link), ColumnSums(ReceivedCell(l, rows, link), |rows|);
    assert forall dst: nat :: g(dst) == Received(l, rows, dst, link);
    SumBelow(f, g, Devices(l));
    if NobodyMisses(l, rows) && link != Own {
      forall dst: nat | dst < Devices(l) ensures f(dst) == g(dst) {
        if Idle(l, rows, dst) { assert MissesNothing(l, rows, dst); }
      }
      SumAgree(f, g, Devices(l));
    }
  }

  lemma MissedIsLost(l: Layout, rows: seq<seq<nat>>, dst: nat, link: Link)
    requires LayoutOk(l) && RowsOk(l, rows) && dst < Devices(l) && Idle(l, rows, dst) && Received(l, rows, dst, link) > 0
    ensures l.tp * CountedByAll(l, rows, link) < l.tp * ReceivedByAll(l, rows, link)
  {
    var f, g := CountedOf(l, rows, link), ColumnSums(ReceivedCell(l, rows, link), |rows|);
    assert forall d: nat :: g(d) == Received(l, rows, d, link);
    SumStrict(f, g, Devices(l), dst);
    Scaled(CountedByAll(l, rows, link), ReceivedByAll(l, rows, link), l.tp);
  }

  /** Where the nodes agree, the cluster counts on both classes of link as many tokens
      received as sent, each device that shares a token sending it, if and only if no
      device that sends nothing has any to receive. */
  lemma BalancedExactly(l: Layout, rows: seq<seq<nat>>)
    requires LayoutOk(l) && Shared(l) && NodesAgree(l) && RowsOk(l, rows)
    ensures Balanced(l, rows) <==> NobodyMisses(l, rows)
  {
    CellsAgree(l, rows, Intra);
    CellsAgree(l, rows, Inter);
    CountedAtMost(l, rows, Intra);
    CountedAtMost(l, rows, Inter);
    if !NobodyMisses(l, rows) {
      var dst: nat :| dst < Devices(l) && Idle(l, rows, dst) && !MissesNothing(l, rows, dst);
      MissedIsLost(l, rows, dst, if Received(l, rows, dst, Intra) > 0 then Intra else Inter);
    }
  }

  lemma OnlyFirstSends(l: Layout, src: nat, link: Link)
    requires LayoutOk(l) && Shared(l) && l.tp <= src < Devices(l)
    ensures Sent(l, OnlyRank(l, 0), src, link) == 0
  {
    assert Div(Devices(l), l.tp) > 0 by { RanksFit(l); }
    assert Div(src, l.tp) != 0 by { DivBelow(src, l.tp, 1); }
    OnlyRankRow(l, 0, link, src);
  }

  lemma OnlyFirstReceives(l: Layout, dst: nat, link: Link)
    requires LayoutOk(l) && Shared(l) && link != Own && dst < l.tp && dst < Devices(l)
    ensures Received(l, OnlyRank(l, 0), dst, link) == 0
  {
    var f := ColumnOf(ReceivedCell(l, OnlyRank(l, 0), link), dst);
    DivUnique(dst, l.tp, 0, dst);
    forall rank: nat | rank < |OnlyRank(l, 0)| ensures f(rank) == 0 { OnlyRankLoads(l, 0, rank, dst); }
    SumOfZeros(f, |OnlyRank(l, 0)|);
  }

  /** With tokens on rank 0 alone the cluster counts nothing as received. */
  lemma OnlyFirstCounted(l: Layout, link: Link)
    requires LayoutOk(l) && Shared(l) && link != Own
    ensures CountedByAll(l, OnlyRank(l, 0), link) == 0
  {
    var f := CountedOf(l, OnlyRank(l, 0), link);
    forall dst: nat | dst < Devices(l) ensures f(dst) == 0 {
      if dst < l.tp {
        OnlyFirstReceives(l, dst, link);
      } else {
        OnlyFirstSends(l, dst, Intra);
        OnlyFirstSends(l, dst, Inter);
      }
    }
    SumOfZeros(f, Devices(l));
  }

  lemma OnlyFirstSent(l: Layout)
    requires LayoutOk(l) && Shared(l) && l.tp < Devices(l) <= l.experts
    ensures SendClass(l, 0, l.tp) != Own && SentByAll(l, OnlyRank(l, 0), SendClass(l, 0, l.tp)) > 0
  {
    var link := SendClass(l, 0, l.tp);
    RanksFit(l);
    FirstClasses(l, l.tp);
    SpanPositive(l);
    OnlyRankSent(l, 0, link);
    SumElement(SentBy(l, 0, link), Devices(l), l.tp);
    MulMono(1, SumTo(SentBy(l, 0, link), Devices(l)), l.tp);
  }

  lemma NextRankReceives(l: Layout)
    requires LayoutOk(l) && Shared(l) && l.tp < Devices(l) <= l.experts
    ensures ReceiveClass(l, 0, l.tp) != Own && Received(l, OnlyRank(l, 0), l.tp, ReceiveClass(l, 0, l.tp)) > 0
  {
    var rows, link := OnlyRank(l, 0), ReceiveClass(l, 0, l.tp);
    var f := ColumnOf(ReceivedCell(l, rows, link), l.tp);
    assert |rows| > 0 by { RanksFit(l); }
    assert link != Own by { FirstClasses(l, l.tp); }
    assert f(0) == Span(l) by { OnlyRankLoads(l, 0, 0, l.tp); }
    assert Span(l) > 0 by { SpanPositive(l); }
    SumElement(f, |rows|, 0);
  }

  /** An idle device at work: with tokens on rank 0 alone, the first device of the next
      rank sends nothing, has tokens to receive, and counts none of them. */
  lemma IdleDeviceMisses(l: Layout)
    requires LayoutOk(l) && Shared(l) && l.tp < Devices(l) <= l.experts
    ensures Idle(l, OnlyRank(l, 0), l.tp) && !MissesNothing(l, OnlyRank(l, 0), l.tp)
    ensures Counted(l, OnlyRank(l, 0), l.tp, Intra) == 0 == Counted(l, OnlyRank(l, 0), l.tp, Inter)
  {
    OnlyFirstSends(l, l.tp, Intra);
    OnlyFirstSends(l, l.tp, Inter);
    NextRankReceives(l);
  }

  lemma {:induction false} SumElement(f: nat -> nat, n: nat, k: nat)
    requires k < n
    ensures f(k) <= SumTo(f, n)
  {
    if k < n - 1 { SumElement(f, n - 1, k); }
  }

  /** In a single rank nothing leaves its group. */
  lemma SingleRank(l: Layout, rows: seq<seq<nat>>, link: Link)
    requires LayoutOk(l) && Shared(l) && OneRank(l) && RowsOk(l, rows) && link != Own
    ensures SentByAll(l, rows, link) == 0 == ReceivedByAll(l, rows, link)
  {
    var n, f, g := Devices(l), SentCell(l, rows, link), ReceivedCell(l, rows, link);
    RanksFit(l);
    DivUnique(n, l.tp, 1, 0);
    forall x: nat, y: nat | x < n && y < n ensures f(x, y) == 0 { FirstRankStays(l, x, y); }
    forall x: nat, y: nat | x < |rows| && y < n ensures g(x, y) == 0 { FirstRankStays(l, x, y); }
    GridZero(f, n, n);
    GridZero(g, |rows|, n);
    GridSum(g, |rows|, n);
  }

  lemma FirstRankStays(l: Layout, src: nat, dst: nat)
    requires LayoutOk(l) && src < l.tp && dst < l.tp
    ensures SendClass(l, src, dst) == Own == ReceiveClass(l, 0, dst)
  {
    DivUnique(src, l.tp, 0, src);
    DivUnique(dst, l.tp, 0, dst);
    OwnExactly(l, src, dst);
  }

  /** What the scatters count balances for every demand if and only if there is a single
      rank, or no device holds an expert at all. */
  lemma BalancedForEveryDemand(l: Layout)
    requires LayoutOk(l) && Shared(l)
    ensures (forall rows | RowsOk(l, rows) :: Balanced(l, rows)) <==> OneRank(l) || l.experts < Devices(l)
  {
    if OneRank(l) || l.experts < Devices(l) {
      forall rows | RowsOk(l, rows) ensures Balanced(l, rows) {
        NothingMoves(l, rows, Intra);
        NothingMoves(l, rows, Inter);
      }
    } else {
      DevicesAtLeast(l);
      OnlyFirstSent(l);
      OnlyFirstCounted(l, Intra);
      OnlyFirstCounted(l, Inter);
      assert !Balanced(l, OnlyRank(l, 0));
    }
  }

  lemma NothingMoves(l: Layout, rows: seq<seq<nat>>, link: Link)
    requires LayoutOk(l) && Shared(l) && (OneRank(l) || l.experts < Devices(l)) && RowsOk(l, rows) && link != Own
    ensures SentByAll(l, rows, link) == 0 == CountedByAll(l, rows, link)
  {
    CountedAtMost(l, rows, link);
    if OneRank(l) { SingleRank(l, rows, link); } else { NoExperts(l, rows, link); }
  }
}

/** Latency of a matrix product on the near-bank units: row-buffer fills overlapped
    with computation, over exact reals. */
module NearbankLatency {

  datatype Settings = Settings(
    banks: nat, rowBuffer: real, bandwidth: real, peWidth: real, peCycle: real,
    lowWidth: real, lowCycle: real, bits: nat, asymmetric: bool, dequant: bool)

  type Config = c: Settings |
      c.banks > 0 && c.rowBuffer > 0.0 && c.bandwidth > 0.0 && c.peWidth > 0.0 && c.peCycle > 0.0
      && c.lowWidth > 0.0 && c.lowCycle > 0.0 && c.bits > 0
    witness Settings(1, 1.0, 1.0, 1.0, 1.0, 1.0, 1.0, 2, false, false)

  /** An M x K by K x N product: bytes of a stored element (1 and below: packed to the
      configured bits) and bytes of a computed one. */
  datatype Product = Product(m: nat, k: nat, n: nat, dataSize: int, computeSize: nat)

  datatype Result = Result(
    latency: real, rowbufferTime: real, peCompute: real, baseGemv: real, reduction: real,
    totalBytes: real, bytesPerBank: real, reductionOps: real, fills: int)

  function Max(x: real, y: real): real { if x < y then y else x }

  function Ceiling(x: real): (r: int)
    ensures (r - 1) as real < x <= r as real
  {
    if x.Floor as real == x then x.Floor else x.Floor + 1
  }

  // ----- What the formula stands for -----

  function Elements(p: Product): nat { p.m * p.k + p.k * p.n + p.m * p.n }

  function BytesPerElement(c: Config, p: Product): (r: real)
    ensures r > 0.0
  {
    if p.dataSize <= 1 then c.bits as real / 8.0 else p.dataSize as real
  }

  function BytesPerBank(c: Config, p: Product): (r: real)
    ensures r >= 0.0
  {
    Elements(p) as real * BytesPerElement(c, p) / c.banks as real
  }

  /** Elements a processing element takes per cycle. */
  function Rate(c: Config, p: Product): (r: real)
    requires p.computeSize > 0
    ensures r > 0.0
  {
    if p.dataSize <= 1 then (if p.computeSize <= 1 then c.lowWidth else c.peWidth) * (8.0 / c.bits as real)
    else c.peWidth / p.computeSize as real
  }

  function Cycle(c: Config, p: Product): (r: real)
    ensures r > 0.0
  {
    if p.computeSize <= 1 then c.lowCycle else c.peCycle
  }

  function LowRate(c: Config): (r: real)
    ensures r > 0.0
  {
    c.lowWidth * (8.0 / c.bits as real)
  }

  /** Time one bank computes on its share of `work` elements. */
  function Share(c: Config, work: real, rate: real, cycle: real): real
    requires rate > 0.0
  {
    work / c.banks as real / rate * cycle
  }

  /** Packed data computed at full width is unpacked first. */
  predicate Unpacks(p: Product) { p.dataSize <= 1 && p.computeSize >= 2 }

  /** Elements summed for an asymmetric quantisation, and elements to unpack. */
  function Summed(p: Product): nat { p.m * p.k + p.n * p.k }

  function Weights(p: Product): nat { p.k * p.n }

  /** Time of the processing element for the product, the sums and the unpacking, two
      operations for each element. */
  function Work(c: Config, rate: real, cycle: real, unpacks: bool, elements: nat, summed: nat, weights: nat): real
    requires rate > 0.0
  {
    Share(c, elements as real, rate, cycle)
    + (if c.asymmetric then Share(c, summed as real, rate, cycle) else 0.0)
    + (if unpacks then Share(c, 2.0 * weights as real, LowRate(c), c.lowCycle) else 0.0)
  }

  /** All the time of the processing element. */
  function PeTime(c: Config, p: Product): real
    requires p.computeSize > 0
  {
    Work(c, Rate(c, p), Cycle(c, p), Unpacks(p), Elements(p), Summed(p), Weights(p))
  }

  /** Time to move some bytes into row buffers at full bandwidth. */
  function FillTime(c: Config, bytes: real): real { bytes / c.bandwidth * 1000000000.0 }

  function OneFill(c: Config): real { FillTime(c, c.rowBuffer) }

  function Fills(c: Config, bytes: real): int {
    var fills := Ceiling(bytes / c.rowBuffer);
    if fills < 1 then 1 else fills
  }

  /** One buffer streams; several are filled one ahead of the computation. */
  function Pipeline(c: Config, bytes: real, pe: real): real {
    if bytes <= c.rowBuffer then Max(FillTime(c, bytes), pe)
    else OneFill(c) + Max((Fills(c, bytes) - 1) as real * OneFill(c), pe)
  }

  function Latency(c: Config, p: Product): real
    requires p.computeSize > 0
  {
    Pipeline(c, BytesPerBank(c, p), PeTime(c, p))
  }

  // ----- Arithmetic -----

  lemma MulMono(x: real, y: real, k: real)
    requires k >= 0.0
    ensures x <= y ==> x * k <= y * k
  {
  }

  lemma DivMono(x: real, y: real, k: real)
    requires x <= y && k > 0.0
    ensures x / k <= y / k
  {
    MulStrict(y / k, x / k, k);
  }

  lemma MulStrict(x: real, y: real, k: real)
    requires k > 0.0
    ensures x < y ==> x * k < y * k
  {
  }

  lemma CeilingMono(x: real, y: real)
    requires x <= y
    ensures Ceiling(x) <= Ceiling(y)
  {
  }

  lemma FillMono(c: Config, x: real, y: real)
    requires x <= y
    ensures FillTime(c, x) <= FillTime(c, y)
  {
    DivMono(x, y, c.bandwidth);
  }

  /** Filling is proportional to the number of buffers. */
  lemma FillScales(c: Config, bytes: real)
    ensures FillTime(c, bytes) == bytes / c.rowBuffer * OneFill(c) && OneFill(c) > 0.0
  {
    var x, u := bytes / c.rowBuffer, c.rowBuffer / c.bandwidth;
    assert bytes == x * c.rowBuffer;
    assert bytes / c.bandwidth == x * u by {
      assert x * u * c.bandwidth == x * (u * c.bandwidth) == bytes;
      Quotient(bytes, c.bandwidth, x * u);
    }
    DivPositive(c.rowBuffer, c.bandwidth);
  }

  lemma Quotient(x: real, d: real, q: real)
    requires d > 0.0 && q * d == x
    ensures x / d == q
  {
  }

  lemma DivPositive(x: real, d: real)
    requires x > 0.0 && d > 0.0
    ensures x / d > 0.0
  {
  }

  // ----- Bounds and monotonicity -----

  /** The whole fill time lies between one fewer and all of the buffers. */
  lemma FillsBracket(c: Config, bytes: real)
    requires bytes > c.rowBuffer
    ensures Fills(c, bytes) >= 2
    ensures (Fills(c, bytes) - 1) as real * OneFill(c) <= FillTime(c, bytes) <= Fills(c, bytes) as real * OneFill(c)
  {
    var x, t, fills := bytes / c.rowBuffer, OneFill(c), Fills(c, bytes);
    FillScales(c, bytes);
    MulMono(x, 1.0, c.rowBuffer);
    assert x > 1.0;
    assert (fills - 1) as real <= x <= fills as real;
    MulMono((fills - 1) as real, x, t);
    MulMono(x, fills as real, t);
  }

  /** The latency is never below the longer of filling and computing, and never above
      it by more than one fill. */
  lemma PipelineBounds(c: Config, bytes: real, pe: real)
    ensures Max(FillTime(c, bytes), pe) <= Pipeline(c, bytes, pe) <= OneFill(c) + Max(FillTime(c, bytes), pe)
    ensures FillTime(c, bytes) <= Pipeline(c, bytes, pe) && pe <= Pipeline(c, bytes, pe)
    ensures bytes <= c.rowBuffer ==> Pipeline(c, bytes, pe) == FillTime(c, bytes) || Pipeline(c, bytes, pe) == pe
    ensures bytes > c.rowBuffer ==>
      Pipeline(c, bytes, pe) == Fills(c, bytes) as real * OneFill(c) || Pipeline(c, bytes, pe) == OneFill(c) + pe
  {
    FillScales(c, bytes);
    if bytes > c.rowBuffer {
      FillsBracket(c, bytes);
      var fills := Fills(c, bytes);
      assert fills as real * OneFill(c) == OneFill(c) + (fills - 1) as real * OneFill(c);
    }
  }

  lemma FillsMono(c: Config, bytes: real, bytes': real)
    requires bytes <= bytes'
    ensures Fills(c, bytes) <= Fills(c, bytes')
  {
    DivMono(bytes, bytes', c.rowBuffer);
    CeilingMono(bytes / c.rowBuffer, bytes' / c.rowBuffer);
  }

  lemma OneBufferMono(c: Config, bytes: real, bytes': real, pe: real, pe': real)
    requires bytes <= bytes' <= c.rowBuffer && pe <= pe'
    ensures Pipeline(c, bytes, pe) <= Pipeline(c, bytes', pe')
  {
    FillMono(c, bytes, bytes');
  }

  lemma SeveralMono(t: real, f: int, f': int, pe: real, pe': real)
    requires t >= 0.0 && f <= f' && pe <= pe'
    ensures t + Max((f - 1) as real * t, pe) <= t + Max((f' - 1) as real * t, pe')
  {
    var x, x' := (f - 1) as real, (f' - 1) as real;
    MulMono(x, x', t);
    MaxMono(x * t, pe, x' * t, pe');
  }

  lemma MaxMono(x: real, y: real, x': real, y': real)
    requires x <= x' && y <= y'
    ensures Max(x, y) <= Max(x', y')
  {
  }

  lemma ManyBuffersMono(c: Config, bytes: real, bytes': real, pe: real, pe': real)
    requires c.rowBuffer < bytes <= bytes' && pe <= pe'
    ensures Pipeline(c, bytes, pe) <= Pipeline(c, bytes', pe')
  {
    assert Fills(c, bytes) <= Fills(c, bytes') by { FillsMono(c, bytes, bytes'); }
    assert OneFill(c) >= 0.0 by { FillScales(c, bytes); }
    SeveralMono(OneFill(c), Fills(c, bytes), Fills(c, bytes'), pe, pe');
  }

  lemma PipelineMono(c: Config, bytes: real, bytes': real, pe: real, pe': real)
    requires bytes <= bytes' && pe <= pe'
    ensures Pipeline(c, bytes, pe) <= Pipeline(c, bytes', pe')
  {
    if bytes' <= c.rowBuffer {
      OneBufferMono(c, bytes, bytes', pe, pe');
    } else if bytes <= c.rowBuffer {
      StepUp(c, bytes, bytes', pe, pe');
    } else {
      ManyBuffersMono(c, bytes, bytes', pe, pe');
    }
  }

  /** Going from one buffer to several costs a whole fill. */
  lemma StepUp(c: Config, bytes: real, bytes': real, pe: real, pe': real)
    requires bytes <= c.rowBuffer < bytes' && pe <= pe'
    ensures Pipeline(c, bytes, pe) <= Pipeline(c, bytes', pe')
  {
    var rest := (Fills(c, bytes') - 1) as real * OneFill(c);
    assert rest >= 0.0 && OneFill(c) > 0.0 by {
      FillScales(c, bytes);
      FillsBracket(c, bytes');
      MulMono(0.0, (Fills(c, bytes') - 1) as real, OneFill(c));
    }
    FillMono(c, bytes, c.rowBuffer);
    assert Pipeline(c, bytes', pe') == OneFill(c) + Max(rest, pe');
  }

  lemma ProductMono(a: nat, b: nat, a': nat, b': nat)
    requires a <= a' && b <= b'
    ensures a * b <= a' * b'
  {
    assert a * b <= a' * b by { assert (a' - a) * b >= 0; }
    assert a' * b <= a' * b' by { assert a' * (b' - b) >= 0; }
  }

  predicate Larger(p: Product, q: Product) {
    p.m <= q.m && p.k <= q.k && p.n <= q.n && p.dataSize == q.dataSize && p.computeSize == q.computeSize
  }

  lemma SizesMono(p: Product, q: Product)
    requires Larger(p, q)
    ensures Elements(p) <= Elements(q) && Summed(p) <= Summed(q) && Weights(p) <= Weights(q)
  {
    ProductMono(p.m, p.k, q.m, q.k);
    ProductMono(p.k, p.n, q.k, q.n);
    ProductMono(p.m, p.n, q.m, q.n);
    ProductMono(p.n, p.k, q.n, q.k);
  }

  lemma ShareMono(c: Config, x: real, y: real, rate: real, cycle: real)
    requires x <= y && rate > 0.0 && cycle >= 0.0
    ensures Share(c, x, rate, cycle) <= Share(c, y, rate, cycle)
  {
    var b := c.banks as real;
    DivMono(x, y, b);
    DivMono(x / b, y / b, rate);
    MulMono(x / b / rate, y / b / rate, cycle);
  }

  /** A larger product never takes less time, across the rounding of fills, the step
      from one buffer to several, and every recomputation. */
  lemma LatencyMonotone(c: Config, p: Product, q: Product)
    requires p.computeSize > 0 && Larger(p, q)
    ensures Latency(c, p) <= Latency(c, q)
  {
    SizesMono(p, q);
    BytesMono(c, p, q);
    WorkMono(c, Rate(c, p), Cycle(c, p), Unpacks(p), Elements(p), Summed(p), Weights(p), Elements(q), Summed(q), Weights(q));
    assert Rate(c, q) == Rate(c, p) && Cycle(c, q) == Cycle(c, p) && Unpacks(q) == Unpacks(p);
    PipelineMono(c, BytesPerBank(c, p), BytesPerBank(c, q), PeTime(c, p), PeTime(c, q));
  }

  lemma BytesMono(c: Config, p: Product, q: Product)
    requires p.dataSize == q.dataSize && Elements(p) <= Elements(q)
    ensures BytesPerBank(c, p) <= BytesPerBank(c, q)
  {
    MulMono(Elements(p) as real, Elements(q) as real, BytesPerElement(c, p));
    DivMono(Elements(p) as real * BytesPerElement(c, p), Elements(q) as real * BytesPerElement(c, p), c.banks as real);
  }

  lemma WorkMono(c: Config, rate: real, cycle: real, unpacks: bool, e: nat, s: nat, w: nat, e': nat, s': nat, w': nat)
    requires rate > 0.0 && cycle > 0.0 && e <= e' && s <= s' && w <= w'
    ensures Work(c, rate, cycle, unpacks, e, s, w) <= Work(c, rate, cycle, unpacks, e', s', w')
  {
    ShareMono(c, e as real, e' as real, rate, cycle);
    ShareMono(c, s as real, s' as real, rate, cycle);
    ShareMono(c, 2.0 * w as real, 2.0 * w' as real, LowRate(c), c.lowCycle);
  }

  // ----- The computation in stages -----

  /** Time of the product alone. */
  function ProductTime(c: Config, p: Product): real
    requires p.computeSize > 0
  {
    Share(c, Elements(p) as real, Rate(c, p), Cycle(c, p))
  }

  /** The extra work of reduction and unpacking never shortens the product itself. */
  lemma BaseBelow(c: Config, p: Product)
    requires p.computeSize > 0
    ensures Pipeline(c, BytesPerBank(c, p), ProductTime(c, p)) <= Latency(c, p)
  {
    ShareMono(c, 0.0, Summed(p) as real, Rate(c, p), Cycle(c, p));
    ShareMono(c, 0.0, 2.0 * Weights(p) as real, LowRate(c), c.lowCycle);
    PipelineMono(c, BytesPerBank(c, p), BytesPerBank(c, p), ProductTime(c, p), PeTime(c, p));
  }

  // ----- The result against the hardware -----

  /** Packed elements of the configured bits are a byte or less each. */
  predicate Packed(p: Product) { p.dataSize <= 1 }

  /** Bytes of an element as the processing element takes them in. */
  function ElementSize(c: Config, p: Product): real {
    if Packed(p) then c.bits as real / 8.0 else p.computeSize as real
  }

  /** Every bank takes its share of the work, `size` bytes an element, a width of bytes
      each cycle. */
  predicate Timed(c: Config, time: real, work: real, size: real, width: real, cycle: real) {
    time * c.banks as real * width == work * size * cycle
  }

  lemma DivideBack(x: real, d: real)
    requires d > 0.0
    ensures x / d * d == x
  {
  }

  lemma ShareTimed(c: Config, work: real, rate: real, cycle: real, size: real, width: real)
    requires rate > 0.0 && rate * size == width
    ensures Timed(c, Share(c, work, rate, cycle), work, size, width, cycle)
  {
    var b, x, t := c.banks as real, work / c.banks as real, Share(c, work, rate, cycle);
    DivideBack(work, b);
    DivideBack(x, rate);
    assert t * b * rate == x / rate * rate * b * cycle == work * cycle;
    assert t * b * width == t * b * rate * size;
  }

  lemma PackedRate(width: real, bits: real)
    requires bits > 0.0
    ensures width * (8.0 / bits) * (bits / 8.0) == width
  {
    var u, v := 8.0 / bits, bits / 8.0;
    DivideBack(8.0, bits);
    assert u * v == u * bits / 8.0 == 1.0;
    assert width * u * v == width * (u * v);
  }

  lemma RateIs(c: Config, p: Product)
    requires p.computeSize > 0
    ensures Rate(c, p) * ElementSize(c, p) == if Packed(p) && p.computeSize <= 1 then c.lowWidth else c.peWidth
    ensures LowRate(c) * (c.bits as real / 8.0) == c.lowWidth
  {
    PackedRate(c.lowWidth, c.bits as real);
    PackedRate(c.peWidth, c.bits as real);
    DivideBack(c.peWidth, p.computeSize as real);
  }

  /** Time to unpack the weights, if they are. */
  function UnpackTime(c: Config, p: Product): real {
    if Unpacks(p) then Share(c, 2.0 * Weights(p) as real, LowRate(c), c.lowCycle) else 0.0
  }

  function SumTime(c: Config, p: Product): real
    requires p.computeSize > 0
  {
    if c.asymmetric then Share(c, Summed(p) as real, Rate(c, p), Cycle(c, p)) else 0.0
  }

  /** The three parts of the computation, each against banks, width and cycle: the
      product over all elements read and written, the sums of both factors, and two
      operations for each packed weight. Low-bit products run at low width and cycle. */
  predicate PartsTimed(c: Config, p: Product, product: real, sums: real, unpacking: real) {
    var width := if Packed(p) && p.computeSize <= 1 then c.lowWidth else c.peWidth;
    var cycle := if p.computeSize <= 1 then c.lowCycle else c.peCycle;
    && Timed(c, product, (p.m * p.k + p.k * p.n + p.m * p.n) as real, ElementSize(c, p), width, cycle)
    && (if c.asymmetric then Timed(c, sums, (p.m * p.k + p.n * p.k) as real, ElementSize(c, p), width, cycle) else sums == 0.0)
    && (if Packed(p) && p.computeSize >= 2
        then Timed(c, unpacking, 2.0 * (p.k * p.n) as real, c.bits as real / 8.0, c.lowWidth, c.lowCycle) else unpacking == 0.0)
  }

  lemma PartsAre(c: Config, p: Product)
    requires p.computeSize > 0
    ensures PartsTimed(c, p, ProductTime(c, p), SumTime(c, p), UnpackTime(c, p))
  {
    var width := if Packed(p) && p.computeSize <= 1 then c.lowWidth else c.peWidth;
    RateIs(c, p);
    ShareTimed(c, Elements(p) as real, Rate(c, p), Cycle(c, p), ElementSize(c, p), width);
    ShareTimed(c, Summed(p) as real, Rate(c, p), Cycle(c, p), ElementSize(c, p), width);
    ShareTimed(c, 2.0 * Weights(p) as real, LowRate(c), c.lowCycle, c.bits as real / 8.0, c.lowWidth);
  }

  /** The bytes moved, by elements and banks, and the time and number of fills. */
  predicate BytesMoved(c: Config, p: Product, r: Result, fill: real) {
    && r.totalBytes == (p.m * p.k + p.k * p.n + p.m * p.n) as real * (if Packed(p) then c.bits as real / 8.0 else p.dataSize as real)
    && r.bytesPerBank * c.banks as real == r.totalBytes
    && r.rowbufferTime * c.bandwidth == r.bytesPerBank * 1000000000.0
    && fill * c.bandwidth == c.rowBuffer * 1000000000.0
    && FillsMoved(c, r.bytesPerBank, r.fills)
  }

  /** As many buffers as hold the bytes, one at least. */
  predicate FillsMoved(c: Config, bytes: real, fills: int) {
    fills >= 1 && bytes <= fills as real * c.rowBuffer && (fills == 1 || (fills - 1) as real * c.rowBuffer < bytes)
  }

  lemma FillsScale(c: Config, x: real, fills: int, bytes: real)
    requires x * c.rowBuffer == bytes && fills >= 1 && x <= fills as real && (fills == 1 || (fills - 1) as real < x)
    ensures FillsMoved(c, bytes, fills)
  {
    MulMono(x, fills as real, c.rowBuffer);
    MulStrict((fills - 1) as real, x, c.rowBuffer);
  }

  lemma FillsAre(c: Config, bytes: real)
    ensures FillsMoved(c, bytes, Fills(c, bytes))
  {
    DivideBack(bytes, c.rowBuffer);
    FillsScale(c, bytes / c.rowBuffer, Fills(c, bytes), bytes);
  }

  lemma BankBytes(c: Config, p: Product)
    ensures BytesPerBank(c, p) * c.banks as real == Elements(p) as real * BytesPerElement(c, p)
  {
    DivideBack(Elements(p) as real * BytesPerElement(c, p), c.banks as real);
  }

  lemma BytesAre(c: Config, p: Product, r: Result)
    requires r.totalBytes == Elements(p) as real * BytesPerElement(c, p) && r.bytesPerBank == BytesPerBank(c, p)
    requires r.rowbufferTime == FillTime(c, r.bytesPerBank) && r.fills == Fills(c, r.bytesPerBank)
    ensures BytesMoved(c, p, r, OneFill(c))
  {
    assert FillsMoved(c, r.bytesPerBank, r.fills) by { FillsAre(c, r.bytesPerBank); }
    assert r.bytesPerBank * c.banks as real == r.totalBytes by { BankBytes(c, p); }
    assert r.rowbufferTime * c.bandwidth == r.bytesPerBank * 1000000000.0 by { FillTimeIs(c, r.bytesPerBank); }
    assert OneFill(c) * c.bandwidth == c.rowBuffer * 1000000000.0 by { FillTimeIs(c, c.rowBuffer); }
  }

  lemma FillTimeIs(c: Config, bytes: real)
    ensures FillTime(c, bytes) * c.bandwidth == bytes * 1000000000.0
  {
    DivideBack(bytes, c.bandwidth);
  }

  /** The latency of a computation: with one buffer the longer of moving and computing,
      else one fill and then the longer of the other fills and computing. */
  predicate Overlapped(c: Config, r: Result, fill: real, pe: real, latency: real) {
    if r.bytesPerBank <= c.rowBuffer then latency == Max(r.rowbufferTime, pe)
    else latency == fill + Max((r.fills - 1) as real * fill, pe)
  }

  /** The result in terms of the sizes and the hardware alone. */
  predicate Accounted(c: Config, p: Product, r: Result)
    requires p.computeSize > 0
  {
    && BytesMoved(c, p, r, OneFill(c))
    && PartsTimed(c, p, ProductTime(c, p), r.reduction, r.peCompute - ProductTime(c, p))
    && Overlapped(c, r, OneFill(c), ProductTime(c, p), r.baseGemv)
    && Overlapped(c, r, OneFill(c), r.peCompute + r.reduction, r.latency)
  }

  lemma PipelineOverlaps(c: Config, r: Result, pe: real)
    requires r.rowbufferTime == FillTime(c, r.bytesPerBank) && r.fills == Fills(c, r.bytesPerBank)
    ensures Overlapped(c, r, OneFill(c), pe, Pipeline(c, r.bytesPerBank, pe))
  {
  }

  lemma Account(c: Config, p: Product, r: Result)
    requires p.computeSize > 0
    requires r.totalBytes == Elements(p) as real * BytesPerElement(c, p) && r.bytesPerBank == BytesPerBank(c, p)
    requires r.rowbufferTime == FillTime(c, r.bytesPerBank) && r.fills == Fills(c, r.bytesPerBank)
    requires r.peCompute == ProductTime(c, p) + UnpackTime(c, p) && r.reduction == SumTime(c, p)
    requires r.baseGemv == Pipeline(c, r.bytesPerBank, ProductTime(c, p))
    requires r.latency == Pipeline(c, r.bytesPerBank, r.peCompute + r.reduction)
    ensures Accounted(c, p, r)
  {
    BytesAre(c, p, r);
    PartsAre(c, p);
    PipelineOverlaps(c, r, ProductTime(c, p));
    PipelineOverlaps(c, r, r.peCompute + r.reduction);
  }

  /** Steps 5, 6 and 6b: overlap of the fills with the given computation time. */
  method Overlap(c: Config, r: Result, timePerFill: real, pe: real) returns (latency: real)
    requires timePerFill == OneFill(c) && r.fills == Fills(c, r.bytesPerBank)
    ensures latency == Pipeline(c, r.bytesPerBank, pe)
  {
    if r.bytesPerBank <= c.rowBuffer {
      var fillTime := r.bytesPerBank / c.bandwidth * 1000000000.0;
      latency := Max(fillTime, pe);
    } else {
      var remaining := (r.fills - 1) as real * timePerFill;
      latency := timePerFill + Max(remaining, pe);
    }
  }

  method Rates(c: Config, p: Product) returns (bytesPerElement: real, rate: real, cycle: real)
    requires p.computeSize > 0
    ensures bytesPerElement == BytesPerElement(c, p) && rate == Rate(c, p) && cycle == Cycle(c, p)
  {
    bytesPerElement, rate := p.dataSize as real, 1.0;
    if p.dataSize <= 1 {
      bytesPerElement := c.bits as real / 8.0;
      var width := c.peWidth;
      if p.computeSize <= 1 { width := c.lowWidth; }
      rate := width * (8.0 / c.bits as real);
    } else {
      rate := c.peWidth / p.computeSize as real;
    }
    cycle := if p.computeSize <= 1 then c.lowCycle else c.peCycle;
  }

  /** Volume and fills of one bank. */
  method Volume(c: Config, p: Product, bytesPerElement: real) returns (r: Result)
    requires bytesPerElement == BytesPerElement(c, p)
    ensures r.bytesPerBank == BytesPerBank(c, p) && r.fills == Fills(c, r.bytesPerBank)
    ensures r.rowbufferTime == FillTime(c, r.bytesPerBank) && r.reduction == 0.0 && r.reductionOps == 0.0
    ensures r.totalBytes == Elements(p) as real * bytesPerElement
  {
    r := Result(0.0, 0.0, 0.0, 0.0, 0.0, 0.0, 0.0, 0.0, 0);
    var elements := p.m * p.k + p.k * p.n + p.m * p.n;
    r := r.(totalBytes := elements as real * bytesPerElement);
    r := r.(bytesPerBank := r.totalBytes / c.banks as real);
    r := r.(fills := Ceiling(r.bytesPerBank / c.rowBuffer));
    if r.fills < 1 { r := r.(fills := 1); }
    r := r.(rowbufferTime := r.bytesPerBank / c.bandwidth * 1000000000.0);
  }

  /** Step 6: the sums of an asymmetric quantisation, computed beside the product. */
  method AddSums(c: Config, p: Product, base: Result, timePerFill: real, rate: real, cycle: real) returns (r: Result)
    requires p.computeSize > 0 && rate == Rate(c, p) && cycle == Cycle(c, p) && timePerFill == OneFill(c)
    requires base.fills == Fills(c, base.bytesPerBank) && base.reduction == 0.0 && base.reductionOps == 0.0
    requires base.baseGemv == Pipeline(c, base.bytesPerBank, base.peCompute)
    ensures r == base.(reduction := SumTime(c, p), reductionOps := if c.asymmetric then Summed(p) as real else 0.0,
                       latency := Pipeline(c, base.bytesPerBank, base.peCompute + SumTime(c, p)))
  {
    r := base;
    if c.asymmetric {
      r := r.(reductionOps := Summed(p) as real, reduction := Share(c, Summed(p) as real, rate, cycle));
      var latency := Overlap(c, r, timePerFill, r.peCompute + r.reduction);
      r := r.(latency := latency);
    } else {
      r := r.(latency := r.baseGemv);
    }
  }

  /** Step 6b: packed weights computed at full width are unpacked first. */
  method AddUnpacking(c: Config, p: Product, base: Result, timePerFill: real) returns (r: Result)
    requires timePerFill == OneFill(c) && base.fills == Fills(c, base.bytesPerBank)
    requires base.latency == Pipeline(c, base.bytesPerBank, base.peCompute + base.reduction)
    ensures r == base.(peCompute := base.peCompute + UnpackTime(c, p),
                       latency := Pipeline(c, base.bytesPerBank, base.peCompute + base.reduction + UnpackTime(c, p)))
  {
    r := base;
    var implicitDequant := p.dataSize <= 1 && p.computeSize >= 2;
    var needDequant := implicitDequant || (c.dequant && p.dataSize <= 1 && p.computeSize >= 2);
    if needDequant {
      var dequantOps := 2.0 * Weights(p) as real;
      var dequantTime := Share(c, dequantOps, LowRate(c), c.lowCycle);
      var latency := Overlap(c, r, timePerFill, r.peCompute + r.reduction + dequantTime);
      r := r.(latency := latency);
      r := r.(peCompute := r.peCompute + dequantTime);
    }
  }

  /** The latency of the last recomputation, with its breakdown: the result is the
      pipeline of everything the processing element does, and so keeps the bounds. */
  method ComputeGemvLatency(c: Config, p: Product) returns (r: Result)
    requires p.computeSize > 0
    ensures r.latency == Latency(c, p)
    ensures r.bytesPerBank == BytesPerBank(c, p) && r.rowbufferTime == FillTime(c, r.bytesPerBank)
    ensures r.peCompute + r.reduction == PeTime(c, p)
    ensures r.fills == Fills(c, r.bytesPerBank) && r.totalBytes == Elements(p) as real * BytesPerElement(c, p)
    ensures r.baseGemv == Pipeline(c, r.bytesPerBank, ProductTime(c, p))
    ensures r.reduction == if c.asymmetric then Share(c, Summed(p) as real, Rate(c, p), Cycle(c, p)) else 0.0
    ensures r.reductionOps == if c.asymmetric then Summed(p) as real else 0.0
    ensures Max(r.rowbufferTime, r.peCompute + r.reduction) <= r.latency
    ensures r.latency <= OneFill(c) + Max(r.rowbufferTime, r.peCompute + r.reduction)
    ensures r.baseGemv <= r.latency
    ensures Accounted(c, p, r)
  {
    var bytesPerElement, rate, cycle := Rates(c, p);
    r := Volume(c, p, bytesPerElement);
    var timePerFill := FillTime(c, c.rowBuffer);
    r := r.(peCompute := Share(c, Elements(p) as real, rate, cycle));
    var base := Overlap(c, r, timePerFill, r.peCompute);
    r := r.(baseGemv := base);
    r := AddSums(c, p, r, timePerFill, rate, cycle);
    r := AddUnpacking(c, p, r, timePerFill);
    assert r.peCompute + r.reduction == PeTime(c, p) by { Adds(c, p); }
    Account(c, p, r);
    PipelineBounds(c, r.bytesPerBank, PeTime(c, p));
    assert r.baseGemv <= r.latency by { BaseBelow(c, p); }
  }

  /** The parts of the computing time. */
  lemma Adds(c: Config, p: Product)
    requires p.computeSize > 0
    ensures PeTime(c, p) == ProductTime(c, p) + SumTime(c, p) + UnpackTime(c, p)
  {
  }
}

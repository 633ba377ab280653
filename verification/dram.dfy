/** DRAM address mapping: how a bundle number becomes a DRAM coordinate, the two
    maps and their inverses, and the bump allocator of tensors. */
module AddressMap {
  import opened Quotients

  datatype Option<T> = None | Some(value: T)

  datatype MemoryConfig = MemoryConfig(
    cubes: nat, logicCubes: nat, channels: nat, ranks: nat, bankgroups: nat,
    banks: nat, rows: nat, cols: nat, granul: nat)

  predicate ConfigOk(c: MemoryConfig) {
    && 0 < c.cubes && 0 < c.logicCubes && 0 < c.channels && 0 < c.ranks && 0 < c.bankgroups
    && 0 < c.banks && 0 < c.rows && 0 < c.cols && 0 < c.granul
  }

  datatype AddrVec = AddrVec(cube: nat, channel: nat, rank: nat, bankgroup: nat, bank: nat, row: nat, col: nat)

  /** The vector the DRAM simulator takes: channel pair and half come first. */
  datatype DramVec = DramVec(pair: nat, half: nat, rank: nat, bankgroup: nat, bank: nat, row: nat, col: nat)

  // ----- The default map -----

  function BundleOf(c: MemoryConfig, address: nat): nat
    requires ConfigOk(c)
  {
    Div(address, c.granul)
  }

  /** The coordinate of bundle b; none when it is beyond the last row. */
  function VecOf(c: MemoryConfig, b: nat): Option<AddrVec>
    requires ConfigOk(c)
  {
    var q1 := Div(b, c.cubes);
    var q2 := Div(q1, c.channels);
    var q3 := Div(q2, c.ranks);
    var q4 := Div(q3, c.bankgroups);
    var q5 := Div(q4, c.banks);
    var row := Div(q5, c.cols);
    if row < c.rows then
      Some(AddrVec(Mod(b, c.cubes), Mod(q1, c.channels), Mod(q2, c.ranks), Mod(q3, c.bankgroups), Mod(q4, c.banks), row, Mod(q5, c.cols)))
    else None
  }

  /** The mapping as it is computed: one digit at a time off a shrinking address. */
  method AddrToVec(c: MemoryConfig, address: nat) returns (r: Option<AddrVec>)
    requires ConfigOk(c)
    ensures r == VecOf(c, BundleOf(c, address))
  {
    var a := Div(address, c.granul);
    var cube := Mod(a, c.cubes);
    a := Div(a, c.cubes);
    var channel := Mod(a, c.channels);
    a := Div(a, c.channels);
    var rank := Mod(a, c.ranks);
    a := Div(a, c.ranks);
    var bankgroup := Mod(a, c.bankgroups);
    a := Div(a, c.bankgroups);
    var bank := Mod(a, c.banks);
    a := Div(a, c.banks);
    var col := Mod(a, c.cols);
    a := Div(a, c.cols);
    if a >= c.rows { return None; }
    r := Some(AddrVec(cube, channel, rank, bankgroup, bank, a, col));
  }

  /** How many bundles the memory holds. */
  function Capacity(c: MemoryConfig): nat {
    c.rows * c.cols * c.banks * c.bankgroups * c.ranks * c.channels * c.cubes
  }

  /** A bundle has a coordinate exactly when it is below capacity. */
  lemma CapacityExact(c: MemoryConfig, b: nat)
    requires ConfigOk(c)
    ensures VecOf(c, b).Some? <==> b < Capacity(c)
  {
    var q1 := Div(b, c.cubes);
    var q2 := Div(q1, c.channels);
    var q3 := Div(q2, c.ranks);
    var q4 := Div(q3, c.bankgroups);
    var q5 := Div(q4, c.banks);
    DivBelow(q5, c.cols, c.rows);
    DivBelow(q4, c.banks, c.rows * c.cols);
    DivBelow(q3, c.bankgroups, c.rows * c.cols * c.banks);
    DivBelow(q2, c.ranks, c.rows * c.cols * c.banks * c.bankgroups);
    DivBelow(q1, c.channels, c.rows * c.cols * c.banks * c.bankgroups * c.ranks);
    DivBelow(b, c.cubes, c.rows * c.cols * c.banks * c.bankgroups * c.ranks * c.channels);
  }

  predicate InBounds(c: MemoryConfig, v: AddrVec) {
    && v.cube < c.cubes && v.channel < c.channels && v.rank < c.ranks && v.bankgroup < c.bankgroups
    && v.bank < c.banks && v.row < c.rows && v.col < c.cols
  }

  /** The bundle at a coordinate: cube fastest, then channel, rank, bank group, bank,
      column and row. */
  function BundleAt(c: MemoryConfig, v: AddrVec): nat {
    var q5 := Horner(v.row, c.cols, v.col);
    var q4 := Horner(q5, c.banks, v.bank);
    var q3 := Horner(q4, c.bankgroups, v.bankgroup);
    var q2 := Horner(q3, c.ranks, v.rank);
    var q1 := Horner(q2, c.channels, v.channel);
    Horner(q1, c.cubes, v.cube)
  }

  lemma BundleOfVec(c: MemoryConfig, v: AddrVec)
    requires ConfigOk(c) && InBounds(c, v)
    ensures VecOf(c, BundleAt(c, v)) == Some(v)
  {
    var q5 := Horner(v.row, c.cols, v.col);
    HornerDigit(v.row, c.cols, v.col);
    var q4 := Horner(q5, c.banks, v.bank);
    HornerDigit(q5, c.banks, v.bank);
    var q3 := Horner(q4, c.bankgroups, v.bankgroup);
    HornerDigit(q4, c.bankgroups, v.bankgroup);
    var q2 := Horner(q3, c.ranks, v.rank);
    HornerDigit(q3, c.ranks, v.rank);
    var q1 := Horner(q2, c.channels, v.channel);
    HornerDigit(q2, c.channels, v.channel);
    HornerDigit(q1, c.cubes, v.cube);
  }

  lemma VecOfBundle(c: MemoryConfig, b: nat)
    requires ConfigOk(c) && VecOf(c, b).Some?
    ensures InBounds(c, VecOf(c, b).value) && BundleAt(c, VecOf(c, b).value) == b
  {
    var q1 := Div(b, c.cubes);
    var q2 := Div(q1, c.channels);
    var q3 := Div(q2, c.ranks);
    var q4 := Div(q3, c.bankgroups);
    var q5 := Div(q4, c.banks);
    DivMod(q5, c.cols);
    HornerStep(Div(q5, c.cols), c.cols, Mod(q5, c.cols), q5);
    DivMod(q4, c.banks);
    HornerStep(q5, c.banks, Mod(q4, c.banks), q4);
    DivMod(q3, c.bankgroups);
    HornerStep(q4, c.bankgroups, Mod(q3, c.bankgroups), q3);
    DivMod(q2, c.ranks);
    HornerStep(q3, c.ranks, Mod(q2, c.ranks), q2);
    DivMod(q1, c.channels);
    HornerStep(q2, c.channels, Mod(q1, c.channels), q1);
    DivMod(b, c.cubes);
    HornerStep(q1, c.cubes, Mod(b, c.cubes), b);
  }

  /** The default map is the inverse of the mixed-radix number of a coordinate. */
  lemma MapIsMixedRadix(c: MemoryConfig, b: nat, v: AddrVec)
    requires ConfigOk(c)
    ensures VecOf(c, b) == Some(v) <==> InBounds(c, v) && BundleAt(c, v) == b
  {
    if VecOf(c, b).Some? { VecOfBundle(c, b); }
    if InBounds(c, v) { BundleOfVec(c, v); }
  }

  lemma VecInjective(c: MemoryConfig, b: nat, b': nat)
    requires ConfigOk(c) && VecOf(c, b).Some? && VecOf(c, b) == VecOf(c, b')
    ensures b == b'
  {
    VecOfBundle(c, b);
    VecOfBundle(c, b');
  }

  /** Folding cube and channel into one channel number, split in two. */
  function Fold(c: MemoryConfig, v: AddrVec): DramVec {
    var channel := c.channels * v.cube + v.channel;
    DramVec(Div(channel, 2), Mod(channel, 2), v.rank, v.bankgroup, v.bank, v.row, v.col)
  }

  lemma FoldInjective(c: MemoryConfig, v: AddrVec, w: AddrVec)
    requires v.channel < c.channels && w.channel < c.channels && Fold(c, v) == Fold(c, w)
    ensures v == w
  {
    var x := c.channels * v.cube + v.channel;
    assert x == c.channels * w.cube + w.channel;
    DivUnique(x, c.channels, v.cube, v.channel);
    DivUnique(x, c.channels, w.cube, w.channel);
  }

  /** The DRAM coordinate of bundle `i` of an object at `address`. */
  function Coordinate(c: MemoryConfig, address: nat, i: nat): Option<DramVec>
    requires ConfigOk(c)
  {
    match VecOf(c, BundleOf(c, address + i * c.granul))
    case Some(v) => Some(Fold(c, v))
    case None => None
  }

  lemma BundleShift(c: MemoryConfig, address: nat, i: nat)
    requires ConfigOk(c)
    ensures BundleOf(c, address + i * c.granul) == BundleOf(c, address) + i
  {
    DivMod(address, c.granul);
    assert address + i * c.granul == (Div(address, c.granul) + i) * c.granul + Mod(address, c.granul);
    DivUnique(address + i * c.granul, c.granul, Div(address, c.granul) + i, Mod(address, c.granul));
  }

  /** The channel number a vector carries in its first two places. */
  function ChannelOf(w: DramVec): nat { 2 * w.pair + w.half }

  lemma FoldReads(c: MemoryConfig, v: AddrVec, w: DramVec)
    requires c.channels > 0 && v.channel < c.channels
    ensures Fold(c, v) == w <==>
      w.half < 2 && v == AddrVec(Div(ChannelOf(w), c.channels), Mod(ChannelOf(w), c.channels), w.rank, w.bankgroup, w.bank, w.row, w.col)
  {
    var x := c.channels * v.cube + v.channel;
    DivMod(x, 2);
    DivUnique(x, c.channels, v.cube, v.channel);
    if w.half < 2 { DivUnique(ChannelOf(w), 2, w.pair, w.half); }
    DivMod(ChannelOf(w), c.channels);
  }

  /** The vector of the simulator as a coordinate of the map. */
  function Unfolded(c: MemoryConfig, w: DramVec): AddrVec
    requires c.channels > 0
  {
    AddrVec(Div(ChannelOf(w), c.channels), Mod(ChannelOf(w), c.channels), w.rank, w.bankgroup, w.bank, w.row, w.col)
  }

  /** A coordinate reads back: it is that of bundle i of an object if and only if its
      digits are in bounds and make the number of the bundle, where cube and channel are
      the two digits of the channel number in its first two places. */
  lemma CoordinateReadsBack(c: MemoryConfig, a: nat, i: nat, w: DramVec)
    requires ConfigOk(c)
    ensures Coordinate(c, a, i) == Some(w) <==>
      var x := 2 * w.pair + w.half;
      var v := AddrVec(Div(x, c.channels), Mod(x, c.channels), w.rank, w.bankgroup, w.bank, w.row, w.col);
      w.half < 2 && InBounds(c, v) && BundleAt(c, v) == Div(a, c.granul) + i
  {
    var b, v := Div(a, c.granul) + i, Unfolded(c, w);
    BundleShift(c, a, i);
    MapIsMixedRadix(c, b, v);
    FoldReads(c, v, w);
    if VecOf(c, b).Some? {
      VecOfBundle(c, b);
      FoldReads(c, VecOf(c, b).value, w);
    }
  }

  /** The number of a coordinate, written out: cube fastest, row slowest. */
  lemma BundleNumber(c: MemoryConfig, v: AddrVec)
    ensures BundleAt(c, v) ==
      (((((v.row * c.cols + v.col) * c.banks + v.bank) * c.bankgroups + v.bankgroup) * c.ranks + v.rank) * c.channels + v.channel)
      * c.cubes + v.cube
  {
  }

  /** Distinct bundles below capacity never share a DRAM coordinate. */
  lemma CoordinateInjective(c: MemoryConfig, a: nat, i: nat, a': nat, i': nat)
    requires ConfigOk(c) && Coordinate(c, a, i).Some? && Coordinate(c, a, i) == Coordinate(c, a', i')
    ensures BundleOf(c, a) + i == BundleOf(c, a') + i'
  {
    BundleShift(c, a, i);
    BundleShift(c, a', i');
    var b, b' := BundleOf(c, a) + i, BundleOf(c, a') + i';
    FoldInjective(c, VecOf(c, b).value, VecOf(c, b').value);
    VecInjective(c, b, b');
  }

  // ----- The map of the logic units -----

  function LogicVecOf(c: MemoryConfig, b: nat): AddrVec
    requires ConfigOk(c)
  {
    var q1 := Div(b, c.logicCubes);
    var q2 := Div(q1, c.channels);
    var q3 := Div(q2, c.bankgroups);
    var q4 := Div(q3, 2);
    var q5 := Div(q4, c.cols);
    var q6 := Div(q5, c.rows);
    var q7 := Div(q6, 2);
    AddrVec(Mod(b, c.logicCubes), Mod(q1, c.channels), Mod(q7, c.ranks), Mod(q2, c.bankgroups), Mod(q6, 2) * 2 + Mod(q3, 2), Mod(q5, c.rows), Mod(q4, c.cols))
  }

  method AddrToVecLogic(c: MemoryConfig, address: nat) returns (v: AddrVec)
    requires ConfigOk(c)
    ensures v == LogicVecOf(c, BundleOf(c, address))
  {
    var a := Div(address, c.granul);
    var cube := Mod(a, c.logicCubes);
    a := Div(a, c.logicCubes);
    var channel := Mod(a, c.channels);
    a := Div(a, c.channels);
    var bankgroup := Mod(a, c.bankgroups);
    a := Div(a, c.bankgroups);
    var under := Mod(a, 2);
    a := Div(a, 2);
    var col := Mod(a, c.cols);
    a := Div(a, c.cols);
    var row := Mod(a, c.rows);
    a := Div(a, c.rows);
    var upper := Mod(a, 2);
    a := Div(a, 2);
    v := AddrVec(cube, channel, Mod(a, c.ranks), bankgroup, upper * 2 + under, row, col);
  }

  /** One step of rebuilding a number from its digits. */
  function Horner(high: nat, radix: nat, digit: nat): nat { high * radix + digit }

  lemma HornerStep(high: nat, radix: nat, digit: nat, x: nat)
    requires x == high * radix + digit
    ensures Horner(high, radix, digit) == x
  {
  }

  function LogicAddrOf(c: MemoryConfig, v: AddrVec): nat {
    var q6 := Horner(v.rank, 2, Div(v.bank, 2));
    var q5 := Horner(q6, c.rows, v.row);
    var q4 := Horner(q5, c.cols, v.col);
    var q3 := Horner(q4, 2, Mod(v.bank, 2));
    var q2 := Horner(q3, c.bankgroups, v.bankgroup);
    var q1 := Horner(q2, c.channels, v.channel);
    Horner(q1, c.cubes, v.cube) * c.granul
  }

  /** The inverse as it is computed: Horner steps on one accumulator. */
  method VecToAddrLogic(c: MemoryConfig, v: AddrVec) returns (address: nat)
    ensures address == LogicAddrOf(c, v)
  {
    address := 0;
    address := address + v.rank;
    address := address * 2;
    address := address + Div(v.bank, 2);
    address := address * c.rows;
    address := address + v.row;
    address := address * c.cols;
    address := address + v.col;
    address := address * 2;
    address := address + Mod(v.bank, 2);
    address := address * c.bankgroups;
    address := address + v.bankgroup;
    address := address * c.channels;
    address := address + v.channel;
    address := address * c.cubes;
    address := address + v.cube;
    address := address * c.granul;
  }

  function LogicCapacity(c: MemoryConfig): nat {
    c.ranks * 2 * c.rows * c.cols * 2 * c.bankgroups * c.channels * c.logicCubes
  }

  /** The decoder splits off the cube by `logicCubes`; the encoder puts it back by `cubes`. */
  lemma LogicHorner(c: MemoryConfig, b: nat)
    requires ConfigOk(c) && b < LogicCapacity(c)
    ensures LogicAddrOf(c, LogicVecOf(c, b)) == Horner(Div(b, c.logicCubes), c.cubes, Mod(b, c.logicCubes)) * c.granul
  {
    LogicParts(c, b);
  }

  lemma LogicTop(c: MemoryConfig, b: nat)
    requires ConfigOk(c) && b < LogicCapacity(c)
    ensures Div(Div(Div(Div(Div(Div(Div(b, c.logicCubes), c.channels), c.bankgroups), 2), c.cols), c.rows), 2) < c.ranks
  {
    var q1 := Div(b, c.logicCubes);
    var q2 := Div(q1, c.channels);
    var q3 := Div(q2, c.bankgroups);
    var q4 := Div(q3, 2);
    var q5 := Div(q4, c.cols);
    var q6 := Div(q5, c.rows);
    DivBelow(b, c.logicCubes, c.ranks * 2 * c.rows * c.cols * 2 * c.bankgroups * c.channels);
    DivBelow(q1, c.channels, c.ranks * 2 * c.rows * c.cols * 2 * c.bankgroups);
    DivBelow(q2, c.bankgroups, c.ranks * 2 * c.rows * c.cols * 2);
    DivBelow(q3, 2, c.ranks * 2 * c.rows * c.cols);
    DivBelow(q4, c.cols, c.ranks * 2 * c.rows);
    DivBelow(q5, c.rows, c.ranks * 2);
    DivBelow(q6, 2, c.ranks);
  }

  /** Every digit but the cube is in range, for two by two banks. */
  predicate UpperInRange(c: MemoryConfig, v: AddrVec) {
    && v.channel < c.channels && v.rank < c.ranks && v.bankgroup < c.bankgroups
    && v.bank < 4 && v.row < c.rows && v.col < c.cols
  }

  predicate InRange(c: MemoryConfig, v: AddrVec) { v.cube < c.cubes && UpperInRange(c, v) }

  /** Taking one digit off a number built by one Horner step. */
  lemma HornerDigit(high: nat, radix: nat, digit: nat)
    requires digit < radix
    ensures Div(Horner(high, radix, digit), radix) == high && Mod(Horner(high, radix, digit), radix) == digit
  {
    DivUnique(Horner(high, radix, digit), radix, high, digit);
  }

  lemma HalfOfBank(bank: nat)
    requires bank < 4
    ensures Div(bank, 2) < 2 && Div(bank, 2) * 2 + Mod(bank, 2) == bank
  {
    DivMod(bank, 2);
  }

  /** The number an in-range coordinate encodes above its cube. */
  function LogicUpper(c: MemoryConfig, v: AddrVec): nat {
    var q6 := Horner(v.rank, 2, Div(v.bank, 2));
    var q5 := Horner(q6, c.rows, v.row);
    var q4 := Horner(q5, c.cols, v.col);
    var q3 := Horner(q4, 2, Mod(v.bank, 2));
    var q2 := Horner(q3, c.bankgroups, v.bankgroup);
    Horner(q2, c.channels, v.channel)
  }

  /** The number of a coordinate whose cube is a digit to the logic cubes. */
  function LogicNumberOf(c: MemoryConfig, v: AddrVec): nat { Horner(LogicUpper(c, v), c.logicCubes, v.cube) }

  /** Decoding the number made of an upper part and a cube below the logic cubes. */
  lemma LogicDecode(c: MemoryConfig, v: AddrVec)
    requires ConfigOk(c) && UpperInRange(c, v) && v.cube < c.logicCubes
    ensures LogicVecOf(c, Horner(LogicUpper(c, v), c.logicCubes, v.cube)) == v
  {
    var q7, upper, under := v.rank, Div(v.bank, 2), Mod(v.bank, 2);
    HalfOfBank(v.bank);
    var q6 := Horner(q7, 2, upper);
    HornerDigit(q7, 2, upper);
    var q5 := Horner(q6, c.rows, v.row);
    HornerDigit(q6, c.rows, v.row);
    var q4 := Horner(q5, c.cols, v.col);
    HornerDigit(q5, c.cols, v.col);
    var q3 := Horner(q4, 2, under);
    HornerDigit(q4, 2, under);
    var q2 := Horner(q3, c.bankgroups, v.bankgroup);
    HornerDigit(q3, c.bankgroups, v.bankgroup);
    var q1 := Horner(q2, c.channels, v.channel);
    HornerDigit(q2, c.channels, v.channel);
    HornerDigit(q1, c.logicCubes, v.cube);
    DivUnique(q7, c.ranks, 0, q7);
  }

  /** x, t times m further on. */
  function Lift(t: nat, m: nat, x: nat): nat { t * m + x }

  lemma LiftDigit(x: nat, t: nat, m: nat, n: nat, mn: nat)
    requires n > 0 && mn == m * n
    ensures Div(Lift(t, mn, x), n) == Lift(t, m, Div(x, n)) && Mod(Lift(t, mn, x), n) == Mod(x, n)
  {
    DivMod(x, n);
    assert t * (m * n) + x == (t * m + Div(x, n)) * n + Mod(x, n);
    DivUnique(t * (m * n) + x, n, t * m + Div(x, n), Mod(x, n));
  }

  lemma LiftTop(x: nat, t: nat, n: nat)
    requires n > 0
    ensures Mod(Lift(t, n, x), n) == Mod(x, n)
  {
    LiftDigit(x, t, 1, n, n);
  }

  /** The logic map repeats after its capacity. */
  lemma LogicWraps(c: MemoryConfig, b: nat, t: nat)
    requires ConfigOk(c)
    ensures LogicVecOf(c, Lift(t, LogicCapacity(c), b)) == LogicVecOf(c, b)
  {
    var m6 := c.ranks * 2;
    var m5 := m6 * c.rows;
    var m4 := m5 * c.cols;
    LogicWrapsInner(c, b, t, m4);
  }

  lemma LogicWrapsInner(c: MemoryConfig, b: nat, t: nat, m4: nat)
    requires ConfigOk(c) && m4 == c.ranks * 2 * c.rows * c.cols
    ensures LogicVecOf(c, Lift(t, LogicCapacity(c), b)) == LogicVecOf(c, b)
  {
    var m3 := m4 * 2;
    var m2 := m3 * c.bankgroups;
    var m1 := m2 * c.channels;
    var x := Lift(t, LogicCapacity(c), b);
    var q1, p1 := Div(b, c.logicCubes), Div(x, c.logicCubes);
    assert p1 == Lift(t, m1, q1) && Mod(x, c.logicCubes) == Mod(b, c.logicCubes) by {
      LiftDigit(b, t, m1, c.logicCubes, LogicCapacity(c));
    }
    var q2, p2 := Div(q1, c.channels), Div(p1, c.channels);
    assert p2 == Lift(t, m2, q2) && Mod(p1, c.channels) == Mod(q1, c.channels) by { LiftDigit(q1, t, m2, c.channels, m1); }
    var q3, p3 := Div(q2, c.bankgroups), Div(p2, c.bankgroups);
    assert p3 == Lift(t, m3, q3) && Mod(p2, c.bankgroups) == Mod(q2, c.bankgroups) by {
      LiftDigit(q2, t, m3, c.bankgroups, m2);
    }
    var q4, p4 := Div(q3, 2), Div(p3, 2);
    assert p4 == Lift(t, m4, q4) && Mod(p3, 2) == Mod(q3, 2) by { LiftDigit(q3, t, m4, 2, m3); }
    UpperWraps(c, q4, t, m4);
  }

  lemma UpperWraps(c: MemoryConfig, q4: nat, t: nat, m4: nat)
    requires ConfigOk(c) && m4 == c.ranks * 2 * c.rows * c.cols
    ensures var p4 := Lift(t, m4, q4);
      && Mod(p4, c.cols) == Mod(q4, c.cols) && Mod(Div(p4, c.cols), c.rows) == Mod(Div(q4, c.cols), c.rows)
      && Mod(Div(Div(p4, c.cols), c.rows), 2) == Mod(Div(Div(q4, c.cols), c.rows), 2)
      && Mod(Div(Div(Div(p4, c.cols), c.rows), 2), c.ranks) == Mod(Div(Div(Div(q4, c.cols), c.rows), 2), c.ranks)
  {
    var m6 := c.ranks * 2;
    var m5 := m6 * c.rows;
    var q5 := Div(q4, c.cols);
    var q6 := Div(q5, c.rows);
    assert Div(Lift(t, m4, q4), c.cols) == Lift(t, m5, q5) && Mod(Lift(t, m4, q4), c.cols) == Mod(q4, c.cols) by {
      LiftDigit(q4, t, m5, c.cols, m4);
    }
    assert Div(Lift(t, m5, q5), c.rows) == Lift(t, m6, q6) && Mod(Lift(t, m5, q5), c.rows) == Mod(q5, c.rows) by {
      LiftDigit(q5, t, m6, c.rows, m5);
    }
    LiftDigit(q6, t, c.ranks, 2, m6);
    LiftTop(Div(q6, 2), t, c.ranks);
  }

  /** Below the capacity a bundle's coordinate holds its quotient and remainder by the
      logic cubes. */
  lemma LogicParts(c: MemoryConfig, b: nat)
    requires ConfigOk(c) && b < LogicCapacity(c)
    ensures var v := LogicVecOf(c, b); LogicUpper(c, v) == Div(b, c.logicCubes) && v.cube == Mod(b, c.logicCubes)
  {
    var q1 := Div(b, c.logicCubes);
    var q2 := Div(q1, c.channels);
    var q3 := Div(q2, c.bankgroups);
    var q4 := Div(q3, 2);
    var q5 := Div(q4, c.cols);
    var q6 := Div(q5, c.rows);
    var v := LogicVecOf(c, b);
    LogicTop(c, b);
    DivUnique(Div(q6, 2), c.ranks, 0, Div(q6, 2));
    DivUnique(v.bank, 2, Mod(q6, 2), Mod(q3, 2));
    DivMod(q6, 2);
    HornerStep(v.rank, 2, Div(v.bank, 2), q6);
    DivMod(q5, c.rows);
    HornerStep(q6, c.rows, v.row, q5);
    DivMod(q4, c.cols);
    HornerStep(q5, c.cols, v.col, q4);
    DivMod(q3, 2);
    HornerStep(q4, 2, Mod(v.bank, 2), q3);
    DivMod(q2, c.bankgroups);
    HornerStep(q3, c.bankgroups, v.bankgroup, q2);
    DivMod(q1, c.channels);
    HornerStep(q2, c.channels, v.channel, q1);
  }

  lemma LogicVecInRange(c: MemoryConfig, b: nat)
    requires ConfigOk(c)
    ensures UpperInRange(c, LogicVecOf(c, b)) && LogicVecOf(c, b).cube < c.logicCubes
  {
  }

  /** The logic map is the inverse of its mixed-radix number, up to its capacity. */
  lemma LogicMapIs(c: MemoryConfig, b: nat, v: AddrVec)
    requires ConfigOk(c)
    ensures LogicCapacity(c) > 0
    ensures LogicVecOf(c, b) == v <==>
      v.cube < c.logicCubes && UpperInRange(c, v) && LogicNumberOf(c, v) == Mod(b, LogicCapacity(c))
  {
    LogicSize(c);
    var rest := Mod(b, LogicCapacity(c));
    assert LogicVecOf(c, b) == LogicVecOf(c, rest) by {
      DivMod(b, LogicCapacity(c));
      assert b == Lift(Div(b, LogicCapacity(c)), LogicCapacity(c), rest);
      LogicWraps(c, rest, Div(b, LogicCapacity(c)));
    }
    LogicBelow(c, rest, v);
  }

  lemma LogicBelow(c: MemoryConfig, b: nat, v: AddrVec)
    requires ConfigOk(c) && b < LogicCapacity(c)
    ensures LogicVecOf(c, b) == v <==> v.cube < c.logicCubes && UpperInRange(c, v) && LogicNumberOf(c, v) == b
  {
    if LogicVecOf(c, b) == v {
      LogicVecInRange(c, b);
      LogicParts(c, b);
      DivMod(b, c.logicCubes);
    }
    if v.cube < c.logicCubes && UpperInRange(c, v) { LogicDecode(c, v); }
  }

  /** The coordinates of the logic map read back likewise, up to its capacity. */
  lemma LogicReadsBack(c: MemoryConfig, b: nat, w: DramVec)
    requires ConfigOk(c)
    ensures LogicCapacity(c) > 0
    ensures Fold(c, LogicVecOf(c, b)) == w <==>
      var x := 2 * w.pair + w.half;
      var v := AddrVec(Div(x, c.channels), Mod(x, c.channels), w.rank, w.bankgroup, w.bank, w.row, w.col);
      w.half < 2 && v.cube < c.logicCubes && UpperInRange(c, v) && LogicNumberOf(c, v) == Mod(b, LogicCapacity(c))
  {
    LogicMapIs(c, b, Unfolded(c, w));
    LogicVecInRange(c, b);
    FoldReads(c, LogicVecOf(c, b), w);
  }

  /** The number of a logic coordinate, written out: the lower bit of the bank stands
      above the bank group, the upper one above the row. */
  lemma LogicNumber(c: MemoryConfig, v: AddrVec)
    ensures LogicNumberOf(c, v) ==
      ((((((v.rank * 2 + Div(v.bank, 2)) * c.rows + v.row) * c.cols + v.col) * 2 + Mod(v.bank, 2)) * c.bankgroups + v.bankgroup)
       * c.channels + v.channel) * c.logicCubes + v.cube
  {
  }

  /** Decoding an encoded in-range coordinate gives it back if and only if its cube is a
      logic cube and the two numbers, made with either cube count, agree up to the
      capacity of the logic map. */
  lemma LogicRoundTripBack(c: MemoryConfig, v: AddrVec)
    requires ConfigOk(c) && InRange(c, v)
    ensures LogicCapacity(c) > 0
    ensures LogicVecOf(c, BundleOf(c, LogicAddrOf(c, v))) == v <==>
      (v.cube < c.logicCubes
       && Mod(Horner(LogicUpper(c, v), c.cubes, v.cube), LogicCapacity(c)) == LogicNumberOf(c, v))
  {
    LogicEncoded(c, v);
    LogicMapIs(c, Horner(LogicUpper(c, v), c.cubes, v.cube), v);
  }

  lemma LogicEncoded(c: MemoryConfig, v: AddrVec)
    requires ConfigOk(c)
    ensures BundleOf(c, LogicAddrOf(c, v)) == Horner(LogicUpper(c, v), c.cubes, v.cube)
  {
    Scaled(Horner(LogicUpper(c, v), c.cubes, v.cube), c.granul);
    assert LogicAddrOf(c, v) == Horner(LogicUpper(c, v), c.cubes, v.cube) * c.granul;
  }

  lemma Scaled(x: nat, n: nat)
    requires n > 0
    ensures Div(x * n, n) == x
  {
    DivUnique(x * n, n, x, 0);
  }

  lemma LogicSize(c: MemoryConfig)
    requires ConfigOk(c)
    ensures LogicCapacity(c) > 0
  {
    MulMono(1, c.rows, c.ranks * 2);
    MulMono(1, c.cols, c.ranks * 2 * c.rows);
    MulMono(1, c.bankgroups, c.ranks * 2 * c.rows * c.cols * 2);
    MulMono(1, c.channels, c.ranks * 2 * c.rows * c.cols * 2 * c.bankgroups);
    MulMono(1, c.logicCubes, c.ranks * 2 * c.rows * c.cols * 2 * c.bankgroups * c.channels);
  }

  /** While the encoded number stays below the capacity, that is when the cube counts
      agree, or nothing but the cube, below the logic cubes, is set. */
  lemma LogicRoundTripBackBelow(c: MemoryConfig, v: AddrVec)
    requires ConfigOk(c) && InRange(c, v) && Horner(LogicUpper(c, v), c.cubes, v.cube) < LogicCapacity(c)
    ensures LogicVecOf(c, BundleOf(c, LogicAddrOf(c, v))) == v <==>
      v.cube < c.logicCubes && (c.logicCubes == c.cubes || LogicUpper(c, v) == 0)
  {
    var b := Horner(LogicUpper(c, v), c.cubes, v.cube);
    assert Mod(b, LogicCapacity(c)) == b by { DivUnique(b, LogicCapacity(c), 0, b); }
    LogicRoundTripBack(c, v);
    HornerRadix(LogicUpper(c, v), c.cubes, c.logicCubes, v.cube);
  }

  /** The same digits in two radices. */
  lemma HornerRadix(high: nat, x: nat, y: nat, digit: nat)
    ensures Horner(high, x, digit) == Horner(high, y, digit) <==> x == y || high == 0
  {
    if high > 0 { ScaleInjective(x, y, high); }
  }

  /** With as many logic cubes as cubes, every in-range coordinate comes back. */
  lemma LogicRoundTripBackEqual(c: MemoryConfig, v: AddrVec)
    requires ConfigOk(c) && InRange(c, v) && c.logicCubes == c.cubes
    ensures LogicVecOf(c, BundleOf(c, LogicAddrOf(c, v))) == v
  {
    LogicEncoded(c, v);
    LogicDecode(c, v);
  }

  /** Above the capacity the encoded number can wrap around onto the same coordinate,
      although the cube counts differ and more than the cube is set: with three cubes
      and one logic cube, the coordinate half-way through the memory does. */
  lemma LogicWrapsOntoItself(c: MemoryConfig, v: AddrVec)
    requires ConfigOk(c) && InRange(c, v) && c.cubes == 3 && c.logicCubes == 1 && v.cube == 0
    requires LogicCapacity(c) == 2 * LogicUpper(c, v)
    ensures LogicUpper(c, v) > 0 && LogicVecOf(c, BundleOf(c, LogicAddrOf(c, v))) == v
  {
    var up := LogicUpper(c, v);
    LogicRoundTripBack(c, v);
    DivUnique(Horner(up, 3, 0), 2 * up, 1, up);
  }

  /** Encoding the coordinate of an address gives back the start of its bundle when
      decoder and encoder use the same number of cubes; otherwise only for the
      addresses of the first round over the logic cubes. */
  lemma LogicRoundTrip(c: MemoryConfig, address: nat)
    requires ConfigOk(c) && BundleOf(c, address) < LogicCapacity(c)
    ensures LogicAddrOf(c, LogicVecOf(c, BundleOf(c, address))) == address - Mod(address, c.granul)
            <==> c.logicCubes == c.cubes || BundleOf(c, address) < c.logicCubes
  {
    var b := BundleOf(c, address);
    var q := Div(b, c.logicCubes);
    LogicHorner(c, b);
    DivMod(address, c.granul);
    ScaleInjective(Horner(q, c.cubes, Mod(b, c.logicCubes)), b, c.granul);
    DivMod(b, c.logicCubes);
    DivBelow(b, c.logicCubes, 1);
    if q > 0 { ScaleInjective(c.cubes, c.logicCubes, q); }
  }

  lemma ScaleInjective(x: nat, y: nat, n: nat)
    requires n > 0
    ensures x * n == y * n <==> x == y
  {
    MulMono(x + 1, y, n);
    MulMono(y + 1, x, n);
  }

  // ----- The allocator -----

  datatype Tensor = Tensor(tag: string, size: nat)

  datatype MemoryObject = MemoryObject(address: nat, size: nat)

  predicate IsWeight(t: Tensor) { t.tag != "act" && t.tag != "cache" }

  function Bundles(c: MemoryConfig, o: MemoryObject): nat
    requires ConfigOk(c)
  {
    Div(o.size, c.granul)
  }

  /** Where the next weight tensor goes once t has been allocated. */
  function Bump(start: nat, t: Tensor): nat { if IsWeight(t) then start + t.size else start }

  /** The allocation of a list of tensors from `start` on: activations and caches
      stay at address 0, every other tensor goes behind the ones before it. */
  function Place(start: nat, ts: seq<Tensor>): (objects: seq<MemoryObject>)
    ensures |objects| == |ts|
    decreases |ts|
  {
    if ts == [] then []
    else [MemoryObject(if IsWeight(ts[0]) then start else 0, ts[0].size)] + Place(Bump(start, ts[0]), ts[1..])
  }

  function End(start: nat, ts: seq<Tensor>): nat
    decreases |ts|
  {
    if ts == [] then start else End(Bump(start, ts[0]), ts[1..])
  }

  /** The first allocation and the rest. */
  lemma PlaceHead(start: nat, ts: seq<Tensor>)
    requires ts != []
    ensures Place(start, ts) == [MemoryObject(if IsWeight(ts[0]) then start else 0, ts[0].size)] + Place(Bump(start, ts[0]), ts[1..])
    ensures End(start, ts) == End(Bump(start, ts[0]), ts[1..])
  {
  }

  class MMapController {
    const c: MemoryConfig
    var start: nat

    constructor (c: MemoryConfig)
      ensures this.c == c && start == 0
    {
      this.c := c;
      start := 0;
    }

    method SetNormal(t: Tensor) returns (o: MemoryObject)
      modifies this
      ensures start == Bump(old(start), t)
      ensures o == MemoryObject(if IsWeight(t) then old(start) else 0, t.size)
    {
      var address := start;
      if t.tag != "act" && t.tag != "cache" {
        start := start + t.size;
      } else {
        address := 0;
      }
      o := MemoryObject(address, t.size);
    }

    /** Any sequence of allocations. */
    method SetAll(ts: seq<Tensor>) returns (objects: seq<MemoryObject>)
      modifies this
      ensures objects == Place(old(start), ts) && start == End(old(start), ts)
    {
      objects := [];
      for i := 0 to |ts|
        invariant objects + Place(start, ts[i..]) == Place(old(start), ts)
        invariant End(start, ts[i..]) == End(old(start), ts)
      {
        PlaceHead(start, ts[i..]);
        assert ts[i..][1..] == ts[i + 1..];
        ghost var before := objects;
        var o := SetNormal(ts[i]);
        objects := objects + [o];
        assert objects + Place(start, ts[i + 1..]) == before + ([o] + Place(start, ts[i + 1..]));
      }
    }
  }

  lemma {:induction false} EndGrows(start: nat, ts: seq<Tensor>)
    ensures End(start, ts) >= start
    decreases |ts|
  {
    if ts != [] { EndGrows(Bump(start, ts[0]), ts[1..]); }
  }

  /** The bytes of the weights of a list. */
  function WeightBytes(ts: seq<Tensor>): nat {
    if ts == [] then 0 else WeightBytes(ts[..|ts| - 1]) + if ts[|ts| - 1].tag in {"act", "cache"} then 0 else ts[|ts| - 1].size
  }

  lemma {:induction false} BytesOfHead(ts: seq<Tensor>)
    requires ts != []
    ensures WeightBytes(ts) == WeightBytes(ts[..1]) + WeightBytes(ts[1..])
  {
    if |ts| > 1 {
      BytesOfHead(ts[..|ts| - 1]);
      assert ts[..|ts| - 1][..1] == ts[..1] && ts[..|ts| - 1][1..] == ts[1..][..|ts[1..]| - 1];
    }
  }

  /** Every tensor keeps its size; activations and caches stand at address 0, and every
      other tensor stands at the start plus the bytes of the weights before it. */
  lemma {:induction false} PlaceExact(start: nat, ts: seq<Tensor>, j: nat)
    requires j < |ts|
    ensures Place(start, ts)[j].size == ts[j].size
    ensures Place(start, ts)[j].address == if ts[j].tag in {"act", "cache"} then 0 else start + WeightBytes(ts[..j])
    ensures End(start, ts) == start + WeightBytes(ts)
    decreases |ts|
  {
    var next := Bump(start, ts[0]);
    assert ts[..1][..0] == [];
    BytesOfHead(ts);
    if j > 0 {
      PlaceExact(next, ts[1..], j - 1);
      BytesOfHead(ts[..j]);
      assert ts[..j][..1] == ts[..1] && ts[..j][1..] == ts[1..][..j - 1];
    } else if |ts| > 1 {
      PlaceExact(next, ts[1..], 0);
    }
  }

  /** Weight tensors lie between start and end, one behind the other. */
  lemma {:induction false} PlaceOrdered(start: nat, ts: seq<Tensor>, i: nat, j: nat)
    requires i < j < |ts| && IsWeight(ts[i]) && IsWeight(ts[j])
    ensures var o := Place(start, ts);
      start <= o[i].address && o[i].address + ts[i].size <= o[j].address && o[j].address + ts[j].size <= End(start, ts)
    ensures Place(start, ts)[i].size == ts[i].size && Place(start, ts)[j].size == ts[j].size
    decreases |ts|
  {
    var next := Bump(start, ts[0]);
    if i > 0 {
      PlaceOrdered(next, ts[1..], i - 1, j - 1);
    } else {
      PlaceLast(next, ts[1..], j - 1);
    }
  }

  lemma {:induction false} PlaceLast(start: nat, ts: seq<Tensor>, j: nat)
    requires j < |ts| && IsWeight(ts[j])
    ensures var o := Place(start, ts)[j]; start <= o.address && o.size == ts[j].size && o.address + o.size <= End(start, ts)
    decreases |ts|
  {
    var next := Bump(start, ts[0]);
    if j > 0 {
      PlaceLast(next, ts[1..], j - 1);
    } else {
      EndGrows(next, ts[1..]);
    }
  }

  /** Distinct weight tensors never share a DRAM coordinate, whatever their sizes and
      wherever the allocation begins, as long as it stays in capacity. */
  lemma WeightsDisjoint(c: MemoryConfig, start: nat, ts: seq<Tensor>, i: nat, j: nat, k: nat, l: nat)
    requires ConfigOk(c) && i < j < |ts| && IsWeight(ts[i]) && IsWeight(ts[j])
    requires End(start, ts) <= Capacity(c) * c.granul
    requires k < Bundles(c, Place(start, ts)[i]) && l < Bundles(c, Place(start, ts)[j])
    ensures var o := Place(start, ts);
      Coordinate(c, o[i].address, k).Some? && Coordinate(c, o[j].address, l).Some?
      && Coordinate(c, o[i].address, k) != Coordinate(c, o[j].address, l)
  {
    var o := Place(start, ts);
    PlaceOrdered(start, ts, i, j);
    InsideCapacity(c, o[i], k, End(start, ts));
    InsideCapacity(c, o[j], l, End(start, ts));
    BundlesBefore(c, o[i], o[j].address);
    SameCoordinate(c, o[i].address, k, o[j].address, l);
  }

  lemma SameCoordinate(c: MemoryConfig, a: nat, i: nat, a': nat, i': nat)
    requires ConfigOk(c) && Coordinate(c, a, i).Some?
    ensures Coordinate(c, a, i) == Coordinate(c, a', i') ==> BundleOf(c, a) + i == BundleOf(c, a') + i'
  {
    if Coordinate(c, a, i) == Coordinate(c, a', i') { CoordinateInjective(c, a, i, a', i'); }
  }

  lemma BundlesBefore(c: MemoryConfig, o: MemoryObject, next: nat)
    requires ConfigOk(c) && o.address + o.size <= next
    ensures BundleOf(c, o.address) + Bundles(c, o) <= BundleOf(c, next)
  {
    DivMod(o.address, c.granul);
    DivMod(o.size, c.granul);
    DivMod(next, c.granul);
    var x := Div(o.address, c.granul) + Div(o.size, c.granul);
    assert x * c.granul == Div(o.address, c.granul) * c.granul + Div(o.size, c.granul) * c.granul;
    MulMono(Div(next, c.granul) + 1, x, c.granul);
  }

  lemma InsideCapacity(c: MemoryConfig, o: MemoryObject, k: nat, end: nat)
    requires ConfigOk(c) && o.address + o.size <= end <= Capacity(c) * c.granul && k < Bundles(c, o)
    ensures Coordinate(c, o.address, k).Some?
  {
    var b := BundleOf(c, o.address) + k;
    assert b < Capacity(c) by {
      BundlesBefore(c, o, end);
      QuotientWithin(end, c.granul, Capacity(c));
    }
    BundleShift(c, o.address, k);
    assert VecOf(c, b).Some? by { CapacityExact(c, b); }
  }

  lemma QuotientWithin(x: nat, n: nat, m: nat)
    requires n > 0 && x <= m * n
    ensures Div(x, n) <= m
  {
    DivBelow(x, n, m + 1);
  }
}

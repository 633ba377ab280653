/** The command kernels: loops that walk the bundles of an operand and keep those
    whose DRAM coordinate passes a filter, and the closed-form count that is used
    in their place. */
module CommandKernels {
  import opened AddressMap
  import opened Quotients

  datatype Processor = NONE | PIM | LOGIC | GPU

  datatype Hardware = Hardware(processor: Processor, bandwidth: int)

  /** The filters: three of the near-bank units, one of the logic units, and the
      one of plain reads and writes, which looks at the channel pair only. */
  datatype Filter = X16 | X8 | X4 | Logic4 | Plain(logic: bool)

  predicate UsesLogicMap(f: Filter) { f == Logic4 || f == Plain(true) }

  predicate Picks(f: Filter, v: DramVec) {
    match f
    case X16 => v.pair == 0 && v.half == 0 && v.rank == 0 && v.bankgroup == 0 && v.bank == 0
    case X8 => v.pair == 0 && v.half == 0 && v.rank == 0 && v.bankgroup == 0 && Mod(v.bank, 2) == 0
    case X4 => v.pair == 0 && v.half == 0 && v.rank == 0 && v.bankgroup == 0
    case Logic4 => v.pair == 0 && v.half == 0 && Mod(v.bank, 2) == 0 && v.bankgroup == 0
    case Plain(_) => v.pair == 0
  }

  /** The coordinate of bundle number b under the filter's map. */
  function At(c: MemoryConfig, f: Filter, b: nat): Option<DramVec>
    requires ConfigOk(c)
  {
    if UsesLogicMap(f) then Some(Fold(c, LogicVecOf(c, b)))
    else match VecOf(c, b)
      case Some(v) => Some(Fold(c, v))
      case None => None
  }

  /** The commands for the first n bundles; none when one lies beyond the memory. */
  function Commands(c: MemoryConfig, f: Filter, address: nat, n: nat): Option<seq<DramVec>>
    requires ConfigOk(c)
  {
    if n == 0 then Some([])
    else match (Commands(c, f, address, n - 1), At(c, f, BundleOf(c, address) + (n - 1)))
      case (Some(cs), Some(v)) => Some(if Picks(f, v) then cs + [v] else cs)
      case _ => None
  }

  /** The coordinate lookup of a memory object, by processor type. */
  method GetAddrVec(c: MemoryConfig, o: MemoryObject, i: nat, logic: bool) returns (r: Option<DramVec>)
    requires ConfigOk(c)
    ensures r == At(c, Plain(logic), BundleOf(c, o.address) + i)
    ensures !logic ==> r == Coordinate(c, o.address, i)
    ensures logic ==> r == Some(Fold(c, LogicVecOf(c, Div(o.address, c.granul) + i)))
  {
    BundleShift(c, o.address, i);
    var found: Option<AddrVec>;
    if logic {
      var v := AddrToVecLogic(c, o.address + i * c.granul);
      found := Some(v);
    } else {
      found := AddrToVec(c, o.address + i * c.granul);
    }
    if found.None? { return None; }
    r := Some(Fold(c, found.value));
  }

  method Collect(c: MemoryConfig, f: Filter, o: MemoryObject) returns (r: Option<seq<DramVec>>)
    requires ConfigOk(c)
    ensures r == Commands(c, f, o.address, Bundles(c, o))
  {
    var cs := [];
    var i := 0;
    while i < Bundles(c, o)
      invariant i <= Bundles(c, o) && Commands(c, f, o.address, i) == Some(cs)
    {
      var v := GetAddrVec(c, o, i, UsesLogicMap(f));
      if v.None? {
        Stuck(c, f, o.address, i, Bundles(c, o));
        return None;
      }
      if Picks(f, v.value) { cs := cs + [v.value]; }
      i := i + 1;
    }
    r := Some(cs);
  }

  lemma {:induction false} Stuck(c: MemoryConfig, f: Filter, address: nat, i: nat, n: nat)
    requires ConfigOk(c) && i < n && At(c, f, BundleOf(c, address) + i).None?
    ensures Commands(c, f, address, n).None?
  {
    if i + 1 < n { Stuck(c, f, address, i, n - 1); }
  }

  // ----- Which bundles a filter picks -----

  function Base(c: MemoryConfig): nat { c.cubes * c.channels * c.ranks * c.bankgroups }

  function LogicBase(c: MemoryConfig): nat { c.logicCubes * c.channels * c.bankgroups }

  function Period(c: MemoryConfig, f: Filter): nat
    requires !f.Plain?
  {
    match f
    case X16 => Base(c) * c.banks
    case X8 => Base(c) * 2
    case X4 => Base(c)
    case Logic4 => LogicBase(c) * 2
  }

  /** The digits below the bank are zero exactly on the multiples of their product. */
  lemma BaseDigits(c: MemoryConfig, b: nat)
    requires ConfigOk(c)
    ensures Base(c) > 0
    ensures Div(Div(Div(Div(b, c.cubes), c.channels), c.ranks), c.bankgroups) == Div(b, Base(c))
    ensures Mod(b, Base(c)) == 0 <==>
      Mod(b, c.cubes) == 0 && Mod(Div(b, c.cubes), c.channels) == 0 && Mod(Div(Div(b, c.cubes), c.channels), c.ranks) == 0
      && Mod(Div(Div(Div(b, c.cubes), c.channels), c.ranks), c.bankgroups) == 0
  {
    DivDiv(b, c.cubes, c.channels);
    ModProduct(b, c.cubes, c.channels);
    DivDiv(b, c.cubes * c.channels, c.ranks);
    ModProduct(b, c.cubes * c.channels, c.ranks);
    DivDiv(b, c.cubes * c.channels * c.ranks, c.bankgroups);
    ModProduct(b, c.cubes * c.channels * c.ranks, c.bankgroups);
  }

  lemma LogicBaseDigits(c: MemoryConfig, b: nat)
    requires ConfigOk(c)
    ensures LogicBase(c) > 0
    ensures Div(Div(Div(b, c.logicCubes), c.channels), c.bankgroups) == Div(b, LogicBase(c))
    ensures Mod(b, LogicBase(c)) == 0 <==>
      Mod(b, c.logicCubes) == 0 && Mod(Div(b, c.logicCubes), c.channels) == 0
      && Mod(Div(Div(b, c.logicCubes), c.channels), c.bankgroups) == 0
  {
    DivDiv(b, c.logicCubes, c.channels);
    ModProduct(b, c.logicCubes, c.channels);
    DivDiv(b, c.logicCubes * c.channels, c.bankgroups);
    ModProduct(b, c.logicCubes * c.channels, c.bankgroups);
  }

  /** The folded channel is zero exactly when cube and channel are, and its pair is
      zero exactly on the first two channels of cube 0. */
  lemma FoldedZero(c: MemoryConfig, v: AddrVec)
    requires c.channels > 0
    ensures Fold(c, v).pair == 0 && Fold(c, v).half == 0 <==> v.cube == 0 && v.channel == 0
    ensures c.channels >= 2 ==> (Fold(c, v).pair == 0 <==> v.cube == 0 && v.channel < 2)
  {
    var x := c.channels * v.cube + v.channel;
    DivMod(x, 2);
    DivBelow(x, 2, 1);
    MulMono(1, v.cube, c.channels);
  }

  /** An even radix keeps parity in its digit. */
  lemma EvenDigit(x: nat, n: nat)
    requires n > 0 && Mod(n, 2) == 0
    ensures Mod(Mod(x, n), 2) == 0 <==> Mod(x, 2) == 0
  {
    var h, m := Div(n, 2), Mod(x, n);
    DivMod(n, 2);
    DivMod(x, n);
    DivMod(m, 2);
    assert x == Div(x, n) * (h * 2) + m == (Div(x, n) * h + Div(m, 2)) * 2 + Mod(m, 2);
    DivUnique(x, 2, Div(x, n) * h + Div(m, 2), Mod(m, 2));
  }

  /** With an odd number of banks the x8 filter follows the parity of the bank, not
      of the bundle. */
  predicate Regular(c: MemoryConfig, f: Filter) { !f.Plain? && (f == X8 ==> Mod(c.banks, 2) == 0) }

  lemma PickedBank(c: MemoryConfig, f: Filter, b: nat)
    requires ConfigOk(c) && b < Capacity(c) && (f == X16 || f == X8 || f == X4)
    ensures At(c, f, b).Some? && Base(c) > 0
    ensures Picks(f, At(c, f, b).value) <==>
      (Mod(b, Base(c)) == 0
       && (f == X16 ==> Mod(Div(b, Base(c)), c.banks) == 0)
       && (f == X8 ==> Mod(Mod(Div(b, Base(c)), c.banks), 2) == 0))
  {
    CapacityExact(c, b);
    BaseDigits(c, b);
    FoldedZero(c, VecOf(c, b).value);
  }

  lemma PickedLogic(c: MemoryConfig, b: nat)
    requires ConfigOk(c)
    ensures Period(c, Logic4) > 0 && (Picks(Logic4, At(c, Logic4, b).value) <==> Mod(b, Period(c, Logic4)) == 0)
  {
    var v := LogicVecOf(c, b);
    LogicBaseDigits(c, b);
    FoldedZero(c, v);
    var q3 := Div(b, LogicBase(c));
    var upper := Div(Div(Div(q3, 2), c.cols), c.rows);
    DivUnique(v.bank, 2, Mod(upper, 2), Mod(q3, 2));
    ModProduct(b, LogicBase(c), 2);
  }

  /** The filter picks exactly the multiples of its period. */
  lemma PickedExactly(c: MemoryConfig, f: Filter, b: nat)
    requires ConfigOk(c) && Regular(c, f) && (f == Logic4 || b < Capacity(c))
    ensures Period(c, f) > 0 && At(c, f, b).Some?
    ensures Picks(f, At(c, f, b).value) <==> Mod(b, Period(c, f)) == 0
  {
    if f == Logic4 {
      PickedLogic(c, b);
    } else {
      PickedBank(c, f, b);
      if f == X16 { ModProduct(b, Base(c), c.banks); }
      if f == X8 {
        EvenDigit(Div(b, Base(c)), c.banks);
        ModProduct(b, Base(c), 2);
      }
    }
  }

  predicate X8Follows(c: MemoryConfig, b: nat)
    requires ConfigOk(c) && b < Capacity(c)
  {
    At(c, X8, b).Some? && Base(c) > 0 && (Picks(X8, At(c, X8, b).value) <==> Mod(b, Base(c) * 2) == 0)
  }

  /** The x8 filter picks the multiples of twice the base throughout the memory if
      and only if the number of banks is even or every bank is a single column. */
  lemma X8Exact(c: MemoryConfig)
    requires ConfigOk(c)
    ensures (forall b: nat | b < Capacity(c) :: X8Follows(c, b)) <==> Mod(c.banks, 2) == 0 || c.rows * c.cols == 1
  {
    BaseDigits(c, 0);
    CapacityFactors(c);
    if Mod(c.banks, 2) == 0 || c.rows * c.cols == 1 {
      forall b: nat | b < Capacity(c) ensures X8Follows(c, b) {
        if Mod(c.banks, 2) == 0 {
          PickedExactly(c, X8, b);
        } else {
          X8SingleColumn(c, b);
        }
      }
    } else {
      X8OddBanks(c);
    }
  }

  lemma CapacityFactors(c: MemoryConfig)
    ensures Capacity(c) == c.rows * c.cols * (c.banks * Base(c))
  {
    var x, y, z := c.banks * c.bankgroups, c.ranks * c.channels, c.rows * c.cols;
    assert Base(c) == c.cubes * c.channels * (c.ranks * c.bankgroups);
    assert c.banks * Base(c) == x * y * c.cubes;
    assert z * c.banks * c.bankgroups == z * x;
    assert z * x * c.ranks * c.channels == z * x * y;
    assert z * x * y * c.cubes == z * (x * y * c.cubes);
  }

  lemma X8SingleColumn(c: MemoryConfig, b: nat)
    requires ConfigOk(c) && b < Capacity(c) && c.rows * c.cols == 1
    ensures X8Follows(c, b)
  {
    CapacityFactors(c);
    PickedBank(c, X8, b);
    DivBelow(b, Base(c), c.banks);
    var q := Div(b, Base(c));
    DivUnique(q, c.banks, 0, q);
    ModProduct(b, Base(c), 2);
  }

  lemma X8OddBanks(c: MemoryConfig)
    requires ConfigOk(c) && Mod(c.banks, 2) != 0 && c.rows * c.cols != 1
    ensures c.banks * Base(c) < Capacity(c) && !X8Follows(c, c.banks * Base(c))
  {
    var b := c.banks * Base(c);
    CapacityFactors(c);
    BaseDigits(c, 0);
    MulMono(1, c.banks, Base(c));
    MulMono(1, c.cols, c.rows);
    MulMono(2, c.rows * c.cols, b);
    assert b < Capacity(c);
    PickedBank(c, X8, b);
    DivUnique(b, Base(c), c.banks, 0);
    DivUnique(c.banks, c.banks, 1, 0);
    ModProduct(b, Base(c), 2);
  }

  // ----- The commands of a whole operand -----

  predicate Fits(c: MemoryConfig, f: Filter, b: nat, n: nat) {
    UsesLogicMap(f) || n == 0 || b + n <= Capacity(c)
  }

  lemma {:induction false} CommandsDefined(c: MemoryConfig, f: Filter, address: nat, n: nat)
    requires ConfigOk(c)
    ensures Commands(c, f, address, n).Some? <==> Fits(c, f, BundleOf(c, address), n)
  {
    if n > 0 {
      CommandsDefined(c, f, address, n - 1);
      CapacityExact(c, BundleOf(c, address) + (n - 1));
    }
  }

  function Times(k: nat, p: nat): nat { k * p }

  /** Command number k stands for the k-th multiple of the period from bundle b on. */
  predicate IsSweep(c: MemoryConfig, f: Filter, b: nat, n: nat, cs: seq<DramVec>)
    requires ConfigOk(c) && !f.Plain? && Period(c, f) > 0
  {
    && |cs| == Ceil(b + n, Period(c, f)) - Ceil(b, Period(c, f))
    && forall k: nat | k < |cs| :: At(c, f, Times(Ceil(b, Period(c, f)) + k, Period(c, f))) == Some(cs[k])
  }

  /** A GEMV emits one command for every multiple of the period among its bundles,
      in order, and nothing else; it fails exactly when a bundle is out of the memory. */
  lemma {:induction false} GemvSweeps(c: MemoryConfig, f: Filter, address: nat, n: nat)
    requires ConfigOk(c) && Regular(c, f)
    ensures Period(c, f) > 0
    ensures Commands(c, f, address, n).Some? <==> Fits(c, f, BundleOf(c, address), n)
    ensures Commands(c, f, address, n).Some? ==> IsSweep(c, f, BundleOf(c, address), n, Commands(c, f, address, n).value)
  {
    var b := BundleOf(c, address);
    PeriodPositive(c, f);
    CommandsDefined(c, f, address, n);
    if n > 0 && Commands(c, f, address, n).Some? {
      GemvSweeps(c, f, address, n - 1);
      PickedExactly(c, f, b + (n - 1));
      SweepStep(c, f, b, n - 1, Commands(c, f, address, n - 1).value);
    }
  }

  lemma PeriodPositive(c: MemoryConfig, f: Filter)
    requires ConfigOk(c) && !f.Plain?
    ensures Period(c, f) > 0
  {
    BaseDigits(c, 0);
    LogicBaseDigits(c, 0);
    MulMono(1, c.banks, Base(c));
  }

  lemma SweepStep(c: MemoryConfig, f: Filter, b: nat, n: nat, cs: seq<DramVec>)
    requires ConfigOk(c) && !f.Plain? && Period(c, f) > 0 && IsSweep(c, f, b, n, cs)
    requires At(c, f, b + n).Some?
    ensures IsSweep(c, f, b, n + 1, if Mod(b + n, Period(c, f)) == 0 then cs + [At(c, f, b + n).value] else cs)
  {
    CeilStep(b + n, Period(c, f));
  }

  /** From address 0 the number of commands is the bundles over the period, rounded up. */
  lemma GemvCountFromZero(c: MemoryConfig, f: Filter, n: nat)
    requires ConfigOk(c) && Regular(c, f) && Fits(c, f, 0, n)
    ensures Period(c, f) > 0 && Commands(c, f, 0, n).Some? && |Commands(c, f, 0, n).value| == Ceil(n, Period(c, f))
  {
    var zero: nat := 0;
    DivUnique(zero, c.granul, 0, 0);
    GemvSweeps(c, f, zero, n);
    DivUnique(Period(c, f) - 1, Period(c, f), 0, Period(c, f) - 1);
  }

  /** The logic map tells the bundles below its capacity apart, whatever the cube counts. */
  lemma LogicVecInjective(c: MemoryConfig, x: nat, y: nat)
    requires ConfigOk(c) && x < LogicCapacity(c) && y < LogicCapacity(c) && LogicVecOf(c, x) == LogicVecOf(c, y)
    ensures x == y
  {
    LogicParts(c, x);
    LogicParts(c, y);
    DivMod(x, c.logicCubes);
    DivMod(y, c.logicCubes);
  }

  /** Bundles on which the filter's map is one to one. */
  predicate InMap(c: MemoryConfig, f: Filter, b: nat) { UsesLogicMap(f) ==> b < LogicCapacity(c) }

  lemma AtInjective(c: MemoryConfig, f: Filter, x: nat, y: nat)
    requires ConfigOk(c) && InMap(c, f, x) && InMap(c, f, y) && At(c, f, x).Some? && At(c, f, x) == At(c, f, y)
    ensures x == y
  {
    if UsesLogicMap(f) {
      FoldInjective(c, LogicVecOf(c, x), LogicVecOf(c, y));
      LogicVecInjective(c, x, y);
    } else {
      FoldInjective(c, VecOf(c, x).value, VecOf(c, y).value);
      VecInjective(c, x, y);
    }
  }

  /** Every command is that of one of the bundles. */
  lemma {:induction false} CommandOrigin(c: MemoryConfig, f: Filter, address: nat, n: nat, i: nat) returns (k: nat)
    requires ConfigOk(c) && Commands(c, f, address, n).Some? && i < |Commands(c, f, address, n).value|
    ensures k < n && At(c, f, BundleOf(c, address) + k) == Some(Commands(c, f, address, n).value[i])
    decreases n
  {
    k := n - 1;
    if i < |Commands(c, f, address, n - 1).value| { k := CommandOrigin(c, f, address, n - 1, i); }
  }

  /** No command is emitted twice, by any filter, as long as a logic map does not wrap. */
  lemma {:induction false} CommandsDistinct(c: MemoryConfig, f: Filter, address: nat, n: nat, i: nat, j: nat)
    requires ConfigOk(c) && Commands(c, f, address, n).Some? && i < j < |Commands(c, f, address, n).value|
    requires UsesLogicMap(f) ==> BundleOf(c, address) + n <= LogicCapacity(c)
    ensures Commands(c, f, address, n).value[i] != Commands(c, f, address, n).value[j]
    decreases n
  {
    if j < |Commands(c, f, address, n - 1).value| {
      CommandsDistinct(c, f, address, n - 1, i, j);
    } else {
      var b := BundleOf(c, address);
      var k := CommandOrigin(c, f, address, n - 1, i);
      if At(c, f, b + k) == At(c, f, b + (n - 1)) { AtInjective(c, f, b + k, b + (n - 1)); }
    }
  }

  predicate Within(a: seq<DramVec>, b: seq<DramVec>) { forall v :: v in a ==> v in b }

  /** Every x16 command is an x8 command, and every x8 command an x4 command. */
  lemma {:induction false} WiderLanesDoLess(c: MemoryConfig, address: nat, n: nat)
    requires ConfigOk(c) && Fits(c, X4, BundleOf(c, address), n)
    ensures Commands(c, X16, address, n).Some? && Commands(c, X8, address, n).Some? && Commands(c, X4, address, n).Some?
    ensures Within(Commands(c, X16, address, n).value, Commands(c, X8, address, n).value)
    ensures Within(Commands(c, X8, address, n).value, Commands(c, X4, address, n).value)
  {
    CommandsDefined(c, X16, address, n);
    CommandsDefined(c, X8, address, n);
    CommandsDefined(c, X4, address, n);
    if n > 0 {
      WiderLanesDoLess(c, address, n - 1);
      if At(c, X16, BundleOf(c, address) + (n - 1)).value.bank == 0 {
        DivUnique(0, 2, 0, 0);
      }
    }
  }

  // ----- The closed-form count of reads and writes -----

  /** How many of the first r bundles of cube 0 fall on channels 0 and 1. */
  function OnFirstPair(r: nat, channels: nat): nat
    requires channels > 0
  {
    2 * Div(r, channels) + (if Mod(r, channels) < 2 then Mod(r, channels) else 2)
  }

  lemma OnFirstPairStep(r: nat, channels: nat)
    requires channels >= 2
    ensures OnFirstPair(r + 1, channels) == OnFirstPair(r, channels) + (if Mod(r, channels) < 2 then 1 else 0)
  {
    var q, m := Div(r, channels), Mod(r, channels);
    DivMod(r, channels);
    if m + 1 < channels {
      DivUnique(r + 1, channels, q, m + 1);
    } else {
      DivUnique(r + 1, channels, q + 1, 0);
    }
  }

  /** The cubes a map goes round first. */
  function CubesOf(c: MemoryConfig, logic: bool): nat { if logic then c.logicCubes else c.cubes }

  lemma PlainPicks(c: MemoryConfig, logic: bool, b: nat)
    requires ConfigOk(c) && c.channels >= 2 && (logic || b < Capacity(c))
    ensures At(c, Plain(logic), b).Some?
    ensures Picks(Plain(logic), At(c, Plain(logic), b).value)
            <==> Mod(b, CubesOf(c, logic)) == 0 && Mod(Div(b, CubesOf(c, logic)), c.channels) < 2
  {
    if logic {
      FoldedZero(c, LogicVecOf(c, b));
    } else {
      CapacityExact(c, b);
      FoldedZero(c, VecOf(c, b).value);
    }
  }

  /** The number of commands a read or a write of n bundles enumerates, from any
      address and under either map: the share of cube 0 before the end less the share
      before the start. */
  lemma {:induction false} PlainCount(c: MemoryConfig, logic: bool, address: nat, n: nat)
    requires ConfigOk(c) && c.channels >= 2 && Fits(c, Plain(logic), BundleOf(c, address), n)
    ensures Commands(c, Plain(logic), address, n).Some?
    ensures var b, cubes := BundleOf(c, address), CubesOf(c, logic);
      |Commands(c, Plain(logic), address, n).value| + OnFirstPair(Ceil(b, cubes), c.channels)
      == OnFirstPair(Ceil(b + n, cubes), c.channels)
  {
    if n > 0 {
      var x, cubes := BundleOf(c, address) + (n - 1), CubesOf(c, logic);
      PlainCount(c, logic, address, n - 1);
      PlainPicks(c, logic, x);
      CeilStep(x, cubes);
      if Mod(x, cubes) == 0 {
        DivUnique(x, cubes, Ceil(x, cubes), 0);
        OnFirstPairStep(Ceil(x, cubes), c.channels);
      }
    }
  }

  /** The first two channels take what is left in turn: channel 0 a rounded-up share of
      r, channel 1 one of the rest. */
  lemma PairIsTwoShares(r: nat, channels: nat)
    requires channels >= 2
    ensures OnFirstPair(r, channels) == Ceil(r, channels) + Div(r + channels - 2, channels)
  {
    var q, m := Div(r, channels), Mod(r, channels);
    DivMod(r, channels);
    CeilCases(r, channels);
    if m < 2 {
      DivUnique(r + channels - 2, channels, q, channels - 2 + m);
    } else {
      DivUnique(r + channels - 2, channels, q + 1, m - 2);
    }
  }

  // ----- The kernels -----

  /** Vector w is the coordinate of bundle i of an object, under the map of the processor. */
  predicate Names(c: MemoryConfig, logic: bool, address: nat, i: nat, w: DramVec)
    requires ConfigOk(c)
  {
    if logic then w == Fold(c, LogicVecOf(c, Div(address, c.granul) + i)) else Coordinate(c, address, i) == Some(w)
  }

  /** Vector w is the coordinate of one of the whole bundles of an object. */
  predicate BelongsTo(c: MemoryConfig, logic: bool, o: MemoryObject, w: DramVec)
    requires ConfigOk(c)
  {
    exists i: nat | i < Div(o.size, c.granul) :: Names(c, logic, o.address, i, w)
  }

  /** The commands sweep an object: command number k is that of the k-th multiple of the
      period among its bundles, and there is one for each of them. */
  ghost predicate Sweeps(c: MemoryConfig, logic: bool, period: int, o: MemoryObject, cs: seq<DramVec>)
    requires ConfigOk(c)
  {
    var (b, n) := (Div(o.address, c.granul), Div(o.size, c.granul));
    && period > 0 && |cs| == Ceil(b + n, period) - Ceil(b, period)
    && forall k: nat | k < |cs| :: Names(c, logic, 0, Times(Ceil(b, period) + k, period), cs[k])
  }

  /** The first place of a command lies on channel 0 of cube 0, in bank group 0. */
  predicate AtOrigin(w: DramVec) { w.pair == 0 && w.half == 0 && w.bankgroup == 0 }

  lemma NamesAt(c: MemoryConfig, f: Filter, address: nat, i: nat, w: DramVec)
    requires ConfigOk(c)
    ensures Names(c, UsesLogicMap(f), address, i, w) <==> At(c, f, BundleOf(c, address) + i) == Some(w)
  {
    BundleShift(c, address, i);
  }

  /** The commands are the coordinates of the bundles that pass the filter. */
  lemma {:induction false} CommandsAre(c: MemoryConfig, f: Filter, address: nat, n: nat, w: DramVec)
    requires ConfigOk(c) && Commands(c, f, address, n).Some?
    ensures w in Commands(c, f, address, n).value <==>
      Picks(f, w) && exists i: nat | i < n :: Names(c, UsesLogicMap(f), address, i, w)
  {
    if n > 0 {
      CommandsAre(c, f, address, n - 1, w);
      NamesAt(c, f, address, n - 1, w);
    }
  }

  /** What the commands of one filter come to for a whole object. */
  lemma CollectedIs(c: MemoryConfig, f: Filter, o: MemoryObject, r: Option<seq<DramVec>>)
    requires ConfigOk(c) && r == Commands(c, f, o.address, Bundles(c, o))
    ensures r.None? <==> !UsesLogicMap(f) && Bundles(c, o) > 0 && Div(o.address, c.granul) + Bundles(c, o) > Capacity(c)
    ensures r.Some? ==> forall w :: w in r.value <==> Picks(f, w) && BelongsTo(c, UsesLogicMap(f), o, w)
    ensures r.Some? && Regular(c, f) ==> Period(c, f) > 0 && Sweeps(c, UsesLogicMap(f), Period(c, f), o, r.value)
  {
    CommandsDefined(c, f, o.address, Bundles(c, o));
    if r.Some? {
      forall w ensures w in r.value <==> Picks(f, w) && BelongsTo(c, UsesLogicMap(f), o, w) {
        CommandsAre(c, f, o.address, Bundles(c, o), w);
      }
      if Regular(c, f) { SweepOf(c, f, o, r.value); }
    }
  }

  lemma SweepOf(c: MemoryConfig, f: Filter, o: MemoryObject, cs: seq<DramVec>)
    requires ConfigOk(c) && Regular(c, f) && Commands(c, f, o.address, Bundles(c, o)) == Some(cs)
    ensures Period(c, f) > 0 && Sweeps(c, UsesLogicMap(f), Period(c, f), o, cs)
  {
    GemvSweeps(c, f, o.address, Bundles(c, o));
    var b, zero: nat := Div(o.address, c.granul), 0;
    DivUnique(zero, c.granul, 0, 0);
    forall k: nat | k < |cs| ensures Names(c, UsesLogicMap(f), 0, Times(Ceil(b, Period(c, f)) + k, Period(c, f)), cs[k]) {
      NamesAt(c, f, zero, Times(Ceil(b, Period(c, f)) + k, Period(c, f)), cs[k]);
    }
  }

  /** The products the periods stand for. */
  lemma Periods(c: MemoryConfig)
    ensures Period(c, X16) == c.cubes * c.channels * c.ranks * c.bankgroups * c.banks
    ensures Period(c, X8) == c.cubes * c.channels * c.ranks * c.bankgroups * 2
    ensures Period(c, X4) == c.cubes * c.channels * c.ranks * c.bankgroups
    ensures Period(c, Logic4) == c.logicCubes * c.channels * c.bankgroups * 2
  {
  }

  /** The processors and bandwidths a GEMV is refused for. */
  predicate Refused(hw: Hardware) {
    (hw.processor == PIM && hw.bandwidth != 4 && hw.bandwidth != 8 && hw.bandwidth != 16)
    || (hw.processor == LOGIC && hw.bandwidth != 4)
  }

  /** A GEMV fails on other than one operand, on a bandwidth it does not know, and on a
      near-bank operand beyond the memory. It does nothing on other processors. Else its
      commands are the bundles of the operand at the origin: of bank 0 with 16 lanes, of
      the even banks with 8, of all banks with 4, each on rank 0; on the logic units those
      of the even banks on every rank. There is one for every multiple of the product. */
  method Gemv(c: MemoryConfig, hw: Hardware, operands: seq<MemoryObject>) returns (r: Option<seq<DramVec>>)
    requires ConfigOk(c)
    ensures |operands| != 1 || Refused(hw) ==> r == None
    ensures |operands| == 1 && hw.processor != PIM && hw.processor != LOGIC ==> r == Some([])
    ensures |operands| == 1 && hw == Hardware(PIM, 16) ==> r == Commands(c, X16, operands[0].address, Bundles(c, operands[0]))
    ensures |operands| == 1 && hw == Hardware(PIM, 8) ==> r == Commands(c, X8, operands[0].address, Bundles(c, operands[0]))
    ensures |operands| == 1 && hw == Hardware(PIM, 4) ==> r == Commands(c, X4, operands[0].address, Bundles(c, operands[0]))
    ensures |operands| == 1 && hw == Hardware(LOGIC, 4) ==> r == Commands(c, Logic4, operands[0].address, Bundles(c, operands[0]))
    ensures |operands| == 1 && hw == Hardware(LOGIC, 4) ==> r.Some?
    ensures |operands| == 1 && hw.processor == PIM && !Refused(hw) ==>
      var (b, n) := (Div(operands[0].address, c.granul), Div(operands[0].size, c.granul));
      r.None? <==> n > 0 && b + n > c.rows * c.cols * c.banks * c.bankgroups * c.ranks * c.channels * c.cubes
    ensures r.Some? && hw == Hardware(PIM, 16) ==>
      && (forall w :: w in r.value <==> BelongsTo(c, false, operands[0], w) && AtOrigin(w) && w.rank == 0 && w.bank == 0)
      && Sweeps(c, false, c.cubes * c.channels * c.ranks * c.bankgroups * c.banks, operands[0], r.value)
    ensures r.Some? && hw == Hardware(PIM, 8) ==>
      && (forall w :: w in r.value <==> BelongsTo(c, false, operands[0], w) && AtOrigin(w) && w.rank == 0 && Mod(w.bank, 2) == 0)
      && (Mod(c.banks, 2) == 0 ==> Sweeps(c, false, c.cubes * c.channels * c.ranks * c.bankgroups * 2, operands[0], r.value))
    ensures r.Some? && hw == Hardware(PIM, 4) ==>
      && (forall w :: w in r.value <==> BelongsTo(c, false, operands[0], w) && AtOrigin(w) && w.rank == 0)
      && Sweeps(c, false, c.cubes * c.channels * c.ranks * c.bankgroups, operands[0], r.value)
    ensures r.Some? && hw == Hardware(LOGIC, 4) ==>
      && (forall w :: w in r.value <==> BelongsTo(c, true, operands[0], w) && AtOrigin(w) && Mod(w.bank, 2) == 0)
      && Sweeps(c, true, c.logicCubes * c.channels * c.bankgroups * 2, operands[0], r.value)
  {
    if |operands| != 1 { return None; }
    r := Some([]);
    Periods(c);
    if hw.processor == PIM {
      if hw.bandwidth == 16 {
        r := Collect(c, X16, operands[0]);
        CollectedIs(c, X16, operands[0], r);
      } else if hw.bandwidth == 8 {
        r := Collect(c, X8, operands[0]);
        CollectedIs(c, X8, operands[0], r);
      } else if hw.bandwidth == 4 {
        r := Collect(c, X4, operands[0]);
        CollectedIs(c, X4, operands[0], r);
      } else {
        r := None;
      }
    } else if hw.processor == LOGIC {
      if hw.bandwidth == 4 {
        r := Collect(c, Logic4, operands[0]);
        CollectedIs(c, Logic4, operands[0], r);
      } else {
        r := None;
      }
    }
  }

  /** A read or write emits the bundles of channel pair 0, the first two channels of cube
      0: with two channels or more, from address 0, a rounded-up share of the bundles of
      cube 0 for the first channel and one of the rest for the second. */
  method ReadOrWrite(c: MemoryConfig, hw: Hardware, operands: seq<MemoryObject>) returns (r: Option<seq<DramVec>>)
    requires ConfigOk(c)
    ensures |operands| != 1 ==> r == None
    ensures |operands| == 1 ==>
      r == Commands(c, Plain(hw.processor == LOGIC), operands[0].address, Bundles(c, operands[0]))
    ensures |operands| == 1 ==>
      var (b, n) := (Div(operands[0].address, c.granul), Div(operands[0].size, c.granul));
      r.None? <==> hw.processor != LOGIC && n > 0
                   && b + n > c.rows * c.cols * c.banks * c.bankgroups * c.ranks * c.channels * c.cubes
    ensures r.Some? ==> forall w :: w in r.value <==> BelongsTo(c, hw.processor == LOGIC, operands[0], w) && w.pair == 0
    ensures r.Some? && c.channels >= 2 && operands[0].address == 0 ==>
      var x := Ceil(Div(operands[0].size, c.granul), if hw.processor == LOGIC then c.logicCubes else c.cubes);
      |r.value| == Ceil(x, c.channels) + Div(x + c.channels - 2, c.channels)
  {
    if |operands| != 1 { return None; }
    var logic := hw.processor == LOGIC;
    r := Collect(c, Plain(logic), operands[0]);
    CollectedIs(c, Plain(logic), operands[0], r);
    if r.Some? && c.channels >= 2 && operands[0].address == 0 { PlainFromZero(c, logic, Bundles(c, operands[0])); }
  }

  lemma PlainFromZero(c: MemoryConfig, logic: bool, n: nat)
    requires ConfigOk(c) && c.channels >= 2 && Commands(c, Plain(logic), 0, n).Some?
    ensures var x := Ceil(n, CubesOf(c, logic));
      |Commands(c, Plain(logic), 0, n).value| == Ceil(x, c.channels) + Div(x + c.channels - 2, c.channels)
  {
    var zero, cubes: nat := 0, CubesOf(c, logic);
    CommandsDefined(c, Plain(logic), zero, n);
    DivUnique(zero, c.granul, 0, 0);
    DivUnique(cubes - 1, cubes, 0, cubes - 1);
    DivUnique(zero, c.channels, 0, 0);
    PlainCount(c, logic, zero, n);
    PairIsTwoShares(Ceil(n, cubes), c.channels);
  }

  // ----- The prediction -----

  datatype RequestKind = Read | Write | Other

  /** The count `RunIdeal` predicts. */
  function Predicted(c: MemoryConfig, n: nat): nat
    requires ConfigOk(c)
  {
    var r := Ceil(n, c.cubes);
    OnFirstPair(r, c.channels) + if Mod(r, c.channels) == 0 then 1 else 0
  }

  /** The two rounded quotients of the closed form add up to the prediction. */
  lemma IdealCount(c: MemoryConfig, n: nat)
    requires ConfigOk(c)
    ensures
      var r := if Mod(n, c.cubes) == 0 then Div(n, c.cubes) else Div(n, c.cubes) + 1;
      var (q, m) := (Div(r, c.channels), Mod(r, c.channels));
      (if m == 0 then q else q + 1) + (if m == 1 then q else q + 1) == Predicted(c, n)
  {
    CeilCases(n, c.cubes);
  }

  class DramInterface {
    var actCount: nat
    var readCount: nat
    var writeCount: nat

    /** The closed form: an empty tensor leaves the counters as they were. */
    method RunIdeal(c: MemoryConfig, kind: RequestKind, size: nat)
      requires ConfigOk(c)
      modifies this
      ensures size == 0 ==> unchanged(this)
      ensures size > 0 ==>
        var rw := Predicted(c, Div(size, c.granul));
        && readCount == (if kind == Read then rw else 0)
        && writeCount == (if kind == Write then rw else 0)
        && (rw < c.cols ==> actCount == 1)
        && (rw >= c.cols ==> actCount * c.cols <= rw < (actCount + 1) * c.cols)
    {
      if size == 0 { return; }
      var total := Div(size, c.granul);
      var toCube := if Mod(total, c.cubes) == 0 then Div(total, c.cubes) else Div(total, c.cubes) + 1;
      var toFirst := if Mod(toCube, c.channels) == 0 then Div(toCube, c.channels) else Div(toCube, c.channels) + 1;
      var toSecond := if Mod(toCube, c.channels) == 1 then Div(toCube, c.channels) else Div(toCube, c.channels) + 1;
      var rw := toFirst + toSecond;
      assert rw == Predicted(c, total) by { IdealCount(c, total); }
      DivMod(rw, c.cols);
      actCount := if rw < c.cols then 1 else Div(rw, c.cols);
      readCount, writeCount := 0, 0;
      if kind == Read {
        readCount := rw;
      } else if kind == Write {
        writeCount := rw;
      }
    }
  }

  /** What the first b bundles of the memory hold on the first channel pair. */
  function Before(c: MemoryConfig, b: nat): nat
    requires ConfigOk(c)
  {
    OnFirstPair(Ceil(b, c.cubes), c.channels)
  }

  /** The prediction looks at the number of bundles only. It is the enumerated count of
      a tensor at a given address if and only if the tensor's own bundles hold, on the
      first channel pair, what as many at the start of the memory would, the correction
      of the prediction included. */
  lemma PredictionExact(c: MemoryConfig, address: nat, n: nat)
    requires ConfigOk(c) && c.channels >= 2 && Fits(c, Plain(false), BundleOf(c, address), n)
    ensures Commands(c, Plain(false), address, n).Some?
    ensures var b, count := BundleOf(c, address), |Commands(c, Plain(false), address, n).value|;
      && Predicted(c, n) - count
         == Before(c, n) + Before(c, b) - Before(c, b + n) + (if Mod(Ceil(n, c.cubes), c.channels) == 0 then 1 else 0)
      && (Predicted(c, n) == count <==>
          Before(c, b + n) == Before(c, b) + Before(c, n) + if Mod(Ceil(n, c.cubes), c.channels) == 0 then 1 else 0)
  {
    PlainCount(c, false, address, n);
  }

  /** At address 0 the prediction is exactly one higher than the enumerated count
      precisely when the share of cube 0 is a multiple of the number of channels, and
      right otherwise. */
  lemma PredictionAtZero(c: MemoryConfig, n: nat)
    requires ConfigOk(c) && c.channels >= 2 && n <= Capacity(c)
    ensures Commands(c, Plain(false), 0, n).Some?
    ensures var count := |Commands(c, Plain(false), 0, n).value|;
      && (Predicted(c, n) == count + 1 <==> Mod(Ceil(n, c.cubes), c.channels) == 0)
      && (Predicted(c, n) == count <==> Mod(Ceil(n, c.cubes), c.channels) != 0)
  {
    var zero: nat := 0;
    DivUnique(zero, c.granul, 0, 0);
    PredictionExact(c, zero, n);
    NothingBefore(c);
  }

  lemma NothingBefore(c: MemoryConfig)
    requires ConfigOk(c)
    ensures Before(c, 0) == 0
  {
    var zero: nat := 0;
    DivUnique(c.cubes - 1, c.cubes, 0, c.cubes - 1);
    DivUnique(zero, c.channels, 0, 0);
  }

  /** A tensor whose first bundle opens a new round over the channels of cube 0 is
      predicted as at address 0. */
  lemma PredictionOnRound(c: MemoryConfig, address: nat, n: nat, rounds: nat)
    requires ConfigOk(c) && c.channels >= 2 && Fits(c, Plain(false), BundleOf(c, address), n)
    requires BundleOf(c, address) == rounds * c.channels * c.cubes
    ensures Commands(c, Plain(false), address, n).Some?
    ensures var count := |Commands(c, Plain(false), address, n).value|;
      Predicted(c, n) == count + if Mod(Ceil(n, c.cubes), c.channels) == 0 then 1 else 0
  {
    PlainCount(c, false, address, n);
    assert Before(c, BundleOf(c, address) + n) == 2 * rounds + Before(c, n) by { BeforeShift(c, n, rounds); }
    assert Before(c, BundleOf(c, address)) == 2 * rounds by {
      BeforeShift(c, 0, rounds);
      NothingBefore(c);
    }
  }

  lemma BeforeShift(c: MemoryConfig, x: nat, rounds: nat)
    requires ConfigOk(c)
    ensures Before(c, rounds * c.channels * c.cubes + x) == 2 * rounds + Before(c, x)
  {
    CeilShift(x, c.cubes, rounds * c.channels);
    PairShift(Ceil(x, c.cubes), c.channels, rounds);
  }

  lemma CeilShift(x: nat, n: nat, k: nat)
    requires n > 0
    ensures Ceil(k * n + x, n) == k + Ceil(x, n)
  {
    DivMod(x + n - 1, n);
    DivUnique(k * n + x + n - 1, n, k + Ceil(x, n), Mod(x + n - 1, n));
  }

  lemma PairShift(r: nat, channels: nat, rounds: nat)
    requires channels > 0
    ensures OnFirstPair(rounds * channels + r, channels) == 2 * rounds + OnFirstPair(r, channels)
  {
    DivMod(r, channels);
    DivUnique(rounds * channels + r, channels, rounds + Div(r, channels), Mod(r, channels));
  }

  /** A second weight behind a first of two bundles, on a memory of one cube and four
      channels: nothing of it lies on the first pair, one command is predicted. */
  lemma {:induction false} PredictionMissesSecondWeight()
    ensures Place(0, [Tensor("weight", 64), Tensor("weight", 32)])[1] == MemoryObject(64, 32)
    ensures var c := MemoryConfig(1, 1, 4, 1, 1, 1, 1, 1, 32);
      && ConfigOk(c) && Commands(c, Plain(false), 64, 1) == Some([])
      && Predicted(c, 1) == 1 && Mod(Ceil(1, c.cubes), c.channels) != 0
  {
    var c := MemoryConfig(1, 1, 4, 1, 1, 1, 1, 1, 32);
    PlainCount(c, false, 64, 1);
    assert BundleOf(c, 64) == 2;
  }
}

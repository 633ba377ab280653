/** The greedy split of a device's experts between its fast and its slow processor. */
module ExpertSplit {

  datatype Option<T> = None | Some(value: T)

  datatype Settings = Settings(peakFlops: real, memoryBandwidth: real, logicOpb: real, logicX: real)

  type SystemConfig = c: Settings | c.peakFlops > 0.0 && c.memoryBandwidth > 0.0 && c.logicOpb > 0.0 && c.logicX > 0.0
    witness Settings(1.0, 1.0, 1.0, 1.0)

  datatype Expert = Expert(id: nat, tokens: nat)

  /** What is moved at once: one expert, or a run of experts. */
  type Group = seq<Expert>

  // ----- Costs -----

  function Max(x: real, y: real): real { if x < y then y else x }

  function HighOpb(c: SystemConfig): (r: real)
    ensures r > 0.0
  {
    c.peakFlops / (c.memoryBandwidth * 0.75)
  }

  function HighCost(c: SystemConfig): Expert -> real {
    (e: Expert) => Max(1.0, e.tokens as real / HighOpb(c))
  }

  function LowCost(c: SystemConfig): Expert -> real {
    (e: Expert) => Max(1.0, e.tokens as real / c.logicOpb * 0.75) / c.logicX
  }

  lemma Quotient(x: real, d: real, q: real)
    requires d > 0.0 && q == x / d
    ensures q * d == x
  {
  }

  /** The least time of one unit or more in which `work` is done at a rate. */
  predicate LeastTime(time: real, rate: real, work: real) {
    time >= 1.0 && time * rate >= work && (time == 1.0 || time * rate == work)
  }

  lemma MaxIsLeastTime(x: real, rate: real, work: real)
    requires rate > 0.0 && x * rate == work
    ensures LeastTime(Max(1.0, x), rate, work)
  {
    assert Max(1.0, x) * rate >= x * rate;
  }

  /** An expert takes at least one unit of time on the fast side and, beyond, its tokens
      over the operations per byte that peak compute and three quarters of the bandwidth
      allow; on the slow side likewise with the operations per byte of the logic units,
      three quarters of its tokens, and all of it divided by their speed-up. */
  lemma CostsAre(c: SystemConfig, e: Expert)
    ensures LeastTime(HighCost(c)(e), c.peakFlops, e.tokens as real * (c.memoryBandwidth * 0.75))
    ensures LeastTime(LowCost(c)(e) * c.logicX, c.logicOpb, e.tokens as real * 0.75)
  {
    var b, t := c.memoryBandwidth * 0.75, e.tokens as real / HighOpb(c);
    assert t * c.peakFlops == e.tokens as real * b by {
      Quotient(c.peakFlops, b, HighOpb(c));
      Quotient(e.tokens as real, HighOpb(c), t);
      assert t * (HighOpb(c) * b) == t * HighOpb(c) * b;
    }
    MaxIsLeastTime(t, c.peakFlops, e.tokens as real * b);
    LowCostIs(c, e);
  }

  lemma LowCostIs(c: SystemConfig, e: Expert)
    ensures LeastTime(LowCost(c)(e) * c.logicX, c.logicOpb, e.tokens as real * 0.75)
  {
    var x := e.tokens as real / c.logicOpb * 0.75;
    assert x * c.logicOpb == e.tokens as real * 0.75 by {
      var t := e.tokens as real / c.logicOpb;
      Quotient(e.tokens as real, c.logicOpb, t);
      assert x * c.logicOpb == t * c.logicOpb * 0.75;
    }
    assert LowCost(c)(e) * c.logicX == Max(1.0, x) by { Quotient(Max(1.0, x), c.logicX, LowCost(c)(e)); }
    MaxIsLeastTime(x, c.logicOpb, e.tokens as real * 0.75);
  }

  function Sum<T>(s: seq<T>, f: T -> real): real {
    if s == [] then 0.0 else Sum(s[..|s| - 1], f) + f(s[|s| - 1])
  }

  /** A cost of an expert as a cost of a group. */
  function OnGroup(f: Expert -> real): Group -> real { (g: Group) => Sum(g, f) }

  lemma {:induction false} SumConcat<T>(s: seq<T>, t: seq<T>, f: T -> real)
    ensures Sum(s + t, f) == Sum(s, f) + Sum(t, f)
  {
    if t == [] {
      assert s + t == s;
    } else {
      var last := |t| - 1;
      SumConcat(s, t[..last], f);
      assert (s + t)[..|s + t| - 1] == s + t[..last];
    }
  }

  lemma SumSnoc<T>(s: seq<T>, k: nat, f: T -> real)
    requires k < |s|
    ensures Sum(s[..k + 1], f) == Sum(s[..k], f) + f(s[k])
  {
    assert s[..k + 1][..k] == s[..k];
  }

  lemma SumSplit<T>(s: seq<T>, k: nat, f: T -> real)
    requires k <= |s|
    ensures Sum(s, f) == Sum(s[..k], f) + Sum(s[k..], f)
  {
    assert s == s[..k] + s[k..];
    SumConcat(s[..k], s[k..], f);
  }

  lemma {:induction false} SumAgree<T>(s: seq<T>, f: T -> real, g: T -> real)
    requires forall x :: x in s ==> f(x) == g(x)
    ensures Sum(s, f) == Sum(s, g)
  {
    if s != [] {
      assert s[|s| - 1] in s;
      SumAgree(s[..|s| - 1], f, g);
    }
  }

  lemma {:induction false} SumBelow<T>(s: seq<T>, f: T -> real, i: nat)
    requires i < |s| && forall x :: x in s ==> f(x) >= 0.0
    ensures 0.0 <= f(s[i]) <= Sum(s, f)
  {
    var last := |s| - 1;
    if last > 0 {
      SumBelow(s[..last], f, if i < last then i else 0);
    }
  }

  lemma BagWithout<T>(t: seq<T>, j: nat)
    requires j < |t|
    ensures multiset(t[..j] + t[j + 1..]) == multiset(t) - multiset{t[j]}
  {
    assert t == t[..j] + [t[j]] + t[j + 1..];
  }

  lemma SumWithout<T>(t: seq<T>, j: nat, f: T -> real)
    requires j < |t|
    ensures Sum(t, f) == Sum(t[..j] + t[j + 1..], f) + f(t[j])
  {
    SumSplit(t, j + 1, f);
    SumSnoc(t, j, f);
    SumConcat(t[..j], t[j + 1..], f);
  }

  /** A sum does not depend on the order. */
  lemma {:induction false} SumPermuted<T>(s: seq<T>, t: seq<T>, f: T -> real)
    requires multiset(s) == multiset(t)
    ensures Sum(s, f) == Sum(t, f)
    decreases |s|
  {
    if s == [] {
      assert |t| == |multiset(t)| == |multiset(s)| == 0;
    } else {
      var last := |s| - 1;
      assert s[last] in multiset(t);
      var j :| 0 <= j < |t| && t[j] == s[last];
      BagWithout(s, last);
      assert s[..last] + s[last + 1..] == s[..last];
      BagWithout(t, j);
      SumPermuted(s[..last], t[..j] + t[j + 1..], f);
      SumWithout(t, j, f);
    }
  }

  // ----- Building the groups -----

  function Experts(list: seq<nat>): (r: seq<Expert>)
    ensures |r| == |list|
  {
    seq(|list|, (i: nat) requires i < |list| => Expert(i, list[i]))
  }

  /** The experts in runs of `size`. */
  function GroupsOf(es: seq<Expert>, size: nat): seq<Group>
    requires size > 0
    decreases |es|
  {
    if |es| < size then [] else GroupsOf(es[..|es| - size], size) + [es[|es| - size..]]
  }

  lemma {:induction false} GroupsNotEmpty(es: seq<Expert>, size: nat)
    requires size > 0
    ensures NoEmpty(GroupsOf(es, size))
    decreases |es|
  {
    if |es| >= size { GroupsNotEmpty(es[..|es| - size], size); }
  }

  lemma GroupsGrow(es: seq<Expert>, i: nat, size: nat)
    requires size > 0 && i + size <= |es|
    ensures GroupsOf(es[..i + size], size) == GroupsOf(es[..i], size) + [es[i..i + size]]
  {
    assert es[..i + size][..i] == es[..i];
    assert es[..i + size][i..] == es[i..i + size];
  }

  /** The list splits into whole groups. */
  predicate Whole(n: nat, size: nat)
    requires size > 0
  {
    n == 0 || (n >= size && Whole(n - size, size))
  }

  lemma {:induction false} WholeOnes(n: nat)
    ensures Whole(n, 1)
  {
    if n > 0 { WholeOnes(n - 1); }
  }

  lemma WholeQuarters(n: nat, size: nat)
    requires size > 0 && n == 4 * size
    ensures Whole(n, size)
  {
    assert Whole(n - 4 * size, size);
    assert Whole(n - 3 * size, size);
    assert Whole(n - 2 * size, size);
    assert Whole(n - size, size);
  }

  lemma {:induction false} GroupCount(es: seq<Expert>, size: nat, n: nat)
    requires size > 0 && |es| == n * size
    ensures |GroupsOf(es, size)| == n
    decreases n
  {
    if n > 0 {
      Block(n - 1, size);
      GroupCount(es[..|es| - size], size, n - 1);
    }
  }

  lemma Block(k: nat, size: nat)
    ensures (k + 1) * size == k * size + size
  {
  }

  /** Group number k is the k-th run of `size` experts. */
  lemma {:induction false} GroupIs(es: seq<Expert>, size: nat, n: nat, k: nat)
    requires size > 0 && |es| == n * size && k < n
    ensures |GroupsOf(es, size)| == n && k * size + size <= |es|
    ensures GroupsOf(es, size)[k] == es[k * size..k * size + size]
    decreases n
  {
    var cut := |es| - size;
    GroupCount(es, size, n);
    Block(n - 1, size);
    if k < n - 1 {
      GroupIs(es[..cut], size, n - 1, k);
      var from := k * size;
      assert es[..cut][from..from + size] == es[from..from + size];
    } else {
      GroupCount(es[..cut], size, n - 1);
      assert k * size == cut;
    }
  }

  /** The groups hold what the list holds: any cost sums to the same. */
  lemma {:induction false} GroupsSum(es: seq<Expert>, size: nat, f: Expert -> real)
    requires size > 0 && Whole(|es|, size)
    ensures Sum(GroupsOf(es, size), OnGroup(f)) == Sum(es, f)
    decreases |es|
  {
    if |es| > 0 {
      var cut := |es| - size;
      GroupsSum(es[..cut], size, f);
      SumSplit(es, cut, f);
      var groups := GroupsOf(es[..cut], size);
      assert (groups + [es[cut..]])[..|groups|] == groups;
    }
  }

  // ----- The sort -----

  function Tokens(g: Group): nat {
    if g == [] then 0 else Tokens(g[..|g| - 1]) + g[|g| - 1].tokens
  }

  predicate Descending(s: seq<Group>) {
    forall i, j | 0 <= i < j < |s| :: Tokens(s[i]) >= Tokens(s[j])
  }

  predicate IsSorting(s: seq<Group>, groups: seq<Group>) {
    multiset(s) == multiset(groups) && Descending(s)
  }

  /** What stands at position x once g has been put at j. */
  function Shifted(s: seq<Group>, g: Group, j: nat, x: nat): Group
    requires j <= |s| && x <= |s|
  {
    if x < j then s[x] else if x == j then g else s[x - 1]
  }

  lemma InsertedAt(s: seq<Group>, g: Group, j: nat, x: nat)
    requires j <= |s| && x <= |s|
    ensures (s[..j] + [g] + s[j..])[x] == Shifted(s, g, j, x)
  {
  }

  lemma ShiftedInOrder(s: seq<Group>, g: Group, j: nat, x: nat, y: nat)
    requires Descending(s) && j <= |s| && x < y <= |s|
    requires j == 0 || Tokens(s[j - 1]) >= Tokens(g)
    requires forall k | j <= k < |s| :: Tokens(s[k]) < Tokens(g)
    ensures Tokens(Shifted(s, g, j, x)) >= Tokens(Shifted(s, g, j, y))
  {
    if x < j <= y { assert Tokens(s[x]) >= Tokens(s[j - 1]); }
  }

  lemma InsertedInOrder(s: seq<Group>, g: Group, j: nat)
    requires Descending(s) && j <= |s|
    requires j == 0 || Tokens(s[j - 1]) >= Tokens(g)
    requires forall k | j <= k < |s| :: Tokens(s[k]) < Tokens(g)
    ensures Descending(s[..j] + [g] + s[j..])
  {
    var r := s[..j] + [g] + s[j..];
    forall x, y | 0 <= x < y < |r| ensures Tokens(r[x]) >= Tokens(r[y]) {
      InsertedAt(s, g, j, x);
      InsertedAt(s, g, j, y);
      ShiftedInOrder(s, g, j, x, y);
    }
  }

  lemma InsertedBag(s: seq<Group>, g: Group, j: nat)
    requires j <= |s|
    ensures multiset(s[..j] + [g] + s[j..]) == multiset(s) + multiset{g}
  {
    assert s == s[..j] + s[j..];
  }

  /** One group into its place. */
  method Insert(s: seq<Group>, g: Group) returns (r: seq<Group>)
    requires Descending(s)
    ensures multiset(r) == multiset(s) + multiset{g} && Descending(r)
  {
    var j := |s|;
    while j > 0 && Tokens(s[j - 1]) < Tokens(g)
      invariant 0 <= j <= |s|
      invariant forall k | j <= k < |s| :: Tokens(s[k]) < Tokens(g)
    {
      j := j - 1;
    }
    InsertedInOrder(s, g, j);
    InsertedBag(s, g, j);
    r := s[..j] + [g] + s[j..];
  }

  /** Groups by falling number of tokens; equal groups in any order. */
  method Sort(groups: seq<Group>) returns (s: seq<Group>)
    ensures IsSorting(s, groups)
  {
    s := [];
    for i := 0 to |groups|
      invariant multiset(s) == multiset(groups[..i]) && Descending(s)
    {
      assert groups[..i + 1] == groups[..i] + [groups[i]];
      s := Insert(s, groups[i]);
    }
    assert groups[..|groups|] == groups;
  }

  // ----- The greedy loop -----

  /** Time on the fast side when the first k groups move there. */
  function HighTime(c: SystemConfig, s: seq<Group>, k: nat): real
    requires k <= |s|
  {
    Sum(s[..k], OnGroup(HighCost(c)))
  }

  function LowTime(c: SystemConfig, s: seq<Group>, k: nat): real
    requires k <= |s|
  {
    Sum(s[k..], OnGroup(LowCost(c)))
  }

  function Makespan(c: SystemConfig, s: seq<Group>, k: nat): real
    requires k <= |s|
  {
    Max(HighTime(c, s, k), LowTime(c, s, k))
  }

  predicate Least(c: SystemConfig, s: seq<Group>, k: nat)
    requires k <= |s|
  {
    forall j: nat | j <= |s| :: Makespan(c, s, k) <= Makespan(c, s, j) && (j < k ==> Makespan(c, s, k) < Makespan(c, s, j))
  }

  predicate NoEmpty(s: seq<Group>) { forall g :: g in s ==> g != [] }

  lemma CostsPositive(c: SystemConfig, g: Group)
    ensures g != [] ==> Sum(g, HighCost(c)) > 0.0 && Sum(g, LowCost(c)) > 0.0
  {
    if g != [] {
      LowPositive(c);
      SumBelow(g, HighCost(c), 0);
      SumBelow(g, LowCost(c), 0);
    }
  }

  lemma LowPositive(c: SystemConfig)
    ensures forall e: Expert :: HighCost(c)(e) > 0.0 && LowCost(c)(e) > 0.0
  {
  }

  /** Moving one more group. */
  lemma MoveOne(c: SystemConfig, s: seq<Group>, k: nat)
    requires k < |s|
    ensures HighTime(c, s, k + 1) == HighTime(c, s, k) + Sum(s[k], HighCost(c))
    ensures LowTime(c, s, k + 1) == LowTime(c, s, k) - Sum(s[k], LowCost(c))
  {
    SumSnoc(s, k, OnGroup(HighCost(c)));
    SumSplit(s[k..], 1, OnGroup(LowCost(c)));
    assert s[k..][..1] == [s[k]] && s[k..][1..] == s[k + 1..];
    assert Sum([s[k]], OnGroup(LowCost(c))) == Sum(s[k], LowCost(c)) by { assert [s[k]][..0] == []; }
  }

  /** Fast time only grows with the number of groups moved. */
  lemma {:induction false} HighGrows(c: SystemConfig, s: seq<Group>, j: nat, k: nat)
    requires j <= k <= |s| && NoEmpty(s)
    ensures HighTime(c, s, j) <= HighTime(c, s, k)
    decreases k - j
  {
    if j < k {
      HighGrows(c, s, j, k - 1);
      MoveOne(c, s, k - 1);
      CostsPositive(c, s[k - 1]);
    }
  }

  /** The first step that does not improve the makespan ends all hope: no longer
      prefix is better either. */
  lemma NoLaterImproves(c: SystemConfig, s: seq<Group>, k: nat, j: nat)
    requires k < j <= |s| && NoEmpty(s)
    requires Makespan(c, s, k) <= Makespan(c, s, k + 1)
    ensures Makespan(c, s, k) <= Makespan(c, s, j)
  {
    MoveOne(c, s, k);
    assert s[k] in s;
    CostsPositive(c, s[k]);
    HighGrows(c, s, k + 1, j);
  }

  function Ids(g: Group): (r: seq<nat>)
    ensures |r| == |g| && forall k | 0 <= k < |g| :: r[k] == g[k].id
  {
    if g == [] then [] else Ids(g[..|g| - 1]) + [g[|g| - 1].id]
  }

  function IdsOf(s: seq<Group>): seq<nat> {
    if s == [] then [] else IdsOf(s[..|s| - 1]) + Ids(s[|s| - 1])
  }

  lemma IdsSnoc(s: seq<Group>, i: nat)
    requires i < |s|
    ensures IdsOf(s[..i + 1]) == IdsOf(s[..i]) + Ids(s[i])
  {
    assert s[..i + 1][..i] == s[..i];
  }

  /** The times after one group has moved, expert by expert. */
  method MoveGroup(c: SystemConfig, g: Group, high: real, low: real) returns (highTime: real, lowTime: real)
    ensures highTime == high + Sum(g, HighCost(c)) && lowTime == low - Sum(g, LowCost(c))
  {
    highTime, lowTime := high, low;
    var p := 0;
    while p < |g|
      invariant p <= |g|
      invariant highTime == high + Sum(g[..p], HighCost(c))
      invariant lowTime == low - Sum(g[..p], LowCost(c))
    {
      SumSnoc(g, p, HighCost(c));
      SumSnoc(g, p, LowCost(c));
      highTime := highTime + Max(1.0, g[p].tokens as real / HighOpb(c));
      lowTime := lowTime - Max(1.0, g[p].tokens as real / c.logicOpb * 0.75) / c.logicX;
      p := p + 1;
    }
    assert g[..p] == g;
  }

  /** The first prefix that the next step does not improve is the shortest best one. */
  lemma StopIsLeast(c: SystemConfig, s: seq<Group>, i: nat)
    requires i < |s| && NoEmpty(s) && Makespan(c, s, i) <= Makespan(c, s, i + 1)
    requires forall j: nat | j < i :: Makespan(c, s, i) < Makespan(c, s, j)
    ensures Least(c, s, i)
  {
    forall j: nat | j <= |s| ensures Makespan(c, s, i) <= Makespan(c, s, j) {
      if j > i { NoLaterImproves(c, s, i, j); }
    }
  }

  /** The loop of both splits: move groups in order while the makespan falls. */
  method Greedy(c: SystemConfig, s: seq<Group>, lowSum: real) returns (high: seq<nat>, ghost k: nat)
    requires NoEmpty(s) && lowSum == LowTime(c, s, 0)
    ensures k <= |s| && high == IdsOf(s[..k]) && Least(c, s, k)
  {
    var highTime, lowTime := 0.0, lowSum;
    high, k := [], 0;
    var best := Max(highTime, lowTime);
    var i := 0;
    while i < |s|
      invariant k == i <= |s| && high == IdsOf(s[..i])
      invariant highTime == HighTime(c, s, i) && lowTime == LowTime(c, s, i) && best == Makespan(c, s, i)
      invariant forall j: nat | j < i :: best < Makespan(c, s, j)
    {
      MoveOne(c, s, i);
      highTime, lowTime := MoveGroup(c, s[i], highTime, lowTime);
      var temp := Max(highTime, lowTime);
      if best > temp {
        IdsSnoc(s, i);
        high := high + Ids(s[i]);
        best := temp;
      } else {
        StopIsLeast(c, s, i);
        return;
      }
      i, k := i + 1, k + 1;
    }
  }

  // ----- What a split means for the experts -----

  /** Cost over the experts of the list that are (or are not) on the fast side. */
  function Chosen(high: seq<nat>, f: Expert -> real): Expert -> real {
    (e: Expert) => if e.id in high then f(e) else 0.0
  }

  function Others(high: seq<nat>, f: Expert -> real): Expert -> real {
    (e: Expert) => if e.id in high then 0.0 else f(e)
  }

  function IdCount(x: nat): Expert -> real {
    (e: Expert) => if e.id == x then 1.0 else 0.0
  }

  lemma {:induction false} CountInGroup(g: Group, x: nat)
    ensures multiset(Ids(g))[x] as real == Sum(g, IdCount(x))
  {
    if g != [] { CountInGroup(g[..|g| - 1], x); }
  }

  lemma {:induction false} CountInGroups(s: seq<Group>, x: nat)
    ensures multiset(IdsOf(s))[x] as real == Sum(s, OnGroup(IdCount(x)))
  {
    if s != [] {
      CountInGroups(s[..|s| - 1], x);
      CountInGroup(s[|s| - 1], x);
    }
  }

  lemma {:induction false} CountInList(list: seq<nat>, n: nat, x: nat)
    requires n <= |list|
    ensures Sum(Experts(list)[..n], IdCount(x)) == if x < n then 1.0 else 0.0
  {
    if n > 0 {
      CountInList(list, n - 1, x);
      SumSnoc(Experts(list), n - 1, IdCount(x));
    }
  }

  /** Sorting groups of the list changes no sum. */
  lemma SortedSum(s: seq<Group>, list: seq<nat>, size: nat, f: Expert -> real)
    requires size > 0 && Whole(|list|, size) && IsSorting(s, GroupsOf(Experts(list), size))
    ensures Sum(s, OnGroup(f)) == Sum(Experts(list), f)
  {
    SumPermuted(s, GroupsOf(Experts(list), size), OnGroup(f));
    GroupsSum(Experts(list), size, f);
  }

  /** The tokens the list gives some experts. */
  function Listed(list: seq<nat>, ids: seq<nat>): nat {
    if ids == [] then 0
    else Listed(list, ids[..|ids| - 1]) + if ids[|ids| - 1] < |list| then list[ids[|ids| - 1]] else 0
  }

  ghost predicate FromList(list: seq<nat>, g: Group) {
    forall e | e in g :: e.id < |list| && e.tokens == list[e.id]
  }

  /** The sort key of a group is what the list gives its experts. */
  lemma {:induction false} TokensAre(list: seq<nat>, g: Group)
    requires FromList(list, g)
    ensures Tokens(g) == Listed(list, Ids(g))
  {
    if g != [] {
      TokensAre(list, g[..|g| - 1]);
      assert g[|g| - 1] in g;
      assert Ids(g)[..|Ids(g)| - 1] == Ids(g[..|g| - 1]);
    }
  }

  lemma {:induction false} GroupsFromList(list: seq<nat>, es: seq<Expert>, size: nat)
    requires size > 0 && FromList(list, es)
    ensures forall g | g in GroupsOf(es, size) :: FromList(list, g)
    decreases |es|
  {
    if |es| >= size {
      GroupsFromList(list, es[..|es| - size], size);
      assert FromList(list, es[|es| - size..]);
    }
  }

  /** The groups come by falling sums of the list over their experts. */
  ghost predicate Falling(list: seq<nat>, s: seq<Group>) {
    forall i, j | 0 <= i < j < |s| :: Listed(list, Ids(s[i])) >= Listed(list, Ids(s[j]))
  }

  lemma SortedByList(s: seq<Group>, list: seq<nat>, size: nat)
    requires size > 0 && IsSorting(s, GroupsOf(Experts(list), size))
    ensures Falling(list, s)
  {
    GroupsFromList(list, Experts(list), size);
    forall i | 0 <= i < |s| ensures Tokens(s[i]) == Listed(list, Ids(s[i])) {
      assert s[i] in multiset(s) && s[i] in multiset(GroupsOf(Experts(list), size)) && s[i] in GroupsOf(Experts(list), size);
      TokensAre(list, s[i]);
    }
  }

  /** Every expert of the list is on exactly one side, exactly once, and no other id is. */
  ghost predicate Partition(n: nat, high: seq<nat>, low: seq<nat>) {
    forall x: nat :: OnOneSide(n, high, low, x)
  }

  ghost predicate OnOneSide(n: nat, high: seq<nat>, low: seq<nat>, x: nat) {
    multiset(high)[x] + multiset(low)[x] == if x < n then 1 else 0
  }

  lemma CountInSorted(s: seq<Group>, list: seq<nat>, size: nat, x: nat)
    requires size > 0 && Whole(|list|, size) && IsSorting(s, GroupsOf(Experts(list), size))
    ensures Sum(s, OnGroup(IdCount(x))) == if x < |list| then 1.0 else 0.0
  {
    SortedSum(s, list, size, IdCount(x));
    assert Experts(list)[..|list|] == Experts(list);
    CountInList(list, |list|, x);
  }

  lemma CountBothSides(s: seq<Group>, k: nat, x: nat)
    requires k <= |s|
    ensures (multiset(IdsOf(s[..k]))[x] + multiset(IdsOf(s[k..]))[x]) as real == Sum(s, OnGroup(IdCount(x)))
  {
    CountInGroups(s[..k], x);
    CountInGroups(s[k..], x);
    SumSplit(s, k, OnGroup(IdCount(x)));
  }

  lemma OneSide(s: seq<Group>, k: nat, list: seq<nat>, size: nat, x: nat)
    requires k <= |s| && size > 0 && Whole(|list|, size) && IsSorting(s, GroupsOf(Experts(list), size))
    ensures OnOneSide(|list|, IdsOf(s[..k]), IdsOf(s[k..]), x)
  {
    CountBothSides(s, k, x);
    CountInSorted(s, list, size, x);
  }

  lemma SidesPartition(s: seq<Group>, k: nat, list: seq<nat>, size: nat)
    requires k <= |s| && size > 0 && Whole(|list|, size) && IsSorting(s, GroupsOf(Experts(list), size))
    ensures Partition(|list|, IdsOf(s[..k]), IdsOf(s[k..]))
  {
    forall x: nat ensures OnOneSide(|list|, IdsOf(s[..k]), IdsOf(s[k..]), x) {
      OneSide(s, k, list, size, x);
    }
  }

  lemma {:induction false} IdInGroup(g: Group, e: Expert)
    requires e in g
    ensures e.id in Ids(g)
  {
    if e != g[|g| - 1] { IdInGroup(g[..|g| - 1], e); }
  }

  lemma {:induction false} IdInGroups(s: seq<Group>, g: Group, e: Expert)
    requires g in s && e in g
    ensures e.id in IdsOf(s)
  {
    IdInGroup(g, e);
    if g != s[|s| - 1] { IdInGroups(s[..|s| - 1], g, e); }
  }

  /** The groups of one side carry the whole cost of its experts, and none of the other's. */
  lemma SideSums(side: seq<Group>, high: seq<nat>, inside: bool, f: Expert -> real)
    requires forall g, e :: g in side && e in g ==> (e.id in high) == inside
    ensures Sum(side, OnGroup(Chosen(high, f))) == if inside then Sum(side, OnGroup(f)) else 0.0
    ensures Sum(side, OnGroup(Others(high, f))) == if inside then 0.0 else Sum(side, OnGroup(f))
  {
    forall g | g in side
      ensures OnGroup(Chosen(high, f))(g) == if inside then OnGroup(f)(g) else 0.0
      ensures OnGroup(Others(high, f))(g) == if inside then 0.0 else OnGroup(f)(g)
    {
      if inside {
        SumAgree(g, Chosen(high, f), f);
        SumAgree(g, Others(high, f), Zero<Expert>());
        SumZero(g);
      } else {
        SumAgree(g, Others(high, f), f);
        SumAgree(g, Chosen(high, f), Zero<Expert>());
        SumZero(g);
      }
    }
    SumZero(side);
    if inside {
      SumAgree(side, OnGroup(Chosen(high, f)), OnGroup(f));
      SumAgree(side, OnGroup(Others(high, f)), Zero<Group>());
    } else {
      SumAgree(side, OnGroup(Others(high, f)), OnGroup(f));
      SumAgree(side, OnGroup(Chosen(high, f)), Zero<Group>());
    }
  }

  function Zero<T>(): T -> real { (x: T) => 0.0 }

  lemma {:induction false} SumZero<T>(s: seq<T>)
    ensures Sum(s, Zero<T>()) == 0.0
  {
    if s != [] { SumZero(s[..|s| - 1]); }
  }

  /** The running times are the cost sums of the two sides, expert by expert. */
  lemma SideTimes(c: SystemConfig, s: seq<Group>, k: nat, list: seq<nat>, size: nat)
    requires k <= |s| && size > 0 && Whole(|list|, size) && IsSorting(s, GroupsOf(Experts(list), size))
    ensures HighTime(c, s, k) == Sum(Experts(list), Chosen(IdsOf(s[..k]), HighCost(c)))
    ensures LowTime(c, s, k) == Sum(Experts(list), Others(IdsOf(s[..k]), LowCost(c)))
  {
    var high := IdsOf(s[..k]);
    SidesPartition(s, k, list, size);
    forall g, e | g in s[..k] && e in g ensures e.id in high { IdInGroups(s[..k], g, e); }
    forall g, e | g in s[k..] && e in g ensures e.id !in high {
      IdInGroups(s[k..], g, e);
      assert OnOneSide(|list|, high, IdsOf(s[k..]), e.id);
    }
    SideSums(s[..k], high, true, HighCost(c));
    SideSums(s[k..], high, false, HighCost(c));
    SideSums(s[..k], high, true, LowCost(c));
    SideSums(s[k..], high, false, LowCost(c));
    SumSplit(s, k, OnGroup(Chosen(high, HighCost(c))));
    SumSplit(s, k, OnGroup(Others(high, LowCost(c))));
    SortedSum(s, list, size, Chosen(high, HighCost(c)));
    SortedSum(s, list, size, Others(high, LowCost(c)));
  }

  // ----- The two splits -----

  /** Time until both sides are done when the experts in `high` run on the fast one. */
  function SplitTime(c: SystemConfig, list: seq<nat>, high: seq<nat>): real {
    Max(Sum(Experts(list), Chosen(high, HighCost(c))), Sum(Experts(list), Others(high, LowCost(c))))
  }

  predicate Beats(x: real, y: real, strictly: bool) { x <= y && (strictly ==> x < y) }

  /** `high` is the shortest of the best prefixes of a list of groups sorted by tokens, in
      the order of the groups. */
  predicate BestPrefix(c: SystemConfig, list: seq<nat>, high: seq<nat>, s: seq<Group>, k: nat) {
    && k <= |s| && high == IdsOf(s[..k])
    && (forall j: nat | j <= k :: IdsOf(s[..j]) <= high)
    && forall j: nat | j <= |s| :: Beats(SplitTime(c, list, high), SplitTime(c, list, IdsOf(s[..j])), j < k)
  }

  lemma {:induction false} IdsInOrder(s: seq<Group>, j: nat, k: nat)
    requires j <= k <= |s|
    ensures IdsOf(s[..j]) <= IdsOf(s[..k])
    decreases k
  {
    if j < k {
      IdsInOrder(s, j, k - 1);
      assert s[..k][..k - 1] == s[..k - 1];
    }
  }

  lemma SplitTimeIs(c: SystemConfig, list: seq<nat>, s: seq<Group>, j: nat, size: nat)
    requires size > 0 && Whole(|list|, size) && IsSorting(s, GroupsOf(Experts(list), size)) && j <= |s|
    ensures SplitTime(c, list, IdsOf(s[..j])) == Makespan(c, s, j)
  {
    SideTimes(c, s, j, list, size);
  }

  lemma LeastIsBest(c: SystemConfig, list: seq<nat>, s: seq<Group>, k: nat, size: nat)
    requires size > 0 && Whole(|list|, size) && IsSorting(s, GroupsOf(Experts(list), size))
    requires k <= |s| && Least(c, s, k)
    ensures BestPrefix(c, list, IdsOf(s[..k]), s, k)
  {
    SplitTimeIs(c, list, s, k, size);
    forall j: nat | j <= k ensures IdsOf(s[..j]) <= IdsOf(s[..k]) { IdsInOrder(s, j, k); }
    forall j: nat | j <= |s| ensures Beats(SplitTime(c, list, IdsOf(s[..k])), SplitTime(c, list, IdsOf(s[..j])), j < k) {
      SplitTimeIs(c, list, s, j, size);
      assert Makespan(c, s, k) <= Makespan(c, s, j);
    }
  }

  /** `high` lists the experts of a best prefix of some sorting of the groups, by falling
      tokens of the list, and every expert is on exactly one side. */
  ghost predicate BestSplit(c: SystemConfig, list: seq<nat>, size: nat, high: seq<nat>)
    requires size > 0
  {
    exists s, k :: IsSorting(s, GroupsOf(Experts(list), size)) && Falling(list, s) && IsPrefix(c, list, high, s, k)
  }

  ghost predicate IsPrefix(c: SystemConfig, list: seq<nat>, high: seq<nat>, s: seq<Group>, k: nat) {
    BestPrefix(c, list, high, s, k) && Partition(|list|, high, IdsOf(s[k..]))
  }

  /** Valid ids, none twice. */
  ghost predicate DistinctIds(n: nat, ids: seq<nat>) {
    forall x: nat :: multiset(ids)[x] <= if x < n then 1 else 0
  }

  /** The split expert by expert. */
  method GetIdxHighOptimal(c: SystemConfig, list: seq<nat>) returns (high: seq<nat>)
    ensures BestSplit(c, list, 1, high) && DistinctIds(|list|, high)
  {
    var groups: seq<Group>, lowTime := [], 0.0;
    for i := 0 to |list|
      invariant groups == GroupsOf(Experts(list)[..i], 1)
      invariant lowTime == Sum(Experts(list)[..i], LowCost(c))
    {
      SumSnoc(Experts(list), i, LowCost(c));
      assert Experts(list)[..i + 1][..i] == Experts(list)[..i];
      assert Experts(list)[..i + 1][i..] == [Expert(i, list[i])];
      groups := groups + [[Expert(i, list[i])]];
      lowTime := lowTime + Max(1.0, list[i] as real / c.logicOpb * 0.75) / c.logicX;
    }
    assert Experts(list)[..|list|] == Experts(list);
    WholeOnes(|list|);
    high := Finish(c, list, groups, lowTime, 1);
  }

  /** The group of `size` experts from i on, its cost added to the slow side. */
  method TakeGroup(c: SystemConfig, list: seq<nat>, i: nat, size: nat, lowSum: real) returns (group: Group, lowTime: real)
    requires i + size <= |list| && lowSum == Sum(Experts(list)[..i], LowCost(c))
    ensures group == Experts(list)[i..i + size] && lowTime == Sum(Experts(list)[..i + size], LowCost(c))
  {
    group, lowTime := [], lowSum;
    for id := 0 to size
      invariant group == Experts(list)[i..i + id]
      invariant lowTime == Sum(Experts(list)[..i + id], LowCost(c))
    {
      SumSnoc(Experts(list), i + id, LowCost(c));
      assert Experts(list)[i + id] == Expert(i + id, list[i + id]);
      assert Experts(list)[i..i + id + 1] == Experts(list)[i..i + id] + [Expert(i + id, list[i + id])];
      group := group + [Expert(i + id, list[i + id])];
      lowTime := lowTime + Max(1.0, list[i + id] as real / c.logicOpb * 0.75) / c.logicX;
    }
  }

  /** The split by quarters of the list. */
  method GetIdxHigh(c: SystemConfig, list: seq<nat>) returns (r: Option<seq<nat>>)
    ensures r.None? <==> |list| > 4 && |list| % 4 != 0
    ensures r.Some? ==> BestSplit(c, list, if |list| <= 4 then 1 else |list| / 4, r.value) && DistinctIds(|list|, r.value)
  {
    if |list| <= 4 {
      var few := GetIdxHighOptimal(c, list);
      return Some(few);
    }
    if |list| % 4 != 0 { return None; }
    var size := |list| / 4;
    var groups: seq<Group>, lowTime := [], 0.0;
    var i := 0;
    while i < |list|
      invariant i == 0 || i == size || i == 2 * size || i == 3 * size || i == 4 * size
      invariant groups == GroupsOf(Experts(list)[..i], size)
      invariant lowTime == Sum(Experts(list)[..i], LowCost(c))
    {
      var group;
      group, lowTime := TakeGroup(c, list, i, size, lowTime);
      GroupsGrow(Experts(list), i, size);
      groups := groups + [group];
      i := i + size;
    }
    assert Experts(list)[..|list|] == Experts(list);
    WholeQuarters(|list|, size);
    var high := Finish(c, list, groups, lowTime, size);
    r := Some(high);
  }

  /** A sorting of groups has no empty group either. */
  lemma SortedNotEmpty(s: seq<Group>, groups: seq<Group>)
    requires IsSorting(s, groups) && NoEmpty(groups)
    ensures NoEmpty(s)
  {
    forall g | g in s ensures g != [] {
      assert g in multiset(s) && g in multiset(groups) && g in groups;
    }
  }

  /** The greedy prefix of a sorting is a best split. */
  lemma GreedyIsBest(c: SystemConfig, list: seq<nat>, s: seq<Group>, k: nat, size: nat)
    requires size > 0 && Whole(|list|, size) && IsSorting(s, GroupsOf(Experts(list), size)) && k <= |s| && Least(c, s, k)
    ensures BestSplit(c, list, size, IdsOf(s[..k])) && DistinctIds(|list|, IdsOf(s[..k]))
  {
    var high := IdsOf(s[..k]);
    LeastIsBest(c, list, s, k, size);
    SidesPartition(s, k, list, size);
    OneSideAtMostOnce(|list|, high, IdsOf(s[k..]));
    SortedByList(s, list, size);
    assert IsPrefix(c, list, high, s, k);
  }

  lemma OneSideAtMostOnce(n: nat, high: seq<nat>, low: seq<nat>)
    requires Partition(n, high, low)
    ensures DistinctIds(n, high)
  {
    forall x: nat ensures multiset(high)[x] <= if x < n then 1 else 0 { assert OnOneSide(n, high, low, x); }
  }

  /** Sort, then move greedily. */
  method Finish(c: SystemConfig, list: seq<nat>, groups: seq<Group>, lowTime: real, ghost size: nat) returns (high: seq<nat>)
    requires size > 0 && Whole(|list|, size) && groups == GroupsOf(Experts(list), size)
    requires lowTime == Sum(Experts(list), LowCost(c))
    ensures BestSplit(c, list, size, high) && DistinctIds(|list|, high)
  {
    var s := Sort(groups);
    assert NoEmpty(s) by {
      GroupsNotEmpty(Experts(list), size);
      SortedNotEmpty(s, groups);
    }
    assert lowTime == LowTime(c, s, 0) by {
      SortedSum(s, list, size, LowCost(c));
      assert s[0..] == s;
    }
    ghost var k;
    high, k := Greedy(c, s, lowTime);
    GreedyIsBest(c, list, s, k, size);
  }
}

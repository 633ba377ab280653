/** How many tokens each expert gets: the per-batch counts and their sum over all
    batches, for any selection of experts. */
module TokenCounts {

  /** The experts selected for one token. */
  type Choice = seq<nat>

  ghost predicate ChoiceOk(ch: Choice, experts: nat, topK: nat) {
    |ch| == topK && forall e :: e in ch ==> e < experts
  }

  ghost predicate ChoicesOk(ts: seq<Choice>, experts: nat, topK: nat) {
    forall t :: t in ts ==> ChoiceOk(t, experts, topK)
  }

  function Total(counts: seq<nat>): nat {
    if counts == [] then 0 else Total(counts[..|counts| - 1]) + counts[|counts| - 1]
  }

  /** How often expert e is selected by a list of tokens. */
  function Hits(ts: seq<Choice>, e: nat): nat {
    if ts == [] then 0 else Hits(ts[..|ts| - 1], e) + multiset(ts[|ts| - 1])[e]
  }

  function Demand(ts: seq<Choice>, experts: nat): (r: seq<nat>)
    ensures |r| == experts
  {
    seq(experts, (e: nat) requires e < experts => Hits(ts, e))
  }

  /** One more selected expert raises one count. */
  lemma DemandBump(ts: seq<Choice>, ch: Choice, e: nat, experts: nat)
    requires e < experts
    ensures var d := Demand(ts + [ch], experts); Demand(ts + [ch + [e]], experts) == d[e := d[e] + 1]
  {
    assert (ts + [ch])[..|ts|] == ts && (ts + [ch + [e]])[..|ts|] == ts;
    assert multiset(ch + [e]) == multiset(ch) + multiset{e};
  }

  lemma DemandNothing(ts: seq<Choice>, experts: nat)
    ensures Demand(ts + [[]], experts) == Demand(ts, experts)
  {
    assert (ts + [[]])[..|ts|] == ts;
  }

  lemma {:induction false} TotalBump(counts: seq<nat>, e: nat)
    requires e < |counts|
    ensures Total(counts[e := counts[e] + 1]) == Total(counts) + 1
  {
    var last := |counts| - 1;
    if e < last {
      TotalBump(counts[..last], e);
      assert counts[e := counts[e] + 1][..last] == counts[..last][e := counts[e] + 1];
    } else {
      assert counts[e := counts[e] + 1][..last] == counts[..last];
    }
  }

  lemma {:induction false} TotalZero(counts: seq<nat>)
    requires forall i | 0 <= i < |counts| :: counts[i] == 0
    ensures Total(counts) == 0
  {
    if counts != [] {
      TotalZero(counts[..|counts| - 1]);
    }
  }

  lemma {:induction false} DemandChoice(ts: seq<Choice>, ch: Choice, experts: nat)
    requires forall e :: e in ch ==> e < experts
    ensures Total(Demand(ts + [ch], experts)) == Total(Demand(ts, experts)) + |ch|
    decreases |ch|
  {
    if ch == [] {
      DemandNothing(ts, experts);
    } else {
      var most, e := ch[..|ch| - 1], ch[|ch| - 1];
      assert ch == most + [e];
      assert forall x :: x in most ==> x in ch;
      assert e in ch;
      DemandChoice(ts, most, experts);
      DemandBump(ts, most, e, experts);
      TotalBump(Demand(ts + [most], experts), e);
    }
  }

  /** Conservation: however the experts are selected, the counts add up to the
      number of tokens times the number of experts a token selects. */
  lemma {:induction false} DemandTotal(ts: seq<Choice>, experts: nat, topK: nat)
    requires ChoicesOk(ts, experts, topK)
    ensures Total(Demand(ts, experts)) == topK * |ts|
  {
    if ts == [] {
      TotalZero(Demand(ts, experts));
    } else {
      var most, ch := ts[..|ts| - 1], ts[|ts| - 1];
      assert ts == most + [ch] && ch in ts;
      DemandTotal(most, experts, topK);
      DemandChoice(most, ch, experts);
    }
  }

  /** Lists one behind the other: the tokens of all requests of a batch, say, or the
      selections of all tokens. */
  function Flat<T>(parts: seq<seq<T>>): seq<T> {
    if parts == [] then [] else Flat(parts[..|parts| - 1]) + parts[|parts| - 1]
  }

  lemma FlatSnoc<T>(parts: seq<seq<T>>, i: nat)
    requires i < |parts|
    ensures Flat(parts[..i + 1]) == Flat(parts[..i]) + parts[i]
  {
    assert parts[..i + 1][..i] == parts[..i];
  }

  lemma {:induction false} FlatConcat<T>(a: seq<seq<T>>, b: seq<seq<T>>)
    ensures Flat(a + b) == Flat(a) + Flat(b)
    decreases |b|
  {
    if b == [] {
      assert a + b == a;
    } else {
      FlatConcat(a, b[..|b| - 1]);
      assert (a + b)[..|a + b| - 1] == a + b[..|b| - 1];
    }
  }

  /** Counting by token is counting in the list of all selections. */
  lemma {:induction false} HitsAre(ts: seq<Choice>, e: nat)
    ensures Hits(ts, e) == multiset(Flat<nat>(ts))[e]
    decreases |ts|
  {
    if ts != [] { HitsAre(ts[..|ts| - 1], e); }
  }

  // ----- Adding up the batches -----

  predicate Shaped(rows: seq<seq<nat>>, experts: nat) { forall r :: r in rows ==> |r| == experts }

  function Column(rows: seq<seq<nat>>, experts: nat, e: nat): nat
    requires Shaped(rows, experts) && e < experts
  {
    if rows == [] then 0
    else
      assert rows[|rows| - 1] in rows;
      Column(rows[..|rows| - 1], experts, e) + rows[|rows| - 1][e]
  }

  function Aggregate(rows: seq<seq<nat>>, experts: nat): (r: seq<nat>)
    requires Shaped(rows, experts)
    ensures |r| == experts
  {
    seq(experts, (e: nat) requires e < experts => Column(rows, experts, e))
  }

  function Totals(rows: seq<seq<nat>>): nat {
    if rows == [] then 0 else Totals(rows[..|rows| - 1]) + Total(rows[|rows| - 1])
  }

  lemma {:induction false} TotalSum(a: seq<nat>, b: seq<nat>, c: seq<nat>)
    requires |a| == |b| == |c| && forall e | 0 <= e < |a| :: c[e] == a[e] + b[e]
    ensures Total(c) == Total(a) + Total(b)
  {
    if a != [] { TotalSum(a[..|a| - 1], b[..|a| - 1], c[..|a| - 1]); }
  }

  /** Summing by expert or by batch is the same. */
  lemma {:induction false} AggregateTotal(rows: seq<seq<nat>>, experts: nat)
    requires Shaped(rows, experts)
    ensures Total(Aggregate(rows, experts)) == Totals(rows)
    decreases |rows|
  {
    if rows == [] {
      TotalZero(Aggregate(rows, experts));
    } else {
      var most, last := rows[..|rows| - 1], rows[|rows| - 1];
      assert last in rows;
      AggregateTotal(most, experts);
      TotalSum(Aggregate(most, experts), last, Aggregate(rows, experts));
    }
  }

  // ----- The running queue -----

  /** Tokens processed by all batches in this step. */
  function Processed(batches: seq<seq<seq<Choice>>>): nat {
    if batches == [] then 0 else Processed(batches[..|batches| - 1]) + |Flat(batches[|batches| - 1])|
  }

  ghost predicate BatchesOk(batches: seq<seq<seq<Choice>>>, experts: nat, topK: nat) {
    forall b :: b in batches ==> ChoicesOk(Flat(b), experts, topK)
  }

  /** Each row is the demand of its batch. */
  predicate RowsOf(rows: seq<seq<nat>>, batches: seq<seq<seq<Choice>>>, experts: nat) {
    |rows| == |batches| && forall i | 0 <= i < |rows| :: rows[i] == Demand(Flat(batches[i]), experts)
  }

  lemma Distribute(k: nat, x: nat, y: nat)
    ensures k * (x + y) == k * x + k * y
  {
  }

  lemma {:induction false} RowTotals(rows: seq<seq<nat>>, batches: seq<seq<seq<Choice>>>, experts: nat, topK: nat)
    requires BatchesOk(batches, experts, topK) && RowsOf(rows, batches, experts)
    ensures Totals(rows) == topK * Processed(batches)
    decreases |rows|
  {
    if rows != [] {
      var n := |rows| - 1;
      assert batches[n] in batches;
      RowTotals(rows[..n], batches[..n], experts, topK);
      DemandTotal(Flat(batches[n]), experts, topK);
      Distribute(topK, Processed(batches[..n]), |Flat(batches[n])|);
    }
  }

  /** The experts selected by the tokens of a batch, and by those of all batches. */
  function Selected(requests: seq<seq<Choice>>): seq<nat> { Flat<nat>(Flat<Choice>(requests)) }

  function SelectedByAll(batches: seq<seq<seq<Choice>>>): seq<nat> { Selected(Flat<seq<Choice>>(batches)) }

  lemma SelectedNext(batches: seq<seq<seq<Choice>>>, n: nat)
    requires |batches| == n + 1
    ensures SelectedByAll(batches) == SelectedByAll(batches[..n]) + Selected(batches[n])
  {
    FlatConcat<Choice>(Flat<seq<Choice>>(batches[..n]), batches[n]);
    FlatConcat<nat>(Flat<Choice>(Flat<seq<Choice>>(batches[..n])), Flat<Choice>(batches[n]));
  }

  lemma DemandAt(requests: seq<seq<Choice>>, experts: nat, e: nat)
    requires e < experts
    ensures Demand(Flat(requests), experts)[e] == multiset(Selected(requests))[e]
  {
    HitsAre(Flat(requests), e);
  }

  /** The count of an expert over all batches is how often the tokens of all batches,
      taken together, select it. */
  lemma {:induction false} ColumnIs(rows: seq<seq<nat>>, batches: seq<seq<seq<Choice>>>, experts: nat, e: nat)
    requires RowsOf(rows, batches, experts) && Shaped(rows, experts) && e < experts
    ensures Column(rows, experts, e) == multiset(SelectedByAll(batches))[e]
    decreases |rows|
  {
    if rows != [] {
      var n := |rows| - 1;
      assert rows[n] in rows && rows[n] == Demand(Flat(batches[n]), experts);
      ColumnIs(rows[..n], batches[..n], experts, e);
      SelectedNext(batches, n);
      DemandAt(batches[n], experts, e);
    }
  }

  /** Every count is the number of times its expert occurs among the selections. */
  predicate Counts(row: seq<nat>, selected: seq<nat>, experts: nat) {
    |row| == experts && forall e | 0 <= e < experts :: row[e] == multiset(selected)[e]
  }

  lemma DemandCounts(requests: seq<seq<Choice>>, experts: nat)
    ensures Counts(Demand(Flat(requests), experts), Selected(requests), experts)
  {
    forall e: nat | e < experts ensures Demand(Flat(requests), experts)[e] == multiset(Selected(requests))[e] {
      DemandAt(requests, experts, e);
    }
  }

  lemma AggregateCounts(rows: seq<seq<nat>>, batches: seq<seq<seq<Choice>>>, experts: nat)
    requires RowsOf(rows, batches, experts) && Shaped(rows, experts)
    ensures Counts(Aggregate(rows, experts), SelectedByAll(batches), experts)
  {
    forall e: nat | e < experts ensures Aggregate(rows, experts)[e] == multiset(SelectedByAll(batches))[e] {
      ColumnIs(rows, batches, experts, e);
    }
  }

  predicate AllRowsAre(rows: seq<seq<nat>>, n: nat, row: seq<nat>) {
    |rows| == n && forall i | 0 <= i < n :: rows[i] == row
  }

  lemma NextRow(rows: seq<seq<nat>>, i: nat, row: seq<nat>)
    requires i < |rows| && AllRowsAre(rows[..i], i, row)
    ensures AllRowsAre(rows[i := row][..i + 1], i + 1, row)
  {
    assert rows[i := row][..i + 1] == rows[..i] + [row];
  }

  /** The batches of all data-parallel ranks. `batches[i][r][t]` are the experts that
      token t of request r of batch i selects. */
  class RunningQueue {
    var batches: seq<seq<seq<Choice>>>
    var counts: seq<seq<nat>>
    var local: seq<seq<nat>>

    ghost predicate Valid(experts: nat, topK: nat)
      reads this
    {
      |counts| == |local| == |batches| && Shaped(local, experts) && BatchesOk(batches, experts, topK)
    }

    method UpdateExpert(i: nat, experts: nat, ghost topK: nat)
      requires Valid(experts, topK) && i < |batches|
      modifies this`counts
      ensures counts == old(counts)[i := Demand(Flat(batches[i]), experts)]
      ensures Counts(counts[i], Selected(batches[i]), experts)
    {
      var row := seq(experts, (e: nat) => 0);
      var requests := batches[i];
      assert requests in batches;
      for r := 0 to |requests|
        invariant counts == old(counts) && row == Demand(Flat(requests[..r]), experts)
      {
        FlatSnoc(requests, r);
        Prefixes(requests, r + 1);
        row := CountRequest(row, Flat(requests[..r]), requests[r], experts, topK);
      }
      assert requests[..|requests|] == requests;
      counts := counts[i := row];
      DemandCounts(requests, experts);
    }

    method CountRequest(before: seq<nat>, ghost done: seq<Choice>, tokens: seq<Choice>, experts: nat, ghost topK: nat)
      returns (row: seq<nat>)
      requires before == Demand(done, experts) && ChoicesOk(tokens, experts, topK)
      ensures row == Demand(done + tokens, experts)
    {
      row := before;
      assert done + tokens[..0] == done;
      for t := 0 to |tokens|
        invariant row == Demand(done + tokens[..t], experts)
      {
        ghost var ts := done + tokens[..t];
        var ch := tokens[t];
        DemandNothing(ts, experts);
        assert ch in tokens && ch[..0] == [];
        for k := 0 to |ch|
          invariant row == Demand(ts + [ch[..k]], experts)
        {
          assert ch[k] in ch;
          DemandBump(ts, ch[..k], ch[k], experts);
          assert ch[..k + 1] == ch[..k] + [ch[k]];
          row := row[ch[k] := row[ch[k]] + 1];
        }
        assert ch[..|ch|] == ch;
        assert ts + [ch] == done + tokens[..t + 1];
      }
      assert tokens[..|tokens|] == tokens;
    }

    /** Counting, adding up and handing out the sum, on rank 0 only: afterwards every
        batch keeps its own demand in `local` and the demand of all in `counts`, and
        the check of the total at the end never fails. */
    method AggregateExpert(rank: nat, experts: nat, topK: nat) returns (ok: bool)
      requires Valid(experts, topK)
      modifies this`counts, this`local
      ensures Valid(experts, topK) && ok
      ensures rank != 0 ==> counts == old(counts) && local == old(local)
      ensures rank == 0 ==> RowsOf(local, batches, experts) && AllRowsAre(counts, |batches|, Aggregate(local, experts))
      ensures rank == 0 ==> forall i | 0 <= i < |batches| ::
        Counts(local[i], Selected(batches[i]), experts) && Counts(counts[i], SelectedByAll(batches), experts)
    {
      if rank != 0 { return true; }
      CountAll(experts, topK);
      ghost var rows := counts;
      var temp := SumAll(experts);
      var testToken := HandOutAll(temp, experts);
      var processed := GetNumProcessToken();
      ok := testToken == processed * topK * |batches|;
      RowTotals(rows, batches, experts, topK);
      AggregateTotal(rows, experts);
      Associate(|batches|, topK, processed);
      AggregateCounts(rows, batches, experts);
      forall i | 0 <= i < |batches| ensures Counts(local[i], Selected(batches[i]), experts) {
        DemandCounts(batches[i], experts);
      }
    }

    method CountAll(experts: nat, ghost topK: nat)
      requires Valid(experts, topK)
      modifies this`counts
      ensures RowsOf(counts, batches, experts)
    {
      for i := 0 to |batches|
        invariant |counts| == |batches|
        invariant forall j | 0 <= j < i :: counts[j] == Demand(Flat(batches[j]), experts)
      {
        UpdateExpert(i, experts, topK);
      }
    }

    method SumAll(experts: nat) returns (temp: seq<nat>)
      requires Shaped(counts, experts) && Shaped(local, experts) && |counts| == |local|
      modifies this`local
      ensures local == counts && temp == Aggregate(counts, experts)
    {
      temp := seq(experts, (e: nat) => 0);
      for i := 0 to |counts|
        invariant |local| == |counts| && |temp| == experts && Shaped(local, experts)
        invariant local[..i] == counts[..i]
        invariant forall e | 0 <= e < experts :: temp[e] == Column(counts[..i], experts, e)
      {
        temp := KeepLocal(i, temp, counts, experts);
      }
      assert counts[..|counts|] == counts && local[..|counts|] == local;
    }

    method HandOutAll(temp: seq<nat>, experts: nat) returns (testToken: nat)
      requires Shaped(counts, experts) && |temp| == experts
      modifies this`counts
      ensures AllRowsAre(counts, |old(counts)|, temp) && testToken == |old(counts)| * Total(temp)
    {
      testToken := 0;
      for i := 0 to |counts|
        invariant |counts| == |old(counts)| && Shaped(counts, experts)
        invariant AllRowsAre(counts[..i], i, temp)
        invariant testToken == i * Total(temp)
      {
        ghost var before := counts;
        var sum := HandOut(i, temp);
        NextRow(before, i, temp);
        Distribute(Total(temp), i, 1);
        testToken := testToken + sum;
      }
      assert counts[..|counts|] == counts;
    }

    /** One batch's counts copied to its local counts and added to the sums. */
    method KeepLocal(i: nat, before: seq<nat>, ghost rows: seq<seq<nat>>, experts: nat) returns (temp: seq<nat>)
      requires counts == rows && Shaped(rows, experts) && Shaped(local, experts) && i < |rows| == |local| && |before| == experts
      requires local[..i] == rows[..i]
      requires forall e | 0 <= e < experts :: before[e] == Column(rows[..i], experts, e)
      modifies this`local
      ensures |local| == |rows| && Shaped(local, experts) && local[..i + 1] == rows[..i + 1] && |temp| == experts
      ensures forall e | 0 <= e < experts :: temp[e] == Column(rows[..i + 1], experts, e)
    {
      temp := before;
      for j := 0 to experts
        invariant |local| == |rows| && Shaped(local, experts) && local[..i] == rows[..i] && |temp| == experts
        invariant local[i][..j] == rows[i][..j]
        invariant forall e | 0 <= e < j :: temp[e] == before[e] + rows[i][e]
        invariant forall e | j <= e < experts :: temp[e] == before[e]
      {
        ghost var done := local[i];
        local := local[i := local[i][j := counts[i][j]]];
        temp := temp[j := temp[j] + counts[i][j]];
        assert local[i][..j + 1] == done[..j] + [rows[i][j]];
      }
      assert local[i] == rows[i];
      assert rows[..i + 1][..i] == rows[..i];
    }

    /** The sums written back to one batch. */
    method HandOut(i: nat, temp: seq<nat>) returns (sum: nat)
      requires i < |counts| && |counts[i]| == |temp|
      modifies this`counts
      ensures counts == old(counts)[i := temp] && sum == Total(temp)
    {
      sum := 0;
      for j := 0 to |temp|
        invariant |counts| == |old(counts)| && |counts[i]| == |temp|
        invariant counts == old(counts)[i := counts[i]] && counts[i][..j] == temp[..j]
        invariant sum == Total(temp[..j])
      {
        assert temp[..j + 1][..j] == temp[..j];
        counts := counts[i := counts[i][j := temp[j]]];
        sum := sum + temp[j];
      }
      assert temp[..|temp|] == temp && counts[i] == temp;
    }

    method GetNumProcessToken() returns (sum: nat)
      ensures sum == Processed(batches)
    {
      sum := 0;
      for i := 0 to |batches|
        invariant sum == Processed(batches[..i])
      {
        assert batches[..i + 1][..i] == batches[..i];
        var tokens := 0;
        for r := 0 to |batches[i]|
          invariant tokens == |Flat(batches[i][..r])|
        {
          FlatSnoc(batches[i], r);
          tokens := tokens + |batches[i][r]|;
        }
        assert batches[i][..|batches[i]|] == batches[i];
        sum := sum + tokens;
      }
      assert batches[..|batches|] == batches;
    }
  }

  lemma Associate(n: nat, k: nat, p: nat)
    ensures n * (k * p) == p * k * n
  {
  }

  /** A request's tokens are among those of its batch. */
  lemma {:induction false} Prefixes(requests: seq<seq<Choice>>, n: nat)
    requires n <= |requests|
    ensures forall t :: t in Flat(requests[..n]) ==> t in Flat(requests)
    decreases |requests| - n
  {
    if n < |requests| {
      Prefixes(requests, n + 1);
      FlatSnoc(requests, n);
    } else {
      assert requests[..n] == requests;
    }
  }
}

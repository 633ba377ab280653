/** Trace listings: lines of a depth and a payload, the trees they stand for, and the
    stack parser that rebuilds a tree from its lines. */
module TraceListing {

  /** What a line says besides its depth; the time is filled in when the stamp closes. */
  datatype Payload = Payload(name: string, time: int)

  datatype Line = Line(depth: nat, payload: Payload)

  datatype Tree = Tree(payload: Payload, children: seq<Tree>)

  datatype Option<T> = None | Some(value: T)

  // ----- Printing -----

  /** The preorder listing of a tree. */
  function Listing(t: Tree, level: nat): (r: seq<Line>)
    ensures |r| > 0
    decreases t
  {
    [Line(level, t.payload)] + ListingAll(t.children, level + 1)
  }

  function ListingAll(ts: seq<Tree>, level: nat): seq<Line>
    decreases ts
  {
    if ts == [] then [] else ListingAll(ts[..|ts| - 1], level) + Listing(ts[|ts| - 1], level)
  }

  lemma ListingAllSnoc(most: seq<Tree>, last: Tree, level: nat)
    ensures ListingAll(most + [last], level) == ListingAll(most, level) + Listing(last, level)
  {
    assert (most + [last])[..|most|] == most;
  }

  lemma Associative<T>(x: seq<T>, y: seq<T>, z: seq<T>)
    ensures (x + y) + z == x + (y + z)
  {
  }

  lemma {:induction false} ListingAllConcat(ts: seq<Tree>, us: seq<Tree>, level: nat)
    ensures ListingAll(ts + us, level) == ListingAll(ts, level) + ListingAll(us, level)
    decreases |us|
  {
    if us == [] {
      assert ts + us == ts;
    } else {
      var most, last := us[..|us| - 1], us[|us| - 1];
      assert us == most + [last];
      ListingAllConcat(ts, most, level);
      assert ts + us == (ts + most) + [last];
      ListingAllSnoc(ts + most, last, level);
      ListingAllSnoc(most, last, level);
      Associative(ListingAll(ts, level), ListingAll(most, level), Listing(last, level));
    }
  }

  lemma ListingOne(t: Tree, level: nat)
    ensures ListingAll([t], level) == Listing(t, level)
  {
    assert [t][..0] == [];
  }

  /** A listing opens with its root, and everything else is deeper. */
  lemma {:induction false} ListingDeeper(t: Tree, level: nat)
    ensures Listing(t, level)[0] == Line(level, t.payload)
    ensures forall i | 0 < i < |Listing(t, level)| :: Listing(t, level)[i].depth > level
    decreases t, 0
  {
    ListingAllDeep(t.children, level + 1);
  }

  lemma {:induction false} ListingAllDeep(ts: seq<Tree>, level: nat)
    ensures forall i | 0 <= i < |ListingAll(ts, level)| :: ListingAll(ts, level)[i].depth >= level
    ensures ts != [] ==> |ListingAll(ts, level)| > 0 && ListingAll(ts, level)[0].depth == level
    decreases ts, |ts|
  {
    if ts != [] {
      ListingAllDeep(ts[..|ts| - 1], level);
      ListingDeeper(ts[|ts| - 1], level);
    }
  }

  // ----- The nearest earlier line of smaller depth -----

  predicate IsParent(lines: seq<Line>, k: nat, j: nat) {
    && k < j < |lines| && lines[k].depth < lines[j].depth
    && forall m | k < m < j :: lines[m].depth >= lines[j].depth
  }

  /** Positions strictly between i and n. */
  predicate After(cs: seq<nat>, i: nat, n: nat) { forall k | 0 <= k < |cs| :: i < cs[k] < n }

  /** The lines among the first n whose parent is line i, in input order. */
  function ChildrenOf(lines: seq<Line>, i: nat, n: nat): (r: seq<nat>)
    requires n <= |lines|
    ensures After(r, i, n)
  {
    if n == 0 then []
    else if IsParent(lines, i, n - 1) then ChildrenOf(lines, i, n - 1) + [n - 1]
    else ChildrenOf(lines, i, n - 1)
  }

  /** A line is listed exactly under its nearest earlier line of smaller depth, once,
      and the children of a line come in input order. */
  lemma {:induction false} ChildrenExactly(lines: seq<Line>, i: nat, n: nat)
    requires n <= |lines|
    ensures forall c: nat :: c in ChildrenOf(lines, i, n) <==> c < n && IsParent(lines, i, c)
    ensures forall k, l | 0 <= k < l < |ChildrenOf(lines, i, n)| :: ChildrenOf(lines, i, n)[k] < ChildrenOf(lines, i, n)[l]
  {
    if n > 0 { ChildrenExactly(lines, i, n - 1); }
  }

  /** A line has a parent exactly when some earlier line is shallower, and only one. */
  lemma {:induction false} OneParent(lines: seq<Line>, j: nat, m: nat) returns (k: nat)
    requires m < j < |lines| && lines[m].depth < lines[j].depth
    ensures IsParent(lines, k, j) && forall l: nat :: IsParent(lines, l, j) ==> l == k
    decreases j - m
  {
    if n :| m < n < j && lines[n].depth < lines[j].depth {
      k := OneParent(lines, j, n);
    } else {
      k := m;
    }
  }

  /** Nodes under construction; children are positions in the list of nodes. */
  datatype Node = Node(line: Line, children: seq<nat>)

  predicate Forward(nodes: seq<Node>) {
    forall i | 0 <= i < |nodes| :: After(nodes[i].children, i, |nodes|)
  }

  function ArenaOf(lines: seq<Line>): (nodes: seq<Node>)
    ensures |nodes| == |lines| && Forward(nodes)
  {
    seq(|lines|, (i: nat) requires i < |lines| => Node(lines[i], ChildrenOf(lines, i, |lines|)))
  }

  /** The tree that hangs at a node. */
  function TreeAt(nodes: seq<Node>, i: nat): Tree
    requires Forward(nodes) && i < |nodes|
    decreases |nodes| - i, 1, 0
  {
    Tree(nodes[i].line.payload, TreesAt(nodes, i, nodes[i].children))
  }

  function TreesAt(nodes: seq<Node>, i: nat, cs: seq<nat>): seq<Tree>
    requires Forward(nodes) && i < |nodes| && After(cs, i, |nodes|)
    decreases |nodes| - i, 0, |cs|
  {
    if cs == [] then []
    else TreesAt(nodes, i, cs[..|cs| - 1]) + [TreeAt(nodes, cs[|cs| - 1])]
  }

  // ----- The parser -----

  /** Line k is still open before line j: everything in between is deeper. */
  predicate Open(lines: seq<Line>, k: nat, j: nat)
    requires j <= |lines|
  {
    k < j && forall m | k < m < j :: lines[m].depth > lines[k].depth
  }

  /** The stack holds exactly the open lines, outermost first, with strictly
      increasing depths. */
  predicate StackOk(lines: seq<Line>, stack: seq<nat>, j: nat)
    requires j <= |lines|
  {
    && (forall t | 0 <= t < |stack| :: Open(lines, stack[t], j))
    && (forall t, u | 0 <= t < u < |stack| :: stack[t] < stack[u] && lines[stack[t]].depth < lines[stack[u]].depth)
    && (forall k | 0 <= k < j && Open(lines, k, j) :: k in stack)
  }

  /** Among the lines from m on, one of depth below d is open if there is any. */
  lemma {:induction false} NearestIsOpen(lines: seq<Line>, m: nat, j: nat, d: nat) returns (k: nat)
    requires m < j <= |lines| && lines[m].depth < d
    ensures m <= k < j && Open(lines, k, j) && lines[k].depth < d
    decreases j - m
  {
    if n :| m < n < j && lines[n].depth < d {
      k := NearestIsOpen(lines, n, j, d);
    } else {
      k := m;
    }
  }

  /** The top of the popped stack is the parent; with an empty stack there is none. */
  lemma PoppedParent(lines: seq<Line>, stack: seq<nat>, j: nat, n: nat)
    requires j < |lines| && StackOk(lines, stack, j) && n <= |stack|
    requires forall t | n <= t < |stack| :: lines[stack[t]].depth >= lines[j].depth
    requires n > 0 ==> lines[stack[n - 1]].depth < lines[j].depth
    ensures forall k | 0 <= k < |lines| :: IsParent(lines, k, j) <==> n > 0 && k == stack[n - 1]
  {
    var d := lines[j].depth;
    forall m | 0 <= m < j && lines[m].depth < d ensures n > 0 && m <= stack[n - 1] {
      var k := NearestIsOpen(lines, m, j, d);
      var t :| 0 <= t < |stack| && stack[t] == k;
    }
    if n > 0 { assert IsParent(lines, stack[n - 1], j); }
  }

  /** Pushing the line on the popped stack keeps exactly the open lines on it. */
  lemma PoppedStack(lines: seq<Line>, stack: seq<nat>, j: nat, n: nat)
    requires j < |lines| && StackOk(lines, stack, j) && n <= |stack|
    requires forall t | n <= t < |stack| :: lines[stack[t]].depth >= lines[j].depth
    requires n > 0 ==> lines[stack[n - 1]].depth < lines[j].depth
    ensures StackOk(lines, stack[..n] + [j], j + 1)
  {
    forall k | 0 <= k < j + 1 && Open(lines, k, j + 1) ensures k in stack[..n] + [j] {
      if k < j {
        assert Open(lines, k, j) && lines[j].depth > lines[k].depth;
        var t :| 0 <= t < |stack| && stack[t] == k;
        assert stack[..n][t] == k;
      }
    }
    var next := stack[..n] + [j];
    forall t | 0 <= t < |next| ensures Open(lines, next[t], j + 1) {
      if t < n { assert next[t] == stack[t] && lines[stack[t]].depth <= lines[stack[n - 1]].depth; }
    }
  }

  /** Nodes for the first j lines. */
  predicate Built(lines: seq<Line>, nodes: seq<Node>, j: nat)
    requires j <= |lines|
  {
    |nodes| == j && forall i | 0 <= i < j :: nodes[i] == Node(lines[i], ChildrenOf(lines, i, j))
  }

  /** What popping leaves before a line of depth d: the lines dropped are not shallower. */
  predicate Popped(lines: seq<Line>, stack: seq<nat>, popped: seq<nat>, j: nat, d: nat)
    requires j <= |lines| && StackOk(lines, stack, j)
  {
    && popped <= stack
    && (forall t | |popped| <= t < |stack| :: lines[stack[t]].depth >= d)
    && (popped != [] ==> lines[popped[|popped| - 1]].depth < d)
  }

  /** The inner loop of both parsers: pop every line that is not shallower. */
  method PopStack(ghost lines: seq<Line>, nodes: seq<Node>, stack: seq<nat>, d: nat) returns (popped: seq<nat>)
    requires |nodes| < |lines| && Built(lines, nodes, |nodes|) && StackOk(lines, stack, |nodes|)
    ensures Popped(lines, stack, popped, |nodes|, d)
  {
    popped := stack;
    while popped != [] && nodes[popped[|popped| - 1]].line.depth >= d
      invariant popped <= stack
      invariant forall t | |popped| <= t < |stack| :: lines[stack[t]].depth >= d
      decreases |popped|
    {
      popped := popped[..|popped| - 1];
    }
  }

  /** Appending a line below the top of the popped stack. */
  method Attach(ghost lines: seq<Line>, nodes: seq<Node>, ghost stack: seq<nat>, popped: seq<nat>, line: Line)
    returns (r: seq<Node>)
    requires |nodes| < |lines| && lines[|nodes|] == line && Built(lines, nodes, |nodes|)
    requires StackOk(lines, stack, |nodes|) && Popped(lines, stack, popped, |nodes|, line.depth)
    ensures Built(lines, r, |nodes| + 1) && StackOk(lines, popped + [|nodes|], |nodes| + 1)
  {
    var j := |nodes|;
    PoppedParent(lines, stack, j, |popped|);
    PoppedStack(lines, stack, j, |popped|);
    assert stack[..|popped|] == popped;
    r := nodes;
    if popped != [] {
      var top := popped[|popped| - 1];
      r := r[top := r[top].(children := r[top].children + [j])];
    }
    r := r + [Node(line, [])];
    NoChildrenYet(lines, j, j + 1);
  }

  lemma {:induction false} NoChildrenYet(lines: seq<Line>, i: nat, n: nat)
    requires n <= |lines| && n <= i + 1
    ensures ChildrenOf(lines, i, n) == []
  {
    if n > 0 { NoChildrenYet(lines, i, n - 1); }
  }

  /** One turn of both parsers: pop, attach, push. */
  method AddLine(ghost lines: seq<Line>, nodes: seq<Node>, stack: seq<nat>, line: Line)
    returns (r: seq<Node>, next: seq<nat>, alone: bool)
    requires |nodes| < |lines| && lines[|nodes|] == line
    requires Built(lines, nodes, |nodes|) && StackOk(lines, stack, |nodes|)
    ensures Built(lines, r, |nodes| + 1) && StackOk(lines, next, |nodes| + 1)
    ensures nodes == [] ==> alone
  {
    var popped := PopStack(lines, nodes, stack, line.depth);
    alone := popped == [];
    r := Attach(lines, nodes, stack, popped, line);
    next := popped + [|nodes|];
    assert nodes == [] ==> stack == [] by { if stack != [] { assert Open(lines, stack[0], |nodes|); } }
  }

  /** The layer parser: the root is the first line, whatever follows it. */
  method BuildTree(lines: seq<Line>) returns (nodes: seq<Node>)
    requires lines != []
    ensures nodes == ArenaOf(lines)
  {
    nodes := [Node(lines[0], [])];
    var stack: seq<nat> := [0];
    NoChildrenYet(lines, 0, 1);
    var j := 1;
    while j < |lines|
      invariant 1 <= j <= |lines| && Built(lines, nodes, j) && StackOk(lines, stack, j)
    {
      var alone;
      nodes, stack, alone := AddLine(lines, nodes, stack, lines[j]);
      j := j + 1;
    }
  }

  /** Lines that could be parsed. */
  function Parsed(lines: seq<Option<Line>>): seq<Line> {
    if lines == [] then []
    else
      var last := lines[|lines| - 1];
      Parsed(lines[..|lines| - 1]) + if last.Some? then [last.value] else []
  }

  lemma {:induction false} ParsedPrefix(lines: seq<Option<Line>>, i: nat)
    requires i <= |lines|
    ensures Parsed(lines[..i]) <= Parsed(lines)
    decreases |lines| - i
  {
    if i < |lines| {
      assert lines[..i + 1][..i] == lines[..i];
      ParsedPrefix(lines, i + 1);
    } else {
      assert lines[..i] == lines;
    }
  }

  lemma ParsedNext(lines: seq<Option<Line>>, i: nat)
    requires i < |lines|
    ensures Parsed(lines[..i + 1]) == Parsed(lines[..i]) + if lines[i].Some? then [lines[i].value] else []
    ensures |Parsed(lines[..i + 1])| <= |Parsed(lines)|
    ensures lines[i].Some? ==> Parsed(lines)[|Parsed(lines[..i])|] == lines[i].value
  {
    assert lines[..i + 1][..i] == lines[..i];
    ParsedPrefix(lines, i + 1);
  }

  /** The result viewer's parser: unparsable lines are dropped, and lines at the top
      after the first do not change the root. */
  method BuildView(lines: seq<Option<Line>>) returns (root: Option<nat>, nodes: seq<Node>)
    ensures nodes == ArenaOf(Parsed(lines))
    ensures root == if Parsed(lines) == [] then None else Some(0)
  {
    ghost var all := Parsed(lines);
    var stack: seq<nat> := [];
    root, nodes := None, [];
    for i := 0 to |lines|
      invariant |nodes| == |Parsed(lines[..i])| <= |all|
      invariant Built(all, nodes, |nodes|) && StackOk(all, stack, |nodes|)
      invariant root == if nodes == [] then None else Some(0)
    {
      ParsedNext(lines, i);
      if lines[i].Some? {
        var j, alone := |nodes|, false;
        nodes, stack, alone := AddLine(all, nodes, stack, lines[i].value);
        if alone && root.None? { root := Some(j); }
      }
    }
    assert lines[..|lines|] == lines;
  }

  // ----- Parsing what was printed -----

  /** The lines xs stand at position i and are followed by nothing deeper than `level`. */
  predicate StandsAt(lines: seq<Line>, i: nat, xs: seq<Line>, level: nat) {
    && i + |xs| <= |lines| && lines[i..i + |xs|] == xs
    && (i + |xs| < |lines| ==> lines[i + |xs|].depth <= level)
  }

  lemma StandsSplit(lines: seq<Line>, i: nat, xs: seq<Line>, ys: seq<Line>, level: nat)
    requires StandsAt(lines, i, xs + ys, level) && ys != [] && ys[0].depth <= level
    ensures StandsAt(lines, i, xs, level) && StandsAt(lines, i + |xs|, ys, level)
  {
    var all := lines[i..i + |xs| + |ys|];
    assert all == xs + ys;
    assert lines[i..i + |xs|] == all[..|xs|];
    assert lines[i + |xs|..i + |xs| + |ys|] == all[|xs|..];
    assert lines[i + |xs|] == all[|xs|];
  }

  lemma StandsLine(lines: seq<Line>, i: nat, xs: seq<Line>, level: nat, m: nat)
    requires StandsAt(lines, i, xs, level) && i <= m < i + |xs|
    ensures lines[m] == xs[m - i]
  {
    assert lines[m] == lines[i..i + |xs|][m - i];
  }

  /** Where the trees of a forest start. */
  function Offsets(ts: seq<Tree>, at: nat, level: nat): (r: seq<nat>)
    ensures |r| == |ts| && forall k | 0 <= k < |r| :: at <= r[k]
  {
    if ts == [] then [] else Offsets(ts[..|ts| - 1], at, level) + [at + |ListingAll(ts[..|ts| - 1], level)|]
  }

  lemma {:induction false} NoMoreChildren(lines: seq<Line>, i: nat, lo: nat, hi: nat)
    requires lo <= hi <= |lines| && forall j | lo <= j < hi :: !IsParent(lines, i, j)
    ensures ChildrenOf(lines, i, hi) == ChildrenOf(lines, i, lo)
    decreases hi
  {
    if lo < hi { NoMoreChildren(lines, i, lo, hi - 1); }
  }

  /** A forest that stands somewhere splits into its first trees and its last. */
  lemma ForestSplit(lines: seq<Line>, at: nat, most: seq<Tree>, last: Tree, level: nat)
    requires StandsAt(lines, at, ListingAll(most + [last], level), level)
    ensures ListingAll(most + [last], level) == ListingAll(most, level) + Listing(last, level)
    ensures StandsAt(lines, at, ListingAll(most, level), level)
    ensures StandsAt(lines, at + |ListingAll(most, level)|, Listing(last, level), level)
  {
    ListingAllSnoc(most, last, level);
    ListingDeeper(last, level);
    StandsSplit(lines, at, ListingAll(most, level), Listing(last, level), level);
  }

  /** A shallower line in between keeps a line from being a child. */
  lemma Shadowed(lines: seq<Line>, i: nat, s: nat, j: nat)
    requires i < s < j < |lines| && lines[s].depth < lines[j].depth
    ensures !IsParent(lines, i, j)
  {
  }

  lemma IsNextChild(lines: seq<Line>, i: nat, s: nat, level: nat)
    requires i < s < |lines| && lines[i].depth < level == lines[s].depth
    requires forall m | i < m < s :: lines[m].depth >= level
    ensures ChildrenOf(lines, i, s + 1) == ChildrenOf(lines, i, s) + [s]
  {
    assert IsParent(lines, i, s);
  }

  /** A line at the level of the children, with deeper lines behind it, is one child. */
  lemma NextChild(lines: seq<Line>, i: nat, s: nat, e: nat, level: nat)
    requires i < s < e <= |lines| && lines[i].depth < level == lines[s].depth
    requires forall m | i < m < s :: lines[m].depth >= level
    requires forall m | s < m < e :: lines[m].depth > level
    ensures ChildrenOf(lines, i, e) == ChildrenOf(lines, i, s) + [s]
  {
    IsNextChild(lines, i, s, level);
    forall j | s + 1 <= j < e ensures !IsParent(lines, i, j) { Shadowed(lines, i, s, j); }
    NoMoreChildren(lines, i, s + 1, e);
  }

  /** The children of line i are the roots of the forest right behind it. */
  lemma {:induction false} RootChildren(lines: seq<Line>, i: nat, ts: seq<Tree>, level: nat)
    requires i < |lines| && lines[i].depth < level && StandsAt(lines, i + 1, ListingAll(ts, level), level)
    ensures ChildrenOf(lines, i, i + 1 + |ListingAll(ts, level)|) == Offsets(ts, i + 1, level)
    decreases |ts|
  {
    if ts == [] {
      NoChildrenYet(lines, i, i + 1);
    } else {
      var most, last := ts[..|ts| - 1], ts[|ts| - 1];
      assert ts == most + [last];
      ForestSplit(lines, i + 1, most, last, level);
      RootChildren(lines, i, most, level);
      NextTree(lines, i, i + 1 + |ListingAll(most, level)|, most, last, level);
    }
  }

  lemma NextTree(lines: seq<Line>, i: nat, s: nat, most: seq<Tree>, last: Tree, level: nat)
    requires i < |lines| && lines[i].depth < level && s == i + 1 + |ListingAll(most, level)|
    requires StandsAt(lines, i + 1, ListingAll(most, level), level) && StandsAt(lines, s, Listing(last, level), level)
    ensures ChildrenOf(lines, i, s + |Listing(last, level)|) == ChildrenOf(lines, i, s) + [s]
  {
    var e := s + |Listing(last, level)|;
    forall m | i < m < s ensures lines[m].depth >= level {
      ListingAllDeep(most, level);
      StandsLine(lines, i + 1, ListingAll(most, level), level, m);
    }
    ListingDeeper(last, level);
    StandsLine(lines, s, Listing(last, level), level, s);
    forall m | s < m < e ensures lines[m].depth > level {
      StandsLine(lines, s, Listing(last, level), level, m);
    }
    NextChild(lines, i, s, e, level);
  }

  lemma LaterLines(lines: seq<Line>, i: nat, e: nat)
    requires i < e <= |lines| && (e < |lines| ==> lines[e].depth <= lines[i].depth)
    ensures ChildrenOf(lines, i, |lines|) == ChildrenOf(lines, i, e)
  {
    NoMoreChildren(lines, i, e, |lines|);
  }

  lemma TreeStands(lines: seq<Line>, i: nat, t: Tree, level: nat, xs: seq<Line>)
    requires xs == Listing(t, level) && StandsAt(lines, i, xs, level)
    ensures i < |lines| && lines[i] == Line(level, t.payload)
    ensures StandsAt(lines, i + 1, ListingAll(t.children, level + 1), level + 1)
    ensures var e := i + 1 + |ListingAll(t.children, level + 1)|; e < |lines| ==> lines[e].depth <= level
  {
    assert lines[i] == lines[i..i + |xs|][0];
    assert lines[i + 1..i + |xs|] == lines[i..i + |xs|][1..];
  }

  /** Each tree of a forest stands at its offset. */
  lemma {:induction false} TreeStandsAt(lines: seq<Line>, at: nat, ts: seq<Tree>, level: nat, k: nat)
    requires k < |ts| && StandsAt(lines, at, ListingAll(ts, level), level)
    ensures StandsAt(lines, Offsets(ts, at, level)[k], Listing(ts[k], level), level)
    decreases |ts|
  {
    var most, last := ts[..|ts| - 1], ts[|ts| - 1];
    assert ts == most + [last];
    ForestSplit(lines, at, most, last, level);
    if k < |most| { TreeStandsAt(lines, at, most, level, k); }
  }

  lemma LastTree(nodes: seq<Node>, i: nat, cs: seq<nat>, c: nat)
    requires Forward(nodes) && i < c < |nodes| && After(cs, i, |nodes|)
    ensures After(cs + [c], i, |nodes|)
    ensures TreesAt(nodes, i, cs + [c]) == TreesAt(nodes, i, cs) + [TreeAt(nodes, c)]
  {
    assert (cs + [c])[..|cs|] == cs;
  }

  lemma {:induction false} TreesAre(nodes: seq<Node>, i: nat, cs: seq<nat>, ts: seq<Tree>)
    requires Forward(nodes) && i < |nodes| && After(cs, i, |nodes|) && |cs| == |ts|
    requires forall k | 0 <= k < |cs| :: TreeAt(nodes, cs[k]) == ts[k]
    ensures TreesAt(nodes, i, cs) == ts
    decreases |cs|
  {
    if cs != [] {
      var last := |cs| - 1;
      TreesAre(nodes, i, cs[..last], ts[..last]);
      assert ts == ts[..last] + [ts[last]];
    }
  }

  /** Parsing undoes printing: wherever the listing of a tree stands, the node at its
      first line carries the tree. */
  lemma {:induction false} ListingParses(lines: seq<Line>, i: nat, t: Tree, level: nat, xs: seq<Line>)
    requires xs == Listing(t, level) && StandsAt(lines, i, xs, level)
    ensures i < |lines| && TreeAt(ArenaOf(lines), i) == t
    decreases t
  {
    var nodes, cs := ArenaOf(lines), Offsets(t.children, i + 1, level + 1);
    TreeStands(lines, i, t, level, xs);
    RootChildren(lines, i, t.children, level + 1);
    LaterLines(lines, i, i + 1 + |ListingAll(t.children, level + 1)|);
    assert nodes[i].children == cs;
    forall k | 0 <= k < |cs| ensures TreeAt(nodes, cs[k]) == t.children[k] {
      TreeStandsAt(lines, i + 1, t.children, level + 1, k);
      ListingParses(lines, cs[k], t.children[k], level + 1, Listing(t.children[k], level + 1));
    }
    TreesAre(nodes, i, cs, t.children);
  }

  /** From the listings of several trees one behind the other the parser returns
      exactly the first. */
  lemma FirstOfSiblings(ts: seq<Tree>, level: nat)
    requires ts != []
    ensures ListingAll(ts, level) != [] && TreeAt(ArenaOf(ListingAll(ts, level)), 0) == ts[0]
  {
    var first, rest := ts[..1], ts[1..];
    assert ts == first + rest && first == [ts[0]];
    ListingAllConcat(first, rest, level);
    ListingOne(ts[0], level);
    ListingAllDeep(rest, level);
    ListingParses(ListingAll(ts, level), 0, ts[0], level, Listing(ts[0], level));
  }

  /** Which lines hang below which depends on the depths alone. */
  lemma {:induction false} ChildrenDepths(lines: seq<Line>, lines': seq<Line>, i: nat, n: nat)
    requires n <= |lines| && n <= |lines'| && forall j | 0 <= j < n :: lines[j].depth == lines'[j].depth
    ensures ChildrenOf(lines, i, n) == ChildrenOf(lines', i, n)
  {
    if n > 0 {
      ChildrenDepths(lines, lines', i, n - 1);
      assert IsParent(lines, i, n - 1) <==> IsParent(lines', i, n - 1);
    }
  }
}

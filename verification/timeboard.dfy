/** The board that records nested stamps: replaying a trace of openings and closings,
    printing it, and parsing the printed lines again. */
module TimeBoards {
  import opened TraceListing

  datatype Event = Push(name: string) | Pop(time: int)

  /** The trace a tree of stamps comes from. */
  function Trace(t: Tree): seq<Event>
    decreases t
  {
    [Push(t.payload.name)] + (TraceAll(t.children) + [Pop(t.payload.time)])
  }

  function TraceAll(ts: seq<Tree>): seq<Event>
    decreases ts
  {
    if ts == [] then [] else TraceAll(ts[..|ts| - 1]) + Trace(ts[|ts| - 1])
  }

  /** Openings and closings match, with d stamps open at the beginning. */
  predicate Balanced(es: seq<Event>, d: nat)
    decreases |es|
  {
    if es == [] then d == 0
    else match es[0]
      case Push(_) => Balanced(es[1..], d + 1)
      case Pop(_) => d > 0 && Balanced(es[1..], d - 1)
  }

  lemma TraceAllSnoc(ts: seq<Tree>, t: Tree)
    ensures TraceAll(ts + [t]) == TraceAll(ts) + Trace(t)
  {
    assert (ts + [t])[..|ts|] == ts;
  }

  lemma TraceAllOne(t: Tree)
    ensures TraceAll([t]) == Trace(t)
  {
    assert [t][..0] == [];
  }

  lemma {:induction false} TraceAllCons(t: Tree, ts: seq<Tree>)
    ensures TraceAll([t] + ts) == Trace(t) + TraceAll(ts)
    decreases |ts|
  {
    if ts == [] {
      assert [t] + ts == [t];
      TraceAllOne(t);
    } else {
      var most, last := ts[..|ts| - 1], ts[|ts| - 1];
      assert ts == most + [last];
      assert [t] + ts == ([t] + most) + [last];
      assert TraceAll([t] + ts) == TraceAll([t] + most) + Trace(last) by { TraceAllSnoc([t] + most, last); }
      assert TraceAll(ts) == TraceAll(most) + Trace(last) by { TraceAllSnoc(most, last); }
      TraceAllCons(t, most);
      Associative(Trace(t), TraceAll(most), Trace(last));
    }
  }

  /** Whole trees, then the closing of an enclosing stamp or the end. */
  lemma {:induction false} Segments(es: seq<Event>, d: nat) returns (ts: seq<Tree>, rest: seq<Event>)
    requires Balanced(es, d)
    ensures es == TraceAll(ts) + rest
    ensures if d == 0 then rest == [] else rest != [] && rest[0].Pop? && Balanced(rest[1..], d - 1)
    decreases |es|
  {
    if es == [] || es[0].Pop? {
      ts, rest := [], es;
    } else {
      var inner, tail := Segments(es[1..], d + 1);
      var more;
      more, rest := Segments(tail[1..], d);
      var t := Tree(Payload(es[0].name, tail[0].time), inner);
      ts := [t] + more;
      TraceAllCons(t, more);
      assert es == [es[0]] + es[1..] && tail == [tail[0]] + tail[1..];
      assert es[1..] == TraceAll(inner) + ([tail[0]] + (TraceAll(more) + rest));
      Regroup(es[0], TraceAll(inner), tail[0], TraceAll(more), rest);
    }
  }

  lemma Regroup<T>(a: T, x: seq<T>, b: T, y: seq<T>, z: seq<T>)
    ensures [a] + (x + ([b] + (y + z))) == (([a] + (x + [b])) + y) + z
  {
  }

  /** Every balanced trace is the trace of some trees. */
  lemma BalancedIsTrace(es: seq<Event>) returns (ts: seq<Tree>)
    requires Balanced(es, 0)
    ensures TraceAll(ts) == es
  {
    var rest;
    ts, rest := Segments(es, 0);
  }

  // ----- The log of a board: its lines in order of opening, and the open ones -----

  datatype Log = Log(lines: seq<Line>, path: seq<nat>)

  /** Each event finds some stamp open. */
  predicate Steps(es: seq<Event>, open: nat)
    decreases |es|
  {
    es == [] || (open > 0 && Steps(es[1..], if es[0].Push? then open + 1 else open - 1))
  }

  predicate PathInside(l: Log) { forall t | 0 <= t < |l.path| :: l.path[t] < |l.lines| }

  function Apply(l: Log, e: Event): (r: Log)
    requires l.path != [] && PathInside(l)
    ensures PathInside(r) && |r.path| == if e.Push? then |l.path| + 1 else |l.path| - 1
  {
    match e
    case Push(name) => Log(l.lines + [Line(|l.path|, Payload(name, 0))], l.path + [|l.lines|])
    case Pop(time) =>
      var i := l.path[|l.path| - 1];
      Log(l.lines[i := Line(l.lines[i].depth, Payload(l.lines[i].payload.name, time))], l.path[..|l.path| - 1])
  }

  function Run(l: Log, es: seq<Event>): Log
    requires PathInside(l) && Steps(es, |l.path|)
    decreases |es|
  {
    if es == [] then l else Run(Apply(l, es[0]), es[1..])
  }

  lemma RunStep(l: Log, e: Event, es: seq<Event>)
    requires PathInside(l) && l.path != [] && Steps(es, |Apply(l, e).path|)
    ensures Steps([e] + es, |l.path|) && Run(l, [e] + es) == Run(Apply(l, e), es)
  {
    assert ([e] + es)[1..] == es;
  }

  /** Replaying the trace of a tree adds the listing of the tree and changes nothing else. */
  lemma {:induction false} RunTrace(l: Log, t: Tree, rest: seq<Event>)
    requires PathInside(l) && l.path != [] && Steps(rest, |l.path|)
    ensures Steps(Trace(t) + rest, |l.path|)
    ensures Run(l, Trace(t) + rest) == Run(Log(l.lines + Listing(t, |l.path|), l.path), rest)
    decreases t
  {
    var open, close, d := Push(t.payload.name), Pop(t.payload.time), |l.path|;
    var l1 := Apply(l, open);
    RunClose(l, t);
    var l2 := Log(l1.lines + ListingAll(t.children, d + 1), l1.path);
    RunStep(l2, close, rest);
    RunTraceAll(l1, t.children, [close] + rest);
    RunStep(l, open, TraceAll(t.children) + ([close] + rest));
    assert Trace(t) + rest == [open] + (TraceAll(t.children) + ([close] + rest));
  }

  /** Closing a stamp completes its line. */
  lemma RunClose(l: Log, t: Tree)
    requires PathInside(l) && l.path != []
    ensures
      var l1 := Apply(l, Push(t.payload.name));
      var l2 := Log(l1.lines + ListingAll(t.children, |l.path| + 1), l1.path);
      PathInside(l2) && Apply(l2, Pop(t.payload.time)) == Log(l.lines + Listing(t, |l.path|), l.path)
  {
    var l1 := Apply(l, Push(t.payload.name));
    var l2 := Log(l1.lines + ListingAll(t.children, |l.path| + 1), l1.path);
    var l3 := Apply(l2, Pop(t.payload.time));
    assert l3.path == l.path;
    assert l3.lines == l.lines + Listing(t, |l.path|);
  }

  lemma {:induction false} RunTraceAll(l: Log, ts: seq<Tree>, rest: seq<Event>)
    requires PathInside(l) && l.path != [] && Steps(rest, |l.path|)
    ensures Steps(TraceAll(ts) + rest, |l.path|)
    ensures Run(l, TraceAll(ts) + rest) == Run(Log(l.lines + ListingAll(ts, |l.path|), l.path), rest)
    decreases ts
  {
    if ts == [] {
      assert TraceAll(ts) + rest == rest && l.lines + ListingAll(ts, |l.path|) == l.lines;
    } else {
      var most, last := ts[..|ts| - 1], ts[|ts| - 1];
      var l1 := Log(l.lines + ListingAll(most, |l.path|), l.path);
      RunTrace(l1, last, rest);
      RunTraceAll(l, most, Trace(last) + rest);
      Associative(TraceAll(most), Trace(last), rest);
      Associative(l.lines, ListingAll(most, |l.path|), Listing(last, |l.path|));
    }
  }

  // ----- The board -----

  /** Levels start at -1 for the board itself. */
  datatype Stamp = Stamp(name: string, time: int, level: int, parent: Option<nat>, leaves: seq<nat>)

  function LineOf(s: Stamp): Line
    requires s.level >= -1
  {
    Line(s.level + 1, Payload(s.name, s.time))
  }

  /** The open stamps are nested, one level each, and everything opened after one of
      them lies deeper; every line hangs one level below its parent. */
  ghost predicate LogOk(l: Log) {
    && PathInside(l)
    && (forall t | 0 <= t < |l.path| :: l.lines[l.path[t]].depth == t && RightEdge(l.lines, l.path[t]))
    && Tight(l.lines)
  }

  ghost predicate RightEdge(lines: seq<Line>, i: nat)
    requires i < |lines|
  {
    forall m | i < m < |lines| :: lines[m].depth > lines[i].depth
  }

  ghost predicate Tight(lines: seq<Line>) {
    forall i: nat, j: nat :: IsParent(lines, i, j) ==> lines[j].depth == lines[i].depth + 1
  }

  /** The innermost open stamp becomes the parent of the next line, and no other. */
  lemma NextParent(l: Log, name: string)
    requires LogOk(l) && l.path != []
    ensures
      var n, r := |l.lines|, Apply(l, Push(name));
      forall i: nat :: IsParent(r.lines, i, n) <==> i == l.path[|l.path| - 1]
  {
    var n, r, p := |l.lines|, Apply(l, Push(name)), l.path[|l.path| - 1];
    assert RightEdge(l.lines, p);
    assert IsParent(r.lines, p, n);
    forall i: nat | i != p ensures !IsParent(r.lines, i, n) {
      if i < p { assert r.lines[p].depth < r.lines[n].depth; }
    }
  }

  lemma SameParents(lines: seq<Line>, lines': seq<Line>, i: nat, j: nat)
    requires j < |lines| <= |lines'| && forall m | 0 <= m < |lines| :: lines[m].depth == lines'[m].depth
    ensures IsParent(lines, i, j) <==> IsParent(lines', i, j)
  {
  }

  lemma PushKeepsLog(l: Log, name: string)
    requires LogOk(l) && l.path != []
    ensures LogOk(Apply(l, Push(name)))
  {
    var n, r := |l.lines|, Apply(l, Push(name));
    NextParent(l, name);
    forall i: nat, j: nat | IsParent(r.lines, i, j) ensures r.lines[j].depth == r.lines[i].depth + 1 {
      if j < n { SameParents(l.lines, r.lines, i, j); }
    }
    forall t | 0 <= t < |r.path| ensures r.lines[r.path[t]].depth == t && RightEdge(r.lines, r.path[t]) {
      if t < |l.path| { assert RightEdge(l.lines, l.path[t]); }
    }
  }

  lemma PopKeepsLog(l: Log, time: int)
    requires LogOk(l) && l.path != []
    ensures LogOk(Apply(l, Pop(time)))
  {
    var r := Apply(l, Pop(time));
    forall i: nat, j: nat | IsParent(r.lines, i, j) ensures r.lines[j].depth == r.lines[i].depth + 1 {
      SameParents(l.lines, r.lines, i, j);
    }
    forall t | 0 <= t < |r.path| ensures r.lines[r.path[t]].depth == t && RightEdge(r.lines, r.path[t]) {
      assert RightEdge(l.lines, l.path[t]);
    }
  }

  ghost predicate Levels(stamps: seq<Stamp>) { forall i | 0 <= i < |stamps| :: stamps[i].level >= -1 }

  ghost function LinesOf(stamps: seq<Stamp>): (r: seq<Line>)
    requires Levels(stamps)
    ensures |r| == |stamps| && forall i | 0 <= i < |r| :: r[i] == LineOf(stamps[i])
  {
    seq(|stamps|, (i: nat) requires i < |stamps| && Levels(stamps) => LineOf(stamps[i]))
  }

  ghost predicate ParentOk(stamps: seq<Stamp>, path: seq<nat>, t: nat)
    requires t < |path|
  {
    path[t] < |stamps| && stamps[path[t]].parent == if t == 0 then None else Some(path[t - 1])
  }

  ghost predicate LeavesOk(stamps: seq<Stamp>, i: nat)
    requires Levels(stamps) && i < |stamps|
  {
    stamps[i].leaves == ChildrenOf(LinesOf(stamps), i, |stamps|)
  }

  ghost predicate BoardOk(stamps: seq<Stamp>, path: seq<nat>) {
    && Levels(stamps) && LogOk(Log(LinesOf(stamps), path))
    && (forall t | 0 <= t < |path| :: ParentOk(stamps, path, t))
    && (forall i | 0 <= i < |stamps| :: LeavesOk(stamps, i))
  }

  /** The stamps after opening one below stamp c. */
  function Opened(stamps: seq<Stamp>, c: nat, name: string): seq<Stamp>
    requires c < |stamps|
  {
    stamps[c := stamps[c].(leaves := stamps[c].leaves + [|stamps|])] + [Stamp(name, 0, stamps[c].level + 1, Some(c), [])]
  }

  lemma OpenedLines(stamps: seq<Stamp>, path: seq<nat>, name: string)
    requires BoardOk(stamps, path) && path != []
    ensures Levels(Opened(stamps, path[|path| - 1], name))
    ensures Log(LinesOf(Opened(stamps, path[|path| - 1], name)), path + [|stamps|]) == Apply(Log(LinesOf(stamps), path), Push(name))
  {
    var c := path[|path| - 1];
    assert LinesOf(stamps)[c].depth == |path| - 1;
  }

  lemma OpenedKeeps(stamps: seq<Stamp>, path: seq<nat>, name: string)
    requires BoardOk(stamps, path) && path != []
    ensures BoardOk(Opened(stamps, path[|path| - 1], name), path + [|stamps|])
  {
    var c, n, l := path[|path| - 1], |stamps|, Log(LinesOf(stamps), path);
    var next := Opened(stamps, c, name);
    OpenedLines(stamps, path, name);
    PushKeepsLog(l, name);
    forall t | 0 <= t < |path| + 1 ensures ParentOk(next, path + [n], t) {
      if t < |path| { assert ParentOk(stamps, path, t); }
    }
    forall i | 0 <= i < |next| ensures LeavesOk(next, i) { OpenedLeaves(stamps, path, name, i); }
  }

  /** Opening a stamp adds one line, a child of the innermost open one. */
  lemma OpenedChildren(l: Log, name: string, i: nat)
    requires LogOk(l) && l.path != [] && i <= |l.lines|
    ensures var n, lines := |l.lines|, Apply(l, Push(name)).lines;
      |lines| == n + 1 && ChildrenOf(lines, i, n + 1) ==
      (if i == n then [] else ChildrenOf(l.lines, i, n)) + if i == l.path[|l.path| - 1] then [n] else []
  {
    var n, lines := |l.lines|, Apply(l, Push(name)).lines;
    assert IsParent(lines, i, n) <==> i == l.path[|l.path| - 1] by { NextParent(l, name); }
    if i == n {
      NoChildrenYet(lines, n, n);
    } else {
      assert ChildrenOf(lines, i, n) == ChildrenOf(l.lines, i, n) by { ChildrenDepths(l.lines, lines, i, n); }
    }
  }

  lemma OpenedLeaves(stamps: seq<Stamp>, path: seq<nat>, name: string, i: nat)
    requires BoardOk(stamps, path) && path != [] && i <= |stamps|
    ensures Levels(Opened(stamps, path[|path| - 1], name))
    ensures LeavesOk(Opened(stamps, path[|path| - 1], name), i)
  {
    OpenedLines(stamps, path, name);
    OpenedChildren(Log(LinesOf(stamps), path), name, i);
    if i < |stamps| { assert LeavesOk(stamps, i); }
  }

  function Closed(stamps: seq<Stamp>, c: nat, time: int): seq<Stamp>
    requires c < |stamps|
  {
    stamps[c := stamps[c].(time := time)]
  }

  lemma ClosedKeeps(stamps: seq<Stamp>, path: seq<nat>, time: int)
    requires BoardOk(stamps, path) && path != []
    ensures BoardOk(Closed(stamps, path[|path| - 1], time), path[..|path| - 1])
    ensures Log(LinesOf(Closed(stamps, path[|path| - 1], time)), path[..|path| - 1]) == Apply(Log(LinesOf(stamps), path), Pop(time))
  {
    var l := Log(LinesOf(stamps), path);
    var next, r := Closed(stamps, path[|path| - 1], time), Apply(l, Pop(time));
    assert LinesOf(next) == r.lines;
    PopKeepsLog(l, time);
    forall t | 0 <= t < |r.path| ensures ParentOk(next, r.path, t) { assert ParentOk(stamps, path, t); }
    forall i | 0 <= i < |next| ensures LeavesOk(next, i) {
      assert LeavesOk(stamps, i);
      ChildrenDepths(l.lines, r.lines, i, |next|);
    }
  }

  class TimeBoard {
    var stamps: seq<Stamp>
    var current: Option<nat>
    ghost var path: seq<nat>

    ghost predicate Valid()
      reads this
    {
      BoardOk(stamps, path) && current == if path == [] then None else Some(path[|path| - 1])
    }

    ghost function AsLog(): Log
      requires Valid()
      reads this
    {
      Log(LinesOf(stamps), path)
    }

    constructor ()
      ensures Valid() && AsLog() == Log([Line(0, Payload("", 0))], [0])
    {
      stamps := [Stamp("", 0, -1, None, [])];
      current := Some(0);
      path := [0];
      new;
      NoChildrenYet(LinesOf(stamps), 0, 1);
      assert LeavesOk(stamps, 0) && ParentOk(stamps, path, 0);
    }

    /** Opening a stamp below the current one, which then is the current one. */
    method PushTimestamp(name: string)
      requires Valid() && current.Some?
      modifies this
      ensures Valid() && AsLog() == Apply(old(AsLog()), Push(name))
    {
      var c, n := current.value, |stamps|;
      ghost var next := Opened(stamps, c, name);
      assert BoardOk(next, path + [n]) by { OpenedKeeps(stamps, path, name); }
      assert Levels(next) && Log(LinesOf(next), path + [n]) == Apply(AsLog(), Push(name)) by { OpenedLines(stamps, path, name); }
      var parent := stamps[c].(leaves := stamps[c].leaves + [n]);
      var stamp := Stamp(name, 0, stamps[c].level + 1, Some(c), []);
      stamps := stamps[c := parent] + [stamp];
      assert stamps == next;
      current := Some(n);
      path := path + [n];
    }

    /** Closing the current stamp completes it and makes its parent the current one. */
    method PopTimestamp(time: int)
      requires Valid() && current.Some?
      modifies this
      ensures Valid() && AsLog() == Apply(old(AsLog()), Pop(time))
    {
      var c := current.value;
      var parent := stamps[c].parent;
      assert parent == if |path| == 1 then None else Some(path[|path| - 2]) by { assert ParentOk(stamps, path, |path| - 1); }
      ghost var before := AsLog();
      ClosedKeeps(stamps, path, time);
      stamps, current, path := Closed(stamps, c, time), parent, path[..|path| - 1];
      assert Log(LinesOf(stamps), path) == Apply(before, Pop(time));
    }

    method Replay(es: seq<Event>)
      requires Valid() && Steps(es, |path|)
      modifies this
      ensures Valid() && AsLog() == Run(old(AsLog()), es)
    {
      ghost var start := AsLog();
      for i := 0 to |es|
        invariant Valid() && Steps(es[i..], |path|) && Run(AsLog(), es[i..]) == Run(start, es)
      {
        assert es[i..][1..] == es[i + 1..];
        match es[i]
        case Push(name) => PushTimestamp(name);
        case Pop(time) => PopTimestamp(time);
      }
    }

    /** Printing a stamp: its own line unless it is the board itself, then its leaves. */
    method Print(i: nat) returns (out: seq<Line>)
      requires Valid() && i < |stamps|
      ensures out == Printed(stamps, i)
      decreases |stamps| - i
    {
      out := OwnLine(stamps[i]);
      LeavesInside(stamps, path, i);
      for k := 0 to |stamps[i].leaves|
        invariant out == PrintedPart(stamps, i, k)
      {
        PrintedNext(stamps, i, k);
        var more := Print(stamps[i].leaves[k]);
        out := out + more;
      }
      PrintedWhole(stamps, i);
    }
  }

  // ----- What a board prints -----

  function OwnLine(s: Stamp): seq<Line>
    requires s.level >= -1
  {
    if s.level == -1 then [] else [Line(s.level, Payload(s.name, s.time))]
  }

  /** The lines of the tree that hangs at a stamp; the board itself has none of its own. */
  ghost function Printed(stamps: seq<Stamp>, i: nat): seq<Line>
    requires Levels(stamps) && i < |stamps|
  {
    OwnLine(stamps[i]) + ListingAll(TreeAt(ArenaOf(LinesOf(stamps)), i).children, stamps[i].level + 1)
  }

  ghost predicate LeavesWithin(stamps: seq<Stamp>, i: nat)
    requires Levels(stamps) && i < |stamps|
  {
    LeavesOk(stamps, i) && After(stamps[i].leaves, i, |stamps|)
      && forall k | 0 <= k < |stamps[i].leaves| :: stamps[stamps[i].leaves[k]].level == stamps[i].level + 1
  }

  lemma LeavesInside(stamps: seq<Stamp>, path: seq<nat>, i: nat)
    requires BoardOk(stamps, path) && i < |stamps|
    ensures LeavesWithin(stamps, i)
  {
    var lines, cs := LinesOf(stamps), stamps[i].leaves;
    assert LeavesOk(stamps, i);
    ChildrenExactly(lines, i, |stamps|);
    forall k | 0 <= k < |cs| ensures stamps[cs[k]].level == stamps[i].level + 1 {
      assert cs[k] in cs;
      assert IsParent(lines, i, cs[k]);
    }
  }

  ghost function PrintedPart(stamps: seq<Stamp>, i: nat, k: nat): seq<Line>
    requires Levels(stamps) && i < |stamps| && k <= |stamps[i].leaves| && After(stamps[i].leaves, i, |stamps|)
  {
    OwnLine(stamps[i]) + ListingAll(TreesAt(ArenaOf(LinesOf(stamps)), i, stamps[i].leaves[..k]), stamps[i].level + 1)
  }

  lemma PrintedLeaf(stamps: seq<Stamp>, i: nat)
    requires Levels(stamps) && i < |stamps| && stamps[i].level >= 0
    ensures Printed(stamps, i) == Listing(TreeAt(ArenaOf(LinesOf(stamps)), i), stamps[i].level)
  {
  }

  lemma TreesNext(nodes: seq<Node>, i: nat, cs: seq<nat>, k: nat)
    requires Forward(nodes) && i < |nodes| && After(cs, i, |nodes|) && k < |cs|
    ensures After(cs[..k], i, |nodes|) && After(cs[..k + 1], i, |nodes|) && i < cs[k] < |nodes|
    ensures TreesAt(nodes, i, cs[..k + 1]) == TreesAt(nodes, i, cs[..k]) + [TreeAt(nodes, cs[k])]
  {
    assert cs[..k + 1] == cs[..k] + [cs[k]];
    LastTree(nodes, i, cs[..k], cs[k]);
  }

  lemma ListedNext(own: seq<Line>, ts: seq<Tree>, t: Tree, level: nat)
    ensures own + ListingAll(ts + [t], level) == (own + ListingAll(ts, level)) + Listing(t, level)
  {
    ListingAllSnoc(ts, t, level);
    Associative(own, ListingAll(ts, level), Listing(t, level));
  }

  lemma PrintedNext(stamps: seq<Stamp>, i: nat, k: nat)
    requires Levels(stamps) && i < |stamps| && k < |stamps[i].leaves| && LeavesWithin(stamps, i)
    ensures PrintedPart(stamps, i, k + 1) == PrintedPart(stamps, i, k) + Printed(stamps, stamps[i].leaves[k])
  {
    var nodes, cs := ArenaOf(LinesOf(stamps)), stamps[i].leaves;
    TreesNext(nodes, i, cs, k);
    ListedNext(OwnLine(stamps[i]), TreesAt(nodes, i, cs[..k]), TreeAt(nodes, cs[k]), stamps[i].level + 1);
    PrintedLeaf(stamps, cs[k]);
  }

  lemma PrintedWhole(stamps: seq<Stamp>, i: nat)
    requires Levels(stamps) && i < |stamps| && LeavesWithin(stamps, i)
    ensures PrintedPart(stamps, i, |stamps[i].leaves|) == Printed(stamps, i)
  {
    assert stamps[i].leaves[..|stamps[i].leaves|] == stamps[i].leaves;
  }

  // ----- From trace to tree -----

  lemma {:induction false} BalancedSteps(es: seq<Event>, d: nat)
    requires Balanced(es, d)
    ensures Steps(es, d + 1)
    decreases |es|
  {
    if es != [] { BalancedSteps(es[1..], if es[0].Push? then d + 1 else d - 1); }
  }

  const BOARD: Payload := Payload("", 0)

  /** After a balanced trace the board holds its trees, and only the board is open. */
  lemma ReplayedTrace(stamps: seq<Stamp>, path: seq<nat>, ts: seq<Tree>)
    requires BoardOk(stamps, path)
    requires Steps(TraceAll(ts), 1) && Log(LinesOf(stamps), path) == Run(Log([Line(0, BOARD)], [0]), TraceAll(ts))
    ensures path == [0] && |stamps| > 0 && Printed(stamps, 0) == ListingAll(ts, 0)
    ensures TreeAt(ArenaOf(LinesOf(stamps)), 0) == Tree(BOARD, ts)
  {
    var l, root := Log([Line(0, BOARD)], [0]), Tree(BOARD, ts);
    assert TraceAll(ts) + [] == TraceAll(ts);
    RunTraceAll(l, ts, []);
    assert LinesOf(stamps) == Listing(root, 0);
    ListingParses(LinesOf(stamps), 0, root, 0, Listing(root, 0));
  }

  function AllParsed(lines: seq<Line>): seq<Option<Line>> { seq(|lines|, (i: nat) requires i < |lines| => Some(lines[i])) }

  lemma {:induction false} ParsedAll(lines: seq<Line>)
    ensures Parsed(AllParsed(lines)) == lines
    decreases |lines|
  {
    if lines != [] {
      var last := |lines| - 1;
      ParsedAll(lines[..last]);
      assert AllParsed(lines)[..last] == AllParsed(lines[..last]);
    }
  }

  /** Replaying any balanced trace, printing the board and parsing the lines: the trace
      belongs to some trees, the lines are their listing one behind the other, and both
      parsers return exactly the first tree. */
  method RoundTrip(es: seq<Event>) returns (out: seq<Line>, nodes: seq<Node>, view: seq<Node>, root: Option<nat>, ghost ts: seq<Tree>)
    requires Balanced(es, 0) && es != []
    ensures ts != [] && TraceAll(ts) == es && out == ListingAll(ts, 0)
    ensures Forward(nodes) && nodes != [] && TreeAt(nodes, 0) == ts[0]
    ensures root == Some(0) && view == nodes
  {
    ts := BalancedIsTrace(es);
    BalancedSteps(es, 0);
    var board := new TimeBoard();
    board.Replay(es);
    ReplayedTrace(board.stamps, board.path, ts);
    out := board.Print(0);
    FirstOfSiblings(ts, 0);
    nodes := BuildTree(out);
    ParsedAll(out);
    root, view := BuildView(AllParsed(out));
  }

  // ----- Cutting one layer out of a listing -----

  /** The first line of a layer, from j on. */
  function FirstLayer(lines: seq<Line>, layer: string -> bool, j: nat): (r: nat)
    requires j <= |lines|
    ensures j <= r <= |lines|
    decreases |lines| - j
  {
    if j == |lines| || layer(lines[j].payload.name) then j else FirstLayer(lines, layer, j + 1)
  }

  /** Where the selection stops: at the first other line that is not deeper than the
      last layer line seen. */
  function LastLayer(lines: seq<Line>, layer: string -> bool, j: nat, indent: nat): (r: nat)
    requires j <= |lines|
    ensures j <= r <= |lines|
    decreases |lines| - j
  {
    if j == |lines| then j
    else if layer(lines[j].payload.name) then LastLayer(lines, layer, j + 1, lines[j].depth)
    else if lines[j].depth > indent then LastLayer(lines, layer, j + 1, indent)
    else j
  }

  function Selection(lines: seq<Line>, layer: string -> bool): seq<Line> {
    var first := FirstLayer(lines, layer, 0);
    lines[first..LastLayer(lines, layer, first, 0)]
  }

  /** The selection loop over all lines. */
  method SelectLayer(lines: seq<Line>, layer: string -> bool) returns (ops: seq<Line>)
    ensures ops == Selection(lines, layer)
  {
    ops := [];
    var inLayer, indent := false, 0;
    ghost var first := FirstLayer(lines, layer, 0);
    var j := 0;
    while j < |lines|
      invariant j <= |lines|
      invariant !inLayer ==> ops == [] && FirstLayer(lines, layer, j) == first
      invariant inLayer ==> first < j && |ops| == j - first && ops == lines[first..j]
      invariant inLayer ==> LastLayer(lines, layer, j, indent) == LastLayer(lines, layer, first, 0)
    {
      var p := lines[j];
      if layer(p.payload.name) {
        assert ops + [p] == lines[first..j + 1];
        inLayer, indent := true, p.depth;
        ops := ops + [p];
      } else if inLayer && p.depth > indent {
        assert ops + [p] == lines[first..j + 1];
        ops := ops + [p];
      } else if inLayer && p.depth <= indent {
        return;
      }
      j := j + 1;
    }
  }

  lemma {:induction false} FirstLayerAt(lines: seq<Line>, layer: string -> bool, j: nat, i: nat)
    requires j <= i < |lines| && layer(lines[i].payload.name)
    requires forall m | j <= m < i :: !layer(lines[m].payload.name)
    ensures FirstLayer(lines, layer, j) == i
    decreases i - j
  {
    if j < i { FirstLayerAt(lines, layer, j + 1, i); }
  }

  lemma {:induction false} DeeperLinesStay(lines: seq<Line>, layer: string -> bool, j: nat, e: nat, indent: nat)
    requires j <= e <= |lines|
    requires forall m | j <= m < e :: !layer(lines[m].payload.name) && lines[m].depth > indent
    ensures LastLayer(lines, layer, j, indent) >= e
    decreases e - j
  {
    if j < e { DeeperLinesStay(lines, layer, j + 1, e, indent); }
  }

  /** If the first layer line opens the listing of a tree without layers inside, the
      selection parses to exactly that tree, whatever follows. */
  lemma SelectionReturnsLayer(lines: seq<Line>, layer: string -> bool, i: nat, t: Tree, level: nat, xs: seq<Line>)
    requires xs == Listing(t, level) && StandsAt(lines, i, xs, level)
    requires layer(t.payload.name) && forall m | 0 <= m < i + |xs| && m != i :: !layer(lines[m].payload.name)
    ensures Selection(lines, layer) != [] && TreeAt(ArenaOf(Selection(lines, layer)), 0) == t
  {
    var e, ops := i + |xs|, Selection(lines, layer);
    TreeStands(lines, i, t, level, xs);
    ListingDeeper(t, level);
    forall m | i < m < e ensures lines[m].depth > level { StandsLine(lines, i, xs, level, m); }
    FirstLayerAt(lines, layer, 0, i);
    DeeperLinesStay(lines, layer, i + 1, e, level);
    assert ops[..|xs|] == lines[i..e];
    ListingParses(ops, 0, t, level, xs);
  }

  // ----- What the selection cuts -----

  /** The last layer line at or before j. */
  function LatestLayer(lines: seq<Line>, layer: string -> bool, j: nat): Option<nat>
    requires j < |lines|
  {
    if layer(lines[j].payload.name) then Some(j) else if j == 0 then None else LatestLayer(lines, layer, j - 1)
  }

  lemma {:induction false} LatestLayerIs(lines: seq<Line>, layer: string -> bool, j: nat, p: nat)
    requires j < |lines|
    ensures LatestLayer(lines, layer, j) == Some(p) <==>
      p <= j && layer(lines[p].payload.name) && forall m | p < m <= j :: !layer(lines[m].payload.name)
  {
    if !layer(lines[j].payload.name) && j > 0 { LatestLayerIs(lines, layer, j - 1, p); }
  }

  /** Line j goes on with the selection: a layer line, or deeper than the latest one. */
  predicate GoesOn(lines: seq<Line>, layer: string -> bool, j: nat)
    requires j < |lines|
  {
    match LatestLayer(lines, layer, j)
    case None => false
    case Some(p) => p == j || (p < j && lines[j].depth > lines[p].depth)
  }

  /** Line j ends it: no layer line, and not deeper than the latest one. */
  predicate Ends(lines: seq<Line>, layer: string -> bool, j: nat)
    requires j < |lines|
  {
    match LatestLayer(lines, layer, j)
    case None => false
    case Some(p) => p < j && lines[j].depth <= lines[p].depth
  }

  lemma {:induction false} FirstLayerIs(lines: seq<Line>, layer: string -> bool, j: nat)
    requires j <= |lines|
    ensures var f := FirstLayer(lines, layer, j);
      (forall m | j <= m < f :: !layer(lines[m].payload.name)) && (f < |lines| ==> layer(lines[f].payload.name))
    decreases |lines| - j
  {
    if j < |lines| && !layer(lines[j].payload.name) { FirstLayerIs(lines, layer, j + 1); }
  }

  /** From a line on, with p the latest layer line before it: everything up to the end of
      the cut goes on with it, and the line at the end, if there is one, ends it. */
  lemma {:induction false} LastLayerIs(lines: seq<Line>, layer: string -> bool, p: nat, j: nat)
    requires p < j <= |lines| && LatestLayer(lines, layer, j - 1) == Some(p)
    ensures var e := LastLayer(lines, layer, j, lines[p].depth);
      (forall m | j <= m < e :: GoesOn(lines, layer, m)) && (e < |lines| ==> Ends(lines, layer, e))
    decreases |lines| - j
  {
    if j == |lines| {
    } else if layer(lines[j].payload.name) {
      LastLayerIs(lines, layer, j, j + 1);
    } else if lines[j].depth > lines[p].depth {
      LastLayerIs(lines, layer, p, j + 1);
    }
  }

  /** The selection starts at the first layer line and ends before the first line that is
      no layer line and not deeper than the latest one, or with the listing; without a
      layer line it is empty. */
  lemma SelectionIs(lines: seq<Line>, layer: string -> bool) returns (first: nat, end: nat)
    ensures first <= end <= |lines| && Selection(lines, layer) == lines[first..end]
    ensures forall m | 0 <= m < first :: !layer(lines[m].payload.name)
    ensures first < |lines| ==> first < end && layer(lines[first].payload.name)
    ensures forall m | first <= m < end :: GoesOn(lines, layer, m)
    ensures end < |lines| ==> Ends(lines, layer, end)
  {
    first := FirstLayer(lines, layer, 0);
    end := LastLayer(lines, layer, first, 0);
    FirstLayerIs(lines, layer, 0);
    if first < |lines| { LastLayerIs(lines, layer, first, first + 1); }
  }

  /** If the first layer has no layer inside and the line behind it is no layer line, the
      cut ends with it: a listing has nothing deeper there. */
  lemma SelectionIsLayer(lines: seq<Line>, layer: string -> bool, i: nat, t: Tree, level: nat, xs: seq<Line>)
    requires xs == Listing(t, level) && StandsAt(lines, i, xs, level)
    requires layer(t.payload.name) && forall m | 0 <= m < i + |xs| && m != i :: !layer(lines[m].payload.name)
    requires i + |xs| < |lines| ==> !layer(lines[i + |xs|].payload.name)
    ensures Selection(lines, layer) == xs
  {
    var e := i + |xs|;
    TreeStands(lines, i, t, level, xs);
    ListingDeeper(t, level);
    forall m | i < m < e ensures lines[m].depth > level { StandsLine(lines, i, xs, level, m); }
    FirstLayerAt(lines, layer, 0, i);
    DeeperLinesEnd(lines, layer, i + 1, e, level);
  }

  lemma {:induction false} DeeperLinesEnd(lines: seq<Line>, layer: string -> bool, j: nat, e: nat, indent: nat)
    requires j <= e <= |lines|
    requires forall m | j <= m < e :: !layer(lines[m].payload.name) && lines[m].depth > indent
    requires e < |lines| ==> !layer(lines[e].payload.name) && lines[e].depth <= indent
    ensures LastLayer(lines, layer, j, indent) == e
    decreases e - j
  {
    if j < e { DeeperLinesEnd(lines, layer, j + 1, e, indent); }
  }
}

/** The depth-first search for dependency cycles between workspace packages. */
module Cycles {
  type Graph = map<string, seq<string>>

  function Edges(g: Graph, n: string): seq<string> {
    if n in g then g[n] else []
  }

  predicate NoDup<T(==)>(s: seq<T>) {
    forall i, j :: 0 <= i < j < |s| ==> s[i] != s[j]
  }

  /** Each package's dependencies form a set, listed in order. */
  predicate WellFormed(g: Graph) {
    forall n :: n in g ==> NoDup(g[n])
  }

  function Universe(g: Graph): set<string> {
    g.Keys + (set n, i | n in g && 0 <= i < |g[n]| :: g[n][i])
  }

  predicate IsPath(g: Graph, p: seq<string>) {
    p != [] && forall i :: 0 <= i < |p| - 1 ==> p[i + 1] in Edges(g, p[i])
  }

  ghost predicate Connects(g: Graph, p: seq<string>, a: string, b: string) {
    IsPath(g, p) && p[0] == a && p[|p| - 1] == b
  }

  ghost predicate Reachable(g: Graph, a: string, b: string) {
    exists p :: Connects(g, p, a, b)
  }

  /** A path of at least one edge back to its own start. */
  ghost predicate OnCycle(g: Graph, a: string) {
    exists p :: |p| >= 2 && Connects(g, p, a, a)
  }

  /** A simple path from `start`, possibly still empty. */
  predicate SimplePath(g: Graph, start: string, stack: seq<string>) {
    NoDup(stack) && (stack != [] ==> stack[0] == start && IsPath(g, stack))
  }

  ghost predicate AllReachable(g: Graph, start: string, nodes: set<string>) {
    forall n :: n in nodes ==> Reachable(g, start, n)
  }

  /** The stack is a simple path from `start` to the caller, all of it already seen. */
  ghost predicate SearchOk(g: Graph, start: string, stack: seq<string>, seen: set<string>) {
    && SimplePath(g, start, stack)
    && (forall n :: n in stack ==> n in seen)
    && seen <= Universe(g) + {start}
    && AllReachable(g, start, seen)
  }

  /** Every edge out of these nodes leads to a seen node or back to `start`. */
  ghost predicate Closed(g: Graph, start: string, nodes: set<string>, seen: set<string>) {
    forall n :: n in nodes ==> forall d :: d in Edges(g, n) ==> d == start || d in seen
  }

  /** A recorded cycle: the manifest to blame, and the stack that leads back to its first package. */
  datatype Violation = Violation(manifest: string, stack: seq<string>)

  predicate Real(g: Graph, start: string, v: Violation) {
    v.stack != [] && v.stack[0] == start && IsPath(g, v.stack + [start]) && NoDup(v.stack)
  }

  function Last(v: Violation): string {
    if v.stack == [] then "" else v.stack[|v.stack| - 1]
  }

  predicate Records(found: seq<Violation>, n: string) {
    exists i :: 0 <= i < |found| && Last(found[i]) == n
  }

  /** One record for each of these nodes with an edge back to `start`, and none besides. */
  ghost predicate Exact(g: Graph, start: string, found: seq<Violation>, nodes: set<string>) {
    && (forall i, j :: 0 <= i < j < |found| ==> Last(found[i]) != Last(found[j]))
    && (forall n :: Records(found, n) <==> n in nodes && start in Edges(g, n))
    && (forall i :: 0 <= i < |found| ==> Real(g, start, found[i]))
  }

  lemma RecordsAppend(a: seq<Violation>, b: seq<Violation>, n: string)
    ensures Records(a + b, n) <==> Records(a, n) || Records(b, n)
  {
    if Records(a, n) {
      var i :| 0 <= i < |a| && Last(a[i]) == n;
      assert (a + b)[i] == a[i];
    }
    if Records(b, n) {
      var i :| 0 <= i < |b| && Last(b[i]) == n;
      assert (a + b)[|a| + i] == b[i];
    }
  }

  lemma AppendAssociates<T>(a: seq<T>, b: seq<T>, c: seq<T>)
    ensures a + b + c == a + (b + c)
  {
  }

  lemma PopPushed<T>(a: seq<T>, x: T)
    ensures (a + [x])[..|a + [x]| - 1] == a
  {
  }

  lemma NothingNew(g: Graph, start: string, seen: set<string>)
    ensures Closed(g, start, seen - seen, seen)
    ensures Exact(g, start, [], seen - seen)
  {
    assert forall n :: !Records([], n);
  }

  lemma ExactJoin(g: Graph, start: string, a: seq<Violation>, A: set<string>, b: seq<Violation>, B: set<string>)
    requires Exact(g, start, a, A) && Exact(g, start, b, B) && A !! B
    ensures Exact(g, start, a + b, A + B)
  {
    forall n ensures Records(a + b, n) <==> n in A + B && start in Edges(g, n) {
      RecordsAppend(a, b, n);
    }
    forall i, j | 0 <= i < j < |a + b| ensures Last((a + b)[i]) != Last((a + b)[j]) {
      if i < |a| <= j {
        assert Records(a, Last(a[i])) && Records(b, Last(b[j - |a|]));
      }
    }
  }

  lemma ExactSingle(g: Graph, start: string, stack: seq<string>, manifest: string, n: string)
    requires stack != [] && stack[|stack| - 1] == n && start in Edges(g, n)
    requires Real(g, start, Violation(manifest, stack))
    ensures Exact(g, start, [Violation(manifest, stack)], {n})
  {
    var found := [Violation(manifest, stack)];
    assert Last(found[0]) == n;
    forall m ensures Records(found, m) <==> m in {n} && start in Edges(g, m) {
      if m == n {
        assert Last(found[0]) == m;
      }
    }
  }

  /** The nodes seen below `current`, and `current` itself once an edge back to the start was found. */
  function Blamed(current: string, before: set<string>, seen: set<string>, back: bool): set<string> {
    seen - before - {current} + if back then {current} else {}
  }

  /** Halfway through a package's dependencies: the first `i` are done. */
  ghost predicate Progress(g: Graph, start: string, current: string, before: set<string>,
                           seen: set<string>, i: nat, found: seq<Violation>)
  {
    && i <= |Edges(g, current)| && NoDup(Edges(g, current))
    && current !in before && before + {current} <= seen
    && Closed(g, start, seen - before - {current}, seen)
    && (forall j :: 0 <= j < i ==> Edges(g, current)[j] == start || Edges(g, current)[j] in seen)
    && Exact(g, start, found, Blamed(current, before, seen, start in Edges(g, current)[..i]))
  }

  /** What visiting one dependency adds. */
  ghost predicate Visited(g: Graph, start: string, current: string, dep: string,
                          middle: set<string>, seen: set<string>, more: seq<Violation>)
  {
    && middle <= seen && (dep == start || dep in seen)
    && Closed(g, start, seen - middle, seen)
    && (dep == start ==> seen == middle)
    && Exact(g, start, more, if dep == start then {current} else seen - middle)
  }

  lemma ProgressInit(g: Graph, start: string, current: string, before: set<string>)
    requires WellFormed(g) && current !in before
    ensures Progress(g, start, current, before, before + {current}, 0, [])
  {
    assert Blamed(current, before, before + {current}, false) == {};
  }

  lemma ProgressStep(g: Graph, start: string, current: string, before: set<string>, middle: set<string>,
                     seen: set<string>, i: nat, found: seq<Violation>, more: seq<Violation>)
    requires i < |Edges(g, current)| && Progress(g, start, current, before, middle, i, found)
    requires Visited(g, start, current, Edges(g, current)[i], middle, seen, more)
    ensures Progress(g, start, current, before, seen, i + 1, found + more)
  {
    var deps := Edges(g, current);
    assert deps[..i + 1] == deps[..i] + [deps[i]];
    var nodes := if deps[i] == start then {current} else seen - middle;
    var blamed := Blamed(current, before, middle, start in deps[..i]);
    ExactJoin(g, start, found, blamed, more, nodes);
    assert Blamed(current, before, seen, start in deps[..i + 1]) == blamed + nodes;
  }

  lemma ProgressDone(g: Graph, start: string, current: string, before: set<string>, seen: set<string>,
                     found: seq<Violation>)
    requires Progress(g, start, current, before, seen, |Edges(g, current)|, found)
    ensures Closed(g, start, seen - before, seen)
    ensures Exact(g, start, found, seen - before)
  {
    assert Edges(g, current)[..|Edges(g, current)|] == Edges(g, current);
  }

  lemma ExactRest(g: Graph, start: string, found: seq<Violation>, nodes: set<string>)
    requires found != [] && Exact(g, start, found, nodes)
    ensures Last(found[0]) in nodes && start in Edges(g, Last(found[0]))
    ensures Exact(g, start, found[1..], nodes - {Last(found[0])})
  {
    var n, rest := Last(found[0]), found[1..];
    assert Records(found, n);
    forall m ensures Records(rest, m) <==> m in nodes - {n} && start in Edges(g, m) {
      if Records(rest, m) {
        var i :| 0 <= i < |rest| && Last(rest[i]) == m;
        assert Last(found[i + 1]) == m;
        assert Records(found, m);
      }
      if m != n && Records(found, m) {
        var i :| 0 <= i < |found| && Last(found[i]) == m;
        assert i > 0 && rest[i - 1] == found[i];
      }
    }
    forall i, j | 0 <= i < j < |rest| ensures Last(rest[i]) != Last(rest[j]) {
      assert Last(found[i + 1]) != Last(found[j + 1]);
    }
  }

  /** As many records as there are nodes to blame. */
  lemma {:induction false} ExactCount(g: Graph, start: string, found: seq<Violation>, nodes: set<string>)
    requires Exact(g, start, found, nodes)
    ensures |found| == |set n | n in nodes && start in Edges(g, n)|
    decreases |found|
  {
    var back := set n | n in nodes && start in Edges(g, n);
    if found == [] {
      assert forall n :: !Records(found, n);
      assert back == {};
    } else {
      var n := Last(found[0]);
      ExactRest(g, start, found, nodes);
      ExactCount(g, start, found[1..], nodes - {n});
      assert back == {n} + set m | m in nodes - {n} && start in Edges(g, m);
    }
  }

  lemma Shrinks(all: set<string>, before: set<string>, seen: set<string>, current: string)
    requires before <= seen && current in all && current in seen && current !in before
    ensures |all - seen| < |all - before|
  {
    assert all - seen <= all - before - {current};
    SubsetSize(all - seen, all - before - {current});
  }

  lemma {:induction false} SubsetSize(a: set<string>, b: set<string>)
    requires a <= b
    ensures |a| <= |b|
  {
    assert |b| == |a| + |b - a| by {
      assert b == a + (b - a);
    }
  }

  lemma PathExtends(g: Graph, p: seq<string>, n: string)
    requires IsPath(g, p) && n in Edges(g, p[|p| - 1])
    ensures IsPath(g, p + [n])
  {
  }

  lemma {:induction false} PathStaysInside(g: Graph, start: string, seen: set<string>, p: seq<string>)
    requires start in seen && IsPath(g, p) && p[0] in seen
    requires forall n :: n in seen ==> forall d :: d in Edges(g, n) ==> d == start || d in seen
    ensures p[|p| - 1] in seen
    decreases |p|
  {
    if |p| > 1 {
      assert p[1] in Edges(g, p[0]);
      PathStaysInside(g, start, seen, p[1..]);
    }
  }

  /** What one search from `start` found, told from the graph alone. */
  ghost predicate SearchResult(g: Graph, start: string, reached: set<string>, found: seq<Violation>) {
    && (forall n :: n in reached <==> Reachable(g, start, n))
    && Exact(g, start, found, reached)
  }

  /** A search records something exactly when its package reaches itself. */
  lemma RecordsIffOnCycle(g: Graph, start: string, reached: set<string>, found: seq<Violation>)
    requires SearchResult(g, start, reached, found)
    ensures found != [] <==> OnCycle(g, start)
  {
    if found != [] {
      var v := found[0];
      assert Real(g, start, v);
      assert Connects(g, v.stack + [start], start, start);
    }
    if OnCycle(g, start) {
      var p :| |p| >= 2 && Connects(g, p, start, start);
      var n := p[|p| - 2];
      assert Connects(g, p[..|p| - 1], start, n);
      assert start in Edges(g, n) by {
        assert p[|p| - 2 + 1] in Edges(g, p[|p| - 2]);
      }
      assert Records(found, n);
    }
  }

  class CycleDetector {
    const graph: Graph
    const manifests: map<string, string>
    var violations: seq<Violation>
    var stack: seq<string>
    var seen: set<string>

    constructor (graph: Graph, manifests: map<string, string>)
      ensures this.graph == graph && this.manifests == manifests
      ensures violations == [] && stack == [] && seen == {}
    {
      this.graph, this.manifests := graph, manifests;
      violations, stack, seen := [], [], {};
    }

    ghost predicate Searching(start: string)
      reads this
    {
      start in manifests && WellFormed(graph) && SearchOk(graph, start, stack, seen)
    }

    ghost predicate Next(start: string, n: string)
      reads this
    {
      if stack == [] then n == start else n in Edges(graph, stack[|stack| - 1])
    }

    ghost function Unseen(start: string): nat
      reads this
    {
      |Universe(graph) + {start} - seen|
    }

    lemma Enter(start: string, current: string)
      requires Searching(start) && Next(start, current) && current !in seen
      ensures current in Universe(graph) + {start}
      ensures SearchOk(graph, start, stack + [current], seen + {current})
    {
      if stack != [] {
        PathExtends(graph, stack, current);
      }
      assert Connects(graph, stack + [current], start, current);
    }

    lemma FewerUnseen(start: string, before: set<string>)
      requires before <= seen
      ensures Unseen(start) <= |Universe(graph) + {start} - before|
    {
      SubsetSize(Universe(graph) + {start} - seen, Universe(graph) + {start} - before);
    }

    method RecordCycle(start: string)
      modifies this`violations
      ensures start in manifests ==> violations == old(violations) + [Violation(manifests[start], stack)]
      ensures start !in manifests ==> violations == old(violations)
    {
      if start in manifests {
        violations := violations + [Violation(manifests[start], stack)];
      }
    }

    /** Search below `current`; `found` is what it appended, one record per newly seen node with an edge back. */
    method Find(start: string, current: string) returns (ghost found: seq<Violation>)
      requires Searching(start) && Next(start, current)
      modifies this
      ensures Searching(start) && stack == old(stack)
      ensures old(seen) <= seen && current in seen
      ensures Closed(graph, start, seen - old(seen), seen)
      ensures violations == old(violations) + found
      ensures Exact(graph, start, found, seen - old(seen))
      decreases Unseen(start), 1
    {
      found := [];
      if current in seen {
        NothingNew(graph, start, seen);
        return;
      }
      Enter(start, current);
      seen := seen + {current};
      stack := stack + [current];
      Shrinks(Universe(graph) + {start}, old(seen), seen, current);
      found := VisitAll(start, current, old(seen));
      PopPushed(old(stack), current);
      stack := stack[..|stack| - 1];
    }

    /** The loop over the dependencies of the package on top of the stack. */
    method VisitAll(start: string, current: string, ghost before: set<string>) returns (ghost found: seq<Violation>)
      requires Searching(start) && stack != [] && stack[|stack| - 1] == current
      requires current !in before && seen == before + {current}
      modifies this
      ensures Searching(start) && stack == old(stack)
      ensures old(seen) <= seen
      ensures Closed(graph, start, seen - before, seen)
      ensures violations == old(violations) + found
      ensures Exact(graph, start, found, seen - before)
      decreases Unseen(start), 3
    {
      var deps, i := Edges(graph, current), 0;
      found := [];
      ProgressInit(graph, start, current, before);
      while i < |deps|
        invariant 0 <= i <= |deps|
        invariant Searching(start) && stack == old(stack)
        invariant old(seen) <= seen && Unseen(start) <= old(Unseen(start))
        invariant violations == old(violations) + found
        invariant Progress(graph, start, current, before, seen, i, found)
      {
        ghost var middle := seen;
        ghost var more := VisitDependency(start, deps[i]);
        FewerUnseen(start, middle);
        ProgressStep(graph, start, current, before, middle, seen, i, found, more);
        AppendAssociates(old(violations), found, more);
        found := found + more;
        i := i + 1;
      }
      ProgressDone(graph, start, current, before, seen, found);
    }

    method VisitDependency(start: string, dep: string) returns (ghost found: seq<Violation>)
      requires Searching(start) && stack != [] && dep in Edges(graph, stack[|stack| - 1])
      modifies this
      ensures Searching(start) && stack == old(stack)
      ensures violations == old(violations) + found
      ensures Visited(graph, start, stack[|stack| - 1], dep, old(seen), seen, found)
      decreases Unseen(start), 2
    {
      if dep == start {
        RecordCycle(start);
        found := [Violation(manifests[start], stack)];
        PathExtends(graph, stack, start);
        ExactSingle(graph, start, stack, manifests[start], stack[|stack| - 1]);
        return;
      }
      found := Find(start, dep);
    }
  }

  /** Search from every package in turn, each with a fresh stack and a fresh set. */
  method CheckCycles(packages: seq<string>, graph: Graph, manifests: map<string, string>)
    returns (violations: seq<Violation>, ghost searches: seq<(set<string>, seq<Violation>)>)
    requires WellFormed(graph)
    requires forall n :: n in packages ==> n in manifests
    ensures |searches| == |packages| && violations == Concat(searches)
    ensures forall k :: 0 <= k < |packages| ==> SearchResult(graph, packages[k], searches[k].0, searches[k].1)
    ensures violations == [] <==> forall n :: n in packages ==> !OnCycle(graph, n)
  {
    var detector := new CycleDetector(graph, manifests);
    searches := [];
    for k := 0 to |packages|
      invariant detector.graph == graph && detector.manifests == manifests && fresh(detector)
      invariant |searches| == k && detector.violations == Concat(searches)
      invariant forall j :: 0 <= j < k ==> SearchResult(graph, packages[j], searches[j].0, searches[j].1)
    {
      detector.stack, detector.seen := [], {};
      ghost var found := detector.Find(packages[k], packages[k]);
      ghost var reached := detector.seen;
      assert reached - {} == reached;
      SearchComplete(graph, packages[k], reached, found);
      ConcatExtends(searches, (reached, found));
      searches := searches + [(reached, found)];
    }
    violations := detector.violations;
    EmptyIffAcyclic(packages, graph, searches);
  }

  lemma SearchComplete(g: Graph, start: string, reached: set<string>, found: seq<Violation>)
    requires start in reached && Exact(g, start, found, reached)
    requires forall n :: n in reached ==> Reachable(g, start, n)
    requires forall n :: n in reached ==> forall d :: d in Edges(g, n) ==> d == start || d in reached
    ensures SearchResult(g, start, reached, found)
  {
    forall n | Reachable(g, start, n) ensures n in reached {
      var p :| Connects(g, p, start, n);
      PathStaysInside(g, start, reached, p);
    }
  }

  function Concat<A>(searches: seq<(A, seq<Violation>)>): seq<Violation> {
    if searches == [] then []
    else Concat(searches[..|searches| - 1]) + searches[|searches| - 1].1
  }

  lemma ConcatExtends<A>(searches: seq<(A, seq<Violation>)>, one: (A, seq<Violation>))
    ensures Concat(searches + [one]) == Concat(searches) + one.1
  {
    assert (searches + [one])[..|searches|] == searches;
  }

  lemma {:induction false} ConcatEmpty<A>(searches: seq<(A, seq<Violation>)>)
    ensures Concat(searches) == [] <==> forall k :: 0 <= k < |searches| ==> searches[k].1 == []
  {
    if searches != [] {
      ConcatEmpty(searches[..|searches| - 1]);
    }
  }

  lemma EmptyIffAcyclic(packages: seq<string>, g: Graph, searches: seq<(set<string>, seq<Violation>)>)
    requires |searches| == |packages|
    requires forall k :: 0 <= k < |packages| ==> SearchResult(g, packages[k], searches[k].0, searches[k].1)
    ensures Concat(searches) == [] <==> forall n :: n in packages ==> !OnCycle(g, n)
  {
    ConcatEmpty(searches);
    forall k | 0 <= k < |packages| ensures searches[k].1 != [] <==> OnCycle(g, packages[k]) {
      RecordsIffOnCycle(g, packages[k], searches[k].0, searches[k].1);
    }
  }
}

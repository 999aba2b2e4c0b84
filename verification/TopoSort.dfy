/** Dependency order of applications: reachability and cycles in the dependency
    graph, and the iterative three-colour depth-first search that sorts it. */
module TopoSort {
  type Name = string

  /** The registered applications and their declared dependencies. */
  type Graph = map<Name, seq<Name>>

  datatype AppError =
    | NotFound(name: Name)
    | AlreadyStarted(name: Name)
    | DependencyNotRegistered(name: Name)
    | DependencyNotStarted(name: Name)
    | CircularDependency(name: Name)
    | StartFailed(name: Name)

  datatype Sorted = Ok(order: seq<Name>) | Err(error: AppError)

  predicate Edge(g: Graph, a: Name, b: Name)
  {
    a in g && b in g[a]
  }

  /** A chain of dependencies from `a` to `b`; a single name is a path to itself. */
  ghost predicate IsPath(g: Graph, p: seq<Name>, a: Name, b: Name)
  {
    && p != [] && p[0] == a && p[|p| - 1] == b
    && forall i :: 0 <= i < |p| - 1 ==> Edge(g, p[i], p[i + 1])
  }

  ghost predicate Reaches(g: Graph, a: Name, b: Name)
  {
    exists p :: IsPath(g, p, a, b)
  }

  /** `a` depends on itself through at least one dependency. */
  ghost predicate OnCycle(g: Graph, a: Name)
  {
    exists b :: Edge(g, a, b) && Reaches(g, b, a)
  }

  /** Everything `a` needs is registered and nothing it needs depends on itself. */
  ghost predicate Sortable(g: Graph, a: Name)
  {
    forall b :: Reaches(g, a, b) ==> b in g && !OnCycle(g, b)
  }

  /** No duplicates, exactly what is reachable, dependencies first. */
  ghost predicate IsStartOrder(g: Graph, a: Name, order: seq<Name>)
  {
    && (forall i, j :: 0 <= i < j < |order| ==> order[i] != order[j])
    && (forall b :: b in order <==> Reaches(g, a, b))
    && DepsFirst(g, order)
  }

  ghost predicate DepsFirst(g: Graph, order: seq<Name>)
  {
    forall i :: 0 <= i < |order| ==> order[i] in g && forall d :: d in g[order[i]] ==> d in order[..i]
  }

  // ---------------------------------------------------------------------------
  // Paths
  // ---------------------------------------------------------------------------

  lemma ReachSelf(g: Graph, a: Name)
    ensures Reaches(g, a, a)
  {
    assert IsPath(g, [a], a, a);
  }

  lemma ReachStep(g: Graph, a: Name, b: Name, c: Name)
    requires Reaches(g, a, b) && Edge(g, b, c)
    ensures Reaches(g, a, c)
  {
    var p :| IsPath(g, p, a, b);
    assert IsPath(g, p + [c], a, c);
  }

  /** A set that is closed under dependencies holds everything reachable from it. */
  lemma {:induction false} ClosedHoldsPath(g: Graph, s: set<Name>, p: seq<Name>, a: Name, b: Name)
    requires a in s && IsPath(g, p, a, b)
    requires forall x, y :: x in s && Edge(g, x, y) ==> y in s
    ensures b in s
    decreases |p|
  {
    if |p| > 1 {
      assert Edge(g, p[0], p[1]);
      assert IsPath(g, p[1..], p[1], b);
      ClosedHoldsPath(g, s, p[1..], p[1], b);
    }
  }

  /** With dependencies first, a path from an element only leads to it or before it. */
  lemma {:induction false} PathGoesBack(g: Graph, order: seq<Name>, i: nat, p: seq<Name>, b: Name)
    requires DepsFirst(g, order) && i < |order| && IsPath(g, p, order[i], b)
    ensures b in order[..i + 1]
    ensures |p| > 1 ==> b in order[..i]
    decreases |p|
  {
    if |p| > 1 {
      assert Edge(g, p[0], p[1]);
      assert p[1] in order[..i];
      var k :| 0 <= k < i && order[k] == p[1];
      assert IsPath(g, p[1..], p[1], b);
      PathGoesBack(g, order, k, p[1..], b);
    }
  }

  /** A dependency order leaves no room for a cycle. */
  lemma DepsFirstAcyclic(g: Graph, order: seq<Name>, a: Name)
    requires DepsFirst(g, order) && a in order
    requires forall i, j :: 0 <= i < j < |order| ==> order[i] != order[j]
    ensures a in g && !OnCycle(g, a)
  {
    var i :| 0 <= i < |order| && order[i] == a;
    if OnCycle(g, a) {
      var b :| Edge(g, a, b) && Reaches(g, b, a);
      var p :| IsPath(g, p, b, a);
      assert IsPath(g, [a] + p, a, a);
      PathGoesBack(g, order, i, [a] + p, a);
      assert false;
    }
  }

  /** A start order exists only for a sortable application. */
  lemma StartOrderMeansSortable(g: Graph, a: Name, order: seq<Name>)
    requires IsStartOrder(g, a, order)
    ensures Sortable(g, a)
  {
    forall b | Reaches(g, a, b) ensures b in g && !OnCycle(g, b) {
      DepsFirstAcyclic(g, order, b);
    }
  }

  // ---------------------------------------------------------------------------
  // The search
  // ---------------------------------------------------------------------------

  datatype Colour = Grey | Black

  datatype Frame = Frame(node: Name, idx: nat)

  /** The names that can turn up: registered ones and dependencies of those. */
  ghost function Universe(g: Graph, a: Name): set<Name>
  {
    {a} + g.Keys + (set x, y | x in g && y in g[x] :: y)
  }

  /** The stack is a chain of dependencies, each frame just past the entry above it. */
  ghost predicate Chained(g: Graph, stack: seq<Frame>)
  {
    && (forall i :: 0 <= i < |stack| - 1 ==>
          stack[i].node in g && 0 < stack[i].idx <= |g[stack[i].node]|
          && g[stack[i].node][stack[i].idx - 1] == stack[i + 1].node)
    && (forall i, j :: 0 <= i < j < |stack| ==> stack[i].node != stack[j].node)
    && (forall i :: 0 <= i < |stack| ==> stack[i].node in g ==> stack[i].idx <= |g[stack[i].node]|)
  }

  ghost predicate OnStack(stack: seq<Frame>, x: Name)
  {
    exists i :: 0 <= i < |stack| && stack[i].node == x
  }

  /** Grey is on the stack, black is in the result. */
  ghost predicate Coloured(stack: seq<Frame>, colour: map<Name, Colour>, result: seq<Name>)
  {
    && (forall x :: x in colour && colour[x] == Grey <==> OnStack(stack, x))
    && (forall x :: x in colour && colour[x] == Black <==> x in result)
  }

  /** The dependencies a frame has passed are done, except the one above it. */
  ghost predicate Processed(g: Graph, stack: seq<Frame>, result: seq<Name>)
  {
    forall i, k :: 0 <= i < |stack| && stack[i].node in g && 0 <= k < stack[i].idx && k < |g[stack[i].node]| ==>
      g[stack[i].node][k] in result || (i + 1 < |stack| && k == stack[i].idx - 1)
  }

  ghost predicate Discovered(g: Graph, a: Name, stack: seq<Frame>, result: seq<Name>)
  {
    && (forall i :: 0 <= i < |stack| ==> Reaches(g, a, stack[i].node))
    && (forall x :: x in result ==> Reaches(g, a, x))
  }

  ghost predicate NoRepeats(s: seq<Name>)
  {
    forall i, j :: 0 <= i < j < |s| ==> s[i] != s[j]
  }

  /** The stack after its top frame moved on to the next dependency. */
  function Bumped(stack: seq<Frame>): (r: seq<Frame>)
    requires stack != []
    ensures |r| == |stack|
  {
    var top := stack[|stack| - 1];
    stack[|stack| - 1 := Frame(top.node, top.idx + 1)]
  }

  /** The work left on the stack, for termination. */
  ghost function Work(g: Graph, stack: seq<Frame>): nat
  {
    if stack == [] then 0
    else
      var top := stack[|stack| - 1];
      Work(g, stack[..|stack| - 1]) +
      (if top.node in g && top.idx <= |g[top.node]| then |g[top.node]| - top.idx + 1 else 1)
  }

  /** Two frames of the chain with the same name close a cycle. */
  lemma {:induction false} ChainReaches(g: Graph, stack: seq<Frame>, i: nat, j: nat)
    requires Chained(g, stack) && i <= j < |stack|
    ensures Reaches(g, stack[i].node, stack[j].node)
    decreases j - i
  {
    if i == j {
      ReachSelf(g, stack[i].node);
    } else {
      ChainReaches(g, stack, i, j - 1);
      ReachStep(g, stack[i].node, stack[j - 1].node, stack[j].node);
    }
  }

  lemma GreyMeansCycle(g: Graph, stack: seq<Frame>, dep: Name)
    requires Chained(g, stack) && stack != [] && OnStack(stack, dep)
    requires Edge(g, stack[|stack| - 1].node, dep)
    ensures OnCycle(g, dep)
  {
    var i :| 0 <= i < |stack| && stack[i].node == dep;
    var top := |stack| - 1;
    if i == top {
      ReachSelf(g, dep);
      assert Edge(g, dep, dep);
    } else {
      ChainReaches(g, stack, i + 1, top);
      ReachStep(g, stack[i + 1].node, stack[top].node, dep);
      assert Edge(g, dep, stack[i + 1].node);
    }
  }

  ghost predicate SearchInv(g: Graph, a: Name, stack: seq<Frame>, colour: map<Name, Colour>, result: seq<Name>)
  {
    && Chained(g, stack)
    && Coloured(stack, colour, result)
    && Processed(g, stack, result)
    && Discovered(g, a, stack, result)
    && NoRepeats(result)
    && DepsFirst(g, result)
    && a in colour
    && colour.Keys <= Universe(g, a)
  }

  lemma SearchStarts(g: Graph, a: Name)
    ensures SearchInv(g, a, [Frame(a, 0)], map[a := Grey], [])
  {
    ReachSelf(g, a);
    assert [Frame(a, 0)][0].node == a;
  }

  /** A dependency already done is skipped. */
  lemma SearchSkips(g: Graph, a: Name, stack: seq<Frame>, colour: map<Name, Colour>, result: seq<Name>)
    requires SearchInv(g, a, stack, colour, result) && stack != []
    requires var top := stack[|stack| - 1];
             top.node in g && top.idx < |g[top.node]| && g[top.node][top.idx] in result
    ensures SearchInv(g, a, Bumped(stack), colour, result) && Work(g, Bumped(stack)) < Work(g, stack)
  {
    hide Chained, Coloured, DepsFirst, Reaches, NoRepeats, Universe;
    var t, next := |stack| - 1, Bumped(stack);
    assert next[..t] == stack[..t];
    SkipShape(g, stack, colour, result);
    assert Processed(g, next, result) by {
      forall i, k | 0 <= i < |next| && next[i].node in g && 0 <= k < next[i].idx && k < |g[next[i].node]|
        ensures g[next[i].node][k] in result || (i + 1 < |next| && k == next[i].idx - 1)
      {
        if i < t { assert next[i] == stack[i]; }
      }
    }
  }

  lemma SkipShape(g: Graph, stack: seq<Frame>, colour: map<Name, Colour>, result: seq<Name>)
    requires Chained(g, stack) && Coloured(stack, colour, result) && stack != []
    requires var top := stack[|stack| - 1]; top.node in g && top.idx < |g[top.node]|
    ensures Chained(g, Bumped(stack)) && Coloured(Bumped(stack), colour, result)
    ensures forall i :: 0 <= i < |stack| ==> Bumped(stack)[i].node == stack[i].node
  {
    var t, next := |stack| - 1, Bumped(stack);
    assert forall i :: 0 <= i < |stack| ==> next[i].node == stack[i].node;
    assert forall i :: 0 <= i < t ==> next[i] == stack[i];
    forall x ensures OnStack(next, x) <==> OnStack(stack, x) {
      if OnStack(stack, x) { var i :| 0 <= i < |stack| && stack[i].node == x; assert next[i].node == x; }
    }
  }

  /** A dependency not seen yet is entered. */
  lemma SearchEnters(g: Graph, a: Name, stack: seq<Frame>, colour: map<Name, Colour>, result: seq<Name>)
    requires SearchInv(g, a, stack, colour, result) && stack != []
    requires var top := stack[|stack| - 1];
             top.node in g && top.idx < |g[top.node]| && g[top.node][top.idx] !in colour
    ensures var top := stack[|stack| - 1];
            var dep := g[top.node][top.idx];
            SearchInv(g, a, Bumped(stack) + [Frame(dep, 0)], colour[dep := Grey], result) && dep in Universe(g, a)
  {
    var t := |stack| - 1;
    var dep := g[stack[t].node][stack[t].idx];
    var next := stack[t := Frame(stack[t].node, stack[t].idx + 1)] + [Frame(dep, 0)];
    assert Edge(g, stack[t].node, dep);
    ReachStep(g, a, stack[t].node, dep);
    EnterChained(g, stack, dep, colour, result);
    EnterColoured(stack, dep, colour, result, stack[t].idx + 1);
    assert forall i :: 0 <= i < t ==> next[i] == stack[i];
    assert Processed(g, next, result) by {
      forall i, k | 0 <= i < |next| && next[i].node in g && 0 <= k < next[i].idx && k < |g[next[i].node]|
        ensures g[next[i].node][k] in result || (i + 1 < |next| && k == next[i].idx - 1)
      {
        if i == t && k < stack[t].idx { assert g[stack[t].node][k] in result; }
      }
    }
  }

  lemma EnterChained(g: Graph, stack: seq<Frame>, dep: Name, colour: map<Name, Colour>, result: seq<Name>)
    requires Chained(g, stack) && stack != [] && Coloured(stack, colour, result) && dep !in colour
    requires var top := stack[|stack| - 1];
             top.node in g && top.idx < |g[top.node]| && g[top.node][top.idx] == dep
    ensures var top := stack[|stack| - 1];
            Chained(g, stack[|stack| - 1 := Frame(top.node, top.idx + 1)] + [Frame(dep, 0)])
  {
    var t := |stack| - 1;
    var next := stack[t := Frame(stack[t].node, stack[t].idx + 1)] + [Frame(dep, 0)];
    assert forall i :: 0 <= i < t ==> next[i] == stack[i];
    forall i | 0 <= i < |stack| ensures next[i].node == stack[i].node != dep {
      assert OnStack(stack, stack[i].node);
    }
  }

  lemma EnterColoured(stack: seq<Frame>, dep: Name, colour: map<Name, Colour>, result: seq<Name>, idx: nat)
    requires stack != [] && Coloured(stack, colour, result) && dep !in colour
    ensures var t := |stack| - 1;
            Coloured(stack[t := Frame(stack[t].node, idx)] + [Frame(dep, 0)], colour[dep := Grey], result)
  {
    var t := |stack| - 1;
    var next := stack[t := Frame(stack[t].node, idx)] + [Frame(dep, 0)];
    forall x ensures OnStack(next, x) <==> OnStack(stack, x) || x == dep {
      if OnStack(stack, x) { var i :| 0 <= i < |stack| && stack[i].node == x; assert next[i].node == x; }
      assert next[|stack|].node == dep;
    }
  }

  /** A name whose dependencies are all done is finished. */
  lemma SearchFinishes(g: Graph, a: Name, stack: seq<Frame>, colour: map<Name, Colour>, result: seq<Name>)
    requires SearchInv(g, a, stack, colour, result) && stack != []
    requires var top := stack[|stack| - 1]; top.node in g && top.idx >= |g[top.node]|
    ensures var node := stack[|stack| - 1].node;
            SearchInv(g, a, stack[..|stack| - 1], colour[node := Black], result + [node])
            && Work(g, stack[..|stack| - 1]) < Work(g, stack)
  {
    var t := |stack| - 1;
    var node, rest := stack[t].node, stack[..t];
    var done := result + [node];
    assert OnStack(stack, node);
    assert node !in result;
    FinishColoured(stack, colour, result);
    forall d | d in g[node] ensures d in result {
      var k :| 0 <= k < |g[node]| && g[node][k] == d;
      assert stack[t].node in g && k < stack[t].idx;
    }
    assert DepsFirst(g, done) by {
      forall i | 0 <= i < |done| ensures done[i] in g && forall d :: d in g[done[i]] ==> d in done[..i] {
        if i < |result| {
          assert done[..i] == result[..i];
        } else {
          assert done[..i] == result;
        }
      }
    }
    assert Processed(g, rest, done) by {
      forall i, k | 0 <= i < |rest| && rest[i].node in g && 0 <= k < rest[i].idx && k < |g[rest[i].node]|
        ensures g[rest[i].node][k] in done || (i + 1 < |rest| && k == rest[i].idx - 1)
      {
        assert rest[i] == stack[i];
        if g[stack[i].node][k] !in result && i + 1 == t { assert g[stack[i].node][k] == node; }
      }
    }
  }

  lemma FinishColoured(stack: seq<Frame>, colour: map<Name, Colour>, result: seq<Name>)
    requires stack != [] && Coloured(stack, colour, result)
    requires forall i, j :: 0 <= i < j < |stack| ==> stack[i].node != stack[j].node
    ensures var node := stack[|stack| - 1].node;
            Coloured(stack[..|stack| - 1], colour[node := Black], result + [node])
  {
    var t := |stack| - 1;
    var node, rest := stack[t].node, stack[..t];
    forall x ensures OnStack(rest, x) <==> OnStack(stack, x) && x != node {
      if OnStack(rest, x) { var i :| 0 <= i < |rest| && rest[i].node == x; assert stack[i].node == x; }
      if OnStack(stack, x) && x != node { var i :| 0 <= i < |stack| && stack[i].node == x; assert rest[i].node == x; }
    }
  }

  /** When the stack is empty the result is a start order. */
  lemma SearchEnds(g: Graph, a: Name, colour: map<Name, Colour>, result: seq<Name>)
    requires SearchInv(g, a, [], colour, result)
    ensures IsStartOrder(g, a, result)
  {
    assert a in result by { if colour[a] == Grey { assert OnStack([], a); } }
    var s := set x | x in result;
    forall x, y | x in s && Edge(g, x, y) ensures y in s {
      var i :| 0 <= i < |result| && result[i] == x;
      assert y in result[..i];
    }
    forall b | Reaches(g, a, b) ensures b in result {
      var p :| IsPath(g, p, a, b);
      ClosedHoldsPath(g, s, p, a, b);
    }
  }

  /** The start order of `name` and everything it needs, or why there is none.
      It succeeds exactly when everything reachable is registered and acyclic. */
  method TopologicalSort(g: Graph, name: Name) returns (r: Sorted)
    ensures r.Ok? <==> Sortable(g, name)
    ensures r.Ok? ==> IsStartOrder(g, name, r.order)
    ensures r.Err? ==> r.error.CircularDependency? || r.error.DependencyNotRegistered?
    ensures r.Err? && r.error.CircularDependency? ==> Reaches(g, name, r.error.name) && OnCycle(g, r.error.name)
    ensures r.Err? && r.error.DependencyNotRegistered? ==> Reaches(g, name, r.error.name) && r.error.name !in g
  {
    hide SearchInv, IsStartOrder, OnCycle, Reaches, Work, Universe, Sortable, Bumped;
    var colour: map<Name, Colour> := map[name := Grey];
    var result: seq<Name> := [];
    var stack := [Frame(name, 0)];
    var cache: Graph := map[];
    SearchStarts(g, name);
    while stack != []
      invariant SearchInv(g, name, stack, colour, result)
      invariant forall x :: x in cache ==> x in g && cache[x] == g[x]
      decreases |Universe(g, name) - colour.Keys|, Work(g, stack)
    {
      var t := |stack| - 1;
      var node, idx := stack[t].node, stack[t].idx;
      TopReached(g, name, stack, colour, result);
      if node !in cache {
        if node !in g {
          NotSortable(g, name, node);
          return Err(DependencyNotRegistered(node));
        }
        cache := cache[node := g[node]];
      }
      var deps := cache[node];
      if idx < |deps| {
        var dep := deps[idx];
        if dep in colour && colour[dep] == Grey {
          TopDependency(g, name, stack, colour, result);
          NotSortable(g, name, dep);
          return Err(CircularDependency(dep));
        } else if dep in colour {
          BlackIsDone(g, name, stack, colour, result, dep);
          SearchSkips(g, name, stack, colour, result);
          stack := Bumped(stack);
        } else {
          SearchEnters(g, name, stack, colour, result);
          Shrinks(Universe(g, name), colour, dep);
          stack := Bumped(stack) + [Frame(dep, 0)];
          colour := colour[dep := Grey];
        }
      } else {
        SearchFinishes(g, name, stack, colour, result);
        AlreadyColoured(g, name, stack, colour, result);
        stack := stack[..t];
        colour := colour[node := Black];
        result := result + [node];
      }
    }
    SearchEnds(g, name, colour, result);
    StartOrderMeansSortable(g, name, result);
    r := Ok(result);
  }

  lemma NotSortable(g: Graph, a: Name, b: Name)
    requires Reaches(g, a, b) && (b !in g || OnCycle(g, b))
    ensures !Sortable(g, a)
  {
  }

  lemma TopReached(g: Graph, a: Name, stack: seq<Frame>, colour: map<Name, Colour>, result: seq<Name>)
    requires SearchInv(g, a, stack, colour, result) && stack != []
    ensures Reaches(g, a, stack[|stack| - 1].node)
  {
  }

  lemma BlackIsDone(g: Graph, a: Name, stack: seq<Frame>, colour: map<Name, Colour>, result: seq<Name>, dep: Name)
    requires SearchInv(g, a, stack, colour, result) && dep in colour && colour[dep] == Black
    ensures dep in result
  {
  }

  lemma AlreadyColoured(g: Graph, a: Name, stack: seq<Frame>, colour: map<Name, Colour>, result: seq<Name>)
    requires SearchInv(g, a, stack, colour, result) && stack != []
    ensures colour[stack[|stack| - 1].node := Black].Keys == colour.Keys
  {
    assert OnStack(stack, stack[|stack| - 1].node);
  }

  lemma TopDependency(g: Graph, a: Name, stack: seq<Frame>, colour: map<Name, Colour>, result: seq<Name>)
    requires SearchInv(g, a, stack, colour, result) && stack != []
    requires var top := stack[|stack| - 1];
             top.node in g && top.idx < |g[top.node]| && g[top.node][top.idx] in colour
             && colour[g[top.node][top.idx]] == Grey
    ensures var top := stack[|stack| - 1];
            Reaches(g, a, g[top.node][top.idx]) && OnCycle(g, g[top.node][top.idx])
  {
    var top := stack[|stack| - 1];
    var dep := g[top.node][top.idx];
    assert Edge(g, top.node, dep);
    ReachStep(g, a, top.node, dep);
    GreyMeansCycle(g, stack, dep);
  }

  lemma Shrinks(u: set<Name>, colour: map<Name, Colour>, dep: Name)
    requires dep in u && dep !in colour
    ensures |u - colour[dep := Grey].Keys| < |u - colour.Keys|
  {
    assert u - colour[dep := Grey].Keys == (u - colour.Keys) - {dep};
  }
}

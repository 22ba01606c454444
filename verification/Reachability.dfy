/** Who can reach whom by radio. */
module Reachability {
  // A directed graph in which a unit reaches the active units of its own side within its range, and messages are
  // relayed along chains of such units.
  import opened Listings

  datatype Node = Node(x: real, y: real, range: real, side: string, active: bool)

  type Graph = map<string, Node>

  function Square(d: real): real { d * d }

  function Clamped(range: real): real { if range < 0.0 then 0.0 else range }

  /** The distance between two nodes is at most the sender's range, a negative one counting as 0. */
  predicate InRange(a: Node, b: Node) {
    Square(a.x - b.x) + Square(a.y - b.y) <= Square(Clamped(a.range))
  }

  predicate Takes(graph: Graph, id: string) {
    id in graph && graph[id].active && graph[id].side != ""
  }

  /** One hop. */
  predicate Link(graph: Graph, a: string, b: string) {
    && Takes(graph, a) && Takes(graph, b) && graph[a].side == graph[b].side
    && InRange(graph[a], graph[b])
  }

  ghost predicate LinkAt(graph: Graph, path: seq<string>, i: nat)
    requires i + 1 < |path|
  {
    Link(graph, path[i], path[i + 1])
  }

  /** A chain of active units of one side, each within its predecessor's range. */
  ghost predicate Chain(graph: Graph, path: seq<string>) {
    && path != [] && Takes(graph, path[0])
    && forall i :: 0 <= i < |path| - 1 ==> LinkAt(graph, path, i)
  }

  ghost predicate Joins(graph: Graph, path: seq<string>, a: string, b: string) {
    Chain(graph, path) && path[0] == a && path[|path| - 1] == b
  }

  ghost predicate Connected(graph: Graph, a: string, b: string) {
    exists path :: Joins(graph, path, a, b)
  }

  ghost function ReachSet(graph: Graph, a: string): set<string> {
    set b | b in graph && Connected(graph, a, b)
  }

  lemma ConnectedToItself(graph: Graph, a: string)
    ensures Connected(graph, a, a) <==> Takes(graph, a)
  {
    if Takes(graph, a) { assert Joins(graph, [a], a, a); }
  }

  lemma OneMoreHop(graph: Graph, a: string, b: string, c: string)
    requires Connected(graph, a, b) && Link(graph, b, c)
    ensures Connected(graph, a, c)
  {
    var path :| Joins(graph, path, a, b);
    var longer := path + [c];
    forall i | 0 <= i < |longer| - 1 ensures LinkAt(graph, longer, i) {
      if i < |path| - 1 { assert LinkAt(graph, path, i); }
    }
    assert Joins(graph, longer, a, c);
  }

  /** Every hop from a node of the set stays in the set. */
  ghost predicate ClosedFrom(graph: Graph, from: set<string>, reached: set<string>) {
    forall a, b :: a in from && Link(graph, a, b) ==> b in reached
  }

  /** A chain cannot leave a set that is closed under hops. */
  lemma {:induction false} ClosedSetTraps(graph: Graph, reached: set<string>, path: seq<string>)
    requires ClosedFrom(graph, reached, reached) && Chain(graph, path) && path[0] in reached
    ensures path[|path| - 1] in reached
  {
    if |path| > 1 {
      var shorter := path[..|path| - 1];
      forall i | 0 <= i < |shorter| - 1 ensures LinkAt(graph, shorter, i) {
        assert LinkAt(graph, path, i);
      }
      ClosedSetTraps(graph, reached, shorter);
      assert LinkAt(graph, path, |path| - 2);
    }
  }

  lemma ClosedSetIsEverything(graph: Graph, a: string, reached: set<string>, b: string)
    requires a in reached && ClosedFrom(graph, reached, reached) && Connected(graph, a, b)
    ensures b in reached
  {
    var path :| Joins(graph, path, a, b);
    ClosedSetTraps(graph, reached, path);
  }

  lemma ConnectedNodesTakePart(graph: Graph, a: string, b: string)
    requires Connected(graph, a, b)
    ensures Takes(graph, a) && Takes(graph, b) && graph[a].side == graph[b].side
  {
    var path :| Joins(graph, path, a, b);
    ChainStaysOnSide(graph, path);
  }

  lemma {:induction false} ChainStaysOnSide(graph: Graph, path: seq<string>)
    requires Chain(graph, path)
    ensures Takes(graph, path[|path| - 1]) && graph[path[|path| - 1]].side == graph[path[0]].side
  {
    if |path| > 1 {
      var shorter := path[..|path| - 1];
      forall i | 0 <= i < |shorter| - 1 ensures LinkAt(graph, shorter, i) {
        assert LinkAt(graph, path, i);
      }
      ChainStaysOnSide(graph, shorter);
      assert LinkAt(graph, path, |path| - 2);
    }
  }

  /** A search that started at a: what it reached, and the part of that it has still to expand. */
  ghost predicate Searching(graph: Graph, a: string, visited: set<string>, open: set<string>) {
    && a in visited && open <= visited
    && (forall b :: b in visited ==> b == a || Connected(graph, a, b))
    && ClosedFrom(graph, visited - open, visited)
  }

  /**
   Expands one unit: every unit it links to is visited, and the newly visited ones are queued.
   Stops as soon as the target turns up.
   */
  method Expand(graph: Graph, ghost a: string, current: string, target: string,
                visited: set<string>, pending: seq<string>)
    returns (found: bool, visited': set<string>, pending': seq<string>)
    requires Searching(graph, a, visited, Elements(pending) + {current})
    requires current == a || Connected(graph, a, current)
    requires Takes(graph, current) && Takes(graph, a) && visited <= graph.Keys
    requires target !in visited
    ensures found ==> Connected(graph, a, target)
    ensures !found ==> Searching(graph, a, visited', Elements(pending')) && target !in visited'
    ensures visited <= visited' <= graph.Keys && |pending'| - |pending| == |visited'| - |visited|
  {
    found, visited', pending' := false, visited, pending;
    ConnectedToItself(graph, a);
    var left := graph.Keys;
    while left != {}
      invariant left <= graph.Keys && visited <= visited' <= graph.Keys
      invariant |pending'| - |pending| == |visited'| - |visited|
      invariant Searching(graph, a, visited', Elements(pending') + {current})
      invariant forall b :: Link(graph, current, b) && b !in left ==> b in visited'
      invariant target !in visited'
      decreases left
    {
      var candidate :| candidate in left;
      left := left - {candidate};
      if candidate in visited' || !graph[candidate].active || graph[candidate].side != graph[current].side {
        continue;
      }
      if !InRange(graph[current], graph[candidate]) { continue; }
      OneMoreHop(graph, a, current, candidate);
      if target == candidate { return true, visited', pending'; }
      AppendedElement(pending', candidate);
      visited' := visited' + {candidate};
      pending' := pending' + [candidate];
    }
  }

  lemma SearchedNode(graph: Graph, a: string, visited: set<string>, open: set<string>, b: string)
    requires Searching(graph, a, visited, open) && b in visited && a in graph && graph[a].side != ""
    ensures Takes(graph, b) || (b == a && !graph[a].active)
    ensures Takes(graph, b) ==> Takes(graph, a)
  {
    if b != a { ConnectedNodesTakePart(graph, a, b); }
  }

  lemma SearchDone(graph: Graph, a: string, visited: set<string>)
    requires Searching(graph, a, visited, {}) && visited <= graph.Keys
    ensures visited == {a} + ReachSet(graph, a)
    ensures forall b :: Connected(graph, a, b) ==> b in visited
  {
    forall b | Connected(graph, a, b) ensures b in visited {
      ClosedSetIsEverything(graph, a, visited, b);
    }
    forall b | b in visited && b != a ensures b in ReachSet(graph, a) {
      ConnectedNodesTakePart(graph, a, b);
    }
  }

  /** Breadth-first search from a unit; true when it meets the target. */
  method Search(graph: Graph, a: string, target: string) returns (found: bool)
    requires a in graph && graph[a].side != "" && target != a
    ensures found == Connected(graph, a, target)
  {
    var pending, visited := [a], {a};
    found := false;
    while pending != []
      invariant visited <= graph.Keys
      invariant Searching(graph, a, visited, Elements(pending))
      invariant !found && target !in visited
      decreases |graph.Keys - visited|, |pending|
    {
      var current := pending[0];
      AppendedElement(pending[1..], current);
      assert pending == [current] + pending[1..];
      SearchedNode(graph, a, visited, Elements(pending), current);
      pending := pending[1..];
      if !graph[current].active { continue; }
      ghost var before := visited;
      found, visited, pending := Expand(graph, a, current, target, visited, pending);
      if found { return; }
      Smaller(graph.Keys, before, visited);
    }
    SearchDone(graph, a, visited);
  }

  lemma Smaller(all: set<string>, before: set<string>, after: set<string>)
    requires before <= after <= all
    ensures |all - after| <= |all - before|
    ensures |after| > |before| ==> |all - after| < |all - before|
  {
    assert all - before == (all - after) + (after - before);
    assert after == before + (after - before);
  }
}

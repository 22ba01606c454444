/** The projector's own, cached view of who reaches whom. */
module StateProjector {
  // For each engine and side a table of everything each unit reaches, rebuilt when the topology's fingerprint or the
  // state revision changes, for at most sixteen engines at a time.
  import opened Listings
  import opened Reachability

  const MAX_CACHED_ENGINES: nat := 16

  datatype Side = Red | Blue

  datatype EngineUnit = EngineUnit(x: real, y: real, alt: real, commRange: real, side: Side, alive: bool)

  type Topology = map<string, EngineUnit>

  function SideName(side: Side): string { if side == Red then "red" else "blue" }

  function NodeOf(unit: EngineUnit): Node {
    Node(unit.x, unit.y, unit.commRange, SideName(unit.side), unit.alive)
  }

  function GraphOf(topology: Topology): Graph {
    map id | id in topology :: NodeOf(topology[id])
  }

  /** The projector's own test of one hop. */
  predicate WithinDirectedRange(sender: EngineUnit, recipient: EngineUnit) {
    && sender.alive && recipient.alive && sender.side == recipient.side
    && Square(sender.x - recipient.x) + Square(sender.y - recipient.y)
       <= Square(if sender.commRange < 0.0 then 0.0 else sender.commRange)
  }

  predicate Hop(topology: Topology, side: Side, a: string, b: string) {
    && a in topology && b in topology && topology[b].side == side
    && WithinDirectedRange(topology[a], topology[b])
  }

  /** Starting on a side, the projector's hops are those of the graph. */
  lemma HopsAreLinks(topology: Topology, side: Side, a: string, b: string)
    requires a in topology && topology[a].side == side
    ensures Hop(topology, side, a, b) <==> Link(GraphOf(topology), a, b)
  {
  }

  /** A traversal has only met units of the side it started on. */
  lemma MetUnitIsOfSide(topology: Topology, source: string, id: string)
    requires source in topology && (id == source || Connected(GraphOf(topology), source, id))
    ensures id in topology && topology[id].side == topology[source].side
  {
    if id != source { ConnectedNodesTakePart(GraphOf(topology), source, id); }
  }

  type Table = map<string, set<string>>

  datatype Entry = Entry(stateRevision: nat, fingerprint: int, reachable: Table)

  /** What each unit of a side reaches, itself included. */
  ghost function TableOf(topology: Topology, side: Side): Table {
    map id | id in topology && topology[id].side == side :: {id} + ReachSet(GraphOf(topology), id)
  }

  /** The bus and the engine describe the same units; the bus keeps only non-negative ranges. */
  ghost predicate Mirrors(bus: Graph, topology: Topology) {
    && bus.Keys == topology.Keys
    && forall id :: id in topology ==>
         bus[id] == NodeOf(topology[id]).(range := Clamped(topology[id].commRange))
  }

  lemma TableAnswers(topology: Topology, sender: string, recipient: string)
    requires sender in topology && recipient in topology && sender != recipient
    ensures recipient in TableOf(topology, topology[sender].side)[sender]
            <==> Connected(GraphOf(topology), sender, recipient)
  {
  }

  class Projector {
    const fingerprintOf: Topology -> int
    var caches: map<nat, map<Side, Entry>>
    var engineOrder: seq<nat>

    /** Every cached table belongs to some topology with the entry's fingerprint. */
    ghost predicate Valid()
      reads this
    {
      && |engineOrder| <= MAX_CACHED_ENGINES && NoRepeats(engineOrder)
      && (forall engine :: engine in caches ==> engine in engineOrder)
      && forall engine, side :: engine in caches && side in caches[engine] ==>
           Genuine(caches[engine][side], side)
    }

    ghost predicate Genuine(entry: Entry, side: Side) {
      exists topology ::
        fingerprintOf(topology) == entry.fingerprint && TableOf(topology, side) == entry.reachable
    }

    constructor (fingerprintOf: Topology -> int)
      ensures Valid() && this.fingerprintOf == fingerprintOf
    {
      this.fingerprintOf, caches, engineOrder := fingerprintOf, map[], [];
    }

    /** Expands one unit: every unit of the side it reaches in one hop is met, and the newly met ones are queued. */
    static method ExpandUnit(topology: Topology, side: Side, ghost source: string, current: string,
                             reachable: set<string>, pending: seq<string>)
      returns (reachable': set<string>, pending': seq<string>)
      requires source in topology && topology[source].side == side && reachable <= topology.Keys
      requires current == source || Connected(GraphOf(topology), source, current)
      requires Searching(GraphOf(topology), source, reachable, Elements(pending) + {current})
      ensures Searching(GraphOf(topology), source, reachable', Elements(pending'))
      ensures reachable <= reachable' <= topology.Keys && |pending'| - |pending| == |reachable'| - |reachable|
    {
      reachable', pending' := reachable, pending;
      MetUnitIsOfSide(topology, source, current);
      ghost var graph := GraphOf(topology);
      var left := topology.Keys;
      while left != {}
        invariant left <= topology.Keys && reachable <= reachable' <= topology.Keys
        invariant |pending'| - |pending| == |reachable'| - |reachable|
        invariant Searching(graph, source, reachable', Elements(pending') + {current})
        invariant forall b :: Link(graph, current, b) && b !in left ==> b in reachable'
        decreases left
      {
        var candidate :| candidate in left;
        left := left - {candidate};
        HopsAreLinks(topology, side, current, candidate);
        if candidate in reachable' || topology[candidate].side != side
           || !WithinDirectedRange(topology[current], topology[candidate]) { continue; }
        MetOneMore(graph, source, current, candidate);
        AppendedElement(pending', candidate);
        reachable' := reachable' + {candidate};
        pending' := pending' + [candidate];
      }
    }

    static lemma MetOneMore(graph: Graph, source: string, current: string, candidate: string)
      requires Link(graph, current, candidate) && (current == source || Connected(graph, source, current))
      ensures Connected(graph, source, candidate)
    {
      ConnectedToItself(graph, source);
      OneMoreHop(graph, source, current, candidate);
    }

    /** The breadth-first traversal from one unit of the side, through to its end. */
    static method Traverse(topology: Topology, side: Side, source: string) returns (reachable: set<string>)
      requires source in topology && topology[source].side == side
      ensures reachable == {source} + ReachSet(GraphOf(topology), source)
    {
      var pending := [source];
      reachable := {source};
      ghost var graph := GraphOf(topology);
      while pending != []
        invariant reachable <= topology.Keys
        invariant Searching(graph, source, reachable, Elements(pending))
        decreases |topology.Keys - reachable|, |pending|
      {
        var current := pending[0];
        AppendedElement(pending[1..], current);
        assert pending == [current] + pending[1..];
        assert current in Elements(pending);
        pending := pending[1..];
        ghost var before := reachable;
        reachable, pending := ExpandUnit(topology, side, source, current, reachable, pending);
        Smaller(topology.Keys, before, reachable);
      }
      SearchDone(graph, source, reachable);
    }

    /** One traversal for each unit of the side. */
    static method BuildTable(topology: Topology, side: Side) returns (table: Table)
      ensures table == TableOf(topology, side)
    {
      table := map[];
      var left := topology.Keys;
      while left != {}
        invariant left <= topology.Keys
        invariant table.Keys == TableOf(topology, side).Keys - left
        invariant forall id :: id in table ==> table[id] == {id} + ReachSet(GraphOf(topology), id)
        decreases left
      {
        var source :| source in left;
        left := left - {source};
        if topology[source].side != side { continue; }
        var reached := Traverse(topology, side, source);
        table := table[source := reached];
      }
    }

    /** Makes the engine the most recently used one; beyond the limit the least recently used are evicted, and with
        them their tables. */
    method Touch(engine: nat)
      requires Valid()
      modifies this
      ensures Valid() && engineOrder == Newest(Others(old(engineOrder), engine) + [engine])
      ensures caches == Kept(old(caches), engineOrder)
    {
      OthersOnce(engineOrder, engine);
      engineOrder := Others(engineOrder, engine) + [engine];
      assert caches == Kept(caches, engineOrder);
      Evict();
    }

    /** Evicts engines from the front of the order until the limit is met. */
    method Evict()
      requires NoRepeats(engineOrder) && caches == Kept(caches, engineOrder)
      modifies this
      ensures engineOrder == Newest(old(engineOrder)) && NoRepeats(engineOrder)
      ensures caches == Kept(old(caches), engineOrder)
    {
      ghost var all := engineOrder;
      while |engineOrder| > MAX_CACHED_ENGINES
        invariant |engineOrder| <= |all| && engineOrder == all[|all| - |engineOrder|..]
        invariant |engineOrder| >= MAX_CACHED_ENGINES || engineOrder == all
        invariant NoRepeats(engineOrder) && caches == Kept(old(caches), engineOrder)
      {
        var oldest, rest := engineOrder[0], engineOrder[1..];
        OneLessKept(old(caches), engineOrder);
        caches, engineOrder := caches - {oldest}, rest;
      }
    }

    /** The cached table, if it was made for the same revision and the same fingerprint. */
    predicate Current(engine: nat, side: Side, stateRevision: nat, fingerprint: int)
      reads this
    {
      && engine in caches && side in caches[engine] && caches[engine][side].stateRevision == stateRevision
      && caches[engine][side].fingerprint == fingerprint
    }

    /** The table for a side: from the cache only while its revision and its fingerprint are current, else rebuilt. */
    method Lookup(engine: nat, topology: Topology, side: Side, stateRevision: nat) returns (table: Table)
      requires Valid()
      modifies this
      ensures Valid()
      ensures table == if old(Current(engine, side, stateRevision, fingerprintOf(topology)))
                       then old(caches)[engine][side].reachable else TableOf(topology, side)
      ensures Genuine(Entry(stateRevision, fingerprintOf(topology), table), side)
      ensures engine in caches && side in caches[engine]
              && caches[engine][side] == Entry(stateRevision, fingerprintOf(topology), table)
    {
      Touch(engine);
      NewestHasLast(Others(old(engineOrder), engine), engine);
      var fingerprint := fingerprintOf(topology);
      if Current(engine, side, stateRevision, fingerprint) {
        assert Genuine(caches[engine][side], side);
        table := caches[engine][side].reachable;
      } else {
        table := Rebuild(engine, topology, side, stateRevision, fingerprint);
      }
    }

    /** A new table, which takes the place of the one that was cached. */
    method Rebuild(engine: nat, topology: Topology, side: Side, stateRevision: nat, fingerprint: int)
      returns (table: Table)
      requires Valid() && engine in engineOrder && fingerprint == fingerprintOf(topology)
      modifies `caches
      ensures Valid() && table == TableOf(topology, side)
      ensures engine in caches && side in caches[engine]
              && caches[engine][side] == Entry(stateRevision, fingerprint, table)
    {
      table := BuildTable(topology, side);
      var entry := Entry(stateRevision, fingerprint, table);
      assert Genuine(entry, side);
      var perEngine: map<Side, Entry> := if engine in caches then caches[engine] else map[];
      caches := caches[engine := perEngine[side := entry]];
    }

    /**
     Whether a sender reaches a recipient.  The answer is that of the current topology as long
     as no other topology has the same fingerprint, whatever was cached and evicted before.
     */
    method DirectedReachable(engine: nat, topology: Topology, sender: string, recipient: string,
                             stateRevision: nat)
      returns (r: bool)
      requires Valid()
      modifies this
      ensures Valid()
      ensures sender == "" || recipient == "" ==> !r
      ensures sender == recipient != "" ==> r
      ensures sender != "" && recipient != "" && sender != recipient && Distinguished(topology) ==>
                r == Connected(GraphOf(topology), sender, recipient)
    {
      if sender == "" || recipient == "" { return false; }
      if sender == recipient { return true; }
      if sender !in topology || recipient !in topology || topology[sender].side != topology[recipient].side {
        if Connected(GraphOf(topology), sender, recipient) {
          ConnectedNodesTakePart(GraphOf(topology), sender, recipient);
        }
        return false;
      }
      var reachable := Lookup(engine, topology, topology[sender].side, stateRevision);
      r := sender in reachable && recipient in reachable[sender];
      if Distinguished(topology) {
        assert reachable == TableOf(topology, topology[sender].side);
        TableAnswers(topology, sender, recipient);
      }
    }

    /** No other topology has this one's fingerprint. */
    ghost predicate Distinguished(topology: Topology) {
      forall other :: fingerprintOf(other) == fingerprintOf(topology) ==> other == topology
    }
  }

  function Others(order: seq<nat>, engine: nat): (others: seq<nat>)
    ensures forall e :: e in others <==> e in order && e != engine
  {
    if order == [] then []
    else (if order[0] == engine then [] else [order[0]]) + Others(order[1..], engine)
  }

  /** The last entries of an order, as many as may be cached. */
  function Newest(order: seq<nat>): seq<nat> {
    if |order| <= MAX_CACHED_ENGINES then order else order[|order| - MAX_CACHED_ENGINES..]
  }

  /** The tables of the engines that are still in the order. */
  function Kept(caches: map<nat, map<Side, Entry>>, order: seq<nat>): map<nat, map<Side, Entry>> {
    map engine | engine in caches && engine in order :: caches[engine]
  }

  lemma OneLessKept(caches: map<nat, map<Side, Entry>>, order: seq<nat>)
    requires order != [] && NoRepeats(order)
    ensures NoRepeats(order[1..]) && Kept(caches, order) - {order[0]} == Kept(caches, order[1..])
  {
    OldestGoes(order);
  }

  lemma NewestHasLast(others: seq<nat>, engine: nat)
    ensures engine in Newest(others + [engine])
  {
    var newest := Newest(others + [engine]);
    assert newest[|newest| - 1] == engine;
  }

  lemma {:induction false} OthersOnce(order: seq<nat>, engine: nat)
    requires NoRepeats(order)
    ensures NoRepeats(Others(order, engine) + [engine])
  {
    if order != [] {
      OldestGoes(order);
      OthersOnce(order[1..], engine);
      if order[0] != engine {
        OneMoreOnce(order[0], Others(order[1..], engine) + [engine]);
        assert Others(order, engine) + [engine] == [order[0]] + (Others(order[1..], engine) + [engine]);
      } else {
        assert Others(order, engine) == Others(order[1..], engine);
      }
    }
  }

  lemma OneMoreOnce(e: nat, order: seq<nat>)
    requires NoRepeats(order) && e !in order
    ensures NoRepeats([e] + order)
  {
  }

  lemma OldestGoes(order: seq<nat>)
    requires order != [] && NoRepeats(order)
    ensures NoRepeats(order[1..]) && forall e :: e in order[1..] <==> e in order && e != order[0]
  {
    forall e | e in order[1..] ensures e in order && e != order[0] {
      var i :| 0 <= i < |order| - 1 && order[1..][i] == e;
      assert order[i + 1] == e;
    }
    forall e | e in order && e != order[0] ensures e in order[1..] {
      var i :| 0 <= i < |order| && order[i] == e;
      assert order[1..][i - 1] == e;
    }
  }

  /* ------------------------------------------------------------------ the two implementations */

  lemma MirroredLink(bus: Graph, topology: Topology, a: string, b: string)
    requires Mirrors(bus, topology)
    ensures Link(bus, a, b) <==> Link(GraphOf(topology), a, b)
    ensures Takes(bus, a) <==> Takes(GraphOf(topology), a)
  {
    if a in topology && b in topology {
      assert Clamped(bus[a].range) == Clamped(GraphOf(topology)[a].range);
    }
  }

  lemma MirroredChain(bus: Graph, topology: Topology, path: seq<string>)
    requires Mirrors(bus, topology)
    ensures Chain(bus, path) <==> Chain(GraphOf(topology), path)
  {
    if path != [] { MirroredLink(bus, topology, path[0], path[0]); }
    forall i | 0 <= i < |path| - 1
      ensures LinkAt(bus, path, i) <==> LinkAt(GraphOf(topology), path, i)
    {
      MirroredLink(bus, topology, path[i], path[i + 1]);
    }
  }

  /** The bus's reachability and the projector's are the same relation. */
  lemma ImplementationsAgree(bus: Graph, topology: Topology, a: string, b: string)
    requires Mirrors(bus, topology)
    ensures Connected(bus, a, b) <==> Connected(GraphOf(topology), a, b)
  {
    forall path ensures Joins(bus, path, a, b) <==> Joins(GraphOf(topology), path, a, b) {
      MirroredChain(bus, topology, path);
    }
  }
}

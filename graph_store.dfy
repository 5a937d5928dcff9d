/**
 * The graph store: typed nodes by id and an append-only list of directed,
 * typed relationships, both rewritten to two persisted slots after every
 * change and read back from them when the store is created.
 */
module GraphStore {
  import opened Values

  datatype Node = Node(id: string, nodeLabel: string, properties: Record)

  /** A directed edge; `relType` is the relationship's type tag. */
  datatype Relationship = Relationship(from: string, to: string, relType: string)

  /**
   * A JavaScript `Map` from node id to node, as the list of its entries in
   * insertion order (which is also what `Array.from(map.entries())` yields).
   */
  type Entries = seq<(string, Node)>

  predicate DistinctIds(e: Entries) {
    forall i, j :: 0 <= i < j < |e| ==> e[i].0 != e[j].0
  }

  function Ids(e: Entries): set<string> {
    set i | 0 <= i < |e| :: e[i].0
  }

  /** `map.get(id)`: the node stored under `id`, absent (`undefined`) when there is none. */
  function MapGet(e: Entries, id: string): (r: Option<Node>)
    ensures r.Some? ==> exists j :: 0 <= j < |e| && e[j] == (id, r.value)
  {
    if e == [] then None
    else if e[0].0 == id then Some(e[0].1)
    else
      var r := MapGet(e[1..], id);
      assert forall j :: 0 <= j < |e| - 1 ==> e[1..][j] == e[j + 1];
      r
  }

  /**
   * `map.set(id, n)`: a present id keeps its position and takes the new node; a
   * new id goes last. Afterwards the id maps to `n` and every other id as before.
   */
  function MapSet(e: Entries, id: string, n: Node): (r: Entries)
    ensures MapGet(r, id) == Some(n)
    ensures forall other :: other != id ==> MapGet(r, other) == MapGet(e, other)
  {
    if e == [] then [(id, n)]
    else if e[0].0 == id then [(id, n)] + e[1..]
    else [e[0]] + MapSet(e[1..], id, n)
  }

  /** `new Map(pairs)`: set each pair in turn, so a later duplicate id overwrites an earlier one. */
  function FromEntries(pairs: Entries): (r: Entries)
    ensures forall i :: 0 <= i < |pairs| ==> MapGet(r, pairs[i].0).Some?
    ensures pairs != [] ==> MapGet(r, pairs[|pairs| - 1].0) == Some(pairs[|pairs| - 1].1)
  {
    if pairs == [] then []
    else MapSet(FromEntries(pairs[..|pairs| - 1]), pairs[|pairs| - 1].0, pairs[|pairs| - 1].1)
  }

  /** An edge from `nodeId` whose type matches; an absent or empty type matches every type. */
  predicate Matches(r: Relationship, nodeId: string, relType: Option<string>) {
    r.from == nodeId && (relType.None? || relType.value == "" || r.relType == relType.value)
  }

  /**
   * `getConnections(nodeId, type)`: for each matching edge, in list order, the
   * node its target id names, or absent when no node has that id.
   */
  function Connections(nodes: Entries, rels: seq<Relationship>, nodeId: string, relType: Option<string>): (r: seq<Option<Node>>)
    ensures |r| <= |rels|
    ensures forall i :: 0 <= i < |r| && r[i].Some? ==> exists j :: 0 <= j < |nodes| && nodes[j].1 == r[i].value
  {
    var hits := Filter(rels, (r: Relationship) => Matches(r, nodeId, relType));
    seq(|hits|, i requires 0 <= i < |hits| => MapGet(nodes, hits[i].to))
  }

  // ---------------------------------------------------------------------
  // Lemmas: the id map
  // ---------------------------------------------------------------------

  lemma {:induction false} MapGetIds(e: Entries, id: string)
    ensures MapGet(e, id).Some? <==> id in Ids(e)
  {
    if e != [] {
      MapGetIds(e[1..], id);
      IdsCons(e);
    }
  }

  /**
   * On a map with distinct ids, `set` keeps the ids distinct, adds exactly the
   * new id, and grows the entry list by one exactly when the id is new.
   */
  lemma {:induction false} MapSetGet(e: Entries, id: string, n: Node)
    requires DistinctIds(e)
    ensures DistinctIds(MapSet(e, id, n))
    ensures Ids(MapSet(e, id, n)) == Ids(e) + {id}
    ensures |MapSet(e, id, n)| == if id in Ids(e) then |e| else |e| + 1
  {
    if e != [] {
      var tail := e[1..];
      assert DistinctIds(tail) by {
        forall i, j | 0 <= i < j < |tail|
          ensures tail[i].0 != tail[j].0
        {
          assert tail[i] == e[i + 1] && tail[j] == e[j + 1];
        }
      }
      IdsCons(e);
      if e[0].0 == id {
        IdsCons([(id, n)] + tail);
        assert ([(id, n)] + tail)[1..] == tail;
        assert e[0].0 !in Ids(tail) by {
          forall i | 0 <= i < |tail|
            ensures tail[i].0 != e[0].0
          {
            assert tail[i] == e[i + 1];
          }
        }
        MapGetIds(tail, id);
      } else {
        MapSetGet(tail, id, n);
        var rest := MapSet(tail, id, n);
        IdsCons([e[0]] + rest);
        assert ([e[0]] + rest)[1..] == rest;
        assert e[0].0 !in Ids(tail) by {
          forall i | 0 <= i < |tail|
            ensures tail[i].0 != e[0].0
          {
            assert tail[i] == e[i + 1];
          }
        }
        DistinctCons(e[0], rest);
      }
    }
  }

  lemma IdsCons(e: Entries)
    requires e != []
    ensures Ids(e) == {e[0].0} + Ids(e[1..])
  {
    forall x | x in Ids(e)
      ensures x in {e[0].0} + Ids(e[1..])
    {
      var i :| 0 <= i < |e| && e[i].0 == x;
      if i > 0 {
        assert e[1..][i - 1].0 == x;
      }
    }
    forall x | x in Ids(e[1..])
      ensures x in Ids(e)
    {
      var i :| 0 <= i < |e[1..]| && e[1..][i].0 == x;
      assert e[i + 1].0 == x;
    }
  }

  lemma DistinctCons(p: (string, Node), e: Entries)
    requires DistinctIds(e) && p.0 !in Ids(e)
    ensures DistinctIds([p] + e)
  {
    var c := [p] + e;
    forall i, j | 0 <= i < j < |c|
      ensures c[i].0 != c[j].0
    {
      if i == 0 {
        assert c[j] == e[j - 1];
      } else {
        assert c[i] == e[i - 1] && c[j] == e[j - 1];
      }
    }
  }

  /** Setting a new id appends its entry at the end. */
  lemma {:induction false} MapSetAppends(e: Entries, id: string, n: Node)
    requires id !in Ids(e)
    ensures MapSet(e, id, n) == e + [(id, n)]
  {
    if e != [] {
      IdsCons(e);
      MapSetAppends(e[1..], id, n);
      assert [e[0]] + (e[1..] + [(id, n)]) == e + [(id, n)];
    }
  }

  /** Setting an existing id replaces that entry in place and leaves every other entry where it was. */
  lemma {:induction false} MapSetInPlace(e: Entries, i: nat, n: Node)
    requires DistinctIds(e) && i < |e|
    ensures MapSet(e, e[i].0, n) == e[i := (e[i].0, n)]
  {
    if i > 0 {
      var tail := e[1..];
      assert DistinctIds(tail) by {
        forall a, b | 0 <= a < b < |tail|
          ensures tail[a].0 != tail[b].0
        {
          assert tail[a] == e[a + 1] && tail[b] == e[b + 1];
        }
      }
      assert tail[i - 1] == e[i];
      MapSetInPlace(tail, i - 1, n);
      assert [e[0]] + tail[i - 1 := (e[i].0, n)] == e[i := (e[i].0, n)];
    }
  }

  /** Rebuilding a map from entries always gives distinct ids. */
  lemma {:induction false} FromEntriesDistinct(pairs: Entries)
    ensures DistinctIds(FromEntries(pairs))
    decreases |pairs|
  {
    if pairs != [] {
      var last := pairs[|pairs| - 1];
      FromEntriesDistinct(pairs[..|pairs| - 1]);
      MapSetGet(FromEntries(pairs[..|pairs| - 1]), last.0, last.1);
    }
  }

  /** Saving a map's entries and loading them back yields the same map, entries in the same order. */
  lemma {:induction false} EntriesRoundTrip(e: Entries)
    requires DistinctIds(e)
    ensures FromEntries(e) == e
    decreases |e|
  {
    if e != [] {
      var init := e[..|e| - 1];
      var last := e[|e| - 1];
      assert DistinctIds(init);
      EntriesRoundTrip(init);
      assert last.0 !in Ids(init) by {
        forall i | 0 <= i < |init|
          ensures init[i].0 != last.0
        {
          assert init[i] == e[i];
        }
      }
      MapSetAppends(init, last.0, last.1);
      assert init + [last] == e;
    }
  }

  // ---------------------------------------------------------------------
  // Lemmas: one-hop traversal
  // ---------------------------------------------------------------------

  /**
   * One entry per matching edge, in list order: the result has as many
   * entries as there are matching edges, and a new edge adds its target's
   * lookup at the end exactly when it matches.
   */
  lemma ConnectionsSpec(nodes: Entries, rels: seq<Relationship>, r: Relationship, nodeId: string, relType: Option<string>)
    ensures |Connections(nodes, rels, nodeId, relType)| == Count(rels, (x: Relationship) => Matches(x, nodeId, relType))
    ensures Connections(nodes, rels + [r], nodeId, relType) ==
      Connections(nodes, rels, nodeId, relType) + (if Matches(r, nodeId, relType) then [MapGet(nodes, r.to)] else [])
  {
    var p := (x: Relationship) => Matches(x, nodeId, relType);
    FilterLength(rels, p);
    FilterSnoc(rels, r, p);
  }

  /** An absent type and the empty type both match every type. */
  lemma EmptyTypeMatchesAll(nodes: Entries, rels: seq<Relationship>, nodeId: string)
    ensures Connections(nodes, rels, nodeId, Some("")) == Connections(nodes, rels, nodeId, None)
    ensures Connections(nodes, rels, nodeId, None) ==
      seq(|Filter(rels, (x: Relationship) => x.from == nodeId)|,
          i requires 0 <= i < |Filter(rels, (x: Relationship) => x.from == nodeId)| =>
            MapGet(nodes, Filter(rels, (x: Relationship) => x.from == nodeId)[i].to))
  {
    var p1 := (x: Relationship) => Matches(x, nodeId, Some(""));
    var p2 := (x: Relationship) => Matches(x, nodeId, None);
    var p3 := (x: Relationship) => x.from == nodeId;
    FilterSamePredicate(rels, p1, p2);
    FilterSamePredicate(rels, p2, p3);
  }

  /**
   * A dangling edge (to an id that names no node) is neither dropped nor an
   * error: it contributes an absent entry.
   */
  lemma DanglingEdgeIsAbsent(nodes: Entries, from: string, to: string, relType: string)
    requires to !in Ids(nodes)
    ensures Connections(nodes, [Relationship(from, to, relType)], from, Some(relType)) == [None]
  {
    MapGetIds(nodes, to);
    var p := (x: Relationship) => Matches(x, from, Some(relType));
    assert Filter([Relationship(from, to, relType)], p) == [Relationship(from, to, relType)];
  }

  // ---------------------------------------------------------------------
  // The store object
  // ---------------------------------------------------------------------

  /** The two persisted slots, `neo_nodes` and `neo_rels`; None when a slot was never written. */
  class NeoSlots {
    var nodes: Option<Entries>
    var rels: Option<seq<Relationship>>

    constructor (nodes: Option<Entries>, rels: Option<seq<Relationship>>)
      ensures this.nodes == nodes && this.rels == rels
    {
      this.nodes := nodes;
      this.rels := rels;
    }
  }

  class NeoSim {
    var nodes: Entries
    var relationships: seq<Relationship>
    const slots: NeoSlots

    ghost predicate Valid()
      reads this
    {
      DistinctIds(nodes)
    }

    /** A new store starts empty and then loads whatever the slots hold. */
    constructor (slots: NeoSlots)
      ensures this.slots == slots && Valid()
      ensures nodes == (if slots.nodes.Some? then FromEntries(slots.nodes.value) else [])
      ensures relationships == (if slots.rels.Some? then slots.rels.value else [])
    {
      this.slots := slots;
      nodes := [];
      relationships := [];
      new;
      Load();
    }

    /** Rewrite both slots from the in-memory map and list. */
    method Save()
      modifies slots
      ensures slots.nodes == Some(nodes) && slots.rels == Some(relationships)
    {
      slots.nodes := Some(nodes);
      slots.rels := Some(relationships);
    }

    /** Replace the map and the list by the slots' contents; a missing slot leaves its part as it is. */
    method Load()
      modifies this
      requires Valid()
      ensures Valid()
      ensures nodes == (if slots.nodes.Some? then FromEntries(slots.nodes.value) else old(nodes))
      ensures relationships == (if slots.rels.Some? then slots.rels.value else old(relationships))
    {
      if slots.nodes.Some? {
        nodes := FromEntries(slots.nodes.value);
        FromEntriesDistinct(slots.nodes.value);
      }
      if slots.rels.Some? {
        relationships := slots.rels.value;
      }
    }

    method CreateNode(nodeLabel: string, id: string, props: Record)
      requires Valid()
      modifies this, slots
      ensures Valid()
      ensures nodes == MapSet(old(nodes), id, Node(id, nodeLabel, props))
      ensures MapGet(nodes, id) == Some(Node(id, nodeLabel, props))
      ensures forall other :: other != id ==> MapGet(nodes, other) == MapGet(old(nodes), other)
      ensures relationships == old(relationships)
      ensures slots.nodes == Some(nodes) && slots.rels == Some(relationships)
    {
      MapSetGet(nodes, id, Node(id, nodeLabel, props));
      nodes := MapSet(nodes, id, Node(id, nodeLabel, props));
      Save();
    }

    method CreateRelationship(from: string, to: string, relType: string)
      requires Valid()
      modifies this, slots
      ensures Valid()
      ensures relationships == old(relationships) + [Relationship(from, to, relType)]
      ensures nodes == old(nodes)
      ensures slots.nodes == Some(nodes) && slots.rels == Some(relationships)
    {
      relationships := relationships + [Relationship(from, to, relType)];
      Save();
    }

    function GetConnections(nodeId: string, relType: Option<string>): (r: seq<Option<Node>>)
      reads this
      ensures |r| <= |relationships|
      ensures forall i :: 0 <= i < |r| && r[i].Some? ==> exists j :: 0 <= j < |nodes| && nodes[j].1 == r[i].value
      ensures r == Connections(nodes, relationships, nodeId, relType)
    {
      Connections(nodes, relationships, nodeId, relType)
    }
  }
}

/** Class NasComponent of dokuztas/node.py: the directory of peers a node has
    heard of through `/connect`, kept duplicate-free in insertion order. */
module Nas {

  ghost predicate NoDuplicates<N>(s: seq<N>)
  {
    forall i, j :: 0 <= i < j < |s| ==> s[i] != s[j]
  }

  /** The directory after `add_node(node)`. */
  function Inserted<N(==)>(nodes: seq<N>, node: N): seq<N>
  {
    if node in nodes then nodes else nodes + [node]
  }

  /** The directory after adding each of `added` in turn. */
  function InsertAll<N(==)>(nodes: seq<N>, added: seq<N>): seq<N>
    decreases |added|
  {
    if added == [] then nodes else InsertAll(Inserted(nodes, added[0]), added[1..])
  }

  /** Adding keeps what was there, in place, and holds exactly the old nodes
      and the new one. */
  lemma InsertedExtends<N>(nodes: seq<N>, node: N)
    ensures var r := Inserted(nodes, node);
      && nodes <= r
      && |r| <= |nodes| + 1
      && node in r
      && forall x :: x in r <==> x in nodes || x == node
  {
  }

  lemma InsertedKeepsNoDuplicates<N>(nodes: seq<N>, node: N)
    requires NoDuplicates(nodes)
    ensures NoDuplicates(Inserted(nodes, node))
  {
  }

  /** Adding a node already present changes nothing; so adding twice is adding once. */
  lemma InsertedIdempotent<N>(nodes: seq<N>, node: N)
    ensures node in nodes ==> Inserted(nodes, node) == nodes
    ensures Inserted(Inserted(nodes, node), node) == Inserted(nodes, node)
  {
  }

  /** After any sequence of `/connect` calls the directory is duplicate-free,
      still starts with what it held, and holds exactly the nodes ever added. */
  lemma {:induction false} InsertAllDirectory<N>(nodes: seq<N>, added: seq<N>)
    requires NoDuplicates(nodes)
    ensures var r := InsertAll(nodes, added);
      && NoDuplicates(r)
      && nodes <= r
      && forall x :: x in r <==> x in nodes || x in added
    decreases |added|
  {
    if added != [] {
      var next := Inserted(nodes, added[0]);
      InsertedExtends(nodes, added[0]);
      InsertedKeepsNoDuplicates(nodes, added[0]);
      InsertAllDirectory(next, added[1..]);
      assert forall x :: x in added <==> x == added[0] || x in added[1..];
    }
  }

  /** The directory never lists more nodes than were added to it. */
  lemma {:induction false} InsertAllBound<N>(nodes: seq<N>, added: seq<N>)
    ensures |InsertAll(nodes, added)| <= |nodes| + |added|
    decreases |added|
  {
    if added != [] {
      InsertAllBound(Inserted(nodes, added[0]), added[1..]);
    }
  }

  class NasComponent<N(==)> {
    var nodes: seq<N>

    ghost predicate Valid()
      reads this
    {
      NoDuplicates(nodes)
    }

    constructor()
      ensures Valid() && nodes == []
    {
      nodes := [];
    }

    method AddNode(node: N)
      requires Valid()
      modifies this
      ensures Valid()
      ensures nodes == Inserted(old(nodes), node)
      ensures node in old(nodes) ==> nodes == old(nodes)
      ensures node !in old(nodes) ==> nodes == old(nodes) + [node]
    {
      InsertedKeepsNoDuplicates(nodes, node);
      if node !in nodes {
        nodes := nodes + [node];
      }
    }

    method GetNodes() returns (r: seq<N>)
      ensures r == nodes
    {
      r := nodes;
    }
  }
}

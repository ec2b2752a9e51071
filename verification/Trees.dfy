/** Navigation trees: the private menu, the public tree sent to the browser, and
    the two indexes over it. The server keeps each node's parent (indexNodes), the
    browser keeps the whole list of ancestors (indexTree). */
module Trees {
  import opened Common

  /** A menu placement. Groups have an empty content ID; pages may have children. */
  datatype Node = Node(id: Id, caption: string, contentId: string, children: seq<Node>)

  datatype PublicNode = PublicNode(id: Id, caption: string, selectable: bool, children: seq<PublicNode>)

  datatype Indexed = Indexed(node: Node, parent: Id)

  datatype Place = Place(node: PublicNode, parents: seq<Id>)

  type Places = map<Id, Place>

  /** Opaque IDs are drawn per session; a missing entry reads as the empty string. */
  function Opaque(ids: map<Id, Id>, id: Id): Id
  {
    if id in ids then ids[id] else ""
  }

  function NodesFor(nodes: seq<Node>, ids: map<Id, Id>): seq<PublicNode>
    decreases nodes
  {
    if nodes == [] then []
    else
      var n := nodes[0];
      [PublicNode(Opaque(ids, n.id), n.caption, n.contentId != "", NodesFor(n.children, ids))]
          + NodesFor(nodes[1..], ids)
  }

  /** The server's index. Later assignments win, as in the recursive walk. */
  function IndexNodes(nodes: seq<Node>, ids: map<Id, Id>, parent: Id): map<Id, Indexed>
    decreases nodes
  {
    if nodes == [] then map[]
    else
      var n := nodes[0];
      var id := Opaque(ids, n.id);
      map[id := Indexed(n, parent)] + IndexNodes(n.children, ids, id) + IndexNodes(nodes[1..], ids, parent)
  }

  /** The browser's index. */
  function IndexTree(items: seq<PublicNode>, parents: seq<Id>): Places
    decreases items
  {
    if items == [] then map[]
    else
      var n := items[0];
      map[n.id := Place(n, parents)] + IndexTree(n.children, parents + [n.id]) + IndexTree(items[1..], parents)
  }

  /** Public IDs in preorder. */
  function PublicIds(items: seq<PublicNode>): seq<Id>
    decreases items
  {
    if items == [] then [] else [items[0].id] + PublicIds(items[0].children) + PublicIds(items[1..])
  }

  function ParentIn(index: map<Id, Indexed>, id: Id): Id
  {
    if id in index then index[id].parent else ""
  }

  function LastOr(path: seq<Id>): Id
  {
    if path == [] then "" else Last(path)
  }

  function Parent(places: Places, id: Id): Id
  {
    if id in places then LastOr(places[id].parents) else ""
  }

  /** Root-to-node path; the top level is the empty path. */
  function Path(places: Places, id: Id): seq<Id>
  {
    if id in places then places[id].parents + [id] else []
  }

  /** Ancestor lists hang together: a node's ancestors are its parent's path. */
  ghost predicate Sound(places: Places)
  {
    && "" !in places
    && forall id {:trigger SoundAt(places, id)} :: id in places ==> SoundAt(places, id)
  }

  ghost predicate SoundAt(places: Places, id: Id)
  {
    id in places ==> places[id].parents == Path(places, Parent(places, id))
  }

  /** The server's parents are the last of the browser's ancestors. */
  ghost predicate Agree(index: map<Id, Indexed>, places: Places)
  {
    && index.Keys == places.Keys
    && forall id :: id in index ==> AgreeAt(index[id], places[id])
  }

  ghost predicate AgreeAt(entry: Indexed, place: Place)
  {
    && entry.parent == LastOr(place.parents)
    && (entry.node.contentId != "" <==> place.node.selectable)
  }

  lemma {:induction false} IndexKeys(items: seq<PublicNode>, parents: seq<Id>)
    ensures forall id :: id in IndexTree(items, parents) <==> id in PublicIds(items)
    decreases items
  {
    if items != [] {
      IndexKeys(items[0].children, parents + [items[0].id]);
      IndexKeys(items[1..], parents);
    }
  }

  lemma {:induction false} AgreeJoins(n: Node, ids: map<Id, Id>, parents: seq<Id>, a: map<Id, Indexed>, a': Places,
                                      b: map<Id, Indexed>, b': Places)
    requires Agree(a, a') && Agree(b, b')
    ensures var id := Opaque(ids, n.id);
            Agree(map[id := Indexed(n, LastOr(parents))] + a + b,
                  map[id := Place(PublicNode(id, n.caption, n.contentId != "", NodesFor(n.children, ids)), parents)]
                      + a' + b')
  {
    forall id | id in a ensures AgreeAt(a[id], a'[id]) {}
    forall id | id in b ensures AgreeAt(b[id], b'[id]) {}
  }

  lemma {:induction false} BothIndexesAgree(nodes: seq<Node>, ids: map<Id, Id>, parents: seq<Id>)
    ensures Agree(IndexNodes(nodes, ids, LastOr(parents)), IndexTree(NodesFor(nodes, ids), parents))
    decreases nodes
  {
    if nodes != [] {
      var id := Opaque(ids, nodes[0].id);
      BothIndexesAgree(nodes[0].children, ids, parents + [id]);
      BothIndexesAgree(nodes[1..], ids, parents);
      assert NodesFor(nodes, ids)[1..] == NodesFor(nodes[1..], ids);
      AgreeJoins(nodes[0], ids, parents,
        IndexNodes(nodes[0].children, ids, id), IndexTree(NodesFor(nodes[0].children, ids), parents + [id]),
        IndexNodes(nodes[1..], ids, LastOr(parents)), IndexTree(NodesFor(nodes[1..], ids), parents));
    }
  }

  /** Below `base`, every entry's ancestors are `base` or its parent's path. */
  ghost predicate Hangs(places: Places, base: seq<Id>)
  {
    forall id :: id in places ==> HangsAt(places, base, places[id].parents)
  }

  ghost predicate HangsAt(places: Places, base: seq<Id>, parents: seq<Id>)
  {
    parents == base
        || (parents != [] && Last(parents) in places && parents == places[Last(parents)].parents + [Last(parents)])
  }

  lemma {:induction false} PreorderPartsDiffer(n: Id, below: seq<Id>, rest: seq<Id>)
    requires NoDuplicates([n] + below + rest)
    ensures NoDuplicates(below) && NoDuplicates(rest)
    ensures n !in below && n !in rest
    ensures forall id :: id in below ==> id !in rest
  {
    var all := [n] + below + rest;
    assert all[0] == n;
    assert forall i :: 0 <= i < |below| ==> all[1 + i] == below[i];
    assert forall j :: 0 <= j < |rest| ==> all[1 + |below| + j] == rest[j];
  }

  /** Hanging is kept when a node, its subtree and its later siblings are joined. */
  lemma {:induction false} HangsJoin(n: PublicNode, base: seq<Id>, a: Places, b: Places)
    requires n.id !in a && n.id !in b && a.Keys !! b.Keys
    requires Hangs(a, base + [n.id]) && Hangs(b, base)
    ensures Hangs(map[n.id := Place(n, base)] + a + b, base)
  {
    var places := map[n.id := Place(n, base)] + a + b;
    assert places[n.id] == Place(n, base);
    forall id | id in places ensures HangsAt(places, base, places[id].parents) {
      if id in a {
        assert HangsAt(a, base + [n.id], a[id].parents);
        assert a[id].parents == base + [n.id] ==> Last(a[id].parents) == n.id;
      } else if id in b {
        assert HangsAt(b, base, b[id].parents);
      }
    }
  }

  lemma {:induction false} IndexHangs(items: seq<PublicNode>, base: seq<Id>)
    requires NoDuplicates(PublicIds(items))
    ensures Hangs(IndexTree(items, base), base)
    decreases items
  {
    if items != [] {
      var n := items[0];
      PreorderPartsDiffer(n.id, PublicIds(n.children), PublicIds(items[1..]));
      IndexHangs(n.children, base + [n.id]);
      IndexHangs(items[1..], base);
      IndexKeys(n.children, base + [n.id]);
      IndexKeys(items[1..], base);
      HangsJoin(n, base, IndexTree(n.children, base + [n.id]), IndexTree(items[1..], base));
    }
  }

  /** For any menu and any injective drawing of nonempty opaque IDs, both indexes
      describe the same rooted tree. */
  lemma {:induction false} IndexesAreSound(nodes: seq<Node>, ids: map<Id, Id>)
    requires NoDuplicates(PublicIds(NodesFor(nodes, ids)))
    requires "" !in PublicIds(NodesFor(nodes, ids))
    ensures Sound(IndexTree(NodesFor(nodes, ids), []))
    ensures Agree(IndexNodes(nodes, ids, ""), IndexTree(NodesFor(nodes, ids), []))
  {
    var places := IndexTree(NodesFor(nodes, ids), []);
    IndexHangs(NodesFor(nodes, ids), []);
    IndexKeys(NodesFor(nodes, ids), []);
    BothIndexesAgree(nodes, ids, []);
    forall id | id in places ensures SoundAt(places, id) {
      assert HangsAt(places, [], places[id].parents);
    }
  }

  /** Every ancestor's path is the prefix of the node's path that ends with it. */
  lemma {:induction false} AncestorPath(places: Places, id: Id, k: nat)
    requires Sound(places) && id in places && k < |Path(places, id)|
    ensures Path(places, id)[k] in places
    ensures Path(places, Path(places, id)[k]) == Path(places, id)[..k + 1]
    decreases |Path(places, id)|
  {
    if k < |Path(places, id)| - 1 {
      assert SoundAt(places, id);
      AncestorPath(places, Parent(places, id), k);
    }
  }

  /** The climb from parent to parent visits exactly the ancestors: a node's path
      is a proper prefix of another's if and only if it is among its ancestors. */
  lemma {:induction false} AncestorIffPrefix(places: Places, current: Id, target: Id)
    requires Sound(places) && current in places && target in places
    ensures target in places[current].parents <==> Path(places, target) < Path(places, current)
  {
    var path := Path(places, current);
    if target in places[current].parents {
      var k :| 0 <= k < |places[current].parents| && places[current].parents[k] == target;
      AncestorPath(places, current, k);
    }
    if Path(places, target) < path {
      var k := |Path(places, target)| - 1;
      assert path[k] == Path(places, target)[k] == target;
    }
  }
}

/** Undirected connectivity by paths, the reference notion the disjoint-set forest is judged against. */
module Connectivity {

  /** The string keys "O:" + order id and "T:" + transaction id, kept apart by constructor. */
  datatype Node = OrderNode(id: string) | TxnNode(id: string)

  type Edge = (Node, Node)

  ghost predicate Adjacent(edges: set<Edge>, a: Node, b: Node) {
    (a, b) in edges || (b, a) in edges
  }

  ghost predicate IsPath(edges: set<Edge>, p: seq<Node>) {
    p != [] && forall i :: 0 <= i < |p| - 1 ==> Adjacent(edges, p[i], p[i + 1])
  }

  ghost predicate Linked(edges: set<Edge>, a: Node, b: Node) {
    exists p: seq<Node> :: IsPath(edges, p) && p[0] == a && p[|p| - 1] == b
  }

  lemma LinkedRefl(edges: set<Edge>, a: Node)
    ensures Linked(edges, a, a)
  {
    assert IsPath(edges, [a]);
    assert [a][0] == a;
  }

  lemma LinkedEdge(edges: set<Edge>, a: Node, b: Node)
    requires (a, b) in edges
    ensures Linked(edges, a, b)
  {
    var p := [a, b];
    assert Adjacent(edges, p[0], p[1]);
    assert IsPath(edges, p);
  }

  lemma LinkedTrans(edges: set<Edge>, a: Node, b: Node, c: Node)
    requires Linked(edges, a, b) && Linked(edges, b, c)
    ensures Linked(edges, a, c)
  {
    var p: seq<Node> :| IsPath(edges, p) && p[0] == a && p[|p| - 1] == b;
    var q: seq<Node> :| IsPath(edges, q) && q[0] == b && q[|q| - 1] == c;
    var r := p + q[1..];
    forall i | 0 <= i < |r| - 1
      ensures Adjacent(edges, r[i], r[i + 1])
    {
      if i < |p| - 1 {
        assert r[i] == p[i] && r[i + 1] == p[i + 1];
      } else {
        assert r[i] == q[i - |p| + 1] && r[i + 1] == q[i - |p| + 2];
      }
    }
    assert IsPath(edges, r);
    assert r[0] == a && r[|r| - 1] == c;
  }

  lemma LinkedSym(edges: set<Edge>, a: Node, b: Node)
    requires Linked(edges, a, b)
    ensures Linked(edges, b, a)
  {
    var p: seq<Node> :| IsPath(edges, p) && p[0] == a && p[|p| - 1] == b;
    var r := seq(|p|, i requires 0 <= i < |p| => p[|p| - 1 - i]);
    forall i | 0 <= i < |r| - 1
      ensures Adjacent(edges, r[i], r[i + 1])
    {
      assert Adjacent(edges, p[|p| - 2 - i], p[|p| - 2 - i + 1]);
    }
    assert IsPath(edges, r);
    assert r[0] == b && r[|r| - 1] == a;
  }

  lemma LinkedMonotone(few: set<Edge>, many: set<Edge>, a: Node, b: Node)
    requires few <= many && Linked(few, a, b)
    ensures Linked(many, a, b)
  {
    var p: seq<Node> :| IsPath(few, p) && p[0] == a && p[|p| - 1] == b;
    forall i | 0 <= i < |p| - 1
      ensures Adjacent(many, p[i], p[i + 1])
    {
      assert Adjacent(few, p[i], p[i + 1]);
    }
    assert IsPath(many, p);
  }

  /** A node function that agrees across every edge agrees along every path. */
  lemma {:induction false} ConstantAlongPath(edges: set<Edge>, root: map<Node, Node>, p: seq<Node>)
    requires forall u, v :: (u, v) in edges ==> u in root && v in root && root[u] == root[v]
    requires IsPath(edges, p) && p[0] in root
    ensures p[|p| - 1] in root && root[p[|p| - 1]] == root[p[0]]
  {
    if |p| > 1 {
      assert Adjacent(edges, p[0], p[1]);
      forall i | 0 <= i < |p[1..]| - 1
        ensures Adjacent(edges, p[1..][i], p[1..][i + 1])
      {
        assert Adjacent(edges, p[i + 1], p[i + 2]);
      }
      ConstantAlongPath(edges, root, p[1..]);
    }
  }
}

/** The disjoint-set forest of the component split: a parent dictionary with path halving. */
module UnionFind {
  import opened Connectivity

  /** What the forest records about one node: its parent, its root, and a rank that falls on the way up. */
  ghost predicate NodeOk(parent: map<Node, Node>, root: map<Node, Node>, rank: map<Node, nat>, x: Node)
    requires root.Keys == parent.Keys && rank.Keys == parent.Keys
  {
    x in parent ==>
      && parent[x] in parent
      && root[x] in parent
      && parent[root[x]] == root[x]
      && (if parent[x] == x then root[x] == x else root[parent[x]] == root[x] && rank[parent[x]] < rank[x])
  }

  ghost predicate IsForest(parent: map<Node, Node>, root: map<Node, Node>, rank: map<Node, nat>) {
    && root.Keys == parent.Keys
    && rank.Keys == parent.Keys
    && forall x :: NodeOk(parent, root, rank, x)
  }

  ghost predicate Anchored(joined: set<Edge>, root: map<Node, Node>, x: Node) {
    x in root ==> Linked(joined, x, root[x])
  }

  /** The trees are exactly the connected components of the joined edges. */
  ghost predicate IsLinkage(joined: set<Edge>, root: map<Node, Node>) {
    && (forall u, v :: (u, v) in joined ==> u in root && v in root && root[u] == root[v])
    && (forall x :: Anchored(joined, root, x))
  }

  lemma AddNode(parent: map<Node, Node>, root: map<Node, Node>, rank: map<Node, nat>, joined: set<Edge>, x: Node)
    requires IsForest(parent, root, rank) && IsLinkage(joined, root) && x !in parent
    ensures IsForest(parent[x := x], root[x := x], rank[x := 0])
    ensures IsLinkage(joined, root[x := x])
  {
    var p, r, k := parent[x := x], root[x := x], rank[x := 0];
    forall y
      ensures NodeOk(p, r, k, y)
    {
      assert NodeOk(parent, root, rank, y);
    }
    LinkedRefl(joined, x);
    forall y
      ensures Anchored(joined, r, y)
    {
      assert Anchored(joined, root, y);
    }
  }

  /** One halving step keeps every node's root: the same map works before and after. */
  lemma Halve(parent: map<Node, Node>, root: map<Node, Node>, rank: map<Node, nat>, x: Node)
    requires IsForest(parent, root, rank) && x in parent
    ensures parent[x] in parent && parent[parent[x]] in parent
    ensures IsForest(parent[x := parent[parent[x]]], root, rank)
    ensures parent[x] != x ==> rank[parent[parent[x]]] < rank[x]
    ensures root[parent[parent[x]]] == root[x]
  {
    assert NodeOk(parent, root, rank, x);
    var up := parent[x];
    assert NodeOk(parent, root, rank, up);
    var halved := parent[x := parent[up]];
    forall y
      ensures NodeOk(halved, root, rank, y)
    {
      assert NodeOk(parent, root, rank, y);
    }
  }

  ghost function Merge(root: map<Node, Node>, ra: Node, rb: Node): (m: map<Node, Node>)
    ensures m.Keys == root.Keys
  {
    map x | x in root :: if root[x] == ra then rb else root[x]
  }

  ghost function Lift(rank: map<Node, nat>, root: map<Node, Node>, ra: Node, rb: Node): map<Node, nat>
    requires rank.Keys == root.Keys && rb in rank
  {
    if ra == rb then rank
    else map x | x in rank :: if root[x] == ra then rank[x] + rank[rb] + 1 else rank[x]
  }

  /** Hanging one root below another lifts that whole tree, so ranks still fall along parent links. */
  lemma JoinTrees(parent: map<Node, Node>, root: map<Node, Node>, rank: map<Node, nat>, a: Node, b: Node)
    requires IsForest(parent, root, rank)
    requires a in parent && b in parent
    ensures root[a] in parent && root[b] in parent
    ensures var ra, rb := root[a], root[b];
            IsForest(parent[ra := rb], Merge(root, ra, rb), Lift(rank, root, ra, rb))
  {
    assert NodeOk(parent, root, rank, a) && NodeOk(parent, root, rank, b);
    var ra, rb := root[a], root[b];
    assert NodeOk(parent, root, rank, ra) && NodeOk(parent, root, rank, rb);
    var p, m, l := parent[ra := rb], Merge(root, ra, rb), Lift(rank, root, ra, rb);
    if ra == rb {
      assert p == parent && m == root;
    } else {
      forall x
        ensures NodeOk(p, m, l, x)
      {
        assert NodeOk(parent, root, rank, x);
      }
    }
  }

  lemma JoinLinkage(joined: set<Edge>, root: map<Node, Node>, a: Node, b: Node)
    requires IsLinkage(joined, root) && a in root && b in root
    ensures IsLinkage(joined + {(a, b)}, Merge(root, root[a], root[b]))
  {
    var edges, merged := joined + {(a, b)}, Merge(root, root[a], root[b]);
    assert Anchored(joined, root, a) && Anchored(joined, root, b);
    forall x
      ensures Anchored(edges, merged, x)
    {
      assert Anchored(joined, root, x);
      if x in root {
        LinkedMonotone(joined, edges, x, root[x]);
      }
      if x in root && root[x] == root[a] {
        LinkedMonotone(joined, edges, a, root[a]);
        LinkedMonotone(joined, edges, b, root[b]);
        LinkedSym(edges, a, root[a]);
        LinkedTrans(edges, x, root[a], a);
        LinkedEdge(edges, a, b);
        LinkedTrans(edges, x, a, b);
        LinkedTrans(edges, x, b, root[b]);
      }
    }
  }

  /** Linking the roots of a and b yields a forest for the components with the edge (a, b) added. */
  lemma JoinStep(parent: map<Node, Node>, root: map<Node, Node>, rank: map<Node, nat>, joined: set<Edge>, a: Node, b: Node)
    returns (root': map<Node, Node>, rank': map<Node, nat>)
    requires IsForest(parent, root, rank) && IsLinkage(joined, root)
    requires a in root && b in root
    ensures IsForest(parent[root[a] := root[b]], root', rank')
    ensures IsLinkage(joined + {(a, b)}, root')
    ensures root'.Keys == root.Keys
  {
    JoinLinkage(joined, root, a, b);
    JoinTrees(parent, root, rank, a, b);
    root', rank' := Merge(root, root[a], root[b]), Lift(rank, root, root[a], root[b]);
  }

  /** Two nodes have one root exactly when a path of joined edges runs between them. */
  lemma SameRootIffLinked(joined: set<Edge>, root: map<Node, Node>, x: Node, y: Node)
    requires IsLinkage(joined, root) && x in root && y in root
    ensures root[x] == root[y] <==> Linked(joined, x, y)
  {
    assert Anchored(joined, root, x) && Anchored(joined, root, y);
    if root[x] == root[y] {
      LinkedSym(joined, y, root[y]);
      LinkedTrans(joined, x, root[x], y);
    }
    if Linked(joined, x, y) {
      var p: seq<Node> :| IsPath(joined, p) && p[0] == x && p[|p| - 1] == y;
      ConstantAlongPath(joined, root, p);
    }
  }

  class DisjointSets {
    var parent: map<Node, Node>
    ghost var root: map<Node, Node>
    ghost var rank: map<Node, nat>
    ghost var joined: set<Edge>

    ghost predicate Valid()
      reads this
    {
      IsForest(parent, root, rank) && IsLinkage(joined, root)
    }

    constructor ()
      ensures Valid() && parent == map[] && root == map[] && joined == {}
    {
      parent, root, rank, joined := map[], map[], map[], {};
    }

    /** Looking a node up makes it its own root if it is new and leaves every other root alone. */
    method Find(x: Node) returns (r: Node)
      requires Valid()
      modifies this
      ensures Valid() && joined == old(joined)
      ensures x in old(root) ==> root == old(root)
      ensures x !in old(root) ==> root == old(root)[x := x]
      ensures root.Keys == old(root.Keys) + {x}
      ensures r == root[x]
    {
      if x !in parent {
        AddNode(parent, root, rank, joined, x);
        parent, root, rank := parent[x := x], root[x := x], rank[x := 0];
      }
      r := x;
      assert NodeOk(parent, root, rank, r);
      while parent[r] != r
        invariant r in parent && Valid() && joined == old(joined)
        invariant root == old(if x in root then root else root[x := x])
        invariant root[r] == root[x]
        decreases rank[r]
      {
        Halve(parent, root, rank, r);
        assert NodeOk(parent, root, rank, r);
        parent := parent[r := parent[parent[r]]];
        r := parent[r];
        assert NodeOk(parent, root, rank, r);
      }
      assert NodeOk(parent, root, rank, r);
    }

    method Union(a: Node, b: Node)
      requires Valid()
      modifies this
      ensures Valid()
      ensures joined == old(joined) + {(a, b)}
      ensures root.Keys == old(root.Keys) + {b} + {a}
    {
      hide IsForest, IsLinkage;
      var rb := Find(b);
      var ra := Find(a);
      ghost var root', rank' := JoinStep(parent, root, rank, joined, a, b);
      parent := parent[ra := rb];
      root, rank, joined := root', rank', joined + {(a, b)};
    }
  }
}

/** Splitting the order/credit graph into connected components. */
module Components {
  import opened Prelude
  import opened Connectivity
  import opened Sorting
  import opened Assignment
  import opened Enumeration
  import opened ComponentAssignment
  import UnionFind

  /** `edges`: an insertion-ordered dictionary from order id to its scored candidates. */
  datatype EdgeTable = EdgeTable(orders: seq<string>, cands: map<string, seq<Candidate>>)

  ghost predicate ValidTable(t: EdgeTable) {
    && NoDup(t.orders)
    && Elems(t.orders) == t.cands.Keys
    && forall o :: o in t.cands ==> NoDup(TxnsOf(t.cands[o]))
  }

  datatype Group = Group(orders: seq<string>, txns: seq<string>)

  /** The bipartite graph: an order is adjacent to every credit it may take. */
  ghost function LinksOf(w: Weights): set<Edge> {
    set o, t | o in w.Keys && t in w[o].Keys :: (OrderNode(o), TxnNode(t))
  }

  ghost predicate SameComponent(w: Weights, a: string, b: string) {
    Linked(LinksOf(w), OrderNode(a), OrderNode(b))
  }

  /** A group is one component: its orders and credits are exactly those linked to any of its orders. */
  ghost predicate IsComponent(w: Weights, g: Group) {
    && g.orders != [] && NoDup(g.orders) && SortedBy(g.orders, StringLe)
    && NoDup(g.txns) && SortedBy(g.txns, StringLe)
    && (forall a :: a in g.orders ==> a in w)
    && (forall a, b :: a in g.orders ==> (b in g.orders <==> b in w && SameComponent(w, a, b)))
    && (forall a, t :: a in g.orders ==> (t in g.txns <==> Linked(LinksOf(w), OrderNode(a), TxnNode(t))))
  }

  ghost predicate IsComponentSplit(w: Weights, groups: seq<Group>) {
    && (forall i :: 0 <= i < |groups| ==> IsComponent(w, groups[i]))
    && (forall o :: o in w ==> exists i :: 0 <= i < |groups| && o in groups[i].orders)
    && (forall i, j :: 0 <= i < j < |groups| ==> Elems(groups[i].orders) !! Elems(groups[j].orders))
  }

  // ------------------------------------------------------------ joining the edges

  ghost function PairsOf(o: string, cs: seq<Candidate>): set<Edge> {
    set c | c in cs :: (OrderNode(o), TxnNode(c.txn))
  }

  ghost function LinksUpTo(t: EdgeTable, n: nat): set<Edge>
    requires ValidTable(t) && n <= |t.orders|
  {
    if n == 0 then {} else LinksUpTo(t, n - 1) + PairsOf(t.orders[n - 1], t.cands[t.orders[n - 1]])
  }

  lemma PairsMembers(o: string, cs: seq<Candidate>, e: Edge)
    ensures e in PairsOf(o, cs) <==> e.0 == OrderNode(o) && e.1.TxnNode? && e.1.id in ScoreTable(cs)
  {
    ScoreTableKeys(cs);
    if e.0 == OrderNode(o) && e.1.TxnNode? && e.1.id in TxnsOf(cs) {
      var i :| 0 <= i < |cs| && TxnsOf(cs)[i] == e.1.id;
      assert cs[i] in cs;
    }
    if e in PairsOf(o, cs) {
      var c :| c in cs && e == (OrderNode(o), TxnNode(c.txn));
      var i :| 0 <= i < |cs| && cs[i] == c;
      assert TxnsOf(cs)[i] == c.txn;
    }
  }

  lemma {:induction false} LinksUpToMembers(t: EdgeTable, n: nat, e: Edge)
    requires ValidTable(t) && n <= |t.orders|
    ensures e in LinksUpTo(t, n) <==>
              e.0.OrderNode? && e.0.id in t.orders[..n] && e.1.TxnNode? && e.1.id in ScoreTable(t.cands[e.0.id])
  {
    if n > 0 {
      var o := t.orders[n - 1];
      LinksUpToMembers(t, n - 1, e);
      PairsMembers(o, t.cands[o], e);
      assert t.orders[..n] == t.orders[..n - 1] + [o];
    }
  }

  lemma LinksComplete(t: EdgeTable)
    requires ValidTable(t)
    ensures LinksUpTo(t, |t.orders|) == LinksOf(WeightsOf(t.cands))
  {
    var w := WeightsOf(t.cands);
    assert t.orders[..|t.orders|] == t.orders;
    forall e
      ensures e in LinksUpTo(t, |t.orders|) <==> e in LinksOf(w)
    {
      LinksUpToMembers(t, |t.orders|, e);
      if e.0.OrderNode? && e.0.id in t.orders && e.1.TxnNode? && e.1.id in ScoreTable(t.cands[e.0.id]) {
        assert e == (OrderNode(e.0.id), TxnNode(e.1.id));
      }
    }
  }

  method JoinEdges(t: EdgeTable) returns (ds: UnionFind.DisjointSets)
    requires ValidTable(t)
    ensures fresh(ds) && ds.Valid()
    ensures ds.joined == LinksOf(WeightsOf(t.cands))
  {
    hide UnionFind.IsForest, UnionFind.IsLinkage;
    ds := new UnionFind.DisjointSets();
    for n := 0 to |t.orders|
      invariant fresh(ds) && ds.Valid() && ds.joined == LinksUpTo(t, n)
    {
      var o := t.orders[n];
      var cs := t.cands[o];
      for k := 0 to |cs|
        invariant fresh(ds) && ds.Valid()
        invariant ds.joined == LinksUpTo(t, n) + PairsOf(o, cs[..k])
      {
        ds.Union(OrderNode(o), TxnNode(cs[k].txn));
        assert cs[..k + 1] == cs[..k] + [cs[k]];
        assert PairsOf(o, cs[..k + 1]) == PairsOf(o, cs[..k]) + {(OrderNode(o), TxnNode(cs[k].txn))};
      }
      assert cs[..|cs|] == cs;
    }
    LinksComplete(t);
  }

  // ------------------------------------------------------------ collecting the groups

  ghost predicate OrderPlaced(root: map<Node, Node>, groups: map<Node, Group>, o: string) {
    && OrderNode(o) in root
    && root[OrderNode(o)] in groups
    && o in groups[root[OrderNode(o)]].orders
  }

  ghost predicate TxnPlaced(root: map<Node, Node>, groups: map<Node, Group>, t: string) {
    && TxnNode(t) in root
    && root[TxnNode(t)] in groups
    && t in groups[root[TxnNode(t)]].txns
  }

  /** A group holds only members whose root is its key, each once. */
  ghost predicate GroupOk(root: map<Node, Node>, orders: set<string>, txns: set<string>, r: Node, g: Group) {
    && g.orders != [] && NoDup(g.orders) && NoDup(g.txns)
    && (forall o :: o in g.orders ==> o in orders && OrderNode(o) in root && root[OrderNode(o)] == r)
    && (forall t :: t in g.txns ==> t in txns && TxnNode(t) in root && root[TxnNode(t)] == r)
  }

  /** The dictionary from root to group, with its insertion order, after the given orders and credits. */
  ghost predicate Grouped(root: map<Node, Node>, orders: set<string>, txns: set<string>,
                          keys: seq<Node>, groups: map<Node, Group>) {
    && NoDup(keys) && Elems(keys) == groups.Keys
    && (forall o :: o in orders ==> OrderPlaced(root, groups, o))
    && (forall t :: t in txns ==> TxnPlaced(root, groups, t))
    && (forall r :: r in groups ==> GroupOk(root, orders, txns, r, groups[r]))
  }

  lemma NothingGrouped(root: map<Node, Node>)
    ensures Grouped(root, {}, {}, [], map[])
  {
  }

  lemma GroupedExtend(before: map<Node, Node>, after: map<Node, Node>, orders: set<string>, txns: set<string>,
                      keys: seq<Node>, groups: map<Node, Group>)
    requires Grouped(before, orders, txns, keys, groups)
    requires forall x :: x in before ==> x in after && after[x] == before[x]
    ensures Grouped(after, orders, txns, keys, groups)
  {
    forall o | o in orders
      ensures OrderPlaced(after, groups, o)
    {
      assert OrderPlaced(before, groups, o);
    }
    forall t | t in txns
      ensures TxnPlaced(after, groups, t)
    {
      assert TxnPlaced(before, groups, t);
    }
    forall r | r in groups
      ensures GroupOk(after, orders, txns, r, groups[r])
    {
      assert GroupOk(before, orders, txns, r, groups[r]);
    }
  }

  lemma GroupGainsOrder(root: map<Node, Node>, orders: set<string>, r: Node, g: Group, o: string)
    requires g == Group([], []) || GroupOk(root, orders, {}, r, g)
    requires o !in orders && OrderNode(o) in root && root[OrderNode(o)] == r
    ensures GroupOk(root, orders + {o}, {}, r, Group(g.orders + [o], g.txns))
  {
    assert o !in g.orders;
    NoDupAppend(g.orders, o);
    assert forall x :: x in g.orders + [o] <==> x in g.orders || x == o;
  }

  /** `groups.setdefault(root, ([], []))[0].append(oid)` */
  function WithOrder(groups: map<Node, Group>, r: Node, o: string): map<Node, Group> {
    var g := if r in groups then groups[r] else Group([], []);
    groups[r := Group(g.orders + [o], g.txns)]
  }

  function WithKey(keys: seq<Node>, groups: map<Node, Group>, r: Node): seq<Node> {
    if r in groups then keys else keys + [r]
  }

  lemma GroupedOrder(root: map<Node, Node>, orders: set<string>, keys: seq<Node>, groups: map<Node, Group>, o: string)
    requires Grouped(root, orders, {}, keys, groups)
    requires o !in orders && OrderNode(o) in root
    ensures Grouped(root, orders + {o}, {}, WithKey(keys, groups, root[OrderNode(o)]),
                    WithOrder(groups, root[OrderNode(o)], o))
  {
    var r := root[OrderNode(o)];
    var g := if r in groups then groups[r] else Group([], []);
    var groups' := WithOrder(groups, r, o);
    GroupGainsOrder(root, orders, r, g, o);
    forall x | x in orders + {o}
      ensures OrderPlaced(root, groups', x)
    {
      assert x != o ==> OrderPlaced(root, groups, x);
    }
    forall q | q in groups'
      ensures GroupOk(root, orders + {o}, {}, q, groups'[q])
    {
      assert q != r ==> GroupOk(root, orders, {}, q, groups[q]);
    }
    if r !in groups {
      assert r !in Elems(keys);
      NoDupAppend(keys, r);
    }
  }

  lemma GroupGainsTxn(root: map<Node, Node>, orders: set<string>, txns: set<string>, r: Node, g: Group, t: string)
    requires GroupOk(root, orders, txns, r, g)
    requires t !in txns && TxnNode(t) in root && root[TxnNode(t)] == r
    ensures GroupOk(root, orders, txns + {t}, r, Group(g.orders, g.txns + [t]))
  {
    assert t !in g.txns;
    NoDupAppend(g.txns, t);
    assert forall x :: x in g.txns + [t] <==> x in g.txns || x == t;
  }

  function WithTxn(groups: map<Node, Group>, r: Node, t: string): map<Node, Group>
    requires r in groups
  {
    groups[r := Group(groups[r].orders, groups[r].txns + [t])]
  }

  lemma GroupedTxn(root: map<Node, Node>, orders: set<string>, txns: set<string>, keys: seq<Node>,
                   groups: map<Node, Group>, t: string)
    requires Grouped(root, orders, txns, keys, groups)
    requires t !in txns && TxnNode(t) in root && root[TxnNode(t)] in groups
    ensures Grouped(root, orders, txns + {t}, keys, WithTxn(groups, root[TxnNode(t)], t))
  {
    var r := root[TxnNode(t)];
    var groups' := WithTxn(groups, r, t);
    GroupGainsTxn(root, orders, txns, r, groups[r], t);
    forall o | o in orders
      ensures OrderPlaced(root, groups', o)
    {
      assert OrderPlaced(root, groups, o);
    }
    forall x | x in txns + {t}
      ensures TxnPlaced(root, groups', x)
    {
      assert x != t ==> TxnPlaced(root, groups, x);
    }
    forall q | q in groups'
      ensures GroupOk(root, orders, txns + {t}, q, groups'[q])
    {
      assert GroupOk(root, orders, txns, q, groups[q]);
    }
  }

  method GroupOrders(t: EdgeTable, ds: UnionFind.DisjointSets) returns (keys: seq<Node>, groups: map<Node, Group>)
    requires ValidTable(t) && ds.Valid()
    modifies ds
    ensures ds.Valid() && ds.joined == old(ds.joined)
    ensures Grouped(ds.root, Elems(t.orders), {}, keys, groups)
  {
    hide Grouped, UnionFind.IsForest, UnionFind.IsLinkage;
    keys, groups := [], map[];
    NothingGrouped(ds.root);
    assert Elems(t.orders[..0]) == {};
    for n := 0 to |t.orders|
      invariant ds.Valid() && ds.joined == old(ds.joined)
      invariant Grouped(ds.root, Elems(t.orders[..n]), {}, keys, groups)
    {
      var o := t.orders[n];
      ghost var before, done := ds.root, Elems(t.orders[..n]);
      var r := ds.Find(OrderNode(o));
      GroupedExtend(before, ds.root, done, {}, keys, groups);
      assert o !in done;
      GroupedOrder(ds.root, done, keys, groups, o);
      keys, groups := WithKey(keys, groups, r), WithOrder(groups, r, o);
      assert t.orders[..n + 1] == t.orders[..n] + [o];
      assert Elems(t.orders[..n + 1]) == done + {o};
    }
    assert t.orders[..|t.orders|] == t.orders;
  }

  ghost function TxnsUpTo(t: EdgeTable, n: nat): set<string>
    requires ValidTable(t) && n <= |t.orders|
  {
    if n == 0 then {} else TxnsUpTo(t, n - 1) + Elems(TxnsOf(t.cands[t.orders[n - 1]]))
  }

  method GroupTxns(t: EdgeTable, ds: UnionFind.DisjointSets, keys: seq<Node>, groups0: map<Node, Group>)
    returns (groups: map<Node, Group>)
    requires ValidTable(t) && ds.Valid() && ds.joined == LinksOf(WeightsOf(t.cands))
    requires Grouped(ds.root, Elems(t.orders), {}, keys, groups0)
    modifies ds
    ensures ds.Valid() && ds.joined == old(ds.joined)
    ensures Grouped(ds.root, Elems(t.orders), TxnsUpTo(t, |t.orders|), keys, groups)
  {
    hide Grouped, UnionFind.IsForest, UnionFind.IsLinkage;
    groups := groups0;
    var seen: set<string> := {};
    for n := 0 to |t.orders|
      invariant ds.Valid() && ds.joined == old(ds.joined)
      invariant seen == TxnsUpTo(t, n)
      invariant Grouped(ds.root, Elems(t.orders), seen, keys, groups)
    {
      var o := t.orders[n];
      groups, seen := GroupTxnsOf(t, ds, keys, groups, seen, o);
    }
  }

  /** The inner loop for one order's candidates: each credit seen for the first time joins its component. */
  method GroupTxnsOf(t: EdgeTable, ds: UnionFind.DisjointSets, keys: seq<Node>, groups0: map<Node, Group>,
                     seen0: set<string>, o: string)
    returns (groups: map<Node, Group>, seen: set<string>)
    requires ValidTable(t) && ds.Valid() && ds.joined == LinksOf(WeightsOf(t.cands)) && o in t.cands
    requires Grouped(ds.root, Elems(t.orders), seen0, keys, groups0)
    modifies ds
    ensures ds.Valid() && ds.joined == old(ds.joined)
    ensures seen == seen0 + Elems(TxnsOf(t.cands[o]))
    ensures Grouped(ds.root, Elems(t.orders), seen, keys, groups)
  {
    hide Grouped, UnionFind.IsForest, UnionFind.IsLinkage;
    groups, seen := groups0, seen0;
    var cs := t.cands[o];
    for k := 0 to |cs|
      invariant ds.Valid() && ds.joined == old(ds.joined)
      invariant seen == seen0 + Elems(TxnsOf(cs[..k]))
      invariant Grouped(ds.root, Elems(t.orders), seen, keys, groups)
    {
      var txn := cs[k].txn;
      assert TxnsOf(cs[..k + 1]) == TxnsOf(cs[..k]) + [txn];
      if txn !in seen {
        TxnRootIsKnown(t, ds.root, ds.joined, seen, keys, groups, o, k);
        ghost var before := ds.root;
        var r := ds.Find(TxnNode(txn));
        GroupedTxn(before, Elems(t.orders), seen, keys, groups, txn);
        seen, groups := seen + {txn}, WithTxn(groups, r, txn);
      }
    }
    assert cs[..|cs|] == cs;
  }

  /** The group lookup for a credit always hits: the credit shares a root with the order that lists it. */
  lemma TxnRootIsKnown(t: EdgeTable, root: map<Node, Node>, joined: set<Edge>, seen: set<string>,
                       keys: seq<Node>, groups: map<Node, Group>, o: string, k: nat)
    requires ValidTable(t) && o in t.cands && k < |t.cands[o]|
    requires UnionFind.IsLinkage(joined, root) && joined == LinksOf(WeightsOf(t.cands))
    requires Grouped(root, Elems(t.orders), seen, keys, groups)
    ensures TxnNode(t.cands[o][k].txn) in root && root[TxnNode(t.cands[o][k].txn)] in groups
  {
    var w, txn := WeightsOf(t.cands), t.cands[o][k].txn;
    ScoreTableAt(t.cands[o], k);
    assert (OrderNode(o), TxnNode(txn)) in LinksOf(w);
    assert o in Elems(t.orders) && OrderPlaced(root, groups, o);
  }

  // ------------------------------------------------------------ the split

  lemma {:induction false} TxnsUpToMembers(t: EdgeTable, n: nat, i: nat, x: string)
    requires ValidTable(t) && i < n <= |t.orders|
    requires x in ScoreTable(t.cands[t.orders[i]])
    ensures x in TxnsUpTo(t, n)
  {
    ScoreTableKeys(t.cands[t.orders[i]]);
    if i < n - 1 {
      TxnsUpToMembers(t, n - 1, i, x);
    }
  }

  /** A credit node joined to anything is a candidate of some order. */
  lemma LinkedTxnIsCandidate(w: Weights, a: string, x: string)
    requires Linked(LinksOf(w), OrderNode(a), TxnNode(x))
    ensures exists o :: o in w && x in w[o]
  {
    var p: seq<Node> :| IsPath(LinksOf(w), p) && p[0] == OrderNode(a) && p[|p| - 1] == TxnNode(x);
    assert Adjacent(LinksOf(w), p[|p| - 2], p[|p| - 1]);
  }

  /** Before sorting: a group's members are exactly what is linked to any of its orders. */
  lemma GroupMembers(t: EdgeTable, root: map<Node, Node>, keys: seq<Node>, groups: map<Node, Group>, r: Node, a: string)
    requires ValidTable(t)
    requires UnionFind.IsLinkage(LinksOf(WeightsOf(t.cands)), root)
    requires Grouped(root, Elems(t.orders), TxnsUpTo(t, |t.orders|), keys, groups)
    requires r in groups && a in groups[r].orders
    ensures a in t.cands
    ensures forall b :: b in groups[r].orders <==> b in t.cands && SameComponent(WeightsOf(t.cands), a, b)
    ensures forall x :: x in groups[r].txns <==> Linked(LinksOf(WeightsOf(t.cands)), OrderNode(a), TxnNode(x))
  {
    var links := LinksOf(WeightsOf(t.cands));
    assert GroupOk(root, Elems(t.orders), TxnsUpTo(t, |t.orders|), r, groups[r]);
    forall b
      ensures b in groups[r].orders <==> b in t.cands && SameComponent(WeightsOf(t.cands), a, b)
    {
      if b in Elems(t.orders) {
        assert OrderPlaced(root, groups, b);
        UnionFind.SameRootIffLinked(links, root, OrderNode(a), OrderNode(b));
      }
    }
    forall x
      ensures x in groups[r].txns <==> Linked(links, OrderNode(a), TxnNode(x))
    {
      if Linked(links, OrderNode(a), TxnNode(x)) {
        CandidateIsSeen(t, a, x);
      }
      if x in TxnsUpTo(t, |t.orders|) {
        assert TxnPlaced(root, groups, x);
        UnionFind.SameRootIffLinked(links, root, OrderNode(a), TxnNode(x));
      }
    }
  }

  function SortedGroup(g: Group): Group {
    Group(SortStrings(g.orders), SortStrings(g.txns))
  }

  lemma SortedGroupMembers(g: Group)
    requires g.orders != [] && NoDup(g.orders) && NoDup(g.txns)
    ensures var h := SortedGroup(g);
            && h.orders != [] && NoDup(h.orders) && SortedBy(h.orders, StringLe)
            && NoDup(h.txns) && SortedBy(h.txns, StringLe)
            && (forall x :: x in h.orders <==> x in g.orders)
            && (forall x :: x in h.txns <==> x in g.txns)
  {
    var h := SortedGroup(g);
    StringOrder();
    SortSorts(g.orders, StringLe);
    SortSorts(g.txns, StringLe);
    SortNoDup(g.orders, StringLe);
    SortNoDup(g.txns, StringLe);
    SortElems(g.orders, StringLe);
    SortElems(g.txns, StringLe);
    SortPermutes(g.orders, StringLe);
    assert forall x :: x in h.orders <==> x in Elems(h.orders);
    assert forall x :: x in h.txns <==> x in Elems(h.txns);
  }

  lemma GroupIsComponent(t: EdgeTable, root: map<Node, Node>, keys: seq<Node>, groups: map<Node, Group>, r: Node)
    requires ValidTable(t)
    requires UnionFind.IsLinkage(LinksOf(WeightsOf(t.cands)), root)
    requires Grouped(root, Elems(t.orders), TxnsUpTo(t, |t.orders|), keys, groups) && r in groups
    ensures IsComponent(WeightsOf(t.cands), SortedGroup(groups[r]))
  {
    var w, links, g := WeightsOf(t.cands), LinksOf(WeightsOf(t.cands)), groups[r];
    assert GroupOk(root, Elems(t.orders), TxnsUpTo(t, |t.orders|), r, g);
    SortedGroupMembers(g);
    forall a | a in g.orders
      ensures a in w
      ensures forall b :: b in g.orders <==> b in w && SameComponent(w, a, b)
      ensures forall x :: x in g.txns <==> Linked(links, OrderNode(a), TxnNode(x))
    {
      GroupMembers(t, root, keys, groups, r, a);
    }
  }

  lemma CandidateIsSeen(t: EdgeTable, a: string, x: string)
    requires ValidTable(t) && Linked(LinksOf(WeightsOf(t.cands)), OrderNode(a), TxnNode(x))
    ensures x in TxnsUpTo(t, |t.orders|)
  {
    var w := WeightsOf(t.cands);
    LinkedTxnIsCandidate(w, a, x);
    var o :| o in w && x in w[o];
    assert o in Elems(t.orders);
    var i :| 0 <= i < |t.orders| && t.orders[i] == o;
    TxnsUpToMembers(t, |t.orders|, i, x);
  }

  function SortedGroups(keys: seq<Node>, groups: map<Node, Group>): seq<Group>
    requires forall i :: 0 <= i < |keys| ==> keys[i] in groups
  {
    seq(|keys|, i requires 0 <= i < |keys| => SortedGroup(groups[keys[i]]))
  }

  /** The i-th group of the result, with the root every one of its orders has. */
  lemma SplitMember(t: EdgeTable, root: map<Node, Node>, keys: seq<Node>, groups: map<Node, Group>, i: nat)
    requires ValidTable(t)
    requires UnionFind.IsLinkage(LinksOf(WeightsOf(t.cands)), root)
    requires Grouped(root, Elems(t.orders), TxnsUpTo(t, |t.orders|), keys, groups)
    requires i < |keys| && keys[i] in groups
    ensures IsComponent(WeightsOf(t.cands), SortedGroup(groups[keys[i]]))
    ensures forall o :: o in SortedGroup(groups[keys[i]]).orders <==> o in groups[keys[i]].orders
    ensures forall o :: o in groups[keys[i]].orders ==> OrderNode(o) in root && root[OrderNode(o)] == keys[i]
  {
    GroupIsComponent(t, root, keys, groups, keys[i]);
    assert GroupOk(root, Elems(t.orders), TxnsUpTo(t, |t.orders|), keys[i], groups[keys[i]]);
    SortedGroupMembers(groups[keys[i]]);
  }

  lemma EveryOrderPlaced(t: EdgeTable, root: map<Node, Node>, keys: seq<Node>, groups: map<Node, Group>, o: string)
    returns (i: nat)
    requires ValidTable(t) && o in t.cands
    requires Grouped(root, Elems(t.orders), TxnsUpTo(t, |t.orders|), keys, groups)
    ensures i < |keys| && keys[i] in groups && o in groups[keys[i]].orders
  {
    assert o in Elems(t.orders) && OrderPlaced(root, groups, o);
    assert root[OrderNode(o)] in Elems(keys);
    i :| 0 <= i < |keys| && keys[i] == root[OrderNode(o)];
  }

  lemma GroupsSplit(t: EdgeTable, root: map<Node, Node>, keys: seq<Node>, groups: map<Node, Group>)
    requires ValidTable(t)
    requires UnionFind.IsLinkage(LinksOf(WeightsOf(t.cands)), root)
    requires Grouped(root, Elems(t.orders), TxnsUpTo(t, |t.orders|), keys, groups)
    requires NoDup(keys) && forall i :: 0 <= i < |keys| ==> keys[i] in groups
    ensures IsComponentSplit(WeightsOf(t.cands), SortedGroups(keys, groups))
  {
    hide Grouped, UnionFind.IsLinkage, IsComponent;
    var w := WeightsOf(t.cands);
    var s := SortedGroups(keys, groups);
    forall i | 0 <= i < |s|
      ensures IsComponent(w, s[i])
      ensures forall o :: o in s[i].orders <==> o in groups[keys[i]].orders
      ensures forall o :: o in s[i].orders ==> OrderNode(o) in root && root[OrderNode(o)] == keys[i]
    {
      SplitMember(t, root, keys, groups, i);
    }
    forall o | o in w
      ensures exists i :: 0 <= i < |s| && o in s[i].orders
    {
      var i := EveryOrderPlaced(t, root, keys, groups, o);
      assert o in s[i].orders;
    }
    forall i, j | 0 <= i < j < |s|
      ensures Elems(s[i].orders) !! Elems(s[j].orders)
    {
      assert keys[i] != keys[j];
    }
  }

  method ComponentsOf(t: EdgeTable) returns (groups: seq<Group>)
    requires ValidTable(t)
    ensures IsComponentSplit(WeightsOf(t.cands), groups)
  {
    var ds := JoinEdges(t);
    var keys, byRoot := GroupOrders(t, ds);
    byRoot := GroupTxns(t, ds, keys, byRoot);
    assert forall i :: 0 <= i < |keys| ==> keys[i] in Elems(keys);
    GroupsSplit(t, ds.root, keys, byRoot);
    groups := SortedGroups(keys, byRoot);
  }
}

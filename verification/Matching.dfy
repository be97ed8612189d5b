/** Pass 4's assignment: solve every component exactly, abstain on the ones over the edge cap. */
module Matching {
  import opened Prelude
  import opened Connectivity
  import opened Assignment
  import opened Enumeration
  import opened ComponentAssignment
  import opened Components

  const MAX_COMPONENT_EDGES := 64

  /** The edges of the component the order o lies in. */
  ghost function ComponentLinks(w: Weights, o: string): set<Edge> {
    set e | e in LinksOf(w) && Linked(LinksOf(w), OrderNode(o), e.0)
  }

  ghost predicate OverCap(w: Weights, o: string) {
    |ComponentLinks(w, o)| > 64
  }

  /** Decisions of one optimum of the whole graph, flags by global disagreement, abstention over the cap. */
  ghost predicate MatchSpec(w: Weights, out: map<string, Match>) {
    && out.Keys == w.Keys
    && (exists best :: Optimal(w, w.Keys, best) && forall o :: o in w && !OverCap(w, o) ==> out[o].txn == best[o])
    && (forall o :: o in w ==>
          if OverCap(w, o) then out[o] == Match(None, true)
          else out[o].tie <==> Contested(w, w.Keys, o))
  }

  // ------------------------------------------------------------ optima exist

  lemma {:induction false} BestAmong(w: Weights, ids: seq<string>, combos: seq<seq<Option<string>>>)
    returns (best: Option<seq<Option<string>>>)
    requires NoDup(ids) && forall c :: c in combos ==> |c| == |ids|
    ensures best.Some? ==> best.value in combos && Feasible(w, Elems(ids), AsChoice(ids, best.value))
    ensures forall c :: c in combos && Feasible(w, Elems(ids), AsChoice(ids, c)) ==>
              best.Some? && Total(w, Elems(ids), AsChoice(ids, c)) <= Total(w, Elems(ids), AsChoice(ids, best.value))
  {
    if combos == [] {
      best := None;
    } else {
      best := BestAmong(w, ids, combos[1..]);
      var c := combos[0];
      assert combos == [c] + combos[1..];
      if Feasible(w, Elems(ids), AsChoice(ids, c)) {
        if best.None? || Total(w, Elems(ids), AsChoice(ids, best.value)) < Total(w, Elems(ids), AsChoice(ids, c)) {
          best := Some(c);
        }
      }
    }
  }

  lemma OptimumExists(ids: seq<string>, cands: map<string, seq<Candidate>>) returns (best: Choice)
    requires NoDup(ids) && forall i :: 0 <= i < |ids| ==> ids[i] in cands
    ensures Optimal(WeightsOf(cands), Elems(ids), best)
  {
    var w, orders, options := WeightsOf(cands), Elems(ids), AllOptions(ids, cands);
    OptionsOffer(w, ids, cands);
    forall c | c in Product(options)
      ensures |c| == |ids|
    {
      ProductMembers(options, c);
    }
    var combo := BestAmong(w, ids, Product(options));
    var nothing: Choice := map o | o in orders :: None;
    assert Feasible(w, orders, nothing);
    var listed := EveryChoiceListed(w, ids, options, nothing);
    best := AsChoice(ids, combo.value);
    forall other | Feasible(w, orders, other)
      ensures Total(w, orders, other) <= Total(w, orders, best)
    {
      var c := EveryChoiceListed(w, ids, options, other);
    }
  }

  /** Half of an optimum is an optimum of that half. */
  lemma OptimalSplit(w: Weights, left: set<string>, right: set<string>, m: Choice)
    requires Separate(w, left, right) && Optimal(w, left + right, m)
    ensures Optimal(w, left, Restrict(m, left)) && Optimal(w, right, Restrict(m, right))
  {
    Split(w, left, right, m);
    forall other | Feasible(w, left, other)
      ensures Total(w, left, other) <= Total(w, left, Restrict(m, left))
    {
      Glue(w, left, right, other, Restrict(m, right));
    }
    forall other | Feasible(w, right, other)
      ensures Total(w, right, other) <= Total(w, right, Restrict(m, right))
    {
      Glue(w, left, right, Restrict(m, left), other);
    }
  }

  // ------------------------------------------------------------ components are separate

  lemma SharedCreditLinks(w: Weights, a: string, b: string, t: string)
    requires a in w && b in w && t in w[a] && t in w[b]
    ensures SameComponent(w, a, b)
  {
    var links := LinksOf(w);
    assert (OrderNode(a), TxnNode(t)) in links && (OrderNode(b), TxnNode(t)) in links;
    LinkedEdge(links, OrderNode(a), TxnNode(t));
    LinkedEdge(links, OrderNode(b), TxnNode(t));
    LinkedSym(links, OrderNode(b), TxnNode(t));
    LinkedTrans(links, OrderNode(a), TxnNode(t), OrderNode(b));
  }

  /** A component shares no candidate credit with the orders outside it. */
  lemma ComponentIsSeparate(w: Weights, g: Group, others: set<string>)
    requires IsComponent(w, g) && others <= w.Keys && Elems(g.orders) !! others
    ensures Separate(w, Elems(g.orders), others) && Separate(w, others, Elems(g.orders))
  {
    forall a, b | a in Elems(g.orders) && b in others
      ensures w[a].Keys !! w[b].Keys
    {
      if t :| t in w[a] && t in w[b] {
        SharedCreditLinks(w, a, b, t);
      }
    }
  }

  ghost function OrdersUpTo(groups: seq<Group>, n: nat): set<string>
    requires n <= |groups|
  {
    if n == 0 then {} else OrdersUpTo(groups, n - 1) + Elems(groups[n - 1].orders)
  }

  lemma {:induction false} OrdersUpToMembers(groups: seq<Group>, n: nat, o: string)
    requires n <= |groups|
    ensures o in OrdersUpTo(groups, n) <==> exists i :: 0 <= i < n && o in groups[i].orders
  {
    if n > 0 {
      OrdersUpToMembers(groups, n - 1, o);
    }
  }

  lemma UpToIsApart(w: Weights, groups: seq<Group>, n: nat)
    requires IsComponentSplit(w, groups) && n < |groups|
    ensures OrdersUpTo(groups, n) <= w.Keys
    ensures OrdersUpTo(groups, n) !! Elems(groups[n].orders)
  {
    forall o | o in OrdersUpTo(groups, n)
      ensures o in w && o !in Elems(groups[n].orders)
    {
      OrdersUpToMembers(groups, n, o);
      var i :| 0 <= i < n && o in groups[i].orders;
      assert IsComponent(w, groups[i]);
      assert Elems(groups[i].orders) !! Elems(groups[n].orders);
    }
  }

  // ------------------------------------------------------------ counting a component's edges

  lemma PairsCardinality(o: string, cs: seq<Candidate>)
    requires NoDup(TxnsOf(cs))
    ensures |PairsOf(o, cs)| == |cs|
    decreases |cs|
  {
    if cs == [] {
      assert PairsOf(o, cs) == {};
    } else {
      var rest, last := cs[..|cs| - 1], cs[|cs| - 1];
      assert cs == rest + [last];
      assert TxnsOf(cs) == TxnsOf(rest) + [last.txn];
      assert forall i :: 0 <= i < |rest| ==> TxnsOf(rest)[i] == TxnsOf(cs)[i];
      PairsCardinality(o, rest);
      assert PairsOf(o, cs) == PairsOf(o, rest) + {(OrderNode(o), TxnNode(last.txn))};
      forall c | c in rest
        ensures c.txn != last.txn
      {
        var i :| 0 <= i < |rest| && rest[i] == c;
        assert TxnsOf(cs)[i] != TxnsOf(cs)[|cs| - 1];
      }
      assert (OrderNode(o), TxnNode(last.txn)) !in PairsOf(o, rest);
    }
  }

  ghost function LinksFrom(orders: seq<string>, cands: map<string, seq<Candidate>>): set<Edge>
    requires forall o :: o in orders ==> o in cands
  {
    if orders == [] then {} else PairsOf(orders[0], cands[orders[0]]) + LinksFrom(orders[1..], cands)
  }

  function EdgeCount(orders: seq<string>, cands: map<string, seq<Candidate>>): nat
    requires forall o :: o in orders ==> o in cands
  {
    if orders == [] then 0 else |cands[orders[0]]| + EdgeCount(orders[1..], cands)
  }

  lemma {:induction false} LinksFromMembers(orders: seq<string>, cands: map<string, seq<Candidate>>, e: Edge)
    requires forall o :: o in orders ==> o in cands
    ensures e in LinksFrom(orders, cands)
       <==> e.0.OrderNode? && e.0.id in orders && e.1.TxnNode? && e.1.id in ScoreTable(cands[e.0.id])
  {
    if orders != [] {
      LinksFromMembers(orders[1..], cands, e);
      PairsMembers(orders[0], cands[orders[0]], e);
      assert orders == [orders[0]] + orders[1..];
    }
  }

  lemma {:induction false} LinksFromCardinality(orders: seq<string>, cands: map<string, seq<Candidate>>)
    requires NoDup(orders) && forall o :: o in orders ==> o in cands && NoDup(TxnsOf(cands[o]))
    ensures |LinksFrom(orders, cands)| == EdgeCount(orders, cands)
  {
    if orders != [] {
      NoDupTail(orders);
      LinksFromCardinality(orders[1..], cands);
      PairsCardinality(orders[0], cands[orders[0]]);
      var head, tail := PairsOf(orders[0], cands[orders[0]]), LinksFrom(orders[1..], cands);
      forall e | e in head
        ensures e !in tail
      {
        LinksFromMembers(orders[1..], cands, e);
      }
      assert head !! tail;
    }
  }

  /** The summed list lengths are the number of edges of the component. */
  lemma EdgeCountIsComponentSize(t: EdgeTable, g: Group, o: string)
    requires ValidTable(t) && IsComponent(WeightsOf(t.cands), g) && o in g.orders
    ensures EdgeCount(g.orders, t.cands) == |ComponentLinks(WeightsOf(t.cands), o)|
  {
    var w := WeightsOf(t.cands);
    LinksFromCardinality(g.orders, t.cands);
    forall e
      ensures e in LinksFrom(g.orders, t.cands) <==> e in ComponentLinks(w, o)
    {
      LinksFromMembers(g.orders, t.cands, e);
      if e.0.OrderNode? && e.0.id in g.orders && e.1.TxnNode? && e.1.id in ScoreTable(t.cands[e.0.id]) {
        assert SameComponent(w, o, e.0.id);
        assert e == (OrderNode(e.0.id), TxnNode(e.1.id));
      }
      if e in ComponentLinks(w, o) {
        assert SameComponent(w, o, e.0.id);
      }
    }
    assert LinksFrom(g.orders, t.cands) == ComponentLinks(w, o);
  }

  // ------------------------------------------------------------ gluing the components

  /** One group's share of the result. */
  ghost predicate GroupDone(t: EdgeTable, g: Group, out: map<string, Match>)
    requires forall o :: o in g.orders ==> o in t.cands
  {
    if EdgeCount(g.orders, t.cands) > MAX_COMPONENT_EDGES
    then forall o :: o in g.orders ==> o in out && out[o] == Match(None, true)
    else Elems(g.orders) <= out.Keys
         && Solves(WeightsOf(t.cands), Elems(g.orders), map o | o in out && o in Elems(g.orders) :: out[o])
  }

  ghost predicate Capped(t: EdgeTable, g: Group)
    requires forall o :: o in g.orders ==> o in t.cands
  {
    EdgeCount(g.orders, t.cands) > MAX_COMPONENT_EDGES
  }

  ghost predicate Follows(g: Group, out: map<string, Match>, best: Choice) {
    forall o :: o in g.orders ==> o in best && o in out && out[o].txn == best[o]
  }

  ghost predicate AllListed(t: EdgeTable, groups: seq<Group>) {
    forall i, o :: 0 <= i < |groups| && o in groups[i].orders ==> o in t.cands
  }

  lemma LocalBest(t: EdgeTable, g: Group, out: map<string, Match>) returns (best: Choice)
    requires ValidTable(t) && IsComponent(WeightsOf(t.cands), g)
    requires GroupDone(t, g, out)
    ensures Optimal(WeightsOf(t.cands), Elems(g.orders), best)
    ensures !Capped(t, g) ==> Follows(g, out, best)
  {
    var w, orders := WeightsOf(t.cands), Elems(g.orders);
    if Capped(t, g) {
      best := OptimumExists(g.orders, t.cands);
    } else {
      best :| Optimal(w, orders, best) && forall o :: o in orders ==> out[o].txn == best[o];
    }
  }

  lemma FollowsStays(g: Group, out: map<string, Match>, before: Choice, local: Choice)
    requires Follows(g, out, before) && Elems(g.orders) !! local.Keys
    ensures Follows(g, out, before + local)
  {
    assert forall o :: o in g.orders ==> o in Elems(g.orders);
  }

  /** The components' own optima add up to an optimum of everything solved so far. */
  lemma {:induction false} BestUpTo(t: EdgeTable, groups: seq<Group>, n: nat, out: map<string, Match>)
    returns (best: Choice)
    requires ValidTable(t) && IsComponentSplit(WeightsOf(t.cands), groups) && n <= |groups|
    requires AllListed(t, groups)
    requires forall i :: 0 <= i < n ==> GroupDone(t, groups[i], out)
    ensures Optimal(WeightsOf(t.cands), OrdersUpTo(groups, n), best)
    ensures best.Keys == OrdersUpTo(groups, n)
    ensures forall i :: 0 <= i < n && !Capped(t, groups[i]) ==> Follows(groups[i], out, best)
  {
    hide IsComponent, Separate, ValidTable, Follows, Capped, GroupDone;
    var w := WeightsOf(t.cands);
    if n == 0 {
      best := map[];
    } else {
      var before := BestUpTo(t, groups, n - 1, out);
      var g := groups[n - 1];
      var local := LocalBest(t, g, out);
      UpToIsApart(w, groups, n - 1);
      ComponentIsSeparate(w, g, OrdersUpTo(groups, n - 1));
      OptimalGlue(w, OrdersUpTo(groups, n - 1), Elems(g.orders), before, local);
      best := before + local;
      forall i | 0 <= i < n && !Capped(t, groups[i])
        ensures Follows(groups[i], out, best)
      {
        if i < n - 1 {
          FollowsStays(groups[i], out, before, local);
        } else {
          FollowsLast(g, out, before, local);
        }
      }
    }
  }

  lemma FollowsLast(g: Group, out: map<string, Match>, before: Choice, local: Choice)
    requires Follows(g, out, local)
    ensures Follows(g, out, before + local)
  {
  }

  lemma FlagIsGlobal(t: EdgeTable, g: Group, out: map<string, Match>, best: Choice, o: string)
    requires ValidTable(t) && IsComponent(WeightsOf(t.cands), g)
    requires GroupDone(t, g, out) && EdgeCount(g.orders, t.cands) <= MAX_COMPONENT_EDGES
    requires Optimal(WeightsOf(t.cands), t.cands.Keys, best) && o in g.orders
    ensures out[o].tie <==> Contested(WeightsOf(t.cands), t.cands.Keys, o)
  {
    var w, orders := WeightsOf(t.cands), Elems(g.orders);
    var others := t.cands.Keys - orders;
    assert orders + others == t.cands.Keys;
    ComponentIsSeparate(w, g, others);
    OptimalSplit(w, orders, others, best);
    ContestedLocally(w, orders, others, o, Restrict(best, orders), Restrict(best, others));
  }

  lemma OrderSettled(t: EdgeTable, g: Group, out: map<string, Match>, best: Choice, o: string)
    requires ValidTable(t) && IsComponent(WeightsOf(t.cands), g) && o in g.orders
    requires GroupDone(t, g, out) && (!Capped(t, g) ==> Follows(g, out, best))
    requires Optimal(WeightsOf(t.cands), t.cands.Keys, best)
    ensures o in out && o in best
    ensures OverCap(WeightsOf(t.cands), o) ==> out[o] == Match(None, true)
    ensures !OverCap(WeightsOf(t.cands), o) ==>
              out[o].txn == best[o] && (out[o].tie <==> Contested(WeightsOf(t.cands), t.cands.Keys, o))
  {
    EdgeCountIsComponentSize(t, g, o);
    assert o in WeightsOf(t.cands);
    if Capped(t, g) {
      CappedGroup(t, g, out, o);
    } else {
      FlagIsGlobal(t, g, out, best, o);
    }
  }

  /** Solving every component separately solves the whole graph. */
  lemma ComponentsSolveWhole(t: EdgeTable, groups: seq<Group>, out: map<string, Match>)
    requires ValidTable(t) && IsComponentSplit(WeightsOf(t.cands), groups)
    requires out.Keys == t.cands.Keys && AllListed(t, groups)
    requires forall i :: 0 <= i < |groups| ==> GroupDone(t, groups[i], out)
    ensures MatchSpec(WeightsOf(t.cands), out)
  {
    hide IsComponent, Optimal, Contested, GroupDone, ValidTable, Follows, Capped, OverCap;
    var w := WeightsOf(t.cands);
    var best := BestUpTo(t, groups, |groups|, out);
    forall o
      ensures o in OrdersUpTo(groups, |groups|) <==> o in w
    {
      OrdersUpToMembers(groups, |groups|, o);
    }
    assert OrdersUpTo(groups, |groups|) == w.Keys;
    assert w.Keys == t.cands.Keys;
    forall o | o in w
      ensures o in out && o in best
      ensures OverCap(w, o) ==> out[o] == Match(None, true)
      ensures !OverCap(w, o) ==> out[o].txn == best[o] && (out[o].tie <==> Contested(w, w.Keys, o))
    {
      var i :| 0 <= i < |groups| && o in groups[i].orders;
      OrderSettled(t, groups[i], out, best, o);
    }
  }

  lemma CappedGroup(t: EdgeTable, g: Group, out: map<string, Match>, o: string)
    requires forall x :: x in g.orders ==> x in t.cands
    requires GroupDone(t, g, out) && EdgeCount(g.orders, t.cands) > MAX_COMPONENT_EDGES && o in g.orders
    ensures o in out && out[o] == Match(None, true)
  {
  }

  lemma DoneStays(t: EdgeTable, g: Group, before: map<string, Match>, after: map<string, Match>)
    requires forall x :: x in g.orders ==> x in t.cands
    requires GroupDone(t, g, before)
    requires forall o :: o in g.orders ==> o in before && o in after && after[o] == before[o]
    ensures GroupDone(t, g, after)
  {
    var orders := Elems(g.orders);
    assert (map o | o in before && o in orders :: before[o]) == (map o | o in after && o in orders :: after[o]);
  }

  // ------------------------------------------------------------ the loop

  method AbstainAll(orders: seq<string>, assignment: map<string, Match>) returns (out: map<string, Match>)
    ensures out.Keys == assignment.Keys + Elems(orders)
    ensures forall o :: o in out ==> out[o] == if o in orders then Match(None, true) else assignment[o]
  {
    out := assignment;
    for k := 0 to |orders|
      invariant out.Keys == assignment.Keys + Elems(orders[..k])
      invariant forall o :: o in out ==> out[o] == if o in orders[..k] then Match(None, true) else assignment[o]
    {
      out := out[orders[k] := Match(None, true)];
      assert orders[..k + 1] == orders[..k] + [orders[k]];
    }
    assert orders[..|orders|] == orders;
  }

  lemma SolvedIsDone(t: EdgeTable, g: Group, before: map<string, Match>, solved: map<string, Match>)
    requires forall o :: o in g.orders ==> o in t.cands
    requires EdgeCount(g.orders, t.cands) <= MAX_COMPONENT_EDGES
    requires Solves(WeightsOf(t.cands), Elems(g.orders), solved)
    ensures GroupDone(t, g, before + solved)
  {
    hide Optimal, Contested;
    var out := before + solved;
    assert (map o | o in out && o in Elems(g.orders) :: out[o]) == solved;
  }

  method MatchGroup(t: EdgeTable, g: Group, assignment: map<string, Match>) returns (out: map<string, Match>)
    requires NoDup(g.orders) && forall o :: o in g.orders ==> o in t.cands
    ensures out.Keys == assignment.Keys + Elems(g.orders)
    ensures GroupDone(t, g, out)
    ensures forall o :: o in assignment && o !in g.orders ==> out[o] == assignment[o]
  {
    hide Optimal, Contested;
    if EdgeCount(g.orders, t.cands) > MAX_COMPONENT_EDGES {
      out := AbstainAll(g.orders, assignment);
    } else {
      var solved := AssignComponent(g.orders, t.cands);
      out := assignment + solved;
      SolvedIsDone(t, g, assignment, solved);
    }
  }

  method MatchAll(t: EdgeTable) returns (assignment: map<string, Match>)
    requires ValidTable(t)
    ensures MatchSpec(WeightsOf(t.cands), assignment)
  {
    hide IsComponent, GroupDone, MatchSpec;
    var groups := ComponentsOf(t);
    ghost var w := WeightsOf(t.cands);
    forall i, o | 0 <= i < |groups| && o in groups[i].orders
      ensures o in t.cands
    {
      ComponentKeys(w, groups[i], o);
    }
    assignment := map[];
    for n := 0 to |groups|
      invariant assignment.Keys == OrdersUpTo(groups, n)
      invariant forall i :: 0 <= i < n ==> GroupDone(t, groups[i], assignment)
    {
      ghost var before := assignment;
      UpToIsApart(w, groups, n);
      ComponentHasNoDup(w, groups[n]);
      assignment := MatchGroup(t, groups[n], assignment);
      forall i | 0 <= i < n
        ensures GroupDone(t, groups[i], assignment)
      {
        forall o | o in groups[i].orders
          ensures o in before && o in assignment && assignment[o] == before[o]
        {
          OrdersUpToMembers(groups, n, o);
          assert o !in Elems(groups[n].orders);
        }
        DoneStays(t, groups[i], before, assignment);
      }
    }
    forall o
      ensures o in OrdersUpTo(groups, |groups|) <==> o in t.cands
    {
      OrdersUpToMembers(groups, |groups|, o);
      assert o in t.cands ==> o in w;
    }
    ComponentsSolveWhole(t, groups, assignment);
  }

  lemma ComponentHasNoDup(w: Weights, g: Group)
    requires IsComponent(w, g)
    ensures NoDup(g.orders)
  {
  }

  lemma ComponentKeys(w: Weights, g: Group, o: string)
    requires IsComponent(w, g) && o in g.orders
    ensures o in w
  {
  }

  // ------------------------------------------------------------ consequences

  /** Any two results for one graph agree on every flag, and on every decision that is not flagged. */
  lemma RowOrderIrrelevant(w: Weights, one: map<string, Match>, two: map<string, Match>, o: string)
    requires MatchSpec(w, one) && MatchSpec(w, two) && o in w
    ensures one[o].tie == two[o].tie
    ensures !one[o].tie ==> one[o].txn == two[o].txn
  {
    if !OverCap(w, o) && !one[o].tie {
      var m :| Optimal(w, w.Keys, m) && forall x :: x in w && !OverCap(w, x) ==> one[x].txn == m[x];
      var n :| Optimal(w, w.Keys, n) && forall x :: x in w && !OverCap(w, x) ==> two[x].txn == n[x];
      UncontestedIsUnique(w, w.Keys, o, m, n);
    }
  }

  /** No credit is assigned to two orders, and none outside an order's candidates. */
  lemma NoCreditTwice(w: Weights, out: map<string, Match>, a: string, b: string)
    requires MatchSpec(w, out) && a in w && b in w && out[a].txn.Some?
    ensures out[a].txn.value in w[a]
    ensures a != b ==> out[a].txn != out[b].txn
  {
    var m :| Optimal(w, w.Keys, m) && forall x :: x in w && !OverCap(w, x) ==> out[x].txn == m[x];
    assert out[b].txn.Some? ==> !OverCap(w, b);
  }

  /** With no component over the cap the result is itself an optimum: no feasible assignment scores more. */
  lemma UncappedIsGlobalOptimum(w: Weights, out: map<string, Match>)
    requires MatchSpec(w, out) && forall o :: o in w ==> !OverCap(w, o)
    ensures Optimal(w, w.Keys, Decisions(out))
  {
    hide OverCap, Contested, Optimal, MatchSpec;
    var m := FollowedOptimum(w, out);
    assert m == Decisions(out);
  }

  lemma FollowedOptimum(w: Weights, out: map<string, Match>) returns (m: Choice)
    requires MatchSpec(w, out) && forall o :: o in w ==> !OverCap(w, o)
    ensures Optimal(w, w.Keys, m) && m.Keys == w.Keys == out.Keys
    ensures forall o :: o in w ==> m[o] == out[o].txn
  {
    hide OverCap, Contested;
    m :| Optimal(w, w.Keys, m) && forall o :: o in w && !OverCap(w, o) ==> out[o].txn == m[o];
  }

  function Decisions(out: map<string, Match>): Choice {
    map o | o in out :: out[o].txn
  }

  lemma {:induction false} ScoreTableForgetsOrder(a: seq<Candidate>, b: seq<Candidate>)
    requires multiset(a) == multiset(b) && NoDup(TxnsOf(a)) && NoDup(TxnsOf(b))
    ensures ScoreTable(a) == ScoreTable(b)
  {
    ScoreTableKeys(a);
    ScoreTableKeys(b);
    ScoreTableFrom(a, b);
    ScoreTableFrom(b, a);
  }

  lemma ScoreTableFrom(a: seq<Candidate>, b: seq<Candidate>)
    requires multiset(a) == multiset(b) && NoDup(TxnsOf(a)) && NoDup(TxnsOf(b))
    ensures forall t :: t in ScoreTable(a) ==> t in ScoreTable(b) && ScoreTable(b)[t] == ScoreTable(a)[t]
  {
    ScoreTableKeys(a);
    forall t | t in ScoreTable(a)
      ensures t in ScoreTable(b) && ScoreTable(b)[t] == ScoreTable(a)[t]
    {
      assert t in TxnsOf(a);
      var i :| 0 <= i < |a| && TxnsOf(a)[i] == t;
      assert a[i] in multiset(b);
      var j :| 0 <= j < |b| && b[j] == a[i];
      ScoreTableAt(a, i);
      ScoreTableAt(b, j);
    }
  }

  ghost predicate SameRows(s: EdgeTable, t: EdgeTable) {
    && multiset(s.orders) == multiset(t.orders)
    && forall o :: o in s.cands && o in t.cands ==> multiset(s.cands[o]) == multiset(t.cands[o])
  }

  lemma WeightsForgetOrder(s: EdgeTable, t: EdgeTable)
    requires ValidTable(s) && ValidTable(t) && SameRows(s, t)
    ensures WeightsOf(s.cands) == WeightsOf(t.cands)
  {
    hide ScoreTable;
    assert forall o :: o in s.orders <==> o in multiset(s.orders);
    assert forall o :: o in t.orders <==> o in multiset(t.orders);
    assert s.cands.Keys == t.cands.Keys;
    forall o | o in s.cands
      ensures ScoreTable(s.cands[o]) == ScoreTable(t.cands[o])
    {
      ScoreTableForgetsOrder(s.cands[o], t.cands[o]);
    }
  }

  /** Reordering the order rows, or any order's candidate rows, leaves flags and unflagged decisions as they were. */
  lemma PermutedRowsSameResult(s: EdgeTable, t: EdgeTable, one: map<string, Match>, two: map<string, Match>)
    requires ValidTable(s) && ValidTable(t) && SameRows(s, t)
    requires MatchSpec(WeightsOf(s.cands), one) && MatchSpec(WeightsOf(t.cands), two)
    ensures one.Keys == two.Keys
    ensures forall o :: o in one ==> one[o].tie == two[o].tie && (!one[o].tie ==> one[o].txn == two[o].txn)
  {
    hide MatchSpec, WeightsOf, ValidTable, SameRows;
    WeightsForgetOrder(s, t);
    var w := WeightsOf(s.cands);
    MatchKeys(w, one);
    MatchKeys(w, two);
    forall o | o in one
      ensures one[o].tie == two[o].tie && (!one[o].tie ==> one[o].txn == two[o].txn)
    {
      RowOrderIrrelevant(w, one, two, o);
    }
  }

  lemma MatchKeys(w: Weights, out: map<string, Match>)
    requires MatchSpec(w, out)
    ensures out.Keys == w.Keys
  {
  }

  /** Every graph has such a result. */
  lemma MatchExists(t: EdgeTable) returns (out: map<string, Match>)
    requires ValidTable(t)
    ensures MatchSpec(WeightsOf(t.cands), out)
  {
    hide Optimal, Contested, OverCap;
    var w := WeightsOf(t.cands);
    var best := OptimumExists(t.orders, t.cands);
    assert Elems(t.orders) == w.Keys;
    OptimumDecidesAll(w, best);
    out := map o | o in w :: if OverCap(w, o) then Match(None, true) else Match(best[o], Contested(w, w.Keys, o));
  }

  lemma OptimumDecidesAll(w: Weights, best: Choice)
    requires Optimal(w, w.Keys, best)
    ensures best.Keys == w.Keys
  {
  }

  // ------------------------------------------------------------ one edge above all others

  lemma {:induction false} SignOfTotal(w: Weights, orders: set<string>, m: Choice)
    ensures (forall o :: o in orders ==> Gain(w, m, o) <= 0.0) ==> Total(w, orders, m) <= 0.0
    ensures (forall o :: o in orders ==> Gain(w, m, o) >= 0.0) ==> Total(w, orders, m) >= 0.0
    decreases |orders|
  {
    if orders != {} {
      var o :| o in orders;
      TotalRemove(w, orders, m, o);
      SignOfTotal(w, orders - {o}, m);
    }
  }

  /** The edge from o to t scores more than the margin, and no other edge scores anything. */
  ghost predicate Outstanding(w: Weights, o: string, t: string) {
    && o in w && t in w[o] && w[o][t] > 5.0
    && forall p, u :: p in w && u in w[p] && !(p == o && u == t) ==> w[p][u] <= 0.0
  }

  lemma OutstandingIsTaken(w: Weights, o: string, t: string, m: Choice)
    requires Outstanding(w, o, t) && NearOptimal(w, w.Keys, m)
    ensures m[o] == Some(t)
  {
    var only: Choice := map p | p in w :: if p == o then Some(t) else None;
    assert Feasible(w, w.Keys, only);
    TotalRemove(w, w.Keys, only, o);
    SignOfTotal(w, w.Keys - {o}, only);
    assert Total(w, w.Keys, only) > TIE_MARGIN_POINTS;
    if m[o] != Some(t) {
      SignOfTotal(w, w.Keys, m);
    }
  }

  /** Such an edge is chosen, and nobody contests it. */
  lemma OutstandingIsChosen(w: Weights, out: map<string, Match>, o: string, t: string)
    requires MatchSpec(w, out) && Outstanding(w, o, t) && !OverCap(w, o)
    ensures out[o] == Match(Some(t), false)
  {
    var best :| Optimal(w, w.Keys, best) && forall x :: x in w && !OverCap(w, x) ==> out[x].txn == best[x];
    assert NearOptimal(w, w.Keys, best);
    OutstandingIsTaken(w, o, t, best);
    if Contested(w, w.Keys, o) {
      var d, e :| Plausible(w, w.Keys, o, d) && Plausible(w, w.Keys, o, e) && d != e;
      var m :| NearOptimal(w, w.Keys, m) && o in m && m[o] == d;
      var n :| NearOptimal(w, w.Keys, n) && o in n && n[o] == e;
      OutstandingIsTaken(w, o, t, m);
      OutstandingIsTaken(w, o, t, n);
    }
  }

  /** Which edges there are decides the components, not what they score. */
  lemma CapIgnoresScores(v: Weights, w: Weights, o: string)
    requires v.Keys == w.Keys && forall p :: p in v ==> v[p].Keys == w[p].Keys
    ensures OverCap(v, o) <==> OverCap(w, o)
  {
    assert LinksOf(v) == LinksOf(w);
  }

  // ------------------------------------------------------------ an unflagged choice

  lemma DroppingIsFeasible(w: Weights, best: Choice, o: string)
    requires Feasible(w, w.Keys, best) && o in w && best[o].Some?
    ensures Feasible(w, w.Keys, best[o := None])
    ensures Total(w, w.Keys, best[o := None]) == Total(w, w.Keys, best) - w[o][best[o].value]
  {
    var dropped := best[o := None];
    TotalRemove(w, w.Keys, best, o);
    TotalRemove(w, w.Keys, dropped, o);
    TotalAgree(w, w.Keys - {o}, best, dropped);
  }

  /** A decision of an optimum that is worth no more than the margin is contested. */
  lemma CheapChoiceIsContested(w: Weights, best: Choice, o: string)
    requires Optimal(w, w.Keys, best) && o in w && best[o].Some?
    requires best[o].value in w[o] && w[o][best[o].value] <= TIE_MARGIN_POINTS
    ensures Contested(w, w.Keys, o)
  {
    hide Total, Feasible;
    var dropped := best[o := None];
    OptimumDecidesAll(w, best);
    DroppingIsFeasible(w, best, o);
    assert NearOptimal(w, w.Keys, best) && NearOptimal(w, w.Keys, dropped);
    assert Plausible(w, w.Keys, o, best[o]) && Plausible(w, w.Keys, o, dropped[o]);
  }

  /** A choice that is not flagged scores more than the tie margin: dropping it would otherwise be nearly as good. */
  lemma UnflaggedBeatsMargin(w: Weights, out: map<string, Match>, o: string)
    requires MatchSpec(w, out) && o in w && out[o].txn.Some? && !out[o].tie
    ensures out[o].txn.value in w[o] && w[o][out[o].txn.value] > 5.0
  {
    hide Contested, OverCap;
    var best: Choice :| Optimal(w, w.Keys, best) && forall x :: x in w && !OverCap(w, x) ==> out[x].txn == best[x];
    if w[o][best[o].value] <= TIE_MARGIN_POINTS {
      CheapChoiceIsContested(w, best, o);
    }
  }
}

/** The exact solver for one component: enumerate, keep the best, flag near-optimal disagreement. */
module ComponentAssignment {
  import opened Prelude
  import opened Assignment
  import opened Enumeration

  /** `(chosen_txn or None, ambiguous_tie)` */
  datatype Match = Match(txn: Option<string>, tie: bool)

  datatype Scored = Scored(total: real, combo: seq<Option<string>>)

  /** The decisions are those of some optimum, and the flags mark exactly the contested orders. */
  ghost predicate Solves(w: Weights, orders: set<string>, out: map<string, Match>) {
    && out.Keys == orders
    && (exists best :: Optimal(w, orders, best) && forall o :: o in orders ==> out[o].txn == best[o])
    && (forall o :: o in orders ==> (out[o].tie <==> Contested(w, orders, o)))
  }

  /** What the scoring loop has collected from the first n combinations. */
  ghost predicate Collected(w: Weights, ids: seq<string>, combos: seq<seq<Option<string>>>, n: nat, scored: seq<Scored>)
    requires n <= |combos| && forall c :: c in combos ==> |c| == |ids|
  {
    && (forall k :: 0 <= k < |scored| ==>
          scored[k].combo in combos && NoDup(Chosen(scored[k].combo))
          && scored[k].total == ComboTotal(w, ids, scored[k].combo))
    && (forall j :: 0 <= j < n && NoDup(Chosen(combos[j])) ==>
          Scored(ComboTotal(w, ids, combos[j]), combos[j]) in scored)
  }

  ghost predicate IsMaximum(scored: seq<Scored>, best: real) {
    && (forall k :: 0 <= k < |scored| ==> scored[k].total <= best)
    && (exists k :: 0 <= k < |scored| && scored[k].total == best)
  }

  /** The whole enumeration: one entry per feasible decision table, with its true total. */
  lemma CollectedIsFeasible(w: Weights, ids: seq<string>, options: seq<seq<Option<string>>>, scored: seq<Scored>, k: nat)
    requires NoDup(ids) && OffersExactly(w, ids, options)
    requires forall c :: c in Product(options) ==> |c| == |ids|
    requires Collected(w, ids, Product(options), |Product(options)|, scored) && k < |scored|
    ensures |scored[k].combo| == |ids|
    ensures Feasible(w, Elems(ids), AsChoice(ids, scored[k].combo))
    ensures scored[k].total == Total(w, Elems(ids), AsChoice(ids, scored[k].combo))
  {
    var c := scored[k].combo;
    FeasibleCombo(w, ids, options, c);
    ComboTotalIsTotal(w, ids, c);
  }

  lemma FeasibleIsCollected(w: Weights, ids: seq<string>, options: seq<seq<Option<string>>>, scored: seq<Scored>, m: Choice)
    returns (k: nat)
    requires NoDup(ids) && OffersExactly(w, ids, options)
    requires forall c :: c in Product(options) ==> |c| == |ids|
    requires Collected(w, ids, Product(options), |Product(options)|, scored)
    requires Feasible(w, Elems(ids), m)
    ensures k < |scored| && |scored[k].combo| == |ids|
    ensures AsChoice(ids, scored[k].combo) == m && scored[k].total == Total(w, Elems(ids), m)
  {
    var c := EveryChoiceListed(w, ids, options, m);
    ComboTotalIsTotal(w, ids, c);
    var j :| 0 <= j < |Product(options)| && Product(options)[j] == c;
    var e := Scored(ComboTotal(w, ids, c), c);
    assert e in scored;
    k :| 0 <= k < |scored| && scored[k] == e;
  }

  /** The best recorded total is the optimum, so the tie test compares with the optimum. */
  lemma MaximumIsOptimal(w: Weights, ids: seq<string>, options: seq<seq<Option<string>>>, scored: seq<Scored>,
                         best: real, k: nat)
    requires NoDup(ids) && OffersExactly(w, ids, options)
    requires forall c :: c in Product(options) ==> |c| == |ids|
    requires Collected(w, ids, Product(options), |Product(options)|, scored)
    requires IsMaximum(scored, best) && k < |scored|
    ensures |scored[k].combo| == |ids|
    ensures scored[k].total == best ==> Optimal(w, Elems(ids), AsChoice(ids, scored[k].combo))
    ensures scored[k].total >= best - TIE_MARGIN_POINTS
       <==> NearOptimal(w, Elems(ids), AsChoice(ids, scored[k].combo))
  {
    CollectedIsFeasible(w, ids, options, scored, k);
    var orders, m := Elems(ids), AsChoice(ids, scored[k].combo);
    forall other | Feasible(w, orders, other)
      ensures Total(w, orders, other) <= best
    {
      var j := FeasibleIsCollected(w, ids, options, scored, other);
    }
    var top :| 0 <= top < |scored| && scored[top].total == best;
    CollectedIsFeasible(w, ids, options, scored, top);
  }

  lemma TwoMembers<T>(s: set<T>)
    ensures |s| > 1 <==> exists x, y :: x in s && y in s && x != y
  {
    if |s| > 1 {
      var x :| x in s;
      assert |s - {x}| == |s| - 1;
      var y :| y in s - {x};
    }
    if x, y :| x in s && y in s && x != y {
      assert {x, y} <= s;
      assert |s - {x, y}| == |s| - |{x, y}|;
    }
  }

  /** The decisions near-optimal combinations make about one order are the plausible ones. */
  lemma ChoicesArePlausible(w: Weights, ids: seq<string>, options: seq<seq<Option<string>>>, scored: seq<Scored>,
                            best: real, near: seq<seq<Option<string>>>, i: nat, d: Option<string>)
    requires NoDup(ids) && OffersExactly(w, ids, options) && i < |ids|
    requires forall c :: c in Product(options) ==> |c| == |ids|
    requires Collected(w, ids, Product(options), |Product(options)|, scored)
    requires IsMaximum(scored, best)
    requires forall c :: c in near <==>
               exists k :: 0 <= k < |scored| && scored[k].combo == c && scored[k].total >= best - TIE_MARGIN_POINTS
    ensures (exists c :: c in near && |c| == |ids| && c[i] == d) <==> Plausible(w, Elems(ids), ids[i], d)
  {
    var orders := Elems(ids);
    if c :| c in near && |c| == |ids| && c[i] == d {
      var k :| 0 <= k < |scored| && scored[k].combo == c && scored[k].total >= best - TIE_MARGIN_POINTS;
      MaximumIsOptimal(w, ids, options, scored, best, k);
      assert AsChoice(ids, c)[ids[i]] == d;
    }
    if Plausible(w, orders, ids[i], d) {
      var m :| NearOptimal(w, orders, m) && ids[i] in m && m[ids[i]] == d;
      var k := FeasibleIsCollected(w, ids, options, scored, m);
      MaximumIsOptimal(w, ids, options, scored, best, k);
      assert scored[k].combo in near && scored[k].combo[i] == d;
    }
  }

  lemma {:induction false} ComboTotalAgree(v: Weights, w: Weights, ids: seq<string>, combo: seq<Option<string>>)
    requires |combo| == |ids|
    requires forall i :: 0 <= i < |ids| ==> ids[i] in v && ids[i] in w && v[ids[i]] == w[ids[i]]
    ensures ComboTotal(v, ids, combo) == ComboTotal(w, ids, combo)
  {
    if ids != [] {
      ComboTotalAgree(v, w, ids[1..], combo[1..]);
    }
  }

  lemma NothingCollected(w: Weights, ids: seq<string>, combos: seq<seq<Option<string>>>)
    requires forall c :: c in combos ==> |c| == |ids|
    ensures Collected(w, ids, combos, 0, [])
  {
  }

  lemma CollectSkip(w: Weights, ids: seq<string>, combos: seq<seq<Option<string>>>, n: nat, scored: seq<Scored>)
    requires n < |combos| && forall c :: c in combos ==> |c| == |ids|
    requires Collected(w, ids, combos, n, scored) && !NoDup(Chosen(combos[n]))
    ensures Collected(w, ids, combos, n + 1, scored)
  {
  }

  lemma CollectOne(w: Weights, ids: seq<string>, combos: seq<seq<Option<string>>>, n: nat, scored: seq<Scored>)
    requires n < |combos| && forall c :: c in combos ==> |c| == |ids|
    requires Collected(w, ids, combos, n, scored) && NoDup(Chosen(combos[n]))
    ensures Collected(w, ids, combos, n + 1, scored + [Scored(ComboTotal(w, ids, combos[n]), combos[n])])
  {
    var e := Scored(ComboTotal(w, ids, combos[n]), combos[n]);
    assert forall x :: x in scored + [e] <==> x in scored || x == e;
  }

  /** Taking nothing anywhere is always feasible, so something is always recorded. */
  lemma SomethingIsCollected(w: Weights, ids: seq<string>, options: seq<seq<Option<string>>>, scored: seq<Scored>)
    requires NoDup(ids) && OffersExactly(w, ids, options)
    requires forall c :: c in Product(options) ==> |c| == |ids|
    requires Collected(w, ids, Product(options), |Product(options)|, scored)
    ensures scored != []
  {
    var k := FeasibleIsCollected(w, ids, options, scored, map o | o in ids :: None);
  }

  /** `max(scored, key=lambda x: x[0])`: the first entry no later one exceeds. */
  function MaxEntry(scored: seq<Scored>): (e: Scored)
    requires scored != []
    ensures e in scored && forall x :: x in scored ==> x.total <= e.total
  {
    var last := scored[|scored| - 1];
    if |scored| == 1 then last
    else
      var e := MaxEntry(scored[..|scored| - 1]);
      assert scored == scored[..|scored| - 1] + [last];
      if last.total > e.total then last else e
  }

  function NearCombos(scored: seq<Scored>, best: real): (near: seq<seq<Option<string>>>)
    ensures forall c :: c in near <==>
              exists k :: 0 <= k < |scored| && scored[k].combo == c && scored[k].total >= best - TIE_MARGIN_POINTS
  {
    if scored == [] then []
    else
      var e, rest := scored[|scored| - 1], NearCombos(scored[..|scored| - 1], best);
      if e.total >= best - TIE_MARGIN_POINTS then rest + [e.combo] else rest
  }

  function Decisions(near: seq<seq<Option<string>>>, i: nat): set<Option<string>> {
    set c | c in near && i < |c| :: c[i]
  }

  ghost function WeightsOf(cands: map<string, seq<Candidate>>): Weights {
    map o | o in cands :: ScoreTable(cands[o])
  }

  /** Recording one more entry: the maximum stays unless the entry exceeds it. */
  lemma MaximumStep(scored: seq<Scored>, best: Option<real>, e: Scored)
    requires best.None? <==> scored == []
    requires best.Some? ==> IsMaximum(scored, best.value)
    ensures IsMaximum(scored + [e], if best.None? || e.total > best.value then e.total else best.value)
  {
    var all := scored + [e];
    assert all[|scored|] == e;
    assert forall k :: 0 <= k < |scored| ==> all[k] == scored[k];
  }

  /** The scoring loop: skip combinations that use a credit twice, record the rest, track the best total. */
  method ScoreCombos(ids: seq<string>, cands: map<string, seq<Candidate>>, combos: seq<seq<Option<string>>>)
    returns (scored: seq<Scored>, bestTotal: Option<real>)
    requires forall i :: 0 <= i < |ids| ==> ids[i] in cands
    requires forall c :: c in combos ==> |c| == |ids|
    ensures Collected(WeightsOf(cands), ids, combos, |combos|, scored)
    ensures bestTotal.None? <==> scored == []
    ensures bestTotal.Some? ==> IsMaximum(scored, bestTotal.value)
  {
    hide Collected, IsMaximum;
    ghost var w := WeightsOf(cands);
    var weight := map o | o in ids :: ScoreTable(cands[o]);
    NothingCollected(w, ids, combos);
    scored, bestTotal := [], None;
    for n := 0 to |combos|
      invariant Collected(w, ids, combos, n, scored)
      invariant bestTotal.None? <==> scored == []
      invariant bestTotal.Some? ==> IsMaximum(scored, bestTotal.value)
    {
      var combo := combos[n];
      var chosen := Chosen(combo);
      CardinalityNoDup(chosen);
      if |chosen| != |Elems(chosen)| {
        CollectSkip(w, ids, combos, n, scored);
      } else {
        var total := ComboTotal(weight, ids, combo);
        ComboTotalAgree(weight, w, ids, combo);
        CollectOne(w, ids, combos, n, scored);
        MaximumStep(scored, bestTotal, Scored(total, combo));
        scored := scored + [Scored(total, combo)];
        if bestTotal.None? || total > bestTotal.value {
          bestTotal := Some(total);
        }
      }
    }
  }

  /** The complete score list of a component and its best total. */
  ghost predicate Enumerated(w: Weights, ids: seq<string>, options: seq<seq<Option<string>>>, scored: seq<Scored>, best: real) {
    && NoDup(ids) && OffersExactly(w, ids, options)
    && (forall c :: c in Product(options) ==> |c| == |ids|)
    && Collected(w, ids, Product(options), |Product(options)|, scored)
    && IsMaximum(scored, best)
  }

  lemma DecisionsArePlausible(w: Weights, ids: seq<string>, options: seq<seq<Option<string>>>, scored: seq<Scored>,
                              best: real, i: nat, d: Option<string>)
    requires Enumerated(w, ids, options, scored, best) && i < |ids|
    ensures d in Decisions(NearCombos(scored, best), i) <==> Plausible(w, Elems(ids), ids[i], d)
  {
    var near := NearCombos(scored, best);
    ChoicesArePlausible(w, ids, options, scored, best, near, i, d);
    forall c | c in near
      ensures |c| == |ids|
    {
      var k :| 0 <= k < |scored| && scored[k].combo == c;
    }
  }

  /** More than one near-best decision about an order means the order is contested, and conversely. */
  lemma TieIsContested(w: Weights, ids: seq<string>, options: seq<seq<Option<string>>>, scored: seq<Scored>,
                       best: real, i: nat)
    requires Enumerated(w, ids, options, scored, best) && i < |ids|
    ensures |Decisions(NearCombos(scored, best), i)| > 1 <==> Contested(w, Elems(ids), ids[i])
  {
    var choices := Decisions(NearCombos(scored, best), i);
    TwoMembers(choices);
    if x, y :| x in choices && y in choices && x != y {
      DecisionsArePlausible(w, ids, options, scored, best, i, x);
      DecisionsArePlausible(w, ids, options, scored, best, i, y);
    }
    if Contested(w, Elems(ids), ids[i]) {
      var d, e :| Plausible(w, Elems(ids), ids[i], d) && Plausible(w, Elems(ids), ids[i], e) && d != e;
      DecisionsArePlausible(w, ids, options, scored, best, i, d);
      DecisionsArePlausible(w, ids, options, scored, best, i, e);
    }
  }

  ghost predicate Decided(ids: seq<string>, near: seq<seq<Option<string>>>, combo: seq<Option<string>>, out: map<string, Match>)
    requires |combo| == |ids|
  {
    && out.Keys == Elems(ids)
    && forall i :: 0 <= i < |ids| ==> out[ids[i]] == Match(combo[i], |Decisions(near, i)| > 1)
  }

  /** The recorded best combination and the spread of near-best decisions solve the component. */
  lemma DecidedSolves(w: Weights, ids: seq<string>, options: seq<seq<Option<string>>>, scored: seq<Scored>,
                      best: real, k: nat, out: map<string, Match>)
    requires Enumerated(w, ids, options, scored, best)
    requires k < |scored| && scored[k].total == best && |scored[k].combo| == |ids|
    requires Decided(ids, NearCombos(scored, best), scored[k].combo, out)
    ensures Solves(w, Elems(ids), out)
  {
    var orders, combo := Elems(ids), scored[k].combo;
    MaximumIsOptimal(w, ids, options, scored, best, k);
    var optimum := AsChoice(ids, combo);
    forall o | o in orders
      ensures out[o].txn == optimum[o]
      ensures out[o].tie <==> Contested(w, orders, o)
    {
      var i := ChoiceAt(ids, combo, o);
      TieIsContested(w, ids, options, scored, best, i);
    }
  }

  method Decide(ids: seq<string>, near: seq<seq<Option<string>>>, bestCombo: seq<Option<string>>)
    returns (out: map<string, Match>)
    requires NoDup(ids) && |bestCombo| == |ids|
    ensures Decided(ids, near, bestCombo, out)
  {
    out := map[];
    for idx := 0 to |ids|
      invariant out.Keys == Elems(ids[..idx])
      invariant forall i :: 0 <= i < idx ==> out[ids[i]] == Match(bestCombo[i], |Decisions(near, i)| > 1)
    {
      assert ids[..idx + 1] == ids[..idx] + [ids[idx]];
      out := out[ids[idx] := Match(bestCombo[idx], |Decisions(near, idx)| > 1)];
    }
    assert ids[..|ids|] == ids;
  }

  method AssignComponent(ids: seq<string>, cands: map<string, seq<Candidate>>) returns (out: map<string, Match>)
    requires NoDup(ids)
    requires forall i :: 0 <= i < |ids| ==> ids[i] in cands
    ensures Solves(WeightsOf(cands), Elems(ids), out)
  {
    ghost var w := WeightsOf(cands);
    var options := AllOptions(ids, cands);
    OptionsOffer(w, ids, cands);
    var combos := Product(options);
    forall c | c in combos
      ensures |c| == |ids|
    {
      ProductMembers(options, c);
    }
    var scored, bestTotal := ScoreCombos(ids, cands, combos);
    SomethingIsCollected(w, ids, options, scored);
    var best := bestTotal.value;
    assert Enumerated(w, ids, options, scored, best);
    var bestEntry := MaxEntry(scored);
    ghost var k :| 0 <= k < |scored| && scored[k] == bestEntry;
    CollectedIsFeasible(w, ids, options, scored, k);
    out := Decide(ids, NearCombos(scored, best), bestEntry.combo);
    DecidedSolves(w, ids, options, scored, best, k, out);
  }
}

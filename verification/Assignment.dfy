/** One credit per order, no credit twice: the optimisation problem behind pass 4, stated on sets and maps. */
module Assignment {
  import opened Prelude

  /** For every order, the credits it may take and what each one scores. */
  type Weights = map<string, map<string, real>>

  /** A decision for every order: one credit or none. */
  type Choice = map<string, Option<string>>

  const TIE_MARGIN_POINTS: real := 5.0

  ghost predicate Feasible(w: Weights, orders: set<string>, m: Choice) {
    && m.Keys == orders
    && (forall o :: o in orders && m[o].Some? ==> o in w && m[o].value in w[o])
    && (forall a, b :: a in orders && b in orders && a != b && m[a].Some? ==> m[a] != m[b])
  }

  function Gain(w: Weights, m: Choice, o: string): real {
    if o in w && o in m && m[o].Some? && m[o].value in w[o] then w[o][m[o].value] else 0.0
  }

  ghost function Total(w: Weights, orders: set<string>, m: Choice): real {
    if orders == {} then 0.0
    else
      var o :| o in orders;
      Gain(w, m, o) + Total(w, orders - {o}, m)
  }

  ghost predicate Optimal(w: Weights, orders: set<string>, m: Choice) {
    && Feasible(w, orders, m)
    && forall other :: Feasible(w, orders, other) ==> Total(w, orders, other) <= Total(w, orders, m)
  }

  /** Within the tie margin of every feasible choice, hence of the best one. */
  ghost predicate NearOptimal(w: Weights, orders: set<string>, m: Choice) {
    && Feasible(w, orders, m)
    && forall other :: Feasible(w, orders, other) ==>
         Total(w, orders, other) - 5.0 <= Total(w, orders, m)
  }

  /** Some near-optimal choice decides d for the order o. */
  ghost predicate Plausible(w: Weights, orders: set<string>, o: string, d: Option<string>) {
    exists m :: NearOptimal(w, orders, m) && o in m && m[o] == d
  }

  /** Two near-optimal choices disagree about the order o. */
  ghost predicate Contested(w: Weights, orders: set<string>, o: string) {
    exists d, e :: Plausible(w, orders, o, d) && Plausible(w, orders, o, e) && d != e
  }

  function Restrict(m: Choice, orders: set<string>): Choice {
    map o | o in m && o in orders :: m[o]
  }

  /** No order of one side shares a candidate credit with an order of the other. */
  ghost predicate Separate(w: Weights, left: set<string>, right: set<string>) {
    && left !! right
    && forall a, b :: a in left && b in right && a in w && b in w ==> w[a].Keys !! w[b].Keys
  }

  lemma {:induction false} TotalRemove(w: Weights, orders: set<string>, m: Choice, o: string)
    requires o in orders
    ensures Total(w, orders, m) == Gain(w, m, o) + Total(w, orders - {o}, m)
  {
    var first :| first in orders && Total(w, orders, m) == Gain(w, m, first) + Total(w, orders - {first}, m);
    if first != o {
      TotalRemove(w, orders - {first}, m, o);
      TotalRemove(w, orders - {o}, m, first);
      assert orders - {first} - {o} == orders - {o} - {first};
    }
  }

  lemma {:induction false} TotalUnion(w: Weights, left: set<string>, right: set<string>, m: Choice)
    requires left !! right
    ensures Total(w, left + right, m) == Total(w, left, m) + Total(w, right, m)
  {
    if left == {} {
      assert left + right == right;
    } else {
      var o :| o in left;
      TotalRemove(w, left, m, o);
      TotalRemove(w, left + right, m, o);
      assert left + right - {o} == (left - {o}) + right;
      TotalUnion(w, left - {o}, right, m);
    }
  }

  lemma {:induction false} TotalAgree(w: Weights, orders: set<string>, m: Choice, n: Choice)
    requires forall o :: o in orders ==> o in m && o in n && m[o] == n[o]
    ensures Total(w, orders, m) == Total(w, orders, n)
  {
    if orders != {} {
      var o :| o in orders;
      TotalRemove(w, orders, m, o);
      TotalRemove(w, orders, n, o);
      TotalAgree(w, orders - {o}, m, n);
    }
  }

  lemma Split(w: Weights, left: set<string>, right: set<string>, m: Choice)
    requires left !! right && Feasible(w, left + right, m)
    ensures Feasible(w, left, Restrict(m, left)) && Feasible(w, right, Restrict(m, right))
    ensures Total(w, left + right, m)
         == Total(w, left, Restrict(m, left)) + Total(w, right, Restrict(m, right))
  {
    TotalUnion(w, left, right, m);
    TotalAgree(w, left, m, Restrict(m, left));
    TotalAgree(w, right, m, Restrict(m, right));
  }

  lemma Glue(w: Weights, left: set<string>, right: set<string>, m: Choice, n: Choice)
    requires Separate(w, left, right) && Feasible(w, left, m) && Feasible(w, right, n)
    ensures Feasible(w, left + right, m + n)
    ensures Total(w, left + right, m + n) == Total(w, left, m) + Total(w, right, n)
  {
    var both := m + n;
    forall a, b | a in left + right && b in left + right && a != b && both[a].Some?
      ensures both[a] != both[b]
    {
      if a in left && b in right && both[b].Some? {
        assert w[a].Keys !! w[b].Keys;
      } else if a in right && b in left && both[b].Some? {
        assert w[b].Keys !! w[a].Keys;
      }
    }
    TotalUnion(w, left, right, both);
    TotalAgree(w, left, both, m);
    TotalAgree(w, right, both, n);
  }

  /** Optima of two separate parts make an optimum of the whole. */
  lemma OptimalGlue(w: Weights, left: set<string>, right: set<string>, m: Choice, n: Choice)
    requires Separate(w, left, right) && Optimal(w, left, m) && Optimal(w, right, n)
    ensures Optimal(w, left + right, m + n)
  {
    Glue(w, left, right, m, n);
    forall other | Feasible(w, left + right, other)
      ensures Total(w, left + right, other) <= Total(w, left + right, m + n)
    {
      Split(w, left, right, other);
    }
  }

  lemma NearGlue(w: Weights, left: set<string>, right: set<string>, m: Choice, rest: Choice)
    requires Separate(w, left, right) && NearOptimal(w, left, m) && Optimal(w, right, rest)
    ensures NearOptimal(w, left + right, m + rest)
    ensures forall o :: o in left ==> o in m && o in m + rest && (m + rest)[o] == m[o]
  {
    Glue(w, left, right, m, rest);
    forall other | Feasible(w, left + right, other)
      ensures Total(w, left + right, other) - TIE_MARGIN_POINTS <= Total(w, left + right, m + rest)
    {
      Split(w, left, right, other);
    }
  }

  lemma NearSplit(w: Weights, left: set<string>, right: set<string>, m: Choice, best: Choice, rest: Choice)
    requires Separate(w, left, right) && NearOptimal(w, left + right, m)
    requires Optimal(w, left, best) && Optimal(w, right, rest)
    ensures NearOptimal(w, left, Restrict(m, left))
  {
    Split(w, left, right, m);
    Glue(w, left, right, best, rest);
  }

  lemma PlausibleUp(w: Weights, left: set<string>, right: set<string>, o: string, d: Option<string>, rest: Choice)
    requires Separate(w, left, right) && Optimal(w, right, rest)
    requires o in left && Plausible(w, left, o, d)
    ensures Plausible(w, left + right, o, d)
  {
    var m :| NearOptimal(w, left, m) && o in m && m[o] == d;
    NearGlue(w, left, right, m, rest);
  }

  lemma PlausibleDown(w: Weights, left: set<string>, right: set<string>, o: string, d: Option<string>,
                      best: Choice, rest: Choice)
    requires Separate(w, left, right) && Optimal(w, left, best) && Optimal(w, right, rest)
    requires o in left && Plausible(w, left + right, o, d)
    ensures Plausible(w, left, o, d)
  {
    var m :| NearOptimal(w, left + right, m) && o in m && m[o] == d;
    NearSplit(w, left, right, m, best, rest);
    assert Restrict(m, left)[o] == d;
  }

  /** An order is contested in the whole exactly when it is contested inside its own part. */
  lemma ContestedLocally(w: Weights, left: set<string>, right: set<string>, o: string, best: Choice, rest: Choice)
    requires Separate(w, left, right) && Optimal(w, left, best) && Optimal(w, right, rest)
    requires o in left
    ensures Contested(w, left + right, o) <==> Contested(w, left, o)
  {
    if Contested(w, left, o) {
      var d, e :| Plausible(w, left, o, d) && Plausible(w, left, o, e) && d != e;
      PlausibleUp(w, left, right, o, d, rest);
      PlausibleUp(w, left, right, o, e, rest);
    }
    if Contested(w, left + right, o) {
      var d, e :| Plausible(w, left + right, o, d) && Plausible(w, left + right, o, e) && d != e;
      PlausibleDown(w, left, right, o, d, best, rest);
      PlausibleDown(w, left, right, o, e, best, rest);
    }
  }

  /** Where no near-optimal choices disagree, every optimum makes the same decision. */
  lemma UncontestedIsUnique(w: Weights, orders: set<string>, o: string, m: Choice, n: Choice)
    requires !Contested(w, orders, o) && o in orders
    requires Optimal(w, orders, m) && Optimal(w, orders, n)
    ensures m[o] == n[o]
  {
    assert NearOptimal(w, orders, m) && NearOptimal(w, orders, n);
    assert Plausible(w, orders, o, m[o]) && Plausible(w, orders, o, n[o]);
  }
}

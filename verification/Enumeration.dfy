/** Exhaustive enumeration of one component's assignments, and what the enumeration decides. */
module Enumeration {
  import opened Prelude
  import opened Assignment

  datatype Candidate = Candidate(txn: string, weight: real)

  /** The score table of one order's candidate list; a repeated credit keeps its last score. */
  function ScoreTable(cands: seq<Candidate>): map<string, real> {
    if cands == [] then map[]
    else
      var last := cands[|cands| - 1];
      ScoreTable(cands[..|cands| - 1])[last.txn := last.weight]
  }

  function TxnsOf(cands: seq<Candidate>): seq<string> {
    seq(|cands|, i requires 0 <= i < |cands| => cands[i].txn)
  }

  lemma {:induction false} ScoreTableKeys(cands: seq<Candidate>)
    ensures ScoreTable(cands).Keys == Elems(TxnsOf(cands))
  {
    if cands != [] {
      var rest, last := cands[..|cands| - 1], cands[|cands| - 1];
      ScoreTableKeys(rest);
      assert TxnsOf(cands) == TxnsOf(rest) + [last.txn];
    }
  }

  lemma {:induction false} ScoreTableAt(cands: seq<Candidate>, i: nat)
    requires NoDup(TxnsOf(cands)) && i < |cands|
    ensures cands[i].txn in ScoreTable(cands) && ScoreTable(cands)[cands[i].txn] == cands[i].weight
  {
    var rest := cands[..|cands| - 1];
    if i < |cands| - 1 {
      assert TxnsOf(cands)[i] != TxnsOf(cands)[|cands| - 1];
      assert forall k :: 0 <= k < |rest| ==> TxnsOf(rest)[k] == TxnsOf(cands)[k];
      ScoreTableAt(rest, i);
    }
  }

  /** `itertools.product`: the rightmost position varies fastest. */
  function Prefixed<T>(x: T, tails: seq<seq<T>>): seq<seq<T>> {
    seq(|tails|, i requires 0 <= i < |tails| => [x] + tails[i])
  }

  function Cross<T>(heads: seq<T>, tails: seq<seq<T>>): seq<seq<T>> {
    if heads == [] then [] else Prefixed(heads[0], tails) + Cross(heads[1..], tails)
  }

  function Product<T>(options: seq<seq<T>>): seq<seq<T>> {
    if options == [] then [[]] else Cross(options[0], Product(options[1..]))
  }

  ghost predicate Picks<T>(options: seq<seq<T>>, combo: seq<T>) {
    |combo| == |options| && forall i :: 0 <= i < |combo| ==> combo[i] in options[i]
  }

  lemma {:induction false} CrossMembers<T>(heads: seq<T>, tails: seq<seq<T>>, combo: seq<T>)
    ensures combo in Cross(heads, tails) <==> combo != [] && combo[0] in heads && combo[1..] in tails
  {
    if heads != [] {
      CrossMembers(heads[1..], tails, combo);
      var p := Prefixed(heads[0], tails);
      assert combo in Cross(heads, tails) <==> combo in p || combo in Cross(heads[1..], tails);
      if combo != [] && combo[0] == heads[0] && combo[1..] in tails {
        var i :| 0 <= i < |tails| && tails[i] == combo[1..];
        assert p[i] == combo;
      }
      if combo in p {
        var i :| 0 <= i < |p| && p[i] == combo;
        assert combo[1..] == tails[i];
      }
    }
  }

  /** The product lists exactly the ways of picking one option per position. */
  lemma {:induction false} ProductMembers<T>(options: seq<seq<T>>, combo: seq<T>)
    ensures combo in Product(options) <==> Picks(options, combo)
  {
    if options != [] {
      CrossMembers(options[0], Product(options[1..]), combo);
      if combo != [] {
        ProductMembers(options[1..], combo[1..]);
        if Picks(options[1..], combo[1..]) && combo[0] in options[0] {
          forall i | 0 <= i < |combo|
            ensures combo[i] in options[i]
          {
            if i > 0 {
              assert combo[1..][i - 1] in options[1..][i - 1];
            }
          }
        }
        if Picks(options, combo) {
          forall i | 0 <= i < |combo[1..]|
            ensures combo[1..][i] in options[1..][i]
          {
            assert combo[i + 1] in options[i + 1];
          }
        }
      }
    }
  }

  /** The credits a combination actually uses. */
  function Chosen(combo: seq<Option<string>>): seq<string> {
    if combo == [] then []
    else if combo[0].Some? then [combo[0].value] + Chosen(combo[1..])
    else Chosen(combo[1..])
  }

  lemma {:induction false} ChosenMembers(combo: seq<Option<string>>, t: string)
    ensures t in Chosen(combo) <==> Some(t) in combo
  {
    if combo != [] {
      ChosenMembers(combo[1..], t);
      assert combo == [combo[0]] + combo[1..];
    }
  }

  ghost predicate NoRepeat(combo: seq<Option<string>>) {
    forall i, j :: 0 <= i < j < |combo| && combo[i].Some? ==> combo[i] != combo[j]
  }

  lemma NoDupCons<T>(x: T, s: seq<T>)
    ensures NoDup([x] + s) <==> x !in s && NoDup(s)
  {
    var t := [x] + s;
    if NoDup(t) {
      forall i | 0 <= i < |s|
        ensures s[i] != x
      {
        assert t[0] != t[i + 1];
      }
      forall i, j | 0 <= i < j < |s|
        ensures s[i] != s[j]
      {
        assert t[i + 1] != t[j + 1];
      }
    }
  }

  lemma {:induction false} ChosenNoDup(combo: seq<Option<string>>)
    ensures NoDup(Chosen(combo)) <==> NoRepeat(combo)
  {
    if combo != [] {
      var rest := combo[1..];
      ChosenNoDup(rest);
      assert forall i :: 0 <= i < |rest| ==> rest[i] == combo[i + 1];
      if NoRepeat(combo) {
        assert NoRepeat(rest) by {
          forall i, j | 0 <= i < j < |rest| && rest[i].Some?
            ensures rest[i] != rest[j]
          {
            assert combo[i + 1] != combo[j + 1];
          }
        }
      }
      if combo[0].Some? {
        NoDupCons(combo[0].value, Chosen(rest));
        ChosenMembers(rest, combo[0].value);
        if NoRepeat(rest) && Some(combo[0].value) !in rest {
          forall i, j | 0 <= i < j < |combo| && combo[i].Some?
            ensures combo[i] != combo[j]
          {
            assert combo[j] == rest[j - 1];
            assert i > 0 ==> combo[i] == rest[i - 1];
          }
        }
      } else if NoRepeat(rest) {
        forall i, j | 0 <= i < j < |combo| && combo[i].Some?
          ensures combo[i] != combo[j]
        {
          assert combo[j] == rest[j - 1] && combo[i] == rest[i - 1];
        }
      }
    }
  }

  function Position<T(==)>(s: seq<T>, x: T): (i: nat)
    requires x in s
    ensures i < |s| && s[i] == x
  {
    if s[0] == x then 0 else 1 + Position(s[1..], x)
  }

  /** The decision table a combination stands for. */
  ghost function AsChoice(ids: seq<string>, combo: seq<Option<string>>): (m: Choice)
    requires NoDup(ids) && |combo| == |ids|
    ensures m.Keys == Elems(ids)
    ensures forall i :: 0 <= i < |ids| ==> m[ids[i]] == combo[i]
  {
    var m := map o | o in ids :: combo[Position(ids, o)];
    assert forall i :: 0 <= i < |ids| ==> ids[i] in ids && m[ids[i]] == combo[i];
    m
  }

  function ComboTotal(w: Weights, ids: seq<string>, combo: seq<Option<string>>): real
    requires |combo| == |ids|
  {
    if ids == [] then 0.0
    else
      (if combo[0].Some? && ids[0] in w && combo[0].value in w[ids[0]] then w[ids[0]][combo[0].value] else 0.0)
      + ComboTotal(w, ids[1..], combo[1..])
  }

  lemma NoDupTail<T>(s: seq<T>)
    requires NoDup(s) && s != []
    ensures NoDup(s[1..]) && s[0] !in s[1..]
  {
    assert s == [s[0]] + s[1..];
    NoDupCons(s[0], s[1..]);
  }

  lemma {:induction false} ComboTotalIsTotal(w: Weights, ids: seq<string>, combo: seq<Option<string>>)
    requires NoDup(ids) && |combo| == |ids|
    ensures ComboTotal(w, ids, combo) == Total(w, Elems(ids), AsChoice(ids, combo))
  {
    if ids != [] {
      NoDupTail(ids);
      var m, m' := AsChoice(ids, combo), AsChoice(ids[1..], combo[1..]);
      ComboTotalIsTotal(w, ids[1..], combo[1..]);
      TailElems(ids);
      TailChoices(ids, combo);
      assert m[ids[0]] == combo[0];
      hide AsChoice, NoDup, Elems, Total;
      TotalRemove(w, Elems(ids), m, ids[0]);
      TotalAgree(w, Elems(ids[1..]), m, m');
    }
  }

  lemma TailElems(ids: seq<string>)
    requires NoDup(ids) && ids != []
    ensures ids[0] in Elems(ids) && Elems(ids) - {ids[0]} == Elems(ids[1..])
  {
    assert ids == [ids[0]] + ids[1..];
    assert forall i :: 0 <= i < |ids[1..]| ==> ids[1..][i] == ids[i + 1] != ids[0];
  }

  /** Dropping the first order leaves the other decisions alone. */
  lemma TailChoices(ids: seq<string>, combo: seq<Option<string>>)
    requires NoDup(ids) && |combo| == |ids| && ids != []
    ensures NoDup(ids[1..])
    ensures forall o :: o in Elems(ids[1..]) ==>
              && o in AsChoice(ids, combo) && o in AsChoice(ids[1..], combo[1..])
              && AsChoice(ids, combo)[o] == AsChoice(ids[1..], combo[1..])[o]
  {
    NoDupTail(ids);
    var m, m' := AsChoice(ids, combo), AsChoice(ids[1..], combo[1..]);
    forall o | o in Elems(ids[1..])
      ensures o in m && o in m' && m[o] == m'[o]
    {
      var i := Position(ids[1..], o);
      assert m'[ids[1..][i]] == combo[1..][i];
      assert m[ids[i + 1]] == combo[i + 1];
    }
  }

  /** For each order: take nothing, or any of its candidate credits. */
  ghost predicate OffersExactly(w: Weights, ids: seq<string>, options: seq<seq<Option<string>>>) {
    && |options| == |ids|
    && forall i :: 0 <= i < |ids| ==>
         ids[i] in w && forall d :: d in options[i] <==> d.None? || d.value in w[ids[i]]
  }

  lemma ChoiceAt(ids: seq<string>, combo: seq<Option<string>>, o: string) returns (i: nat)
    requires NoDup(ids) && |combo| == |ids| && o in ids
    ensures i < |ids| && ids[i] == o && AsChoice(ids, combo)[o] == combo[i]
  {
    i := Position(ids, o);
    assert AsChoice(ids, combo)[ids[i]] == combo[i];
  }

  lemma ComboIsFeasible(w: Weights, ids: seq<string>, options: seq<seq<Option<string>>>, combo: seq<Option<string>>)
    requires NoDup(ids) && OffersExactly(w, ids, options) && Picks(options, combo) && NoRepeat(combo)
    ensures Feasible(w, Elems(ids), AsChoice(ids, combo))
  {
    var m := AsChoice(ids, combo);
    forall o | o in Elems(ids) && m[o].Some?
      ensures o in w && m[o].value in w[o]
    {
      var i := ChoiceAt(ids, combo, o);
      assert combo[i] in options[i];
    }
    forall a, b | a in Elems(ids) && b in Elems(ids) && a != b && m[a].Some?
      ensures m[a] != m[b]
    {
      var i := ChoiceAt(ids, combo, a);
      var j := ChoiceAt(ids, combo, b);
    }
  }

  lemma FeasibleIsCombo(w: Weights, ids: seq<string>, options: seq<seq<Option<string>>>, combo: seq<Option<string>>)
    requires NoDup(ids) && OffersExactly(w, ids, options) && |combo| == |ids|
    requires Feasible(w, Elems(ids), AsChoice(ids, combo))
    ensures Picks(options, combo) && NoRepeat(combo)
  {
    var m := AsChoice(ids, combo);
    assert forall i :: 0 <= i < |ids| ==> ids[i] in Elems(ids) && m[ids[i]] == combo[i];
    forall i | 0 <= i < |combo|
      ensures combo[i] in options[i]
    {
      assert m[ids[i]] == combo[i];
    }
    forall i, j | 0 <= i < j < |combo| && combo[i].Some?
      ensures combo[i] != combo[j]
    {
      assert ids[i] != ids[j] && m[ids[i]] == combo[i] && m[ids[j]] == combo[j];
    }
  }

  /** A combination passes the duplicate test exactly when it is a feasible decision table. */
  lemma FeasibleCombo(w: Weights, ids: seq<string>, options: seq<seq<Option<string>>>, combo: seq<Option<string>>)
    requires NoDup(ids) && OffersExactly(w, ids, options) && |combo| == |ids|
    ensures combo in Product(options) && NoDup(Chosen(combo))
       <==> Feasible(w, Elems(ids), AsChoice(ids, combo))
  {
    ProductMembers(options, combo);
    ChosenNoDup(combo);
    if Picks(options, combo) && NoRepeat(combo) {
      ComboIsFeasible(w, ids, options, combo);
    }
    if Feasible(w, Elems(ids), AsChoice(ids, combo)) {
      FeasibleIsCombo(w, ids, options, combo);
    }
  }

  /** Every feasible decision table is enumerated. */
  lemma EveryChoiceListed(w: Weights, ids: seq<string>, options: seq<seq<Option<string>>>, m: Choice)
    returns (combo: seq<Option<string>>)
    requires NoDup(ids) && OffersExactly(w, ids, options) && Feasible(w, Elems(ids), m)
    ensures combo in Product(options) && NoDup(Chosen(combo)) && |combo| == |ids|
    ensures AsChoice(ids, combo) == m
  {
    combo := seq(|ids|, i requires 0 <= i < |ids| => assert ids[i] in Elems(ids); m[ids[i]]);
    var n := AsChoice(ids, combo);
    forall o | o in m
      ensures o in n && n[o] == m[o]
    {
      var i := ChoiceAt(ids, combo, o);
    }
    assert n == m;
    FeasibleCombo(w, ids, options, combo);
  }

  function Wrap(s: seq<string>): seq<Option<string>> {
    seq(|s|, i requires 0 <= i < |s| => Some(s[i]))
  }

  lemma WrapMembers(s: seq<string>, d: Option<string>)
    ensures d in Wrap(s) <==> d.Some? && d.value in s
  {
    if d.Some? && d.value in s {
      var i :| 0 <= i < |s| && s[i] == d.value;
      assert Wrap(s)[i] == d;
    }
  }

  /** `[None] + [t for t, _, _ in edges[o]]` for every order of the component. */
  function AllOptions(ids: seq<string>, cands: map<string, seq<Candidate>>): seq<seq<Option<string>>>
    requires forall i :: 0 <= i < |ids| ==> ids[i] in cands
  {
    seq(|ids|, i requires 0 <= i < |ids| => [None] + Wrap(TxnsOf(cands[ids[i]])))
  }

  lemma OptionsOffer(w: Weights, ids: seq<string>, cands: map<string, seq<Candidate>>)
    requires forall i :: 0 <= i < |ids| ==>
               ids[i] in cands && ids[i] in w && w[ids[i]] == ScoreTable(cands[ids[i]])
    ensures OffersExactly(w, ids, AllOptions(ids, cands))
  {
    var options := AllOptions(ids, cands);
    forall i, d: Option<string> | 0 <= i < |ids|
      ensures d in options[i] <==> d.None? || d.value in w[ids[i]]
    {
      WrapMembers(TxnsOf(cands[ids[i]]), d);
      ScoreTableKeys(cands[ids[i]]);
    }
  }
}

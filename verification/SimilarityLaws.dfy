/** Jaro and Jaro-Winkler scores computed in closed form for whole families of strings. */
module SimilarityLaws {
  import opened Prelude
  import opened Similarity

  // ------------------------------------------------------------ finding a partner

  /** The search finds the first free occurrence inside its range. */
  lemma {:induction false} FirstFreeExactly(s2: string, c: char, used: seq<bool>, from: nat, to: nat)
    requires to <= |s2| == |used|
    ensures var r := FirstFree(s2, c, used, from, to);
            && (r.None? ==> forall j :: from <= j < to && !used[j] ==> s2[j] != c)
            && (r.Some? ==> forall j :: from <= j < r.value && !used[j] ==> s2[j] != c)
    decreases if from <= to then to - from else 0
  {
    if from < to {
      FirstFreeExactly(s2, c, used, from + 1, to);
    }
  }

  /** Near enough to match: at most half the longer length, less one, apart; the same position always is. */
  ghost predicate Near(i: int, j: int, len1: nat, len2: nat) {
    i == j || 2 * (Abs(i - j) + 1) <= Max(len1, len2)
  }

  lemma RangeIsNear(i: nat, j: nat, len1: nat, len2: nat)
    requires i < len1 && j < len2
    ensures Low(i, MatchWindow(len1, len2)) <= j < High(i, MatchWindow(len1, len2), len2) <==> Near(i, j, len1, len2)
  {
  }

  /** The first free equal character that is near, or none if no free equal character is near. */
  lemma PartnerExactly(s1: string, s2: string, i: nat)
    requires i < |s1|
    ensures var r, used := Partner(s1, s2, i), Greedy(s1, s2, i).two;
            && (r.None? ==> forall j :: 0 <= j < |s2| && !used[j] && Near(i, j, |s1|, |s2|) ==> s2[j] != s1[i])
            && (r.Some? ==> r.value < |s2| && Near(i, r.value, |s1|, |s2|) && s2[r.value] == s1[i]
                            && forall j :: 0 <= j < r.value && !used[j] && Near(i, j, |s1|, |s2|) ==> s2[j] != s1[i])
  {
    hide Greedy, Near, MatchWindow;
    var window, used := MatchWindow(|s1|, |s2|), Greedy(s1, s2, i).two;
    FirstFreeExactly(s2, s1[i], used, Low(i, window), High(i, window, |s2|));
    forall j | 0 <= j < |s2|
      ensures Low(i, window) <= j < High(i, window, |s2|) <==> Near(i, j, |s1|, |s2|)
    {
      RangeIsNear(i, j, |s1|, |s2|);
    }
  }

  // ------------------------------------------------------------ one common character

  /** The two strings share one character, once on each side. */
  ghost predicate OneInCommon(s1: string, s2: string, i: nat, j: nat) {
    && i < |s1| && j < |s2| && s1[i] == s2[j]
    && forall x, y :: 0 <= x < |s1| && 0 <= y < |s2| && s1[x] == s2[y] ==> x == i && y == j
  }

  lemma CommonPlaces(s1: string, s2: string, i: nat, j: nat)
    requires OneInCommon(s1, s2, i, j)
    ensures i < |s1| && j < |s2|
  {
  }

  lemma PartnerOnOne(s1: string, s2: string, i: nat, j: nat, k: nat)
    requires OneInCommon(s1, s2, i, j) && k < |s1| && (k == i ==> !Greedy(s1, s2, k).two[j])
    ensures Partner(s1, s2, k) == if k == i && Near(i, j, |s1|, |s2|) then Some(j) else None
  {
    hide Near, Partner, Greedy;
    PartnerExactly(s1, s2, k);
  }

  lemma {:induction false} GreedyOnOne(s1: string, s2: string, i: nat, j: nat, n: nat)
    requires OneInCommon(s1, s2, i, j) && n <= |s1|
    ensures var f, hit := Greedy(s1, s2, n), n > i && Near(i, j, |s1|, |s2|);
            && (forall x :: 0 <= x < n ==> (f.one[x] <==> hit && x == i))
            && (forall y :: 0 <= y < |s2| ==> (f.two[y] <==> hit && y == j))
  {
    hide Near, Partner, Greedy, OneInCommon;
    GreedyStart(s1, s2);
    CommonPlaces(s1, s2, i, j);
    if n > 0 {
      GreedyOnOne(s1, s2, i, j, n - 1);
      GreedyStep(s1, s2, n - 1);
      PartnerOnOne(s1, s2, i, j, n - 1);
    }
  }

  lemma {:induction false} CountOne(flags: seq<bool>, i: nat)
    requires i < |flags| && forall x :: 0 <= x < |flags| ==> (flags[x] <==> x == i)
    ensures Count(flags) == 1
  {
    var n := |flags| - 1;
    if i == n {
      NoneSet(flags[..n]);
    } else {
      CountOne(flags[..n], i);
    }
  }

  lemma {:induction false} NoneSet(flags: seq<bool>)
    requires forall x :: 0 <= x < |flags| ==> !flags[x]
    ensures Count(flags) == 0
  {
    if flags != [] {
      NoneSet(flags[..|flags| - 1]);
    }
  }

  /** One common character: a third of its shares and one when the two places are near, nothing otherwise. */
  lemma OneCommonScore(s1: string, s2: string, i: nat, j: nat)
    requires OneInCommon(s1, s2, i, j) && s1 != s2
    ensures JaroScore(s1, s2)
         == if Near(i, j, |s1|, |s2|) then (1.0 / |s1| as real + 1.0 / |s2| as real + 1.0) / 3.0 else 0.0
  {
    hide Near, Greedy;
    GreedyOnOne(s1, s2, i, j, |s1|);
    var f := Greedy(s1, s2, |s1|);
    JaroParts(s1, s2);
    if Near(i, j, |s1|, |s2|) {
      CountOne(f.one, i);
    } else {
      NoneSet(f.one);
    }
  }

  // ------------------------------------------------------------ a rearrangement of distinct characters

  /** The same distinct characters, each near its place in the other string. */
  ghost predicate Rearranged(s1: string, s2: string) {
    && |s1| == |s2| && NoDup(s1) && NoDup(s2)
    && forall i :: 0 <= i < |s1| ==> exists j :: 0 <= j < |s2| && s2[j] == s1[i] && Near(i, j, |s1|, |s2|)
  }

  ghost predicate Seen(s: string, n: nat, c: char)
    requires n <= |s|
  {
    exists x :: 0 <= x < n && s[x] == c
  }

  lemma SeenGrows(s: string, n: nat, c: char)
    requires n < |s|
    ensures Seen(s, n + 1, c) <==> Seen(s, n, c) || c == s[n]
  {
  }

  lemma PartnerOnAll(s1: string, s2: string, k: nat)
    requires Rearranged(s1, s2) && k < |s1|
    requires forall y :: 0 <= y < |s2| ==> (Greedy(s1, s2, k).two[y] <==> Seen(s1, k, s2[y]))
    ensures Partner(s1, s2, k).Some? && s2[Partner(s1, s2, k).value] == s1[k]
    ensures forall y :: 0 <= y < |s2| && y != Partner(s1, s2, k).value ==> s2[y] != s1[k]
  {
    hide Near, Partner, Greedy;
    PartnerExactly(s1, s2, k);
    var j :| 0 <= j < |s2| && s2[j] == s1[k] && Near(k, j, |s1|, |s2|);
    assert !Seen(s1, k, s2[j]);
  }

  lemma {:induction false} GreedyTakesAll(s1: string, s2: string, n: nat)
    requires Rearranged(s1, s2) && n <= |s1|
    ensures var f := Greedy(s1, s2, n);
            && (forall x :: 0 <= x < n ==> f.one[x])
            && (forall y :: 0 <= y < |s2| ==> (f.two[y] <==> Seen(s1, n, s2[y])))
  {
    hide Partner, Greedy, Rearranged, Near;
    GreedyStart(s1, s2);
    if n > 0 {
      hide Seen;
      GreedyTakesAll(s1, s2, n - 1);
      GreedyStep(s1, s2, n - 1);
      PartnerOnAll(s1, s2, n - 1);
      forall y | 0 <= y < |s2|
        ensures Seen(s1, n, s2[y]) <==> Seen(s1, n - 1, s2[y]) || s2[y] == s1[n - 1]
      {
        SeenGrows(s1, n - 1, s2[y]);
      }
    }
  }

  lemma {:induction false} AllSet(flags: seq<bool>)
    requires forall x :: 0 <= x < |flags| ==> flags[x]
    ensures Count(flags) == |flags|
  {
    if flags != [] {
      AllSet(flags[..|flags| - 1]);
    }
  }

  function Misplaced(a: string, b: string): set<int>
    requires |a| == |b|
  {
    set i | 0 <= i < |a| && a[i] != b[i]
  }

  lemma {:induction false} MismatchesAreMisplaced(a: string, b: string)
    requires |a| == |b|
    ensures Mismatches(a, b) == |Misplaced(a, b)|
  {
    if a != [] {
      var n := |a| - 1;
      MismatchesAreMisplaced(a[..n], b[..n]);
      assert Misplaced(a, b) == Misplaced(a[..n], b[..n]) + if a[n] != b[n] then {n} else {};
    }
  }

  /** A rearrangement within reach loses a third of half its misplaced characters, rounded down, per character. */
  lemma RearrangedScore(s1: string, s2: string)
    requires Rearranged(s1, s2) && s1 != []
    ensures JaroScore(s1, s2) == (2.0 + (|s1| - |Misplaced(s1, s2)| / 2) as real / |s1| as real) / 3.0
  {
    hide Near, Greedy, Count, Matched, Mismatches, Rearranged;
    assert |s1| == |s2| by { LengthsAgree(s1, s2); }
    MismatchesAreMisplaced(s1, s2);
    if s1 == s2 {
      assert Misplaced(s1, s2) == {};
      WholeShare(|s1|);
    } else {
      GreedyTakesAll(s1, s2, |s1|);
      JaroParts(s1, s2);
      var f := Greedy(s1, s2, |s1|);
      AllSet(f.one);
      CountBounded(f.two);
      MatchedAll(s1, f.one);
      MatchedAll(s2, f.two);
      WholeShare(|s1|);
    }
  }

  lemma LengthsAgree(s1: string, s2: string)
    requires Rearranged(s1, s2)
    ensures |s1| == |s2|
  {
  }

  lemma WholeShare(n: nat)
    requires n > 0
    ensures n as real / n as real == 1.0
  {
  }

  // ------------------------------------------------------------ the prefix boost

  /** The length of the common beginning, counted up to four characters. */
  ghost predicate IsPrefix(a: string, b: string, limit: nat, n: nat) {
    && n <= limit && n <= |a| && n <= |b| && a[..n] == b[..n]
    && (n == limit || n == |a| || n == |b| || a[n] != b[n])
  }

  lemma {:induction false} PrefixExactly(a: string, b: string, limit: nat)
    ensures IsPrefix(a, b, limit, CommonPrefix(a, b, limit))
  {
    if limit > 0 && a != [] && b != [] && a[0] == b[0] {
      PrefixExactly(a[1..], b[1..], limit - 1);
      var n := CommonPrefix(a[1..], b[1..], limit - 1);
      assert a[..n + 1] == [a[0]] + a[1..][..n] && b[..n + 1] == [b[0]] + b[1..][..n];
    }
  }

  /** Above seven tenths every common leading character, up to four, closes a tenth of the distance to one. */
  lemma BoostExactly(s1: string, s2: string, n: nat)
    requires IsPrefix(s1, s2, 4, n)
    ensures JaroScore(s1, s2) <= 0.7 ==> JaroWinklerScore(s1, s2) == JaroScore(s1, s2)
    ensures JaroScore(s1, s2) > 0.7 ==>
              1.0 - JaroWinklerScore(s1, s2) == (1.0 - JaroScore(s1, s2)) * (10 - n) as real / 10.0
  {
    hide JaroScore;
    PrefixExactly(s1, s2, 4);
    OnePrefix(s1, s2, n, CommonPrefix(s1, s2, 4));
    var d := 1.0 - JaroScore(s1, s2);
    assert d * (10 - n) as real / 10.0 == d - n as real * 0.1 * d;
  }

  lemma OnePrefix(a: string, b: string, m: nat, n: nat)
    requires IsPrefix(a, b, 4, m) && IsPrefix(a, b, 4, n)
    ensures m == n
  {
    assert forall k :: 0 <= k < m ==> a[k] == a[..m][k] && b[k] == b[..m][k];
    assert forall k :: 0 <= k < n ==> a[k] == a[..n][k] && b[k] == b[..n][k];
  }
}

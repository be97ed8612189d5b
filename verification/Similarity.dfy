/** Jaro and Jaro-Winkler string comparison, with exact real arithmetic for the final score. */
module Similarity {
  import opened Prelude

  function MatchWindow(len1: nat, len2: nat): nat {
    Max(Max(len1, len2) / 2 - 1, 0)
  }

  function Low(i: nat, window: nat): nat {
    Max(0, i - window)
  }

  function High(i: nat, window: nat, len2: nat): nat {
    Min(len2, i + window + 1)
  }

  datatype Flags = Flags(one: seq<bool>, two: seq<bool>)

  /** The first unmatched position of s2 in [from, to) that holds the character c. */
  function FirstFree(s2: string, c: char, used: seq<bool>, from: nat, to: nat): (r: Option<nat>)
    requires to <= |s2| == |used|
    ensures r.Some? ==> from <= r.value < to && !used[r.value] && s2[r.value] == c
    decreases if from <= to then to - from else 0
  {
    if from >= to then None
    else if !used[from] && s2[from] == c then Some(from)
    else FirstFree(s2, c, used, from + 1, to)
  }

  /** Greedy matching of the first i characters of s1. */
  function Greedy(s1: string, s2: string, i: nat): (f: Flags)
    requires i <= |s1|
    ensures |f.one| == i && |f.two| == |s2|
  {
    if i == 0 then Flags([], seq(|s2|, _ => false))
    else
      var before := Greedy(s1, s2, i - 1);
      var window := MatchWindow(|s1|, |s2|);
      match FirstFree(s2, s1[i - 1], before.two, Low(i - 1, window), High(i - 1, window, |s2|))
      case None => Flags(before.one + [false], before.two)
      case Some(j) => Flags(before.one + [true], before.two[j := true])
  }

  function Count(flags: seq<bool>): nat {
    if flags == [] then 0
    else Count(flags[..|flags| - 1]) + (if flags[|flags| - 1] then 1 else 0)
  }

  /** The flagged characters in order. */
  function Matched(s: string, flags: seq<bool>): (m: string)
    requires |s| == |flags|
    ensures |m| == Count(flags)
  {
    if s == [] then []
    else
      var n := |s| - 1;
      Matched(s[..n], flags[..n]) + (if flags[n] then [s[n]] else [])
  }

  function Mismatches(a: string, b: string): nat
    requires |a| == |b|
  {
    if a == [] then 0
    else Mismatches(a[..|a| - 1], b[..|b| - 1]) + (if a[|a| - 1] != b[|b| - 1] then 1 else 0)
  }

  // ------------------------------------------------------------ the two flag arrays agree

  function Last(s: string, flags: seq<bool>): string
    requires |s| == |flags| && flags != []
  {
    if flags[|flags| - 1] then [s[|s| - 1]] else []
  }

  lemma LastFlag(s: string, flags: seq<bool>)
    requires |s| == |flags| && flags != []
    ensures var n := |flags| - 1;
            && Count(flags) == Count(flags[..n]) + |Last(s, flags)|
            && Matched(s, flags) == Matched(s[..n], flags[..n]) + Last(s, flags)
  {
    var n := |flags| - 1;
    MatchedSnoc(s[..n], flags[..n], s[n], flags[n]);
    assert s == s[..n] + [s[n]] && flags == flags[..n] + [flags[n]];
  }

  lemma AddedBefore(a: string, b: string, last: string, c: char)
    requires multiset(a) == multiset(b) + multiset{c}
    ensures multiset(a + last) == multiset(b + last) + multiset{c}
  {
  }

  lemma {:induction false} SetFlag(s: string, flags: seq<bool>, j: nat)
    requires |s| == |flags| && j < |flags| && !flags[j]
    ensures Count(flags[j := true]) == Count(flags) + 1
    ensures multiset(Matched(s, flags[j := true])) == multiset(Matched(s, flags)) + multiset{s[j]}
  {
    hide Count, Matched;
    var n := |flags| - 1;
    var after := flags[j := true];
    LastFlag(s, flags);
    LastFlag(s, after);
    if j < n {
      SetFlag(s[..n], flags[..n], j);
      assert after[..n] == flags[..n][j := true];
      AddedBefore(Matched(s[..n], after[..n]), Matched(s[..n], flags[..n]), Last(s, flags), s[j]);
    } else {
      assert after[..n] == flags[..n];
      assert Matched(s, flags) == Matched(s[..n], flags[..n]);
    }
  }

  lemma {:induction false} NoFlags(s: string)
    ensures Count(seq(|s|, _ => false)) == 0
    ensures Matched(s, seq(|s|, _ => false)) == []
  {
    if s != [] {
      var n := |s| - 1;
      NoFlags(s[..n]);
      assert seq(|s|, _ => false)[..n] == seq(n, _ => false);
    }
  }

  lemma MatchedSnoc(s: string, flags: seq<bool>, c: char, f: bool)
    requires |s| == |flags|
    ensures Matched(s + [c], flags + [f]) == Matched(s, flags) + (if f then [c] else [])
    ensures Count(flags + [f]) == Count(flags) + (if f then 1 else 0)
  {
    assert (s + [c])[..|s|] == s && (flags + [f])[..|s|] == flags;
  }

  /** Where the i-th character of s1 is matched, given what is matched before it. */
  function Partner(s1: string, s2: string, i: nat): (r: Option<nat>)
    requires i < |s1|
    ensures r.Some? ==> r.value < |s2| && !Greedy(s1, s2, i).two[r.value] && s2[r.value] == s1[i]
  {
    var window := MatchWindow(|s1|, |s2|);
    FirstFree(s2, s1[i], Greedy(s1, s2, i).two, Low(i, window), High(i, window, |s2|))
  }

  lemma GreedyStep(s1: string, s2: string, i: nat)
    requires i < |s1|
    ensures var before, after := Greedy(s1, s2, i), Greedy(s1, s2, i + 1);
            match Partner(s1, s2, i)
            case None => after == Flags(before.one + [false], before.two)
            case Some(j) => after == Flags(before.one + [true], before.two[j := true])
  {
  }

  /** Equally many flags on both sides, standing on the same characters. */
  ghost predicate Balanced(s1: string, s2: string, i: nat)
    requires i <= |s1|
  {
    var f := Greedy(s1, s2, i);
    Count(f.one) == Count(f.two) && multiset(Matched(s1[..i], f.one)) == multiset(Matched(s2, f.two))
  }

  lemma BalancedStep(s1: string, s2: string, k: nat)
    requires k < |s1| && Balanced(s1, s2, k)
    ensures Balanced(s1, s2, k + 1)
  {
    hide Greedy, Matched, Count, Partner;
    GreedyStep(s1, s2, k);
    var before := Greedy(s1, s2, k);
    assert s1[..k + 1] == s1[..k] + [s1[k]];
    MatchedSnoc(s1[..k], before.one, s1[k], Partner(s1, s2, k).Some?);
    if Partner(s1, s2, k).Some? {
      SetFlag(s2, before.two, Partner(s1, s2, k).value);
    }
  }

  /** Every match sets one flag on each side and pairs equal characters. */
  lemma {:induction false} GreedyBalanced(s1: string, s2: string, i: nat)
    requires i <= |s1|
    ensures Balanced(s1, s2, i)
  {
    if i == 0 {
      NoFlags(s2);
      assert s1[..0] == [];
    } else {
      GreedyBalanced(s1, s2, i - 1);
      BalancedStep(s1, s2, i - 1);
    }
  }

  lemma {:induction false} CountBounded(flags: seq<bool>)
    ensures Count(flags) <= |flags|
    ensures Count(flags) == |flags| ==> forall i :: 0 <= i < |flags| ==> flags[i]
  {
    if flags != [] {
      CountBounded(flags[..|flags| - 1]);
    }
  }

  lemma {:induction false} CountSplit(flags: seq<bool>, j: nat)
    requires j <= |flags|
    ensures Count(flags) == Count(flags[..j]) + Count(flags[j..])
  {
    var n := |flags| - 1;
    if j == |flags| {
      assert flags[..j] == flags && flags[j..] == [];
    } else {
      CountSplit(flags[..n], j);
      assert flags[..n][..j] == flags[..j] && flags[..n][j..] == flags[j..][..n - j];
    }
  }

  lemma {:induction false} MismatchesBounded(a: string, b: string)
    requires |a| == |b|
    ensures Mismatches(a, b) <= |a|
    ensures Mismatches(a, b) == 0 ==> a == b
  {
    if a != [] {
      MismatchesBounded(a[..|a| - 1], b[..|b| - 1]);
      assert a == a[..|a| - 1] + [a[|a| - 1]] && b == b[..|b| - 1] + [b[|b| - 1]];
    }
  }

  // ------------------------------------------------------------ the score

  function Score(matches: nat, transpositions: nat, len1: nat, len2: nat): real
    requires matches > 0 && len1 > 0 && len2 > 0
  {
    (matches as real / len1 as real + matches as real / len2 as real
     + (matches - transpositions) as real / matches as real) / 3.0
  }

  function JaroScore(s1: string, s2: string): real {
    if s1 == s2 then 1.0
    else if s1 == [] || s2 == [] then 0.0
    else
      var f := Greedy(s1, s2, |s1|);
      GreedyBalanced(s1, s2, |s1|);
      assert s1[..|s1|] == s1;
      if Count(f.one) == 0 then 0.0
      else Score(Count(f.one), Mismatches(Matched(s1, f.one), Matched(s2, f.two)) / 2, |s1|, |s2|)
  }

  lemma MulLt(x: real, y: real, z: real)
    requires z > 0.0
    ensures x < y ==> x * z < y * z
  {
  }

  lemma ShareBounds(a: int, b: int)
    requires 0 <= a <= b && b > 0
    ensures 0.0 <= a as real / b as real <= 1.0
    ensures a as real / b as real == 1.0 <==> a == b
  {
    var q, d := a as real / b as real, b as real;
    assert q * d == a as real;
    MulLt(1.0, q, d);
    MulLt(q, 1.0, d);
    MulLt(q, 0.0, d);
  }

  lemma ScoreBounds(matches: nat, transpositions: nat, len1: nat, len2: nat)
    requires 0 < matches <= len1 && matches <= len2 && transpositions <= matches
    ensures 0.0 <= Score(matches, transpositions, len1, len2) <= 1.0
    ensures Score(matches, transpositions, len1, len2) == 1.0
       <==> matches == len1 && matches == len2 && transpositions == 0
  {
    ShareBounds(matches, len1);
    ShareBounds(matches, len2);
    ShareBounds(matches - transpositions, matches);
  }

  /** The facts the score rests on: matches fit both strings and transpositions fit the matches. */
  lemma JaroParts(s1: string, s2: string)
    requires s1 != [] && s2 != []
    ensures var f := Greedy(s1, s2, |s1|);
            && Count(f.one) == Count(f.two) <= |s1| && Count(f.two) <= |s2|
            && |Matched(s1, f.one)| == |Matched(s2, f.two)|
            && Mismatches(Matched(s1, f.one), Matched(s2, f.two)) / 2 <= Count(f.one)
  {
    var f := Greedy(s1, s2, |s1|);
    GreedyBalanced(s1, s2, |s1|);
    assert s1[..|s1|] == s1;
    CountBounded(f.one);
    CountBounded(f.two);
    MismatchesBounded(Matched(s1, f.one), Matched(s2, f.two));
  }

  lemma JaroBounds(s1: string, s2: string)
    ensures 0.0 <= JaroScore(s1, s2) <= 1.0
  {
    if s1 != s2 && s1 != [] && s2 != [] {
      JaroParts(s1, s2);
      var f := Greedy(s1, s2, |s1|);
      if Count(f.one) > 0 {
        ScoreBounds(Count(f.one), Mismatches(Matched(s1, f.one), Matched(s2, f.two)) / 2, |s1|, |s2|);
      }
    }
  }

  lemma {:induction false} MatchedAll(s: string, flags: seq<bool>)
    requires |s| == |flags| && forall i :: 0 <= i < |flags| ==> flags[i]
    ensures Matched(s, flags) == s
  {
    if s != [] {
      var n := |s| - 1;
      MatchedAll(s[..n], flags[..n]);
      assert s == s[..n] + [s[n]];
    }
  }

  lemma LastGone(a: string)
    requires a != []
    ensures multiset(a) == multiset(a[..|a| - 1]) + multiset{a[|a| - 1]}
  {
    assert a == a[..|a| - 1] + [a[|a| - 1]];
  }

  /** Rearrangements of each other never differ in exactly one place. */
  lemma {:induction false} NoSingleMismatch(a: string, b: string)
    requires |a| == |b| && multiset(a) == multiset(b)
    ensures Mismatches(a, b) != 1
  {
    if a != [] {
      var n := |a| - 1;
      LastGone(a);
      LastGone(b);
      if a[n] == b[n] {
        SameRest(multiset(a[..n]), multiset(b[..n]), a[n]);
        NoSingleMismatch(a[..n], b[..n]);
      } else {
        MismatchesBounded(a[..n], b[..n]);
        DifferentRest(multiset(a[..n]), multiset(b[..n]), a[n], b[n]);
      }
    }
  }

  lemma SameRest(a: multiset<char>, b: multiset<char>, x: char)
    requires a + multiset{x} == b + multiset{x}
    ensures a == b
  {
    assert a == a + multiset{x} - multiset{x};
    assert b == b + multiset{x} - multiset{x};
  }

  lemma DifferentRest(a: multiset<char>, b: multiset<char>, x: char, y: char)
    requires a + multiset{x} == b + multiset{y} && x != y
    ensures a != b
  {
    assert (a + multiset{x})[x] == a[x] + 1 && (b + multiset{y})[x] == b[x];
  }

  /** Only equal strings score one. */
  lemma JaroOneIffEqual(s1: string, s2: string)
    ensures JaroScore(s1, s2) == 1.0 <==> s1 == s2
  {
    if s1 != s2 && s1 != [] && s2 != [] {
      JaroParts(s1, s2);
      var f := Greedy(s1, s2, |s1|);
      var m1, m2 := Matched(s1, f.one), Matched(s2, f.two);
      if Count(f.one) > 0 {
        ScoreBounds(Count(f.one), Mismatches(m1, m2) / 2, |s1|, |s2|);
        if JaroScore(s1, s2) == 1.0 {
          CountBounded(f.one);
          CountBounded(f.two);
          MatchedAll(s1, f.one);
          MatchedAll(s2, f.two);
          GreedyBalanced(s1, s2, |s1|);
          assert s1[..|s1|] == s1;
          NoSingleMismatch(s1, s2);
          MismatchesBounded(s1, s2);
        }
      }
    }
  }

  // ------------------------------------------------------------ the matching loop

  method FindPartner(s1: string, s2: string, i: nat, flags2: array<bool>) returns (j: nat)
    requires i < |s1| && flags2.Length == |s2| && flags2[..] == Greedy(s1, s2, i).two
    ensures if j < High(i, MatchWindow(|s1|, |s2|), |s2|) then Partner(s1, s2, i) == Some(j) else Partner(s1, s2, i) == None
  {
    hide Greedy;
    var window := MatchWindow(|s1|, |s2|);
    var lo, hi := Low(i, window), High(i, window, |s2|);
    j := lo;
    while j < hi && (flags2[j] || s2[j] != s1[i])
      invariant lo <= j
      invariant Partner(s1, s2, i) == FirstFree(s2, s1[i], flags2[..], j, hi)
    {
      j := j + 1;
    }
  }

  method MatchLoop(s1: string, s2: string, flags1: array<bool>, flags2: array<bool>) returns (matches: nat)
    requires flags1.Length == |s1| && flags2.Length == |s2| && flags1 != flags2
    requires forall i :: 0 <= i < |s1| ==> !flags1[i]
    requires forall j :: 0 <= j < |s2| ==> !flags2[j]
    modifies flags1, flags2
    ensures flags1[..] == Greedy(s1, s2, |s1|).one && flags2[..] == Greedy(s1, s2, |s1|).two
    ensures matches == Count(flags1[..]) == Count(flags2[..])
  {
    hide Greedy, Partner, Matched;
    var window := MatchWindow(|s1|, |s2|);
    matches := 0;
    GreedyStart(s1, s2);
    assert flags2[..] == seq(|s2|, _ => false);
    for i := 0 to |s1|
      invariant flags1[..i] == Greedy(s1, s2, i).one
      invariant flags2[..] == Greedy(s1, s2, i).two
      invariant forall k :: i <= k < |s1| ==> !flags1[k]
      invariant matches == Count(flags1[..i])
    {
      var hi := High(i, window, |s2|);
      ghost var done, before := flags1[..i], flags2[..];
      var j := FindPartner(s1, s2, i, flags2);
      GreedyStep(s1, s2, i);
      MatchedSnoc(s1[..i], done, s1[i], j < hi);
      if j < hi {
        flags1[i], flags2[j] := true, true;
        matches := matches + 1;
        assert flags2[..] == before[j := true];
      }
      assert flags1[..i] == done;
      assert flags1[..i + 1] == done + [j < hi];
    }
    assert flags1[..|s1|] == flags1[..];
    GreedyBalanced(s1, s2, |s1|);
  }

  lemma GreedyStart(s1: string, s2: string)
    ensures Greedy(s1, s2, 0) == Flags([], seq(|s2|, _ => false))
  {
  }

  /** The walk so far: as many flags passed on one side as on the other, mismatching pairs counted. */
  ghost predicate Paired(s1: string, f1: seq<bool>, i: nat, s2: string, f2: seq<bool>, j: nat, t: nat)
    requires |s1| == |f1| && |s2| == |f2|
  {
    && i <= |s1| && j <= |s2|
    && Count(f2[..j]) == Count(f1[..i])
    && t == Mismatches(Matched(s1[..i], f1[..i]), Matched(s2[..j], f2[..j]))
  }

  lemma PassUnflagged(s: string, f: seq<bool>, i: nat)
    requires |s| == |f| && i < |f| && !f[i]
    ensures Matched(s[..i + 1], f[..i + 1]) == Matched(s[..i], f[..i]) && Count(f[..i + 1]) == Count(f[..i])
  {
    assert f[..i + 1] == f[..i] + [f[i]] && s[..i + 1] == s[..i] + [s[i]];
    MatchedSnoc(s[..i], f[..i], s[i], false);
  }

  lemma PassBoth(s1: string, f1: seq<bool>, i: nat, s2: string, f2: seq<bool>, j: nat, t: nat)
    requires |s1| == |f1| && |s2| == |f2| && Paired(s1, f1, i, s2, f2, j, t)
    requires i < |s1| && j < |s2| && f1[i] && f2[j]
    ensures Paired(s1, f1, i + 1, s2, f2, j + 1, if s1[i] != s2[j] then t + 1 else t)
  {
    assert f1[..i + 1] == f1[..i] + [f1[i]] && s1[..i + 1] == s1[..i] + [s1[i]];
    assert f2[..j + 1] == f2[..j] + [f2[j]] && s2[..j + 1] == s2[..j] + [s2[j]];
    MatchedSnoc(s1[..i], f1[..i], s1[i], true);
    MatchedSnoc(s2[..j], f2[..j], s2[j], true);
    MismatchSnoc(Matched(s1[..i], f1[..i]), Matched(s2[..j], f2[..j]), s1[i], s2[j]);
  }

  /** While the first array has an unpaired flag, the second has one at or after the walk's position. */
  lemma FlagRemains(s1: string, f1: seq<bool>, i: nat, s2: string, f2: seq<bool>, j: nat, t: nat)
    requires |s1| == |f1| && |s2| == |f2| && Paired(s1, f1, i, s2, f2, j, t)
    requires Count(f1) == Count(f2) && i < |s1| && f1[i]
    ensures j < |s2|
  {
    CountSplit(f1, i + 1);
    CountSplit(f2, j);
    assert f1[..i + 1] == f1[..i] + [f1[i]];
    MatchedSnoc(s1[..i], f1[..i], s1[i], true);
    assert Count(f2[j..]) > 0;
  }

  /** The walk over the second array never runs past its end, and visits every flag. */
  method CountTranspositions(s1: string, s2: string, flags1: array<bool>, flags2: array<bool>) returns (t: nat)
    requires flags1.Length == |s1| && flags2.Length == |s2|
    requires Count(flags1[..]) == Count(flags2[..])
    ensures |Matched(s1, flags1[..])| == |Matched(s2, flags2[..])|
    ensures t == Mismatches(Matched(s1, flags1[..]), Matched(s2, flags2[..]))
  {
    ghost var f1, f2 := flags1[..], flags2[..];
    t := 0;
    var j := 0;
    assert f1[..0] == [] && f2[..0] == [] && s1[..0] == [] && s2[..0] == [];
    assert Paired(s1, f1, 0, s2, f2, 0, 0);
    hide Paired;
    for i := 0 to |s1|
      invariant 0 <= j <= |s2|
      invariant Paired(s1, f1, i, s2, f2, j, t)
    {
      if flags1[i] {
        FlagRemains(s1, f1, i, s2, f2, j, t);
        while !flags2[j]
          invariant 0 <= j < |s2|
          invariant Paired(s1, f1, i, s2, f2, j, t)
          decreases |s2| - j
        {
          SkipRight(s1, f1, i, s2, f2, j, t);
          j := j + 1;
          FlagRemains(s1, f1, i, s2, f2, j, t);
        }
        PassBoth(s1, f1, i, s2, f2, j, t);
        if s1[i] != s2[j] {
          t := t + 1;
        }
        j := j + 1;
      } else {
        SkipLeft(s1, f1, i, s2, f2, j, t);
      }
    }
    AllPaired(s1, f1, s2, f2, j, t);
  }

  lemma SkipLeft(s1: string, f1: seq<bool>, i: nat, s2: string, f2: seq<bool>, j: nat, t: nat)
    requires |s1| == |f1| && |s2| == |f2| && Paired(s1, f1, i, s2, f2, j, t) && i < |s1| && !f1[i]
    ensures Paired(s1, f1, i + 1, s2, f2, j, t)
  {
    PassUnflagged(s1, f1, i);
  }

  lemma SkipRight(s1: string, f1: seq<bool>, i: nat, s2: string, f2: seq<bool>, j: nat, t: nat)
    requires |s1| == |f1| && |s2| == |f2| && Paired(s1, f1, i, s2, f2, j, t) && j < |s2| && !f2[j]
    ensures Paired(s1, f1, i, s2, f2, j + 1, t)
  {
    PassUnflagged(s2, f2, j);
  }

  lemma AllPaired(s1: string, f1: seq<bool>, s2: string, f2: seq<bool>, j: nat, t: nat)
    requires |s1| == |f1| && |s2| == |f2| && Paired(s1, f1, |s1|, s2, f2, j, t) && Count(f1) == Count(f2)
    ensures |Matched(s1, f1)| == |Matched(s2, f2)|
    ensures t == Mismatches(Matched(s1, f1), Matched(s2, f2))
  {
    assert f1[..|s1|] == f1 && s1[..|s1|] == s1;
    CountSplit(f2, j);
    RestUnflagged(s2, f2, j);
  }

  lemma MismatchSnoc(a: string, b: string, x: char, y: char)
    requires |a| == |b|
    ensures Mismatches(a + [x], b + [y]) == Mismatches(a, b) + (if x != y then 1 else 0)
  {
    assert (a + [x])[..|a|] == a && (b + [y])[..|b|] == b;
  }

  lemma LastUnflagged(flags: seq<bool>, j: nat)
    requires j < |flags| && Count(flags[j..]) == 0
    ensures var n := |flags| - 1; !flags[n] && Count(flags[..n][j..]) == 0
  {
    var n, rest := |flags| - 1, flags[j..];
    assert rest[..|rest| - 1] == flags[..n][j..];
    assert rest[|rest| - 1] == flags[n];
  }

  lemma {:induction false} RestUnflagged(s: string, flags: seq<bool>, j: nat)
    requires |s| == |flags| && j <= |flags| && Count(flags[j..]) == 0
    ensures Matched(s, flags) == Matched(s[..j], flags[..j])
  {
    if j < |flags| {
      var n := |flags| - 1;
      LastUnflagged(flags, j);
      RestUnflagged(s[..n], flags[..n], j);
      assert s[..n][..j] == s[..j] && flags[..n][..j] == flags[..j];
    } else {
      assert s[..j] == s && flags[..j] == flags;
    }
  }

  method Jaro(s1: string, s2: string) returns (r: real)
    ensures r == JaroScore(s1, s2)
    ensures 0.0 <= r <= 1.0
  {
    JaroBounds(s1, s2);
    if s1 == s2 {
      return 1.0;
    }
    if |s1| == 0 || |s2| == 0 {
      return 0.0;
    }
    var flags1 := new bool[|s1|](_ => false);
    var flags2 := new bool[|s2|](_ => false);
    var matches := MatchLoop(s1, s2, flags1, flags2);
    if matches == 0 {
      return 0.0;
    }
    var transpositions := CountTranspositions(s1, s2, flags1, flags2);
    JaroParts(s1, s2);
    return Score(matches, transpositions / 2, |s1|, |s2|);
  }

  // ------------------------------------------------------------ the prefix boost

  function CommonPrefix(a: string, b: string, limit: nat): (n: nat)
    ensures n <= limit && n <= |a| && n <= |b|
  {
    if limit == 0 || a == [] || b == [] || a[0] != b[0] then 0
    else 1 + CommonPrefix(a[1..], b[1..], limit - 1)
  }

  function JaroWinklerScore(s1: string, s2: string): real {
    var j := JaroScore(s1, s2);
    if j <= 0.7 then j else j + CommonPrefix(s1, s2, 4) as real * 0.1 * (1.0 - j)
  }

  /** The boost never lowers a score, never passes one, and keeps one for equal strings only. */
  lemma JaroWinklerBounds(s1: string, s2: string)
    ensures JaroScore(s1, s2) <= JaroWinklerScore(s1, s2) <= 1.0
    ensures 0.0 <= JaroWinklerScore(s1, s2)
    ensures JaroWinklerScore(s1, s2) == 1.0 <==> s1 == s2
  {
    hide JaroScore;
    JaroBounds(s1, s2);
    JaroOneIffEqual(s1, s2);
    var j, p := JaroScore(s1, s2), CommonPrefix(s1, s2, 4);
    BoostBounds(j, p);
  }

  lemma BoostBounds(j: real, p: nat)
    requires 0.0 <= j <= 1.0 && p <= 4
    ensures j <= j + p as real * 0.1 * (1.0 - j) <= j + 0.4 * (1.0 - j)
  {
    var x, y := p as real * 0.1, 1.0 - j;
    assert 0.0 <= x <= 0.4;
    MulBounds(x, y);
    assert p as real * 0.1 * (1.0 - j) == x * y;
  }

  lemma MulBounds(x: real, y: real)
    requires 0.0 <= x <= 0.4 && y >= 0.0
    ensures 0.0 <= x * y <= 0.4 * y
  {
    assert (0.4 - x) * y >= 0.0;
  }

  method JaroWinkler(s1: string, s2: string) returns (r: real)
    ensures r == JaroWinklerScore(s1, s2)
    ensures 0.0 <= r <= 1.0
  {
    hide JaroScore;
    JaroWinklerBounds(s1, s2);
    var j := Jaro(s1, s2);
    if j <= 0.7 {
      return j;
    }
    var prefix := 0;
    while prefix < 4 && prefix < |s1| && prefix < |s2| && s1[prefix] == s2[prefix]
      invariant prefix <= 4 && prefix <= |s1| && prefix <= |s2|
      invariant CommonPrefix(s1, s2, 4) == prefix + CommonPrefix(s1[prefix..], s2[prefix..], 4 - prefix)
    {
      assert s1[prefix..][1..] == s1[prefix + 1..] && s2[prefix..][1..] == s2[prefix + 1..];
      prefix := prefix + 1;
    }
    return j + prefix as real * 0.1 * (1.0 - j);
  }
}

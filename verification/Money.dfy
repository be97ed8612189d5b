/** Integer-paise arithmetic, the TDS-shaped shortfalls, and the Indian-grouped rupee printer. */
module Money {
  import opened Prelude

  /** Floor division: Dafny's Euclidean division by a positive constant is Python's `//`. */
  function PctBp(amount: int, basisPoints: int): int {
    amount * basisPoints / 10_000
  }

  const STATUTORY_TDS_RATES_BP: seq<int> := [100, 200, 1000]

  function FirstRate(gross: int, shortfall: int, rates: seq<int>): Option<int> {
    if rates == [] then None
    else if shortfall == PctBp(gross, rates[0]) then Some(rates[0])
    else FirstRate(gross, shortfall, rates[1..])
  }

  function TdsRateBp(gross: int, received: int): Option<int> {
    if received <= 0 || received >= gross then None
    else FirstRate(gross, gross - received, STATUTORY_TDS_RATES_BP)
  }

  lemma {:induction false} FirstRateFinds(gross: int, shortfall: int, rates: seq<int>)
    ensures FirstRate(gross, shortfall, rates).None? <==> forall bp :: bp in rates ==> shortfall != PctBp(gross, bp)
    ensures FirstRate(gross, shortfall, rates).Some? ==>
              FirstRate(gross, shortfall, rates).value in rates
              && shortfall == PctBp(gross, FirstRate(gross, shortfall, rates).value)
  {
    if rates != [] {
      FirstRateFinds(gross, shortfall, rates[1..]);
      assert rates == [rates[0]] + rates[1..];
    }
  }

  /** A receipt is TDS-shaped exactly when it is a positive part of the gross less one statutory share of it. */
  lemma TdsRateExact(gross: int, received: int)
    ensures TdsRateBp(gross, received).Some?
       <==> 0 < received < gross
            && exists bp :: bp in STATUTORY_TDS_RATES_BP && received == gross - PctBp(gross, bp)
    ensures TdsRateBp(gross, received).Some? ==>
              received == gross - PctBp(gross, TdsRateBp(gross, received).value)
  {
    FirstRateFinds(gross, gross - received, STATUTORY_TDS_RATES_BP);
  }

  /** A statutory share of a non-negative amount lies between nothing and a tenth of it. */
  lemma PctBpBounds(amount: int, bp: int)
    requires amount >= 0 && bp in STATUTORY_TDS_RATES_BP
    ensures 0 <= PctBp(amount, bp) <= amount / 10
  {
    assert bp == 100 || bp == 200 || bp == 1000;
    if bp == 100 {
      assert amount * 100 / 10_000 == amount / 100;
    } else if bp == 200 {
      assert amount * 200 / 10_000 == amount / 50;
    } else {
      assert amount * 1000 / 10_000 == amount / 10;
    }
  }

  // ------------------------------------------------------------ decimal text

  predicate IsDigit(c: char) {
    '0' <= c <= '9'
  }

  ghost predicate AllDigits(s: string) {
    forall i :: 0 <= i < |s| ==> IsDigit(s[i])
  }

  function DigitChar(d: nat): char
    requires d < 10
  {
    '0' + d as char
  }

  /** `str(n)` for a non-negative integer. */
  function Digits(n: nat): (s: string)
    ensures s != [] && AllDigits(s)
  {
    if n < 10 then [DigitChar(n)] else Digits(n / 10) + [DigitChar(n % 10)]
  }

  /** `f"{n:02d}"` for a remainder below one hundred. */
  function TwoDigits(n: nat): string
    requires n < 100
  {
    [DigitChar(n / 10), DigitChar(n % 10)]
  }

  /** `int(s)` for a string of decimal digits. */
  function DigitsValue(s: string): nat
    requires AllDigits(s)
  {
    if s == [] then 0
    else 10 * DigitsValue(s[..|s| - 1]) + (s[|s| - 1] as int - '0' as int)
  }

  lemma {:induction false} DigitsRoundTrip(n: nat)
    ensures DigitsValue(Digits(n)) == n
  {
    if n < 10 {
      assert Digits(n)[..0] == [];
    } else {
      DigitsRoundTrip(n / 10);
      var s := Digits(n);
      assert s[..|s| - 1] == Digits(n / 10);
    }
  }

  // ------------------------------------------------------------ grouping

  /** The head of the number cut into pairs from the right, its first group holding one or two digits. */
  function Pairs(head: string): (groups: seq<string>)
    decreases |head|
  {
    if |head| == 0 then []
    else if |head| <= 2 then [head]
    else Pairs(head[..|head| - 2]) + [head[|head| - 2..]]
  }

  /** `",".join(groups)` */
  function Join(groups: seq<string>): string {
    if groups == [] then []
    else if |groups| == 1 then groups[0]
    else groups[0] + "," + Join(groups[1..])
  }

  function Grouped(digits: string): string {
    if |digits| > 3
    then Join(Pairs(digits[..|digits| - 3]) + [digits[|digits| - 3..]])
    else digits
  }

  const RUPEE: char := '\U{20B9}'

  function RupeesText(p: int): string {
    var magnitude := if p < 0 then -p else p;
    (if p < 0 then "-" else "") + [RUPEE] + Grouped(Digits(magnitude / 100)) + "." + TwoDigits(magnitude % 100)
  }

  function Concat(groups: seq<string>): string {
    if groups == [] then [] else groups[0] + Concat(groups[1..])
  }

  lemma {:induction false} ConcatSnoc(groups: seq<string>, last: string)
    ensures Concat(groups + [last]) == Concat(groups) + last
  {
    if groups == [] {
      assert ([] + [last])[1..] == [];
    } else {
      ConcatSnoc(groups[1..], last);
      assert (groups + [last])[1..] == groups[1..] + [last];
    }
  }

  /** Cutting loses no digit; every group after the first has two, the first one or two. */
  lemma {:induction false} PairsShape(head: string)
    ensures Concat(Pairs(head)) == head
    ensures head != [] ==> Pairs(head) != [] && 1 <= |Pairs(head)[0]| <= 2
    ensures forall i :: 1 <= i < |Pairs(head)| ==> |Pairs(head)[i]| == 2
    decreases |head|
  {
    if |head| > 2 {
      var front, last := head[..|head| - 2], head[|head| - 2..];
      PairsShape(front);
      ConcatSnoc(Pairs(front), last);
      assert head == front + last;
    } else if head != [] {
      assert Concat([head]) == head + Concat([]);
    }
  }

  /** The printed groups of the rupee part: a last group of three digits, earlier groups of two. */
  lemma GroupingShape(digits: string)
    requires |digits| > 3
    ensures var groups := Pairs(digits[..|digits| - 3]) + [digits[|digits| - 3..]];
            && Grouped(digits) == Join(groups)
            && Concat(groups) == digits
            && |groups| >= 2
            && |groups[|groups| - 1]| == 3
            && 1 <= |groups[0]| <= 2
            && forall i :: 1 <= i < |groups| - 1 ==> |groups[i]| == 2
  {
    var head, tail := digits[..|digits| - 3], digits[|digits| - 3..];
    PairsShape(head);
    ConcatSnoc(Pairs(head), tail);
    assert digits == head + tail;
  }

  /** The printer's loop peels two digits at a time off the right end of the head. */
  method RupeesStr(p: int) returns (text: string)
    ensures text == RupeesText(p)
  {
    var sign := if p < 0 then "-" else "";
    var magnitude := if p < 0 then -p else p;
    var r, rem := magnitude / 100, magnitude % 100;
    var s := Digits(r);
    if |s| > 3 {
      var head, tail := s[..|s| - 3], s[|s| - 3..];
      var groups: seq<string> := [];
      ghost var whole := head;
      while |head| > 2
        invariant head != []
        invariant Pairs(head) + groups == Pairs(whole)
        decreases |head|
      {
        groups := [head[|head| - 2..]] + groups;
        head := head[..|head| - 2];
      }
      if head != [] {
        groups := [head] + groups;
      }
      s := Join(groups + [tail]);
    }
    text := sign + [RUPEE] + s + "." + TwoDigits(rem);
  }
}

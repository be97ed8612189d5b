/** Statement amounts: text to integer paise, and the round trip with the printer. */
module Parsers {
  import opened Prelude
  import opened Money

  predicate IsSpace(c: char) {
    c == ' ' || c == '\t' || c == '\n' || c == '\r' || c == '\U{0B}' || c == '\U{0C}'
  }

  function StripLeft(s: string): string {
    if s != [] && IsSpace(s[0]) then StripLeft(s[1..]) else s
  }

  function StripRight(s: string): string {
    if s != [] && IsSpace(s[|s| - 1]) then StripRight(s[..|s| - 1]) else s
  }

  function Strip(s: string): string {
    StripRight(StripLeft(s))
  }

  /** `s.replace(c, "")` */
  function Without(s: string, c: char): string {
    if s == [] then []
    else if s[0] == c then Without(s[1..], c)
    else [s[0]] + Without(s[1..], c)
  }

  /** The length of the leading run of digits. */
  function DigitRun(s: string): (n: nat)
    ensures n <= |s| && AllDigits(s[..n])
    ensures n < |s| ==> !IsDigit(s[n])
  {
    if s != [] && IsDigit(s[0]) then
      var n := DigitRun(s[1..]);
      assert s[1..][..n] == s[1..n + 1];
      1 + n
    else 0
  }

  /** `[0-9]+(\.[0-9]{1,2})?` over the whole text. */
  predicate IsAmount(s: string) {
    var n := DigitRun(s);
    && n > 0
    && (n == |s|
        || (s[n] == '.' && 1 <= |s| - n - 1 <= 2 && DigitRun(s[n + 1..]) == |s| - n - 1))
  }

  /** `frac.ljust(2, "0")` read as paise. */
  function FractionPaise(frac: string): nat
    requires AllDigits(frac) && |frac| <= 2
  {
    if |frac| == 0 then 0
    else if |frac| == 1 then 10 * DigitsValue(frac)
    else DigitsValue(frac)
  }

  datatype AmountError = Unparseable(raw: string)

  /** The raw text without surrounding space, thousands separators and the currency sign. */
  function Cleaned(raw: string): string {
    Without(Without(Strip(raw), ','), RUPEE)
  }

  function Magnitude(t: string): int
    requires IsAmount(t)
  {
    var n := DigitRun(t);
    var frac := if n == |t| then [] else t[n + 1..];
    assert frac[..|frac|] == frac;
    DigitsValue(t[..n]) * 100 + FractionPaise(frac)
  }

  function PaiseFromStr(raw: string): Result<int, AmountError> {
    var s := Cleaned(raw);
    if s == "" || s == "-" || s == "0" || s == "0.0" || s == "0.00" then Ok(0)
    else
      var neg := s[0] == '-';
      var t := if neg then s[1..] else s;
      if !IsAmount(t) then Err(Unparseable(raw))
      else Ok(if neg then -Magnitude(t) else Magnitude(t))
  }

  // ------------------------------------------------------------ the round trip

  lemma {:induction false} WithoutConcat(a: string, b: string, c: char)
    ensures Without(a + b, c) == Without(a, c) + Without(b, c)
  {
    if a == [] {
      assert a + b == b;
    } else {
      WithoutConcat(a[1..], b, c);
      assert (a + b)[1..] == a[1..] + b;
    }
  }

  lemma {:induction false} WithoutAbsent(s: string, c: char)
    requires c !in s
    ensures Without(s, c) == s
  {
    if s != [] {
      WithoutAbsent(s[1..], c);
    }
  }

  lemma {:induction false} JoinWithoutCommas(groups: seq<string>)
    requires forall i :: 0 <= i < |groups| ==> ',' !in groups[i]
    ensures Without(Join(groups), ',') == Concat(groups)
  {
    if |groups| == 1 {
      WithoutAbsent(groups[0], ',');
      assert Concat(groups[1..]) == [];
    } else if |groups| > 1 {
      JoinWithoutCommas(groups[1..]);
      WithoutConcat(groups[0] + ",", Join(groups[1..]), ',');
      WithoutConcat(groups[0], ",", ',');
      WithoutAbsent(groups[0], ',');
    }
  }

  lemma {:induction false} PairsAreDigits(head: string)
    requires AllDigits(head)
    ensures forall i :: 0 <= i < |Pairs(head)| ==> AllDigits(Pairs(head)[i])
    decreases |head|
  {
    if |head| > 2 {
      PairsAreDigits(head[..|head| - 2]);
    }
  }

  /** Removing the commas gives the plain digits back. */
  lemma UngroupedDigits(digits: string)
    requires AllDigits(digits)
    ensures Without(Grouped(digits), ',') == digits
  {
    if |digits| > 3 {
      var head, tail := digits[..|digits| - 3], digits[|digits| - 3..];
      var groups := Pairs(head) + [tail];
      PairsAreDigits(head);
      forall i | 0 <= i < |groups|
        ensures ',' !in groups[i]
      {
        assert AllDigits(groups[i]);
      }
      JoinWithoutCommas(groups);
      GroupingShape(digits);
    } else {
      assert ',' !in digits;
      WithoutAbsent(digits, ',');
    }
  }

  lemma {:induction false} DigitRunWhole(s: string, rest: string)
    requires AllDigits(s) && (rest == [] || !IsDigit(rest[0]))
    ensures DigitRun(s + rest) == |s|
  {
    if s == [] {
      assert s + rest == rest;
    } else {
      assert (s + rest)[1..] == s[1..] + rest;
      DigitRunWhole(s[1..], rest);
    }
  }

  lemma TwoDigitsValue(n: nat)
    requires n < 100
    ensures AllDigits(TwoDigits(n)) && DigitsValue(TwoDigits(n)) == n
  {
    var s := TwoDigits(n);
    assert s[..1] == [DigitChar(n / 10)] && s[..1][..0] == [];
    assert DigitsValue(s[..1]) == n / 10;
  }

  /** An amount written as digits, a point and two digits is read back. */
  lemma PlainAmount(r: nat, paise: nat)
    requires paise < 100
    ensures var t := Digits(r) + ("." + TwoDigits(paise));
            IsAmount(t) && DigitRun(t) == |Digits(r)| && t[..|Digits(r)|] == Digits(r)
            && t[|Digits(r)| + 1..] == TwoDigits(paise)
  {
    var t := Digits(r) + ("." + TwoDigits(paise));
    DigitRunWhole(Digits(r), "." + TwoDigits(paise));
    TwoDigitsValue(paise);
    DigitRunWhole(TwoDigits(paise), []);
    assert TwoDigits(paise) + [] == TwoDigits(paise);
    assert t[|Digits(r)| + 1..] == TwoDigits(paise);
  }

  lemma CommasGo(sign: string, digits: string, frac: string)
    requires ',' !in sign && AllDigits(digits) && AllDigits(frac)
    ensures Without(sign + ([RUPEE] + (Grouped(digits) + ("." + frac))), ',')
         == sign + ([RUPEE] + (digits + ("." + frac)))
  {
    var tail := "." + frac;
    assert forall c :: c in frac ==> IsDigit(c);
    UngroupedDigits(digits);
    WithoutConcat(sign, [RUPEE] + (Grouped(digits) + tail), ',');
    WithoutConcat([RUPEE], Grouped(digits) + tail, ',');
    WithoutConcat(Grouped(digits), tail, ',');
    WithoutAbsent(sign, ',');
    WithoutAbsent([RUPEE], ',');
    WithoutAbsent(tail, ',');
  }

  lemma RupeeGoes(sign: string, plain: string)
    requires RUPEE !in sign && RUPEE !in plain
    ensures Without(sign + ([RUPEE] + plain), RUPEE) == sign + plain
  {
    WithoutConcat(sign, [RUPEE] + plain, RUPEE);
    WithoutAbsent(sign, RUPEE);
    WithoutAbsent(plain, RUPEE);
    assert ([RUPEE] + plain)[1..] == plain;
  }

  lemma NothingToStrip(s: string)
    requires s != [] && !IsSpace(s[0]) && !IsSpace(s[|s| - 1])
    ensures Strip(s) == s
  {
  }

  /** After stripping, the commas and the currency sign, only sign, digits, point and paise remain. */
  lemma CleanedText(p: int)
    ensures var magnitude := if p < 0 then -p else p;
            Cleaned(RupeesText(p))
            == (if p < 0 then "-" else "") + (Digits(magnitude / 100) + ("." + TwoDigits(magnitude % 100)))
  {
    hide Digits, TwoDigits, Grouped, Without, Strip;
    var magnitude := if p < 0 then -p else p;
    var sign := if p < 0 then "-" else "";
    var digits, frac := Digits(magnitude / 100), TwoDigits(magnitude % 100);
    var text := sign + ([RUPEE] + (Grouped(digits) + ("." + frac)));
    assert RupeesText(p) == text;
    FractionIsDigits(magnitude % 100);
    assert text[|text| - 1] == frac[1] && IsDigit(frac[1]);
    NothingToStrip(text);
    CommasGo(sign, digits, frac);
    var plain := digits + ("." + frac);
    assert RUPEE !in plain by {
      assert forall c :: c in digits ==> IsDigit(c);
      assert forall c :: c in frac ==> IsDigit(c);
    }
    RupeeGoes(sign, plain);
  }

  lemma FractionIsDigits(n: nat)
    requires n < 100
    ensures |TwoDigits(n)| == 2 && AllDigits(TwoDigits(n))
  {
  }

  /** Only zero prints as a lone zero. */
  lemma ZeroText(r: nat, rem: nat)
    requires rem < 100 && Digits(r) + ("." + TwoDigits(rem)) == "0.00"
    ensures r == 0 && rem == 0
  {
    var t := Digits(r) + ("." + TwoDigits(rem));
    assert |t| == 4 && |Digits(r)| == 1;
    assert Digits(r) == t[..1] == "0";
    assert TwoDigits(rem) == t[2..] == "00";
    DigitsRoundTrip(r);
    TwoDigitsValue(rem);
    assert "0"[..0] == [];
    assert "00"[..1] == "0";
  }

  lemma PlainMagnitude(r: nat, rem: nat)
    requires rem < 100
    ensures var t := Digits(r) + ("." + TwoDigits(rem));
            IsAmount(t) && Magnitude(t) == r * 100 + rem && |t| >= 4 && IsDigit(t[0])
  {
    hide Digits, TwoDigits, DigitsValue, DigitRun;
    PlainAmount(r, rem);
    TwoDigitsValue(rem);
    DigitsRoundTrip(r);
    FractionIsDigits(rem);
  }

  lemma SignedRead(raw: string, t: string, neg: bool)
    requires IsAmount(t) && |t| >= 4 && IsDigit(t[0]) && (t == "0.00" ==> Magnitude(t) == 0)
    requires Cleaned(raw) == (if neg then "-" + t else t)
    ensures PaiseFromStr(raw) == Ok(if neg then -Magnitude(t) else Magnitude(t))
  {
    hide IsAmount, Magnitude, Cleaned;
    var s := Cleaned(raw);
    if neg {
      assert s[1..] == t && |s| >= 5 && s[0] == '-';
    } else {
      assert |s| >= 4 && s[0] != '-';
    }
  }

  /** Printing then parsing returns the same number of paise, for every integer. */
  lemma PrintParseRoundTrip(p: int)
    ensures PaiseFromStr(RupeesText(p)) == Ok(p)
  {
    hide Digits, TwoDigits, RupeesText, Cleaned, IsAmount, Magnitude, PaiseFromStr;
    var magnitude := if p < 0 then -p else p;
    var r, rem := magnitude / 100, magnitude % 100;
    var t := Digits(r) + ("." + TwoDigits(rem));
    CleanedText(p);
    PlainMagnitude(r, rem);
    if t == "0.00" {
      ZeroText(r, rem);
    }
    assert "" + t == t;
    SignedRead(RupeesText(p), t, p < 0);
  }

  // ------------------------------------------------------------ which texts are amounts

  /** An optional minus sign, digits, and at most two digits after a point. */
  ghost predicate Written(s: string, neg: bool, digits: string, frac: string) {
    && digits != "" && AllDigits(digits) && AllDigits(frac) && |frac| <= 2
    && s == (if neg then "-" else "") + (digits + Tail(frac))
  }

  function Tail(frac: string): string { if frac == "" then "" else "." + frac }

  lemma UnsignedShape(digits: string, frac: string)
    requires digits != "" && AllDigits(digits) && AllDigits(frac)
    ensures var t := digits + Tail(frac);
            && DigitRun(t) == |digits| && t[..|digits|] == digits && IsDigit(t[0])
            && (frac == "" ==> t == digits)
            && (frac != "" ==> |t| == |digits| + 1 + |frac| && t[|digits|] == '.' && t[|digits| + 1..] == frac
                               && DigitRun(frac) == |frac|)
  {
    hide DigitRun;
    var t := digits + Tail(frac);
    DigitRunWhole(digits, Tail(frac));
    DigitRunWhole(frac, "");
    assert frac + "" == frac;
    assert t[..|digits|] == digits;
    if frac != "" {
      assert t[|digits| + 1..] == frac;
    }
  }

  lemma UnsignedWritten(digits: string, frac: string)
    requires digits != "" && AllDigits(digits) && AllDigits(frac) && |frac| <= 2
    ensures var t := digits + Tail(frac);
            && IsAmount(t) && Magnitude(t) == 100 * DigitsValue(digits) + FractionPaise(frac)
            && IsDigit(t[0])
  {
    hide DigitRun, DigitsValue, Tail, FractionPaise;
    UnsignedShape(digits, frac);
  }

  lemma AmountIsWritten(t: string) returns (digits: string, frac: string)
    requires IsAmount(t)
    ensures Written(t, false, digits, frac)
  {
    var n := DigitRun(t);
    digits, frac := t[..n], if n == |t| then "" else t[n + 1..];
    if n < |t| {
      assert frac[..|frac|] == frac;
      assert t == digits + ("." + frac);
    } else {
      assert t == digits + "";
    }
    assert "" + t == t;
  }

  /** Zero in any of its short spellings is worth nothing. */
  lemma ZeroSpellings(digits: string, frac: string)
    requires digits != "" && AllDigits(digits) && AllDigits(frac) && |frac| <= 2
    requires var t := digits + Tail(frac); t == "0" || t == "0.0" || t == "0.00"
    ensures DigitsValue(digits) == 0 && FractionPaise(frac) == 0
  {
    var t := digits + Tail(frac);
    UnsignedShape(digits, frac);
    DigitRunWhole("0", t[1..]);
    assert t == "0" + t[1..];
    assert digits == t[..1] == "0";
    assert "0"[..0] == "";
    if frac != "" {
      assert frac == t[2..];
      assert frac[..|frac| - 1] == "" || frac[..|frac| - 1] == "0";
    }
  }

  /** Every written amount is read at its value, whatever else the cell holds around it. */
  lemma WrittenIsRead(raw: string, neg: bool, digits: string, frac: string)
    requires Written(Cleaned(raw), neg, digits, frac)
    ensures var paise := 100 * DigitsValue(digits) + (if |frac| == 1 then 10 * DigitsValue(frac) else DigitsValue(frac));
            PaiseFromStr(raw) == Ok(if neg then -paise else paise)
  {
    hide Cleaned, IsAmount, Magnitude, DigitsValue, DigitRun, Tail;
    UnsignedWritten(digits, frac);
    var s, t := Cleaned(raw), digits + Tail(frac);
    NoDigitsNoValue();
    assert FractionPaise(frac) == if |frac| == 1 then 10 * DigitsValue(frac) else DigitsValue(frac);
    if neg {
      assert s == "-" + t && s[0] == '-' && s[1..] == t;
    } else {
      assert s == t && s[0] != '-';
      if s == "0" || s == "0.0" || s == "0.00" {
        ZeroSpellings(digits, frac);
      }
    }
  }

  lemma NoDigitsNoValue()
    ensures DigitsValue("") == 0
  {
  }

  /** A cell is refused exactly when what remains after cleaning is neither empty, a lone minus, nor a written amount. */
  lemma ReadExactly(raw: string)
    ensures PaiseFromStr(raw).Ok?
       <==> Cleaned(raw) == "" || Cleaned(raw) == "-" || exists neg, digits, frac :: Written(Cleaned(raw), neg, digits, frac)
    ensures Cleaned(raw) == "" || Cleaned(raw) == "-" ==> PaiseFromStr(raw) == Ok(0)
  {
    hide Cleaned, IsAmount, Magnitude, Written;
    var s := Cleaned(raw);
    if neg, digits, frac :| Written(s, neg, digits, frac) {
      WrittenIsRead(raw, neg, digits, frac);
    }
    if PaiseFromStr(raw).Ok? && s != "" && s != "-" {
      if s == "0" || s == "0.0" || s == "0.00" {
        ZeroIsWritten(s);
      } else {
        var neg := s[0] == '-';
        var digits, frac := AmountIsWritten(if neg then s[1..] else s);
        Resigned(s, neg, digits, frac);
      }
    }
  }

  lemma ZeroIsWritten(s: string)
    requires s == "0" || s == "0.0" || s == "0.00"
    ensures Written(s, false, "0", s[if |s| > 2 then 2 else 1..])
  {
    var frac := s[if |s| > 2 then 2 else 1..];
    assert s == "0" + Tail(frac);
    assert "" + s == s;
  }

  lemma Resigned(s: string, neg: bool, digits: string, frac: string)
    requires s != "" && neg == (s[0] == '-') && Written(if neg then s[1..] else s, false, digits, frac)
    ensures Written(s, neg, digits, frac)
  {
    var t := digits + Tail(frac);
    assert "" + t == t;
    assert neg ==> s == "-" + s[1..];
  }
}

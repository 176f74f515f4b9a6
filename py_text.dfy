/** Python string operations the core uses: `str.split` with a one-character
    separator and its inverse `sep.join`, `int(s)` and `str(i)` in decimal,
    and the ordering `a < b` on str. */
module PyText {
  import opened Wrappers

  // ---------------------------------------------------------------------
  // str.split / str.join
  // ---------------------------------------------------------------------

  /** `s.count(c)` */
  function Count(s: string, c: char): nat
  {
    if |s| == 0 then 0 else (if s[0] == c then 1 else 0) + Count(s[1..], c)
  }

  /** `c.join(parts)` */
  function Join(parts: seq<string>, c: char): string
  {
    if |parts| == 0 then ""
    else if |parts| == 1 then parts[0]
    else parts[0] + [c] + Join(parts[1..], c)
  }

  /** `s.split(c)`: the maximal separator-free pieces of s, one more than
      there are separators, which joined back with c give s again. */
  function Split(s: string, c: char): (parts: seq<string>)
    ensures |parts| == Count(s, c) + 1
    ensures forall i :: 0 <= i < |parts| ==> c !in parts[i]
    ensures Join(parts, c) == s
    decreases |s|
  {
    if |s| == 0 then [""]
    else
      var rest := Split(s[1..], c);
      assert s == [s[0]] + s[1..];
      if s[0] == c then
        assert Join([""] + rest, c) == [c] + Join(rest, c) by {
          assert ([""] + rest)[1..] == rest;
        }
        [""] + rest
      else
        var parts := [[s[0]] + rest[0]] + rest[1..];
        assert parts[1..] == rest[1..];
        assert Join(parts, c) == [s[0]] + Join(rest, c);
        parts
  }

  /** A string without the separator splits into itself alone. */
  lemma {:induction false} SplitNoSeparator(s: string, c: char)
    requires c !in s
    ensures Split(s, c) == [s]
    decreases |s|
  {
    if |s| > 0 {
      assert s == [s[0]] + s[1..];
      SplitNoSeparator(s[1..], c);
    }
  }

  /** The first separator of `a + [c] + b` ends the first piece. */
  lemma {:induction false} SplitAtFirstSeparator(a: string, b: string, c: char)
    requires c !in a
    ensures Split(a + [c] + b, c) == [a] + Split(b, c)
    decreases |a|
  {
    if |a| == 0 {
      assert (a + [c] + b)[1..] == b;
    } else {
      assert (a + [c] + b)[1..] == a[1..] + [c] + b;
      assert a == [a[0]] + a[1..];
      SplitAtFirstSeparator(a[1..], b, c);
    }
  }

  /** Splitting undoes joining pieces that do not contain the separator. */
  lemma {:induction false} SplitOfJoin(parts: seq<string>, c: char)
    requires |parts| > 0
    requires forall i :: 0 <= i < |parts| ==> c !in parts[i]
    ensures Split(Join(parts, c), c) == parts
    decreases |parts|
  {
    if |parts| == 1 {
      SplitNoSeparator(parts[0], c);
    } else {
      SplitOfJoin(parts[1..], c);
      SplitAtFirstSeparator(parts[0], Join(parts[1..], c), c);
      assert parts == [parts[0]] + parts[1..];
    }
  }

  /** Exactly two pieces come out iff the separator occurs exactly once. */
  lemma SplitInTwoIff(s: string, c: char)
    ensures |Split(s, c)| == 2 <==> Count(s, c) == 1
  {
  }

  // ---------------------------------------------------------------------
  // Decimal integers: str(i) and int(s)
  // ---------------------------------------------------------------------

  predicate IsDigit(ch: char) { '0' <= ch <= '9' }

  predicate AllDigits(s: string) { forall i :: 0 <= i < |s| ==> IsDigit(s[i]) }

  function DigitValue(ch: char): nat
    requires IsDigit(ch)
  {
    ch as int - '0' as int
  }

  function DigitChar(d: nat): (ch: char)
    requires d < 10
    ensures IsDigit(ch) && DigitValue(ch) == d
  {
    ('0' as int + d) as char
  }

  /** The number a string of decimal digits denotes (the empty string 0). */
  function DigitsValue(s: string): nat
    requires AllDigits(s)
  {
    if |s| == 0 then 0 else DigitsValue(s[..|s| - 1]) * 10 + DigitValue(s[|s| - 1])
  }

  /** `str(n)` for n >= 0: non-empty, only digits, no leading zero. */
  function NatToString(n: nat): (s: string)
    ensures |s| > 0 && AllDigits(s)
    ensures |s| > 1 ==> s[0] != '0'
    decreases n
  {
    if n < 10 then [DigitChar(n)] else NatToString(n / 10) + [DigitChar(n % 10)]
  }

  lemma {:induction false} DigitsValueOfNatToString(n: nat)
    ensures DigitsValue(NatToString(n)) == n
    decreases n
  {
    if n >= 10 {
      DigitsValueOfNatToString(n / 10);
      var s := NatToString(n);
      assert s[..|s| - 1] == NatToString(n / 10);
    }
  }

  /** `str(i)` */
  function IntToString(i: int): string
  {
    if i < 0 then "-" + NatToString(-i) else NatToString(i)
  }

  /** The literals `int(s)` accepts here: an optional sign and at least one
      ASCII digit. */
  predicate IsIntLiteral(s: string)
  {
    if |s| > 0 && (s[0] == '-' || s[0] == '+') then |s| > 1 && AllDigits(s[1..])
    else |s| > 0 && AllDigits(s)
  }

  /** `int(s)`: None where Python raises ValueError. */
  function ParseInt(s: string): (r: Option<int>)
    ensures r.Some? <==> IsIntLiteral(s)
    ensures r.Some? && s[0] == '-' ==> r.value <= 0
    ensures r.Some? && s[0] != '-' ==> r.value >= 0
  {
    if |s| > 0 && (s[0] == '-' || s[0] == '+') then
      if |s| > 1 && AllDigits(s[1..]) then
        Some(if s[0] == '-' then 0 - DigitsValue(s[1..]) else DigitsValue(s[1..]))
      else None
    else if |s| > 0 && AllDigits(s) then Some(DigitsValue(s))
    else None
  }

  /** `int(str(i)) == i` */
  lemma ParseIntOfIntToString(i: int)
    ensures ParseInt(IntToString(i)) == Some(i)
  {
    if i < 0 {
      var s := IntToString(i);
      assert s[1..] == NatToString(-i);
      DigitsValueOfNatToString(-i);
    } else {
      DigitsValueOfNatToString(i);
    }
  }

  /** `str` is injective on integers. */
  lemma IntToStringInjective(i: int, j: int)
    requires IntToString(i) == IntToString(j)
    ensures i == j
  {
    ParseIntOfIntToString(i);
    ParseIntOfIntToString(j);
  }

  /** `str(i)` holds only digits and a leading minus sign, so no separator
      the core splits on ('.', '_', '=') ever occurs in it. */
  lemma IntToStringHasNo(i: int, c: char)
    requires c != '-' && !IsDigit(c)
    ensures c !in IntToString(i)
  {
    var s := IntToString(i);
    if i < 0 {
      assert forall k :: 1 <= k < |s| ==> s[k] == NatToString(-i)[k - 1];
    }
  }

  /** `[str(x) for x in xs]` */
  function IntStrings(xs: seq<int>): (ss: seq<string>)
    ensures |ss| == |xs| && forall i :: 0 <= i < |xs| ==> ss[i] == IntToString(xs[i])
  {
    seq(|xs|, i requires 0 <= i < |xs| => IntToString(xs[i]))
  }

  /** `[int(t) for t in tokens]`: every token converted in order, or the
      first token that is not an integer literal. */
  function ParseInts(tokens: seq<string>): (r: Result<seq<int>, string>)
    ensures r.Success? <==> forall i :: 0 <= i < |tokens| ==> IsIntLiteral(tokens[i])
    ensures r.Success? ==> |r.value| == |tokens|
                           && forall i :: 0 <= i < |tokens| ==> ParseInt(tokens[i]) == Some(r.value[i])
    ensures r.Failure? ==> exists k :: 0 <= k < |tokens| && tokens[k] == r.error && !IsIntLiteral(tokens[k])
                                       && forall j :: 0 <= j < k ==> IsIntLiteral(tokens[j])
  {
    if |tokens| == 0 then Success([])
    else
      match ParseInt(tokens[0])
      case None => Failure(tokens[0])
      case Some(x) =>
        match ParseInts(tokens[1..])
        case Failure(bad) =>
          assert forall j :: 1 <= j < |tokens| ==> tokens[j] == tokens[1..][j - 1];
          Failure(bad)
        case Success(xs) => Success([x] + xs)
  }

  /** Parsing the decimal forms of integers gives the integers back. */
  lemma ParseIntsOfIntStrings(xs: seq<int>)
    ensures ParseInts(IntStrings(xs)) == Success(xs)
  {
    var r := ParseInts(IntStrings(xs));
    forall i | 0 <= i < |xs| ensures IsIntLiteral(IntStrings(xs)[i]) && ParseInt(IntStrings(xs)[i]) == Some(xs[i]) {
      ParseIntOfIntToString(xs[i]);
    }
    assert r.value == xs;
  }

  // ---------------------------------------------------------------------
  // Ordering of str
  // ---------------------------------------------------------------------

  /** Python's `a < b` on str: the first differing character decides, and
      a proper prefix is smaller. */
  predicate StrLess(a: string, b: string)
    decreases |a|
  {
    if |a| == 0 then |b| > 0
    else if |b| == 0 then false
    else if a[0] != b[0] then a[0] < b[0]
    else StrLess(a[1..], b[1..])
  }

  lemma {:induction false} StrLessIrreflexive(a: string)
    ensures !StrLess(a, a)
    decreases |a|
  {
    if |a| > 0 {
      StrLessIrreflexive(a[1..]);
    }
  }

  lemma {:induction false} StrLessTransitive(a: string, b: string, c: string)
    requires StrLess(a, b) && StrLess(b, c)
    ensures StrLess(a, c)
    decreases |a|
  {
    if |a| > 0 && a[0] == b[0] && b[0] == c[0] {
      StrLessTransitive(a[1..], b[1..], c[1..]);
    }
  }

  lemma {:induction false} StrLessTotal(a: string, b: string)
    ensures a == b || StrLess(a, b) || StrLess(b, a)
    decreases |a|
  {
    if |a| > 0 && |b| > 0 && a[0] == b[0] {
      StrLessTotal(a[1..], b[1..]);
      if a[1..] == b[1..] {
        assert a == [a[0]] + a[1..] && b == [b[0]] + b[1..];
      }
    }
  }

  /** `a <= b` on str, as the negation of `b < a` that sorting relies on. */
  predicate StrLessEq(a: string, b: string) { !StrLess(b, a) }

  lemma StrLessEqTransitive(a: string, b: string, c: string)
    requires StrLessEq(a, b) && StrLessEq(b, c)
    ensures StrLessEq(a, c)
  {
    if StrLess(c, a) {
      StrLessTotal(a, b);
      if a == b {
      } else if StrLess(a, b) {
        StrLessTransitive(c, a, b);
      } else {
      }
    }
  }
}

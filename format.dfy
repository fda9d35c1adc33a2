/**
 * `resultsToString`: a sample vector rendered as "[" + the decimal forms of
 * its elements joined by "," + "]", with `StringBuffer.append(long)` (that is
 * `Long.toString`) producing each element.  `ParseSamples` reads such a line
 * back; the round trip shows that the rendering loses nothing.
 */
module Format {
  import opened Wrappers

  function DigitChar(d: nat): (c: char)
    requires d < 10
    ensures '0' <= c <= '9'
  {
    "0123456789"[d]
  }

  predicate IsDigit(c: char) { '0' <= c <= '9' }

  function DigitValue(c: char): (d: nat)
    requires IsDigit(c)
    ensures d < 10
  {
    (c as int - '0' as int)
  }

  /** Decimal digits of a natural number, most significant first, no leading zeros. */
  function Digits(n: nat): (s: string)
    ensures |s| > 0
    ensures forall i :: 0 <= i < |s| ==> IsDigit(s[i])
  {
    if n < 10 then [DigitChar(n)] else Digits(n / 10) + [DigitChar(n % 10)]
  }

  /** `Long.toString(n)`: a minus sign for negatives, then the digits of |n|. */
  function DecimalString(n: int): (s: string)
    ensures |s| > 0
    ensures ',' !in s && '[' !in s && ']' !in s
    ensures IsDigit(s[|s| - 1])
  {
    var d := Digits(if n < 0 then -n else n);
    assert forall i :: 0 <= i < |d| ==> IsDigit(d[i]);
    if n < 0 then "-" + d else d
  }

  /** The elements' decimal forms separated by commas. */
  function Joined(xs: seq<int>): string
  {
    if xs == [] then ""
    else if |xs| == 1 then DecimalString(xs[0])
    else DecimalString(xs[0]) + "," + Joined(xs[1..])
  }

  function SamplesString(xs: seq<int>): string
  {
    "[" + Joined(xs) + "]"
  }

  /** resultsToString (lines 364-374): the StringBuffer loop. */
  method ResultsToString(res: array<int>) returns (s: string)
    ensures s == SamplesString(res[..])
  {
    ghost var xs := res[..];
    s := "[";
    for i := 0 to res.Length
      invariant 0 < i < res.Length ==> s == "[" + Joined(xs[..i]) + ","
      invariant i == 0 || i == res.Length ==> s == "[" + Joined(xs[..i])
    {
      AppendStep(xs, i);
      s := s + DecimalString(res[i]);
      if i + 1 < res.Length {
        s := s + ",";
      }
    }
    assert xs[..res.Length] == xs;
    s := s + "]";
  }

  /** One turn of the loop: appending element i extends the joined prefix. */
  lemma AppendStep(xs: seq<int>, i: nat)
    requires i < |xs|
    ensures "[" + Joined(xs[..i + 1]) ==
            (if i == 0 then "[" else "[" + Joined(xs[..i]) + ",") + DecimalString(xs[i])
  {
    assert xs[..i + 1] == xs[..i] + [xs[i]];
    JoinedSnoc(xs[..i], xs[i]);
  }

  lemma {:induction false} JoinedSnoc(xs: seq<int>, x: int)
    ensures Joined(xs + [x]) == if xs == [] then DecimalString(x) else Joined(xs) + "," + DecimalString(x)
  {
    var ys := xs + [x];
    var d := DecimalString(x);
    if |xs| == 0 {
      assert ys == [x];
    } else if |xs| == 1 {
      assert ys[0] == xs[0] && ys[1..] == [x];
      assert Joined(ys) == DecimalString(xs[0]) + "," + d;
      assert Joined(xs) == DecimalString(xs[0]);
    } else {
      assert ys[0] == xs[0] && ys[1..] == xs[1..] + [x];
      JoinedSnoc(xs[1..], x);
      var a, r := DecimalString(xs[0]), Joined(xs[1..]);
      assert Joined(ys) == a + "," + (r + "," + d);
      assert Joined(xs) == a + "," + r;
      assert a + "," + (r + "," + d) == (a + "," + r) + "," + d;
    }
  }

  // ---- reading a sample line back ----

  function ParseNat(s: string): nat
    requires |s| > 0 && forall i :: 0 <= i < |s| ==> IsDigit(s[i])
  {
    if |s| == 1 then DigitValue(s[0]) else 10 * ParseNat(s[..|s| - 1]) + DigitValue(s[|s| - 1])
  }

  predicate AllDigits(s: string) { forall i :: 0 <= i < |s| ==> IsDigit(s[i]) }

  function ParseDecimal(s: string): Option<int>
  {
    if |s| > 0 && AllDigits(s) then Some(ParseNat(s))
    else if |s| > 1 && s[0] == '-' && AllDigits(s[1..]) then Some(-(ParseNat(s[1..]) as int))
    else None
  }

  /** The comma-separated fields of a string ("" has one empty field). */
  function SplitFields(s: string): (r: seq<string>)
    ensures |r| > 0
  {
    if s == [] then [""]
    else
      var rest := SplitFields(s[1..]);
      if s[0] == ',' then [""] + rest else [[s[0]] + rest[0]] + rest[1..]
  }

  function ParseAll(fields: seq<string>): Option<seq<int>>
  {
    if fields == [] then Some([])
    else match (ParseDecimal(fields[0]), ParseAll(fields[1..]))
      case (Some(x), Some(xs)) => Some([x] + xs)
      case _ => None
  }

  /** Reads a line produced by resultsToString. */
  function ParseSamples(s: string): Option<seq<int>>
  {
    if |s| < 2 || s[0] != '[' || s[|s| - 1] != ']' then None
    else if |s| == 2 then Some([])
    else ParseAll(SplitFields(s[1..|s| - 1]))
  }

  lemma {:induction false} ParseNatDigits(n: nat)
    ensures ParseNat(Digits(n)) == n
  {
    if n >= 10 {
      var d := Digits(n);
      assert d[..|d| - 1] == Digits(n / 10);
      ParseNatDigits(n / 10);
    }
  }

  lemma DecimalStringRoundTrip(n: int)
    ensures ParseDecimal(DecimalString(n)) == Some(n)
  {
    if n < 0 {
      ParseNatDigits(-n);
      assert DecimalString(n)[1..] == Digits(-n);
      assert !IsDigit(DecimalString(n)[0]);
    } else {
      ParseNatDigits(n);
    }
  }

  lemma {:induction false} SplitWithoutComma(a: string)
    requires ',' !in a
    ensures SplitFields(a) == [a]
  {
    if a != [] {
      SplitWithoutComma(a[1..]);
      assert [a[0]] + a[1..] == a;
    }
  }

  lemma {:induction false} SplitAtComma(a: string, b: string)
    requires ',' !in a
    ensures SplitFields(a + "," + b) == [a] + SplitFields(b)
  {
    if a == [] {
      assert a + "," + b == [','] + b;
      assert (a + "," + b)[1..] == b;
    } else {
      assert (a + "," + b)[1..] == a[1..] + "," + b;
      SplitAtComma(a[1..], b);
      assert [a[0]] + a[1..] == a;
    }
  }

  lemma {:induction false} JoinedRoundTrip(xs: seq<int>)
    requires xs != []
    ensures ParseAll(SplitFields(Joined(xs))) == Some(xs)
  {
    DecimalStringRoundTrip(xs[0]);
    if |xs| == 1 {
      SplitWithoutComma(DecimalString(xs[0]));
      var f := SplitFields(Joined(xs));
      assert f == [DecimalString(xs[0])];
      assert f[1..] == [];
      assert ParseAll(f[1..]) == Some([]);
      assert [xs[0]] + [] == xs;
    } else {
      SplitAtComma(DecimalString(xs[0]), Joined(xs[1..]));
      JoinedRoundTrip(xs[1..]);
      assert SplitFields(Joined(xs))[1..] == SplitFields(Joined(xs[1..]));
      assert [xs[0]] + xs[1..] == xs;
    }
  }

  /** The printed sample vector can be read back exactly. */
  lemma SamplesRoundTrip(xs: seq<int>)
    ensures ParseSamples(SamplesString(xs)) == Some(xs)
  {
    var s := SamplesString(xs);
    if xs != [] {
      assert s[1..|s| - 1] == Joined(xs);
      assert |Joined(xs)| > 0 by { assert |DecimalString(xs[0])| > 0; }
      JoinedRoundTrip(xs);
    }
  }

  /** An empty vector prints as "[]"; a nonempty one ends in a digit, never in ",". */
  lemma SamplesStringShape(xs: seq<int>)
    ensures xs == [] <==> SamplesString(xs) == "[]"
    ensures xs != [] ==> |SamplesString(xs)| > 2 && IsDigit(SamplesString(xs)[|SamplesString(xs)| - 2])
  {
    if xs != [] {
      JoinedEndsInDigit(xs);
    }
  }

  lemma {:induction false} JoinedEndsInDigit(xs: seq<int>)
    requires xs != []
    ensures |Joined(xs)| > 0 && IsDigit(Joined(xs)[|Joined(xs)| - 1])
  {
    if |xs| > 1 {
      JoinedEndsInDigit(xs[1..]);
    }
  }

  /** The number of separators is one less than the number of samples. */
  lemma {:induction false} CommaCount(xs: seq<int>)
    requires xs != []
    ensures multiset(Joined(xs))[','] == |xs| - 1
  {
    if |xs| > 1 {
      CommaCount(xs[1..]);
    }
  }
}

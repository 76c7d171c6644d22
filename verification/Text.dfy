/** The string operations the source relies on: decimal numbers and splitting. */
module Text {
  import opened Common

  // ----- decimal numbers -----

  predicate IsDigit(c: char)
  {
    '0' <= c <= '9'
  }

  predicate AllDigits(s: string)
  {
    forall i :: 0 <= i < |s| ==> IsDigit(s[i])
  }

  /** Decimal without leading zeros, as section 2 of Semantic Versioning 2.0.0 asks for. */
  predicate Canonical(s: string)
  {
    s != "" && AllDigits(s) && (|s| > 1 ==> s[0] != '0')
  }

  function DigitChar(d: nat): char
    requires d < 10
  {
    '0' + d as char
  }

  /** `format!("{n}")` */
  function Decimal(n: nat): string
  {
    if n < 10 then [DigitChar(n)] else Decimal(n / 10) + [DigitChar(n % 10)]
  }

  function DecimalValue(s: string): nat
    requires AllDigits(s)
  {
    if s == "" then 0 else 10 * DecimalValue(s[..|s| - 1]) + (s[|s| - 1] - '0') as nat
  }

  lemma {:induction false} ValueOfDecimal(n: nat)
    ensures Canonical(Decimal(n)) && DecimalValue(Decimal(n)) == n
    ensures n > 0 ==> Decimal(n)[0] != '0'
  {
    if n < 10 {
      assert Decimal(n)[..0] == "";
    } else {
      var front := Decimal(n / 10);
      ValueOfDecimal(n / 10);
      assert Decimal(n)[..|front|] == front && Decimal(n)[0] == front[0];
    }
  }

  lemma {:induction false} PositiveValue(s: string)
    requires AllDigits(s) && s != "" && s[0] != '0'
    ensures DecimalValue(s) > 0
  {
    if |s| > 1 {
      PositiveValue(s[..|s| - 1]);
    } else {
      assert s[..0] == "";
    }
  }

  lemma {:induction false} DecimalOfValue(s: string)
    requires Canonical(s)
    ensures Decimal(DecimalValue(s)) == s
  {
    var front, last := s[..|s| - 1], s[|s| - 1];
    assert s == front + [last];
    if front != "" {
      DecimalOfValue(front);
      PositiveValue(front);
    }
  }

  /** `parse_number`: canonical digits that fit in 64 bits. */
  function ParseNumber(s: string): Option<nat>
  {
    if s == "" || !AllDigits(s) || (|s| > 1 && s[0] == '0') then None
    else if DecimalValue(s) <= U64_MAX then Some(DecimalValue(s)) else None
  }

  /** Parsing and printing a 64-bit number are inverse to each other. */
  lemma {:induction false} NumberRoundTrip(s: string, n: nat)
    ensures ParseNumber(s) == Some(n) <==> n <= U64_MAX && s == Decimal(n)
  {
    if Canonical(s) { DecimalOfValue(s); }
    ValueOfDecimal(n);
  }

  lemma {:induction false} DecimalLacks(n: nat, c: char)
    requires !IsDigit(c)
    ensures c !in Decimal(n)
  {
    ValueOfDecimal(n);
  }

  // ----- splitting -----

  /** Position of the first occurrence, or the length of the string. */
  function IndexOf(s: string, c: char): (i: nat)
    ensures i <= |s| && c !in s[..i] && (i < |s| ==> s[i] == c)
  {
    if s == "" then 0 else if s[0] == c then 0 else 1 + IndexOf(s[1..], c)
  }

  /** `s.split_once(c)` */
  function SplitOnce(s: string, c: char): Option<(string, string)>
  {
    var i := IndexOf(s, c);
    if i == |s| then None else Some((s[..i], s[i + 1..]))
  }

  /** `s.split(c)`: always at least one part. */
  function Split(s: string, c: char): (parts: seq<string>)
    ensures parts != []
    decreases |s|
  {
    var i := IndexOf(s, c);
    if i == |s| then [s] else [s[..i]] + Split(s[i + 1..], c)
  }

  function Join(parts: seq<string>, c: char): string
    requires parts != []
  {
    if |parts| == 1 then parts[0] else parts[0] + [c] + Join(parts[1..], c)
  }

  lemma {:induction false} IndexOfFirst(s: string, c: char, i: nat)
    requires i <= |s| && c !in s[..i] && (i < |s| ==> s[i] == c)
    ensures IndexOf(s, c) == i
  {
  }

  lemma {:induction false} JoinOfSplit(s: string, c: char)
    ensures Join(Split(s, c), c) == s
    ensures forall k :: 0 <= k < |Split(s, c)| ==> c !in Split(s, c)[k]
    decreases |s|
  {
    var i := IndexOf(s, c);
    if i == |s| {
      assert s[..i] == s;
    } else {
      JoinOfSplit(s[i + 1..], c);
      assert Split(s, c)[1..] == Split(s[i + 1..], c);
      assert s == s[..i] + [c] + s[i + 1..];
    }
  }

  lemma {:induction false} SplitCons(head: string, rest: string, c: char)
    requires c !in head
    ensures Split(head + [c] + rest, c) == [head] + Split(rest, c)
  {
    var s := head + [c] + rest;
    assert s[..|head|] == head && s[|head| + 1..] == rest;
    IndexOfFirst(s, c, |head|);
  }

  lemma {:induction false} SplitOfJoin(parts: seq<string>, c: char)
    requires parts != [] && forall k :: 0 <= k < |parts| ==> c !in parts[k]
    ensures Split(Join(parts, c), c) == parts
  {
    if |parts| == 1 {
      var s := parts[0];
      assert s[..|s|] == s;
      IndexOfFirst(s, c, |s|);
    } else {
      SplitOfJoin(parts[1..], c);
      SplitCons(parts[0], Join(parts[1..], c), c);
    }
  }

  lemma {:induction false} SplitOnceExact(s: string, c: char, a: string, b: string)
    ensures SplitOnce(s, c) == Some((a, b)) <==> c !in a && s == a + [c] + b
  {
    if c !in a && s == a + [c] + b {
      assert s[..|a|] == a && s[|a| + 1..] == b;
      IndexOfFirst(s, c, |a|);
    }
    if SplitOnce(s, c) == Some((a, b)) {
      var i := IndexOf(s, c);
      assert s == s[..i] + [c] + s[i + 1..];
    }
  }

  lemma {:induction false} SplitOnceNone(s: string, c: char)
    ensures SplitOnce(s, c).None? <==> c !in s
  {
    var i := IndexOf(s, c);
    if i == |s| { assert s[..i] == s; }
  }
}

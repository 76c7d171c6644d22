/** Release versions: parsing, printing, their order, and the Python versions they map to. */
module ReleaseVersion {
  import opened Common
  import opened Text

  datatype Version = Version(major: nat, minor: nat, patch: nat, hotfix: Option<nat>)

  /** What the fields can hold: 64-bit numbers, and a hotfix number that is not zero. */
  predicate Valid(v: Version)
  {
    && v.major <= U64_MAX && v.minor <= U64_MAX && v.patch <= U64_MAX
    && (v.hotfix.Some? ==> 1 <= v.hotfix.value <= U64_MAX)
  }

  const HOTFIX: string := "hotfix."

  function ParseHotfix(suffix: string): Option<nat>
  {
    if |suffix| < |HOTFIX| || suffix[..|HOTFIX|] != HOTFIX then None
    else
      var number := ParseNumber(suffix[|HOTFIX|..]);
      if number == Some(0) then None else number
  }

  function ParseCore(core: string, hotfix: Option<nat>): Option<Version>
  {
    var parts := Split(core, '.');
    if |parts| < 3 then None
    else match (ParseNumber(parts[0]), ParseNumber(parts[1]), ParseNumber(parts[2]))
      case (Some(major), Some(minor), Some(patch)) =>
        if |parts| > 3 then None else Some(Version(major, minor, patch, hotfix))
      case _ => None
  }

  function Parse(value: string): Option<Version>
  {
    match SplitOnce(value, '-')
    case None => ParseCore(value, None)
    case Some((core, suffix)) =>
      var number := ParseHotfix(suffix);
      if number.None? then None else ParseCore(core, number)
  }

  function PrintCore(v: Version): string
  {
    Join([Decimal(v.major), Decimal(v.minor), Decimal(v.patch)], '.')
  }

  function Print(v: Version): string
  {
    if v.hotfix.None? then PrintCore(v) else PrintCore(v) + ['-'] + (HOTFIX + Decimal(v.hotfix.value))
  }

  // ----- parsing and printing are inverse -----

  lemma {:induction false} CoreLacksDash(v: Version)
    ensures '-' !in PrintCore(v)
  {
    DecimalLacks(v.major, '-');
    DecimalLacks(v.minor, '-');
    DecimalLacks(v.patch, '-');
    var parts := [Decimal(v.major), Decimal(v.minor), Decimal(v.patch)];
    assert PrintCore(v) == parts[0] + ['.'] + Join(parts[1..], '.');
    assert Join(parts[1..], '.') == parts[1] + ['.'] + Join(parts[1..][1..], '.');
    assert Join(parts[1..][1..], '.') == parts[2];
  }

  lemma {:induction false} CoreExact(core: string, hotfix: Option<nat>, v: Version)
    ensures ParseCore(core, hotfix) == Some(v) <==>
            && v.major <= U64_MAX && v.minor <= U64_MAX && v.patch <= U64_MAX
            && v.hotfix == hotfix && core == PrintCore(v)
  {
    var numbers := [Decimal(v.major), Decimal(v.minor), Decimal(v.patch)];
    if ParseCore(core, hotfix) == Some(v) {
      var parts := Split(core, '.');
      JoinOfSplit(core, '.');
      NumberRoundTrip(parts[0], v.major);
      NumberRoundTrip(parts[1], v.minor);
      NumberRoundTrip(parts[2], v.patch);
      assert parts == numbers;
    }
    if core == PrintCore(v) {
      DecimalLacks(v.major, '.');
      DecimalLacks(v.minor, '.');
      DecimalLacks(v.patch, '.');
      SplitOfJoin(numbers, '.');
      NumberRoundTrip(numbers[0], v.major);
      NumberRoundTrip(numbers[1], v.minor);
      NumberRoundTrip(numbers[2], v.patch);
    }
  }

  lemma {:induction false} HotfixExact(suffix: string, n: nat)
    ensures ParseHotfix(suffix) == Some(n) <==> 1 <= n <= U64_MAX && suffix == HOTFIX + Decimal(n)
  {
    if |suffix| >= |HOTFIX| && suffix[..|HOTFIX|] == HOTFIX {
      var digits := suffix[|HOTFIX|..];
      assert suffix == HOTFIX + digits;
      NumberRoundTrip(digits, n);
    }
    if suffix == HOTFIX + Decimal(n) {
      assert suffix[..|HOTFIX|] == HOTFIX && suffix[|HOTFIX|..] == Decimal(n);
      NumberRoundTrip(Decimal(n), n);
    }
  }

  /**
   A string parses to a version exactly when it is that version's print: so printing
   then parsing gives the version back, and no other spelling is accepted.
   */
  lemma {:induction false} ParseExactlyPrints(s: string, v: Version)
    ensures Parse(s) == Some(v) <==> Valid(v) && s == Print(v)
  {
    SplitOnceNone(s, '-');
    if Parse(s) == Some(v) {
      match SplitOnce(s, '-') {
        case None => CoreExact(s, None, v);
        case Some((core, suffix)) =>
          SplitOnceExact(s, '-', core, suffix);
          CoreExact(core, ParseHotfix(suffix), v);
          HotfixExact(suffix, v.hotfix.value);
      }
    }
    if Valid(v) && s == Print(v) {
      CoreLacksDash(v);
      if v.hotfix.None? {
        CoreExact(s, None, v);
      } else {
        var suffix := HOTFIX + Decimal(v.hotfix.value);
        SplitOnceExact(s, '-', PrintCore(v), suffix);
        HotfixExact(suffix, v.hotfix.value);
        CoreExact(PrintCore(v), v.hotfix, v);
      }
    }
  }

  lemma {:induction false} PrintThenParse(v: Version)
    requires Valid(v)
    ensures Parse(Print(v)) == Some(v)
  {
    ParseExactlyPrints(Print(v), v);
  }

  // ----- the order -----

  /** `Option`'s derived order: absent before present. */
  predicate OptionLess(a: Option<nat>, b: Option<nat>)
  {
    b.Some? && (a.None? || a.value < b.value)
  }

  /** The derived order of the struct: field by field. */
  predicate Less(a: Version, b: Version)
  {
    || a.major < b.major
    || (a.major == b.major
        && (|| a.minor < b.minor
            || (a.minor == b.minor
                && (|| a.patch < b.patch
                    || (a.patch == b.patch && OptionLess(a.hotfix, b.hotfix))))))
  }

  const POST: string := "post"

  function PythonVersion(v: Version): string
  {
    if v.hotfix.None? then Print(v)
    else Join([Decimal(v.major), Decimal(v.minor), Decimal(v.patch), POST + Decimal(v.hotfix.value)], '.')
  }

  /** A final or post-release version identifier of PEP 440: `N(.N)*[.postN]`. */
  datatype Identifier = Identifier(release: seq<nat>, post: Option<nat>)

  function ReadRelease(parts: seq<string>): Option<seq<nat>>
  {
    if parts == [] then Some([])
    else match (ParseNumber(parts[0]), ReadRelease(parts[1..]))
      case (Some(n), Some(rest)) => Some([n] + rest)
      case _ => None
  }

  function ReadPython(s: string): Option<Identifier>
  {
    var parts := Split(s, '.');
    var last := parts[|parts| - 1];
    if |last| >= |POST| && last[..|POST|] == POST then
      match (ReadRelease(parts[..|parts| - 1]), ParseNumber(last[|POST|..]))
      case (Some(release), Some(n)) => Some(Identifier(release, Some(n)))
      case _ => None
    else
      match ReadRelease(parts)
      case Some(release) => Some(Identifier(release, None))
      case None => None
  }

  /** Release segments compare number by number, the shorter one padded with zeros. */
  predicate ReleaseLess(a: seq<nat>, b: seq<nat>)
    decreases |a| + |b|
  {
    if a == [] && b == [] then false
    else
      var x := if a == [] then 0 else a[0];
      var y := if b == [] then 0 else b[0];
      x < y || (x == y && ReleaseLess(if a == [] then [] else a[1..], if b == [] then [] else b[1..]))
  }

  /** The post segment as a number: none sorts below every post-release, also below `.post0`. */
  function PostKey(post: Option<nat>): int
  {
    match post
    case None => -1
    case Some(n) => n
  }

  /** Releases first, then the post segment (PEP 440, "Post-releases"). */
  predicate PythonLess(a: Identifier, b: Identifier)
  {
    || ReleaseLess(a.release, b.release)
    || (!ReleaseLess(b.release, a.release) && PostKey(a.post) < PostKey(b.post))
  }

  lemma {:induction false} DigitsAreNotPost(n: nat)
    ensures |Decimal(n)| >= |POST| ==> Decimal(n)[..|POST|] != POST
  {
    ValueOfDecimal(n);
    if |Decimal(n)| >= |POST| {
      assert Decimal(n)[..|POST|][0] == Decimal(n)[0] && IsDigit(Decimal(n)[0]);
    }
  }

  lemma {:induction false} ReadMore(n: nat, parts: seq<string>, rest: seq<nat>)
    requires n <= U64_MAX && ReadRelease(parts) == Some(rest)
    ensures ReadRelease([Decimal(n)] + parts) == Some([n] + rest)
  {
    NumberRoundTrip(Decimal(n), n);
    assert ([Decimal(n)] + parts)[1..] == parts;
  }

  lemma {:induction false} ReadThree(major: nat, minor: nat, patch: nat)
    requires major <= U64_MAX && minor <= U64_MAX && patch <= U64_MAX
    ensures ReadRelease([Decimal(major), Decimal(minor), Decimal(patch)]) == Some([major, minor, patch])
  {
    assert [Decimal(patch)] == [Decimal(patch)] + [] && [patch] == [patch] + [];
    ReadMore(patch, [], []);
    assert [Decimal(minor), Decimal(patch)] == [Decimal(minor)] + [Decimal(patch)] && [minor, patch] == [minor] + [patch];
    ReadMore(minor, [Decimal(patch)], [patch]);
    assert [Decimal(major), Decimal(minor), Decimal(patch)] == [Decimal(major)] + [Decimal(minor), Decimal(patch)];
    assert [major, minor, patch] == [major] + [minor, patch];
    ReadMore(major, [Decimal(minor), Decimal(patch)], [minor, patch]);
  }

  function PythonOf(v: Version): Identifier
  {
    Identifier([v.major, v.minor, v.patch], v.hotfix)
  }

  /** The Python version string says, in PEP 440's grammar, exactly what the release version says. */
  lemma {:induction false} PythonReadsBack(v: Version)
    requires Valid(v)
    ensures ReadPython(PythonVersion(v)) == Some(PythonOf(v))
  {
    var numbers := [Decimal(v.major), Decimal(v.minor), Decimal(v.patch)];
    DecimalLacks(v.major, '.');
    DecimalLacks(v.minor, '.');
    DecimalLacks(v.patch, '.');
    ReadThree(v.major, v.minor, v.patch);
    if v.hotfix.None? {
      SplitOfJoin(numbers, '.');
      DigitsAreNotPost(v.patch);
    } else {
      var last := POST + Decimal(v.hotfix.value);
      DecimalLacks(v.hotfix.value, '.');
      var parts := [Decimal(v.major), Decimal(v.minor), Decimal(v.patch), last];
      SplitOfJoin(parts, '.');
      assert parts[..3] == numbers;
      assert last[..|POST|] == POST && last[|POST|..] == Decimal(v.hotfix.value);
      NumberRoundTrip(Decimal(v.hotfix.value), v.hotfix.value);
    }
  }

  lemma {:induction false} ThreeLess(a: seq<nat>, b: seq<nat>)
    requires |a| == 3 && |b| == 3
    ensures ReleaseLess(a, b) <==>
            a[0] < b[0] || (a[0] == b[0] && (a[1] < b[1] || (a[1] == b[1] && a[2] < b[2])))
  {
    assert a[1..][1..][1..] == [] && b[1..][1..][1..] == [];
    assert ReleaseLess(a[1..][1..], b[1..][1..]) <==> a[2] < b[2];
    assert ReleaseLess(a[1..], b[1..]) <==> a[1] < b[1] || (a[1] == b[1] && a[2] < b[2]);
  }

  /** Releases are ordered exactly as PEP 440 orders the Python versions they are published under. */
  lemma {:induction false} OrderAgreesWithPython(v: Version, w: Version)
    requires Valid(v) && Valid(w)
    ensures ReadPython(PythonVersion(v)).Some? && ReadPython(PythonVersion(w)).Some?
    ensures Less(v, w) <==> PythonLess(ReadPython(PythonVersion(v)).value, ReadPython(PythonVersion(w)).value)
  {
    PythonReadsBack(v);
    PythonReadsBack(w);
    ThreeLess(PythonOf(v).release, PythonOf(w).release);
    ThreeLess(PythonOf(w).release, PythonOf(v).release);
  }

  /** A release precedes each of its hotfixes, these order by number, and all precede the next release. */
  lemma {:induction false} HotfixesFollowTheirRelease(v: Version, next: Version, m: nat, n: nat)
    requires Valid(v) && Valid(next) && v.hotfix.None? && 1 <= m < n <= U64_MAX
    requires Less(v, next) && (next.major != v.major || next.minor != v.minor || next.patch != v.patch)
    ensures Less(v, v.(hotfix := Some(m))) && !Less(v.(hotfix := Some(m)), v)
    ensures Less(v.(hotfix := Some(m)), v.(hotfix := Some(n))) && !Less(v.(hotfix := Some(n)), v.(hotfix := Some(m)))
    ensures Less(v.(hotfix := Some(n)), next) && !Less(next, v.(hotfix := Some(n)))
    ensures PythonLess(PythonOf(v), PythonOf(v.(hotfix := Some(m))))
    ensures PythonLess(PythonOf(v.(hotfix := Some(n))), PythonOf(next))
  {
    var w := v.(hotfix := Some(n));
    OrderAgreesWithPython(w, next);
    PythonReadsBack(w);
    PythonReadsBack(next);
    ThreeLess(PythonOf(v).release, PythonOf(v).release);
  }

  /** The numbers decide in the order major, minor, patch. */
  lemma {:induction false} NumbersDecide(v: Version, w: Version)
    ensures v.major < w.major ==> Less(v, w) && !Less(w, v)
    ensures v.major == w.major && v.minor < w.minor ==> Less(v, w) && !Less(w, v)
    ensures v.major == w.major && v.minor == w.minor && v.patch < w.patch ==> Less(v, w) && !Less(w, v)
    ensures v == w ==> !Less(v, w)
  {
  }

  lemma {:induction false} JoinThree(a: string, b: string, c: string)
    ensures Join([a, b, c], '.') == a + "." + b + "." + c
  {
    var parts := [a, b, c];
    assert parts[1..] == [b, c] && [b, c][1..] == [c];
    assert Join([b, c], '.') == b + "." + c;
  }

  lemma {:induction false} JoinFour(a: string, b: string, c: string, d: string)
    ensures Join([a, b, c, d], '.') == a + "." + b + "." + c + "." + d
  {
    var parts := [a, b, c, d];
    assert parts[1..] == [b, c, d];
    JoinThree(b, c, d);
  }

  /** The spellings: `major.minor.patch`, with `-hotfix.n` for releases and `.postn` for Python. */
  lemma {:induction false} Spellings(v: Version)
    ensures v.hotfix.None? ==>
              Print(v) == PythonVersion(v) == Decimal(v.major) + "." + Decimal(v.minor) + "." + Decimal(v.patch)
    ensures v.hotfix.Some? ==>
              Print(v) == Decimal(v.major) + "." + Decimal(v.minor) + "." + Decimal(v.patch) + "-hotfix." + Decimal(v.hotfix.value)
    ensures v.hotfix.Some? ==>
              PythonVersion(v) == Decimal(v.major) + "." + Decimal(v.minor) + "." + Decimal(v.patch) + ".post" + Decimal(v.hotfix.value)
  {
    JoinThree(Decimal(v.major), Decimal(v.minor), Decimal(v.patch));
    if v.hotfix.Some? {
      JoinFour(Decimal(v.major), Decimal(v.minor), Decimal(v.patch), POST + Decimal(v.hotfix.value));
      assert "." + (POST + Decimal(v.hotfix.value)) == ".post" + Decimal(v.hotfix.value);
      assert ['-'] + (HOTFIX + Decimal(v.hotfix.value)) == "-hotfix." + Decimal(v.hotfix.value);
    }
  }
}

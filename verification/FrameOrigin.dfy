/** Exact HTTP origins under `.localhost` and the URLs each of them allows. */
module FrameOrigin {
  import opened Common
  import opened Text

  type u16 = x: int | 0 <= x < 0x1_0000

  predicate IsLabelEnd(c: char)
  {
    'a' <= c <= 'z' || '0' <= c <= '9'
  }

  predicate ValidLabel(text: string)
  {
    && 1 <= |text| <= 63
    && IsLabelEnd(text[0]) && IsLabelEnd(text[|text| - 1])
    && forall i :: 0 <= i < |text| ==> IsLabelEnd(text[i]) || text[i] == '-'
  }

  const SUFFIX: string := ".localhost"
  const SCHEME: string := "http://"

  predicate ValidHost(host: string)
  {
    && |host| > |SUFFIX| && host[|host| - |SUFFIX|..] == SUFFIX
    && |host| <= 253
    && var labels := Split(host[..|host| - |SUFFIX|], '.');
       forall i :: 0 <= i < |labels| ==> ValidLabel(labels[i])
  }

  function OriginText(host: string, port: nat): string
  {
    SCHEME + host + [':'] + Decimal(port)
  }

  /** `HttpFrameOrigin::from_localhost_subdomain` */
  function FromLocalhostSubdomain(host: string, port: u16): Option<string>
  {
    if ValidHost(host) && port != 0 then Some(OriginText(host, port)) else None
  }

  ghost predicate IsOrigin(o: string)
  {
    exists host: string, port: u16 :: ValidHost(host) && port != 0 && o == OriginText(host, port)
  }

  predicate IsControl(c: char)
  {
    c < ' ' || c == '\U{7f}'
  }

  /** `HttpFrameOrigin::allows` */
  predicate Allows(o: string, url: string)
  {
    && |url| >= |o| && url[..|o|] == o
    && (|url| == |o| || url[|o|] == '/')
    && '\\' !in url
    && forall i :: 0 <= i < |url| ==> !IsControl(url[i])
  }

  // ----- hosts hold no delimiter of a URL -----

  lemma {:induction false} SplitCovers(s: string, c: char, i: nat)
    requires i < |s| && s[i] != c
    ensures exists k :: 0 <= k < |Split(s, c)| && s[i] in Split(s, c)[k]
    decreases |s|
  {
    var at := IndexOf(s, c);
    if at == |s| {
      assert s[i] in Split(s, c)[0];
    } else if i < at {
      assert s[..at][i] == s[i];
      assert s[i] in Split(s, c)[0];
    } else {
      var rest := s[at + 1..];
      assert i > at && rest[i - at - 1] == s[i];
      SplitCovers(rest, c, i - at - 1);
      var k :| 0 <= k < |Split(rest, c)| && rest[i - at - 1] in Split(rest, c)[k];
      assert Split(s, c)[k + 1] == Split(rest, c)[k];
    }
  }

  lemma {:induction false} HostChars(host: string, c: char)
    requires ValidHost(host) && c in host
    ensures IsLabelEnd(c) || c == '-' || c == '.'
  {
    var i :| 0 <= i < |host| && host[i] == c;
    var prefix := host[..|host| - |SUFFIX|];
    if i < |prefix| {
      assert prefix[i] == c;
      if c != '.' {
        SplitCovers(prefix, '.', i);
        var k :| 0 <= k < |Split(prefix, '.')| && c in Split(prefix, '.')[k];
        assert ValidLabel(Split(prefix, '.')[k]);
      }
    } else {
      assert host[|host| - |SUFFIX|..][i - |prefix|] == c;
      SuffixChars(i - |prefix|);
    }
  }

  lemma {:induction false} SuffixChars(i: nat)
    requires i < |SUFFIX|
    ensures IsLabelEnd(SUFFIX[i]) || SUFFIX[i] == '.'
  {
    assert SUFFIX == ['.', 'l', 'o', 'c', 'a', 'l', 'h', 'o', 's', 't'];
  }

  /** After the scheme an origin holds no slash. */
  lemma {:induction false} OneAuthority(o: string, i: nat)
    requires IsOrigin(o) && |SCHEME| <= i < |o|
    ensures o[i] != '/'
  {
    var host: string, port: u16 :| ValidHost(host) && port != 0 && o == OriginText(host, port);
    ValueOfDecimal(port);
    var at := i - |SCHEME|;
    if at < |host| {
      assert o[i] == host[at];
      HostChars(host, host[at]);
    } else if at > |host| {
      assert o[i] == Decimal(port)[at - |host| - 1];
    }
  }

  lemma {:induction false} OriginIsLonger(o: string)
    requires IsOrigin(o)
    ensures |o| > |SCHEME|
  {
  }

  // ----- main results -----

  /** One to 63 lower-case letters, digits and inner hyphens. */
  predicate IsLabel(text: string)
  {
    && 0 < |text| < 64 && text[0] != '-' && text[|text| - 1] != '-'
    && forall c :: c in text ==> c == '-' || 'a' <= c <= 'z' || '0' <= c <= '9'
  }

  lemma {:induction false} LabelExactly(text: string)
    ensures ValidLabel(text) <==> IsLabel(text)
  {
    if IsLabel(text) {
      forall i | 0 <= i < |text| ensures IsLabelEnd(text[i]) || text[i] == '-' { assert text[i] in text; }
    }
  }

  /** The host is made of these labels, joined by dots, under `.localhost`. */
  predicate MadeOf(host: string, labels: seq<string>)
  {
    && labels != [] && host == Join(labels, '.') + ".localhost"
    && forall i :: 0 <= i < |labels| ==> IsLabel(labels[i])
  }

  lemma {:induction false} HostHasLabels(host: string)
    requires ValidHost(host)
    ensures MadeOf(host, Split(host[..|host| - |SUFFIX|], '.'))
  {
    var prefix := host[..|host| - |SUFFIX|];
    var labels := Split(prefix, '.');
    JoinOfSplit(prefix, '.');
    assert host == prefix + SUFFIX;
    forall i | 0 <= i < |labels| ensures IsLabel(labels[i]) { LabelExactly(labels[i]); }
  }

  lemma {:induction false} LabelsMakeHost(host: string, labels: seq<string>)
    requires MadeOf(host, labels) && |host| <= 253
    ensures ValidHost(host)
  {
    var prefix := Join(labels, '.');
    assert host[..|host| - |SUFFIX|] == prefix && host[|host| - |SUFFIX|..] == SUFFIX;
    forall i | 0 <= i < |labels| ensures '.' !in labels[i] && ValidLabel(labels[i]) { LabelExactly(labels[i]); }
    SplitOfJoin(labels, '.');
    LabelsAreLong(labels);
  }

  /**
   An origin is made exactly from a nonzero port and labels joined by dots before
   `.localhost`, at most 253 characters in all, and it spells scheme, host and port.
   */
  lemma {:induction false} OriginExactly(host: string, port: u16, o: string)
    ensures FromLocalhostSubdomain(host, port) == Some(o) <==>
            && port > 0 && |host| < 254 && o == "http://" + host + ":" + Decimal(port)
            && exists labels :: MadeOf(host, labels)
  {
    assert OriginText(host, port) == "http://" + host + ":" + Decimal(port);
    if ValidHost(host) { HostHasLabels(host); }
    if |host| < 254 && exists labels :: MadeOf(host, labels) {
      var labels :| MadeOf(host, labels);
      LabelsMakeHost(host, labels);
    }
  }

  lemma {:induction false} LabelsAreLong(labels: seq<string>)
    requires labels != [] && forall i :: 0 <= i < |labels| ==> IsLabel(labels[i])
    ensures |Join(labels, '.')| > 0
  {
    assert IsLabel(labels[0]);
  }

  lemma {:induction false} ShorterOriginWins(a: string, b: string, url: string)
    requires IsOrigin(a) && IsOrigin(b) && Allows(a, url) && Allows(b, url) && |a| <= |b|
    ensures a == b
  {
    OriginIsLonger(a);
    assert a == b[..|a|] by { assert url[..|b|][..|a|] == url[..|a|]; }
    if |a| < |b| {
      assert b[|a|] == url[|a|] by { assert url[..|b|][|a|] == url[|a|]; }
      OneAuthority(b, |a|);
    }
  }

  /** No URL is allowed by two different origins. */
  lemma {:induction false} AtMostOneOrigin(a: string, b: string, url: string)
    requires IsOrigin(a) && IsOrigin(b) && Allows(a, url) && Allows(b, url)
    ensures a == b
  {
    if |a| <= |b| { ShorterOriginWins(a, b, url); } else { ShorterOriginWins(b, a, url); }
  }

  /** An origin text names one host and one port. */
  lemma {:induction false} OriginNamesOne(host: string, port: u16, other: string, otherPort: u16)
    requires ValidHost(host) && ValidHost(other) && OriginText(host, port) == OriginText(other, otherPort)
    ensures host == other && port == otherPort
  {
    var rest := host + [':'] + Decimal(port);
    assert OriginText(host, port)[|SCHEME|..] == rest;
    assert OriginText(other, otherPort)[|SCHEME|..] == other + [':'] + Decimal(otherPort);
    HostLacksColon(host);
    HostLacksColon(other);
    SplitOnceExact(rest, ':', host, Decimal(port));
    SplitOnceExact(rest, ':', other, Decimal(otherPort));
    ValueOfDecimal(port);
    ValueOfDecimal(otherPort);
  }

  lemma {:induction false} HostLacksColon(host: string)
    requires ValidHost(host)
    ensures ':' !in host
  {
    if ':' in host { HostChars(host, ':'); }
  }

  /** What an origin allows: itself, or itself followed by a path, in plain printable text. */
  lemma {:induction false} AllowedUrls(host: string, port: u16, url: string)
    requires ValidHost(host) && port != 0
    ensures Allows(OriginText(host, port), url) <==>
            && (url == OriginText(host, port) || exists path :: url == OriginText(host, port) + ['/'] + path)
            && '\\' !in url && forall i :: 0 <= i < |url| ==> 32 <= url[i] as int != 127
  {
    var o := OriginText(host, port);
    if Allows(o, url) && |url| > |o| {
      assert url == o + ['/'] + url[|o| + 1..];
    }
    if exists path :: url == o + ['/'] + path {
      var path :| url == o + ['/'] + path;
      assert url[..|o|] == o && url[|o|] == '/';
    }
    if url == o { assert url[..|o|] == o; }
  }
}

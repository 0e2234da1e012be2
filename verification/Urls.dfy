/**
 Server URLs: the parser and the printer with which a deploy gives every server a host name that
 carries the tag.
 */
module Urls {
  import opened Wrappers
  import opened Strings

  function Trimmed(url: string): string {
    TrimPrefix(TrimPrefix(url, "http://"), "https://")
  }

  function ParseURL(url: string): Option<(string, int)> {
    var split := Split(Trimmed(url), ':');
    if |split| != 2 then None
    else
      var port := Atoi(split[1]);
      if port.None? || port.value < 1 || port.value > 65535 then None
      else Some((split[0], port.value))
  }

  // fmt's "http://%s-%s:%d".
  function TaggedURL(host: string, tag: string, port: nat): string {
    "http://" + host + "-" + tag + ":" + Itoa(port)
  }

  lemma ItoaHasNoSeparator(n: nat)
    ensures ':' !in Itoa(n) && Itoa(n) != "" && Itoa(n)[0] != '/'
  {
    ValueOfItoa(n);
    var s := Itoa(n);
    assert forall i | 0 <= i < |s| :: IsDigit(s[i]);
  }

  lemma TrimmedTaggedURL(name: string, port: nat)
    requires ':' !in name
    ensures Trimmed("http://" + name + ":" + Itoa(port)) == name + ":" + Itoa(port)
  {
    var digits := Itoa(port);
    var rest := name + ":" + digits;
    var url := "http://" + name + ":" + digits;
    assert url == "http://" + rest && url[7..] == rest;
    ItoaHasNoSeparator(port);
    NotHttps(name, digits);
  }

  lemma NotHttps(name: string, digits: string)
    requires ':' !in name && digits != "" && digits[0] != '/'
    ensures !("https://" <= name + ":" + digits)
  {
    var rest := name + ":" + digits;
    assert rest[|name|] == ':' && rest[|name| + 1] == digits[0];
    if |name| > 5 {
      assert rest[5] == name[5];
    } else {
      assert |name| == 5 || "https://"[|name|] != ':';
    }
  }

  // Which URLs parse.

  const SCHEMES := {"", "http://", "https://", "http://https://"}

  // A scheme or none, a host without a colon, a colon, and a port in range.
  ghost predicate IsServerURL(url: string, host: string, port: int) {
    && ':' !in host && 1 <= port <= 65535
    && exists scheme, digits :: scheme in SCHEMES && IsNumeral(digits, port) && url == scheme + (host + ":" + digits)
  }

  // The rest holds its first colon before something else than a slash, so no scheme starts it.
  lemma NoSchemeAhead(host: string, digits: string)
    requires ':' !in host && digits != "" && digits[0] != '/'
    ensures !("https://" <= host + ":" + digits) && !("http://" <= host + ":" + digits)
  {
    NotHttps(host, digits);
    var rest := host + ":" + digits;
    assert rest[|host|] == ':' && rest[|host| + 1] == digits[0];
    if |host| > 4 {
      assert rest[4] == host[4];
    } else {
      assert |host| == 4 || "http://"[|host|] != ':';
    }
  }

  lemma SchemeIsTrimmed(scheme: string, rest: string)
    requires scheme in SCHEMES && !("https://" <= rest) && !("http://" <= rest)
    ensures Trimmed(scheme + rest) == rest
  {
    var url, secure := scheme + rest, "https://" + rest;
    assert secure[8..] == rest && secure[4] == 's';
    if scheme == "" {
      assert url == rest;
    } else if scheme == "https://" {
      assert url == secure;
    } else {
      assert "http://" <= url;
      assert url[7..] == if scheme == "http://" then rest else secure;
    }
  }

  lemma TrimmedScheme(url: string) returns (scheme: string)
    ensures scheme in SCHEMES && url == scheme + Trimmed(url)
  {
    var http, https := "http://", "https://";
    var first := TrimPrefix(url, http);
    if http <= url {
      assert url == http + first;
      scheme := http;
      if https <= first {
        assert first == https + Trimmed(url) && http + https == "http://https://";
        scheme := "http://https://";
      }
    } else if https <= url {
      scheme := https;
    } else {
      scheme := "";
    }
  }

  lemma NumeralStart(digits: string, port: nat)
    requires IsNumeral(digits, port)
    ensures digits != "" && digits[0] != '/' && ':' !in digits
  {
    var sign, zeros :| sign in {"", "+"} && AllZeros(zeros) && digits == sign + (zeros + Itoa(port));
    ItoaHasNoSeparator(port);
  }

  lemma ServerURLParses(scheme: string, host: string, digits: string, port: nat)
    requires scheme in SCHEMES && ':' !in host && IsNumeral(digits, port) && 1 <= port <= 65535
    ensures ParseURL(scheme + (host + ":" + digits)) == Some((host, port as int))
  {
    NumeralStart(digits, port);
    NoSchemeAhead(host, digits);
    SchemeIsTrimmed(scheme, host + ":" + digits);
    SplitAtSeparator(host, digits, ':');
    SplitWithoutSeparator(digits, ':');
    AtoiIff(digits, port);
  }

  lemma JoinOfTwo(s: string, a: string, b: string)
    requires Split(s, ':') == [a, b]
    ensures s == a + ":" + b
  {
    JoinOfSplit(s, ':');
    assert [a, b][1..] == [b];
  }

  // Main result, the parser: what it takes, and what it reads there. Every other URL is refused.
  lemma ParsesIff(url: string, host: string, port: int)
    ensures ParseURL(url) == Some((host, port)) <==> IsServerURL(url, host, port)
  {
    if IsServerURL(url, host, port) {
      var scheme, digits :| scheme in SCHEMES && IsNumeral(digits, port) && url == scheme + (host + ":" + digits);
      ServerURLParses(scheme, host, digits, port);
    }
    if ParseURL(url) == Some((host, port)) {
      ParsedParts(url);
      var digits := Split(Trimmed(url), ':')[1];
      JoinOfTwo(Trimmed(url), host, digits);
      AtoiIff(digits, port);
      var scheme := TrimmedScheme(url);
    }
  }

  // In particular a plain URL parses under either scheme and under none.
  lemma PlainURLParses(scheme: string, host: string, port: nat)
    requires scheme in {"", "http://", "https://"} && ':' !in host && 1 <= port <= 65535
    ensures ParseURL(scheme + host + ":" + Itoa(port)) == Some((host, port as int))
  {
    assert Itoa(port) == "" + ("" + Itoa(port));
    ServerURLParses(scheme, host, Itoa(port), port);
    assert scheme + (host + ":" + Itoa(port)) == scheme + host + ":" + Itoa(port);
  }

  // A host that was parsed holds no colon, and its port is in range.
  lemma ParsedParts(url: string)
    requires ParseURL(url).Some?
    ensures ':' !in ParseURL(url).value.0 && 1 <= ParseURL(url).value.1 <= 65535
  {
  }

  // Main result, one step: the printed URL parses back to the tagged host and the same port,
  // exactly when the tag holds no colon.
  lemma TaggedURLRoundTrip(host: string, tag: string, port: nat)
    requires ':' !in host && 1 <= port <= 65535
    ensures ParseURL(TaggedURL(host, tag, port)) == Some((host + "-" + tag, port as int)) <==> ':' !in tag
  {
    var name := host + "-" + tag;
    var url := TaggedURL(host, tag, port);
    if ':' in tag {
      if ParseURL(url).Some? {
        ParsedParts(url);
        assert ':' in name by { var i :| 0 <= i < |tag| && tag[i] == ':'; assert name[|host| + 1 + i] == ':'; }
      }
    } else {
      assert url == "http://" + name + ":" + Itoa(port);
      TrimmedTaggedURL(name, port);
      ItoaHasNoSeparator(port);
      SplitAtSeparator(name, Itoa(port), ':');
      SplitWithoutSeparator(Itoa(port), ':');
      AtoiOfItoa(port);
    }
  }

  // A sequence of deploys, each of which retags the URL that the one before left.

  function Retag(url: string, tag: string): Option<string> {
    match ParseURL(url)
    case Some((host, port)) => if port < 0 then None else Some(TaggedURL(host, tag, port))
    case None => None
  }

  function RetagAll(url: string, tags: seq<string>): Option<string> {
    if tags == [] then Some(url)
    else
      match RetagAll(url, tags[..|tags| - 1])
      case Some(u) => Retag(u, tags[|tags| - 1])
      case None => None
  }

  function Suffixes(tags: seq<string>): string {
    if tags == [] then "" else Suffixes(tags[..|tags| - 1]) + "-" + tags[|tags| - 1]
  }

  lemma RetagStep(url: string, host: string, port: int, tag: string)
    requires ParseURL(url) == Some((host, port)) && ':' !in tag
    ensures Retag(url, tag).Some? && ParseURL(Retag(url, tag).value) == Some((host + "-" + tag, port))
  {
    ParsedParts(url);
    TaggedURLRoundTrip(host, tag, port);
  }

  lemma OneMoreTag(url: string, tags: seq<string>, host: string)
    requires tags != []
    ensures var front, tag := tags[..|tags| - 1], tags[|tags| - 1];
            && (RetagAll(url, front).Some? ==> RetagAll(url, tags) == Retag(RetagAll(url, front).value, tag))
            && host + Suffixes(tags) == (host + Suffixes(front)) + "-" + tag
  {
  }

  // Main result, all steps: the port is kept and the host collects the tags in order.
  lemma {:induction false} RetaggingKeepsPort(url: string, tags: seq<string>, host: string, port: int)
    requires ParseURL(url) == Some((host, port))
    requires forall i | 0 <= i < |tags| :: ':' !in tags[i]
    ensures RetagAll(url, tags).Some?
    ensures ParseURL(RetagAll(url, tags).value) == Some((host + Suffixes(tags), port))
  {
    if tags == [] {
      assert host + "" == host;
    } else {
      var front, tag := tags[..|tags| - 1], tags[|tags| - 1];
      RetaggingKeepsPort(url, front, host, port);
      RetagStep(RetagAll(url, front).value, host + Suffixes(front), port, tag);
      OneMoreTag(url, tags, host);
    }
  }
}

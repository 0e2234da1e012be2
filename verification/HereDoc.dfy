/**
 Here-documents, as section 2.7.4 of the POSIX.1-2017 Shell Command Language defines them, and
 the two ways the deploy engine writes a remote file through one: with the quoted delimiter
 'EOF' (the deployment state) and with the bare delimiter EOF (the compose override).
 */
module HereDoc {
  import opened Strings

  const DELIMITER := "EOF"

  // The text the shell reads after the line that holds `cat <<EOF > file`.
  function Sent(data: string): string { data + "\n" + DELIMITER }

  // The lines before the first delimiter line, each ended by a newline. A document whose
  // delimiter never comes ends with the input.
  function Body(lines: seq<string>): string {
    if lines == [] || lines[0] == DELIMITER then "" else lines[0] + "\n" + Body(lines[1..])
  }

  // The file that `cat <<'EOF' > file` leaves: the body is taken literally.
  function QuotedFile(data: string): string {
    Body(Split(Sent(data), '\n'))
  }

  predicate HasDelimiterLine(data: string) { DELIMITER in Split(data, '\n') }

  lemma {:induction false} SplitOfSent(data: string)
    ensures Split(Sent(data), '\n') == Split(data, '\n') + [DELIMITER]
    decreases |data|
  {
    if '\n' in data {
      var a, b := FirstSeparator(data, '\n');
      SplitAtSeparator(a, b, '\n');
      assert Sent(data) == a + "\n" + Sent(b);
      SplitAtSeparator(a, Sent(b), '\n');
      SplitOfSent(b);
    } else {
      SplitWithoutSeparator(data, '\n');
      SplitAtSeparator(data, DELIMITER, '\n');
      SplitWithoutSeparator(DELIMITER, '\n');
    }
  }

  // All the lines come out when none is the delimiter; otherwise something is cut off.
  lemma {:induction false} BodyOfLines(lines: seq<string>)
    requires |lines| > 0
    ensures DELIMITER !in lines ==> Body(lines + [DELIMITER]) == Join(lines, '\n') + "\n"
    ensures DELIMITER in lines ==> |Body(lines + [DELIMITER])| <= |Join(lines, '\n')|
  {
    assert (lines + [DELIMITER])[1..] == lines[1..] + [DELIMITER];
    if |lines| == 1 {
      assert Body([DELIMITER]) == "";
    } else {
      BodyOfLines(lines[1..]);
    }
  }

  // Main result for the state file: what is read back is the data and one newline, exactly
  // when no line of the data is the delimiter.
  lemma QuotedRoundTrip(data: string)
    ensures QuotedFile(data) == data + "\n" <==> !HasDelimiterLine(data)
  {
    SplitOfSent(data);
    BodyOfLines(Split(data, '\n'));
    JoinOfSplit(data, '\n');
  }

  // A bare delimiter. Backslash-newline joins two lines before the delimiter is looked for;
  // the body is then expanded.

  // What `$` and backquote stand for: given the text from that character on, the replacement
  // and how many characters it replaces.
  datatype Shell = Shell(expand: string -> (string, nat))

  function JoinContinuations(t: string): string {
    if |t| < 2 then t
    else if t[0] == '\\' && t[1] == '\n' then JoinContinuations(t[2..])
    else if t[0] == '\\' then t[..2] + JoinContinuations(t[2..])
    else t[..1] + JoinContinuations(t[1..])
  }

  function Expand(sh: Shell, t: string): string {
    if t == "" then ""
    else if |t| > 1 && t[0] == '\\' && t[1] in {'\\', '$', '`'} then [t[1]] + Expand(sh, t[2..])
    else if t[0] in {'$', '`'} then
      var (replacement, used) := sh.expand(t);
      replacement + Expand(sh, t[if 0 < used <= |t| then used else 1..])
    else t[..1] + Expand(sh, t[1..])
  }

  // The file that `cat <<EOF > file` leaves.
  function UnquotedFile(sh: Shell, data: string): string {
    Expand(sh, Body(Split(JoinContinuations(Sent(data)), '\n')))
  }

  predicate Plain(t: string) { '$' !in t && '`' !in t }

  // A backslash before a backslash or a newline, the escapes that text without `$` and
  // backquote can hold.
  predicate Escapes(t: string) {
    |t| >= 2 && ((t[0] == '\\' && t[1] in {'\\', '\n'}) || Escapes(t[1..]))
  }

  // The text ends in a backslash that no other backslash escapes.
  predicate Dangling(t: string) {
    if t == "" then false
    else if |t| == 1 then t[0] == '\\'
    else if t[0] == '\\' then Dangling(t[2..])
    else Dangling(t[1..])
  }

  lemma {:induction false} ContinuationsOfSent(u: string)
    requires !Dangling(u)
    ensures JoinContinuations(Sent(u)) == Sent(JoinContinuations(u))
  {
    var t := Sent(u);
    if u == "" {
      assert t[1..] == DELIMITER;
      JoinWithoutBackslash(t);
    } else {
      var k := if u[0] == '\\' then 2 else 1;
      assert t[k..] == Sent(u[k..]) && t[..k] == u[..k];
      ContinuationsOfSent(u[k..]);
      if |u| == 1 { assert u[k..] == ""; }
    }
  }

  lemma {:induction false} JoinWithoutBackslash(t: string)
    requires '\\' !in t
    ensures JoinContinuations(t) == t
  {
    if |t| >= 2 { JoinWithoutBackslash(t[1..]); }
  }

  // A dangling backslash swallows the newline before the delimiter.
  lemma {:induction false} ContinuationsOfDangling(u: string)
    requires Dangling(u)
    ensures u[|u| - 1] == '\\'
    ensures JoinContinuations(Sent(u)) == JoinContinuations(u[..|u| - 1]) + DELIMITER
  {
    var t, w := Sent(u), u[..|u| - 1];
    if |u| == 1 {
      assert t[2..] == DELIMITER;
      JoinWithoutBackslash(DELIMITER);
    } else {
      var k := if u[0] == '\\' then 2 else 1;
      var v := u[k..];
      ContinuationsOfDangling(v);
      assert t[k..] == Sent(v) && t[..k] == u[..k];
      JoinStep(t, k);
      assert w[k..] == v[..|v| - 1] && w[..k] == u[..k];
      if |w| == 1 { assert w[1..] == ""; } else { JoinStep(w, k); }
    }
  }

  lemma JoinStep(t: string, k: nat)
    requires |t| >= 2 && k == if t[0] == '\\' then 2 else 1
    ensures JoinContinuations(t) == (if t[0] == '\\' && t[1] == '\n' then "" else t[..k]) + JoinContinuations(t[k..])
  {
  }

  lemma {:induction false} ContinuationsShrink(u: string)
    ensures |JoinContinuations(u)| <= |u|
    ensures Plain(u) ==> Plain(JoinContinuations(u))
  {
    if |u| >= 2 { ContinuationsShrink(u[if u[0] == '\\' then 2 else 1..]); }
  }

  // Nothing was joined when nothing was lost.
  lemma {:induction false} SameIfAsLong(u: string)
    ensures |JoinContinuations(u)| == |u| ==> JoinContinuations(u) == u
  {
    if |u| >= 2 {
      var k := if u[0] == '\\' then 2 else 1;
      ContinuationsShrink(u[k..]);
      SameIfAsLong(u[k..]);
    }
  }

  lemma {:induction false} ExpansionShrinks(sh: Shell, t: string)
    requires Plain(t)
    ensures |Expand(sh, t)| <= |t|
  {
    if t != "" {
      ExpansionShrinks(sh, t[1..]);
      if |t| > 1 { ExpansionShrinks(sh, t[2..]); }
    }
  }

  lemma {:induction false} BodyStaysPlain(lines: seq<string>)
    requires forall i | 0 <= i < |lines| :: Plain(lines[i])
    ensures Plain(Body(lines))
  {
    if lines != [] { BodyStaysPlain(lines[1..]); }
  }

  lemma {:induction false} PartsStayPlain(s: string)
    requires Plain(s)
    ensures forall i | 0 <= i < |Split(s, '\n')| :: Plain(Split(s, '\n')[i])
  {
    if s != "" { PartsStayPlain(s[1..]); }
  }

  // Text without escapes passes both stages as it is.
  lemma {:induction false} WithoutEscapes(sh: Shell, u: string)
    requires Plain(u) && !Escapes(u + "\n")
    ensures JoinContinuations(u) == u && !Dangling(u)
    ensures Expand(sh, u + "\n") == u + "\n"
  {
    if u == "" {
      assert ("\n")[1..] == "";
    } else {
      assert (u + "\n")[1..] == u[1..] + "\n";
      WithoutEscapes(sh, u[1..]);
      if u[0] == '\\' && |u| > 1 {
        assert u[1] !in {'\\', '\n'};
        assert (u[1..] + "\n")[1..] == u[2..] + "\n";
        WithoutEscapes(sh, u[2..]);
      }
    }
  }

  // An escape makes one of the two stages lose a character.
  lemma {:induction false} WithEscapes(sh: Shell, u: string)
    requires Plain(u) && Escapes(u + "\n") && !Dangling(u)
    ensures |JoinContinuations(u)| < |u| || |Expand(sh, u + "\n")| < |u| + 1
  {
    var t := u + "\n";
    assert u != "" && t[1..] == u[1..] + "\n";
    if |u| == 1 {
    } else if u[0] == '\\' {
      assert t[2..] == u[2..] + "\n";
      ContinuationsShrink(u[2..]);
      ExpansionShrinks(sh, u[2..] + "\n");
      if u[1] !in {'\\', '\n'} {
        assert t[1..][1..] == t[2..];
        WithEscapes(sh, u[2..]);
      }
    } else {
      WithEscapes(sh, u[1..]);
    }
  }

  lemma ExpandOne(sh: Shell, t: string)
    requires t != "" && t[0] !in {'$', '`'} && !(|t| > 1 && t[0] == '\\' && t[1] in {'\\', '$', '`'})
    ensures Expand(sh, t) == t[..1] + Expand(sh, t[1..])
  {
  }

  lemma ExpandEscape(sh: Shell, t: string)
    requires |t| > 1 && t[0] == t[1] == '\\'
    ensures Expand(sh, t) == [t[1]] + Expand(sh, t[2..])
  {
  }

  lemma SuffixOfLonger(a: string, s: string, suffix: string)
    requires HasSuffix(s, suffix)
    ensures HasSuffix(a + s, suffix)
  {
    assert (a + s)[|a + s| - |suffix|..] == s[|s| - |suffix|..];
  }

  lemma ExpandDelimiter(sh: Shell)
    ensures HasSuffix(Expand(sh, "EOF\n"), "F\n")
  {
    var t, u, v := "EOF\n", "OF\n", "F\n";
    assert t[1..] == u && u[1..] == v && v[1..] == "\n" && ("\n")[1..] == "";
    ExpandOne(sh, t);
    ExpandOne(sh, u);
    ExpandOne(sh, v);
    ExpandOne(sh, "\n");
    assert Expand(sh, v) == v;
    SuffixOfLonger(u[..1], v, "F\n");
    SuffixOfLonger(t[..1], Expand(sh, u), "F\n");
  }

  // When a final backslash swallows the delimiter, the delimiter's own text ends the file.
  lemma {:induction false} ExpansionKeepsEnd(sh: Shell, x: string)
    requires Plain(x)
    ensures HasSuffix(Expand(sh, x + "EOF\n"), "F\n")
  {
    var t := x + "EOF\n";
    if x == "" {
      assert t == "EOF\n";
      ExpandDelimiter(sh);
    } else if |x| > 1 && x[0] == '\\' && x[1] == '\\' {
      ExpansionKeepsEnd(sh, x[2..]);
      ExpandEscape(sh, t);
      assert t[2..] == x[2..] + "EOF\n";
      SuffixOfLonger([t[1]], Expand(sh, t[2..]), "F\n");
    } else {
      ExpansionKeepsEnd(sh, x[1..]);
      ExpandOne(sh, t);
      assert t[1..] == x[1..] + "EOF\n";
      SuffixOfLonger(t[..1], Expand(sh, t[1..]), "F\n");
    }
  }

  lemma {:induction false} BodyWithoutDelimiter(lines: seq<string>)
    requires |lines| > 0
    ensures DELIMITER !in lines ==> Body(lines) == Join(lines, '\n') + "\n"
    ensures DELIMITER in lines ==> |Body(lines)| + |DELIMITER| <= |Join(lines, '\n')|
  {
    if |lines| > 1 { BodyWithoutDelimiter(lines[1..]); }
  }

  lemma DelimiterTextStays(sh: Shell, x: string, data: string)
    requires Plain(x) && data != "" && data[|data| - 1] == '\\'
    ensures Expand(sh, x + "EOF\n") != data + "\n"
  {
    ExpansionKeepsEnd(sh, x);
    assert (data + "\n")[|data| - 1] == '\\';
  }

  // What the shell expands then: the data without its backslash, and the delimiter behind it.
  lemma DanglingDocument(data: string)
    requires Plain(data) && Dangling(data)
    ensures data != "" && data[|data| - 1] == '\\'
    ensures var x := JoinContinuations(data[..|data| - 1]);
            && |x| < |data| && Plain(x)
            && JoinContinuations(Sent(data)) == x + DELIMITER && Plain(x + DELIMITER)
  {
    ContinuationsOfDangling(data);
    ContinuationsShrink(data[..|data| - 1]);
  }

  lemma DanglingNeverReturns(sh: Shell, data: string)
    requires Plain(data) && Dangling(data)
    ensures UnquotedFile(sh, data) != data + "\n"
  {
    DanglingDocument(data);
    var x := JoinContinuations(data[..|data| - 1]);
    var s := x + DELIMITER;
    var lines := Split(s, '\n');
    JoinOfSplit(s, '\n');
    BodyWithoutDelimiter(lines);
    if DELIMITER in lines {
      PartsStayPlain(s);
      BodyStaysPlain(lines);
      ExpansionShrinks(sh, Body(lines));
    } else {
      assert Body(lines) == x + "EOF\n";
      DelimiterTextStays(sh, x, data);
    }
  }

  lemma LengthOfQuoted(data: string)
    ensures |QuotedFile(data)| <= |data| + 1
    ensures HasDelimiterLine(data) ==> |QuotedFile(data)| <= |data|
  {
    SplitOfSent(data);
    BodyOfLines(Split(data, '\n'));
    JoinOfSplit(data, '\n');
  }

  lemma QuotedStaysPlain(data: string)
    requires Plain(data)
    ensures Plain(QuotedFile(data))
  {
    PartsStayPlain(Sent(data));
    BodyStaysPlain(Split(Sent(data), '\n'));
  }

  lemma JoinedDocument(sh: Shell, data: string)
    requires Plain(data) && !Dangling(data)
    ensures UnquotedFile(sh, data) == Expand(sh, QuotedFile(JoinContinuations(data)))
    ensures |UnquotedFile(sh, data)| <= |QuotedFile(JoinContinuations(data))|
    ensures |JoinContinuations(data)| <= |data|
  {
    ContinuationsOfSent(data);
    ContinuationsShrink(data);
    QuotedStaysPlain(JoinContinuations(data));
    ExpansionShrinks(sh, QuotedFile(JoinContinuations(data)));
  }

  // Main result for the override: on data without `$` and backquote, the data and one newline
  // are read back exactly when no line is the delimiter and no backslash escapes anything.
  lemma UnquotedRoundTrip(sh: Shell, data: string)
    requires Plain(data)
    ensures UnquotedFile(sh, data) == data + "\n" <==>
            !HasDelimiterLine(data) && !Escapes(data + "\n")
  {
    if Dangling(data) {
      DanglingNeverReturns(sh, data);
      if !Escapes(data + "\n") { WithoutEscapes(sh, data); }
    } else {
      JoinedDocument(sh, data);
      QuotedRoundTrip(JoinContinuations(data));
      LengthOfQuoted(JoinContinuations(data));
      if Escapes(data + "\n") { WithEscapes(sh, data); SameIfAsLong(data); } else { WithoutEscapes(sh, data); }
    }
  }
  lemma {:induction false} NothingToEscape(u: string)
    requires '\\' !in u
    ensures !Escapes(u + "\n")
  {
    if u != "" {
      assert (u + "\n")[1..] == u[1..] + "\n";
      NothingToEscape(u[1..]);
    }
  }

  // No line of t is joined, and t is expanded to u.
  predicate Becomes(sh: Shell, t: string, u: string) {
    JoinContinuations(t) == t && !Dangling(t) && Expand(sh, t + "\n") == u + "\n"
  }

  lemma PairFirst(sh: Shell, y: string)
    requires Plain(y) && '\\' !in y
    ensures Becomes(sh, "\\\\" + y, "\\" + y)
  {
    var t := "\\\\" + y;
    assert t[2..] == y && (t + "\n")[2..] == y + "\n";
    NothingToEscape(y);
    WithoutEscapes(sh, y);
    ExpandEscape(sh, t + "\n");
  }

  lemma OneMoreChar(sh: Shell, c: char, t: string, u: string)
    requires Becomes(sh, t, u) && c !in {'\\', '$', '`'}
    ensures Becomes(sh, [c] + t, [c] + u)
  {
    var v := [c] + t;
    assert v[1..] == t && (v + "\n")[1..] == t + "\n";
    ExpandOne(sh, v + "\n");
  }

  lemma {:induction false} OnePair(sh: Shell, x: string, y: string)
    requires Plain(x) && Plain(y) && '\\' !in x && '\\' !in y
    ensures Becomes(sh, x + "\\\\" + y, x + "\\" + y)
  {
    if x == "" {
      PairFirst(sh, y);
      assert x + "\\\\" + y == "\\\\" + y && x + "\\" + y == "\\" + y;
    } else {
      var t, u := x[1..] + "\\\\" + y, x[1..] + "\\" + y;
      OnePair(sh, x[1..], y);
      OneMoreChar(sh, x[0], t, u);
      assert [x[0]] + t == x + "\\\\" + y && [x[0]] + u == x + "\\" + y;
    }
  }

  // A backslash that stands doubled in the data comes back single, whatever stands around it.
  lemma DoubledBackslashIsHalved(sh: Shell, x: string, y: string)
    requires Plain(x) && Plain(y) && '\\' !in x && '\\' !in y
    requires !HasDelimiterLine(x + "\\\\" + y)
    ensures UnquotedFile(sh, x + "\\\\" + y) == x + "\\" + y + "\n"
  {
    OnePair(sh, x, y);
    JoinedDocument(sh, x + "\\\\" + y);
    QuotedRoundTrip(x + "\\\\" + y);
  }

  lemma {:induction false} PartsLack(s: string, c: char)
    requires c !in s
    ensures forall p <- Split(s, '\n') :: c !in p
  {
    if s != "" { PartsLack(s[1..], c); }
  }

  // Text that passes the shell as it is, delimiter included.
  predicate Tame(t: string) { forall c <- t :: c !in {'\\', '$', '`', 'E'} }

  lemma TameAroundPair(sh: Shell, x: string, y: string)
    requires Tame(x) && Tame(y)
    ensures UnquotedFile(sh, x + "\\\\" + y) == x + "\\" + y + "\n"
  {
    PartsLack(x + "\\\\" + y, 'E');
    assert DELIMITER[0] == 'E';
    DoubledBackslashIsHalved(sh, x, y);
  }

  lemma FrontIsTame(x: string)
    requires x == "services:\n  web:\n    hostname: a"
    ensures Tame(x)
  {
  }

  lemma EndIsTame(y: string)
    requires y == "b-2\n    image: app:2\n"
    ensures Tame(y)
  {
  }

  // An override whose hostname holds two backslashes reaches the remote host with one.
  lemma HostnameLosesBackslash(sh: Shell, x: string, y: string)
    requires x == "services:\n  web:\n    hostname: a" && y == "b-2\n    image: app:2\n"
    ensures UnquotedFile(sh, x + "\\\\" + y) == x + "\\" + y + "\n"
  {
    FrontIsTame(x);
    EndIsTame(y);
    TameAroundPair(sh, x, y);
  }
}

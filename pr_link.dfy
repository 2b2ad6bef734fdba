/** The pull-request link recogniser of the intake handler
    (lambda/slack/main.go:23): the Go regular expression

      (?m)^https:\/\/github.com\/([\w-]*)\/([\w-]*)\/pull\/(\d*)$

    read the way Go's RE2 engine reads it. `(?m)` makes `^` and `$` match at
    every line boundary, so the input is accepted when any one of its lines
    (split at '\n') matches the whole pattern. The `.` of "github.com" is not
    escaped: it stands for any character but '\n'. `\w` is [0-9A-Za-z_], `\d`
    is [0-9], and the starred groups may be empty. */
module PrLink {
  import opened Wrappers
  import opened Text

  /** The three capture groups: owner, repository and pull request number. */
  datatype PrRef = PrRef(owner: string, repo: string, id: string)

  predicate IsWordChar(c: char) {
    'a' <= c <= 'z' || 'A' <= c <= 'Z' || '0' <= c <= '9' || c == '_'
  }

  /** A character of `[\w-]`. */
  predicate IsSegmentChar(c: char) {
    IsWordChar(c) || c == '-'
  }

  /** A string matching `[\w-]*`. */
  predicate IsSegment(s: string) {
    forall i :: 0 <= i < |s| ==> IsSegmentChar(s[i])
  }

  const Scheme := "https://github"   // the literal text before the unescaped '.'
  const HostTail := "com/"            // the literal text after it
  const PullInfix := "/pull/"
  /** "https://github.com/", the host part of a canonical link. */
  const CanonicalHost := Scheme + "." + HostTail

  /** The text after the host: owner, '/', repository, "/pull/", number. */
  function Path(ref: PrRef): string {
    ref.owner + ("/" + (ref.repo + (PullInfix + ref.id)))
  }

  /** The groups are drawn from their character classes. */
  predicate WellFormed(ref: PrRef) {
    IsSegment(ref.owner) && IsSegment(ref.repo) && AllDigits(ref.id)
  }

  /** The declarative reading of the pattern on one line: `line` is the
      scheme, one character other than '\n', "com/" and the path of a
      well-formed `ref`. */
  predicate Denotes(line: string, ref: PrRef) {
    && |line| > |Scheme|
    && line[|Scheme|] != '\n'
    && line == Scheme + ([line[|Scheme|]] + (HostTail + Path(ref)))
    && WellFormed(ref)
  }

  /** Length of the longest prefix of `s` drawn from `[\w-]`. */
  function SegmentLength(s: string): (k: nat)
    ensures k <= |s| && IsSegment(s[..k])
    ensures k < |s| ==> !IsSegmentChar(s[k])
  {
    if |s| == 0 || !IsSegmentChar(s[0]) then 0
    else
      var k := 1 + SegmentLength(s[1..]);
      assert s[..k] == [s[0]] + s[1..][..k - 1];
      k
  }

  const PathStart := |Scheme| + 1 + |HostTail|

  /** The part of the pattern before the first group. */
  predicate HostMatches(line: string) {
    && |line| >= PathStart
    && line[..|Scheme|] == Scheme
    && line[|Scheme|] != '\n'
    && line[|Scheme| + 1..PathStart] == HostTail
  }

  /** Splits `s` after its longest `[\w-]` prefix. */
  function SplitSegment(s: string): (r: (string, string))
    ensures s == r.0 + r.1 && IsSegment(r.0)
    ensures |r.1| > 0 ==> !IsSegmentChar(r.1[0])
  {
    var k := SegmentLength(s);
    assert s == s[..k] + s[k..];
    (s[..k], s[k..])
  }

  /** The groups part of the pattern, anchored at both ends. A `[\w-]*`
      group can never swallow the '/' that follows it, so the longest
      segment is the only possible one. */
  function MatchPath(rest: string): Option<PrRef> {
    var (owner, afterOwner) := SplitSegment(rest);
    if |afterOwner| == 0 || afterOwner[0] != '/' then None
    else
      var (repo, tail) := SplitSegment(afterOwner[1..]);
      if HasPrefix(tail, PullInfix) && AllDigits(tail[|PullInfix|..])
      then Some(PrRef(owner, repo, tail[|PullInfix|..]))
      else None
  }

  /** Matches one line against the whole pattern and returns its groups. */
  function MatchLine(line: string): Option<PrRef> {
    if HostMatches(line) then MatchPath(line[PathStart..]) else None
  }

  /** The longest segment of `seg + t` is `seg` when `t` starts with a
      character outside `[\w-]`. */
  lemma {:induction false} SegmentLengthStops(seg: string, t: string)
    requires IsSegment(seg) && |t| > 0 && !IsSegmentChar(t[0])
    ensures SegmentLength(seg + t) == |seg|
  {
    if |seg| > 0 {
      assert (seg + t)[1..] == seg[1..] + t;
      SegmentLengthStops(seg[1..], t);
    }
  }

  lemma MatchPathSound(rest: string, ref: PrRef)
    requires MatchPath(rest) == Some(ref)
    ensures rest == Path(ref) && WellFormed(ref)
  {
    var p1 := SplitSegment(rest);
    var p2 := SplitSegment(p1.1[1..]);
    var id := p2.1[|PullInfix|..];
    assert ref == PrRef(p1.0, p2.0, id);
    assert p2.1 == PullInfix + id by {
      assert p2.1 == p2.1[..|PullInfix|] + id;
    }
    assert p1.1 == "/" + (p2.0 + (PullInfix + id)) by {
      assert p1.1 == [p1.1[0]] + p1.1[1..];
    }
    assert rest == p1.0 + ("/" + (p2.0 + (PullInfix + id)));
  }

  lemma MatchPathComplete(ref: PrRef)
    requires WellFormed(ref)
    ensures MatchPath(Path(ref)) == Some(ref)
  {
    var rest2 := ref.repo + (PullInfix + ref.id);
    assert Path(ref) == ref.owner + ("/" + rest2);
    SegmentLengthStops(ref.owner, "/" + rest2);
    assert SplitSegment(Path(ref)) == (ref.owner, "/" + rest2);
    assert ("/" + rest2)[1..] == rest2;
    SegmentLengthStops(ref.repo, PullInfix + ref.id);
    assert SplitSegment(rest2) == (ref.repo, PullInfix + ref.id);
  }

  lemma DenotesSplit(line: string, ref: PrRef)
    ensures Denotes(line, ref) <==>
      HostMatches(line) && line[PathStart..] == Path(ref) && WellFormed(ref)
  {
    if HostMatches(line) && line[PathStart..] == Path(ref) {
      HostAndPathDenote(line, ref);
    }
    if Denotes(line, ref) {
      DenotedHostAndPath(line, ref);
    }
  }

  /** A line that starts with the host part and continues with a path is
      that host text followed by the path. */
  lemma HostAndPathDenote(line: string, ref: PrRef)
    requires HostMatches(line) && line[PathStart..] == Path(ref)
    ensures line == Scheme + ([line[|Scheme|]] + (HostTail + Path(ref)))
  {
    assert line == line[..PathStart] + line[PathStart..];
    assert line[..PathStart] == Scheme + [line[|Scheme|]] + HostTail;
  }

  /** A line the pattern describes starts with the host part, and the path
      follows it. */
  lemma DenotedHostAndPath(line: string, ref: PrRef)
    requires Denotes(line, ref)
    ensures HostMatches(line) && line[PathStart..] == Path(ref)
  {
    var head := Scheme + [line[|Scheme|]] + HostTail;
    assert line == head + Path(ref);
    assert line[..|Scheme|] == head[..|Scheme|] == Scheme;
    assert line[|Scheme| + 1..PathStart] == head[|Scheme| + 1..PathStart] == HostTail;
  }

  /** The matcher finds exactly the groups the pattern describes: it is sound
      and complete with respect to `Denotes`. */
  lemma MatchLineCorrect(line: string, ref: PrRef)
    ensures MatchLine(line) == Some(ref) <==> Denotes(line, ref)
  {
    DenotesSplit(line, ref);
    if MatchLine(line) == Some(ref) {
      MatchPathSound(line[PathStart..], ref);
    }
    if Denotes(line, ref) {
      MatchPathComplete(ref);
    }
  }

  // ---------------------------------------------------------------------------
  // Lines and the multi-line flag

  /** The lines of `s`, split at every '\n' (a trailing '\n' leaves an empty
      last line). These are the stretches between the places where `(?m)^`
      and `$` match. */
  function Lines(s: string): (ls: seq<string>)
    ensures |ls| > 0
  {
    if |s| == 0 then [""]
    else
      var rest := Lines(s[1..]);
      if s[0] == '\n' then [""] + rest else [[s[0]] + rest[0]] + rest[1..]
  }

  /** Joins lines with '\n', the inverse of `Lines`. */
  function JoinLines(ls: seq<string>): string
    requires |ls| > 0
  {
    if |ls| == 1 then ls[0] else ls[0] + "\n" + JoinLines(ls[1..])
  }

  lemma {:induction false} LinesJoin(s: string)
    ensures JoinLines(Lines(s)) == s
    ensures forall i :: 0 <= i < |Lines(s)| ==> '\n' !in Lines(s)[i]
  {
    if |s| > 0 {
      LinesJoin(s[1..]);
      var rest := Lines(s[1..]);
      if s[0] == '\n' {
        assert s == "\n" + s[1..];
      } else {
        var ls := Lines(s);
        assert ls[1..] == rest[1..];
        if |rest| == 1 {
          assert s == [s[0]] + rest[0];
        } else {
          assert JoinLines(rest) == rest[0] + "\n" + JoinLines(rest[1..]);
          assert JoinLines(ls) == ([s[0]] + rest[0]) + "\n" + JoinLines(rest[1..]);
        }
        forall i | 0 <= i < |ls| ensures '\n' !in ls[i] {
          if i > 0 { assert ls[i] == rest[i]; }
        }
      }
    }
  }

  /** A string without '\n' is a single line. */
  lemma {:induction false} LinesOfOneLine(s: string)
    requires '\n' !in s
    ensures Lines(s) == [s]
  {
    if |s| > 0 {
      assert '\n' !in s[1..];
      LinesOfOneLine(s[1..]);
      assert s == [s[0]] + s[1..];
    }
  }

  /** Lines of a text that continues after a '\n'. */
  lemma {:induction false} LinesAppend(a: string, b: string)
    ensures Lines(a + "\n" + b) == Lines(a) + Lines(b)
  {
    if |a| == 0 {
      assert a + "\n" + b == "\n" + b;
      assert ("\n" + b)[1..] == b;
    } else {
      assert (a + "\n" + b)[1..] == a[1..] + "\n" + b;
      LinesAppend(a[1..], b);
    }
  }

  /** Index of the first line on which `matcher` succeeds, or `|ls|` when it
      succeeds on none. */
  function FirstHit(ls: seq<string>, matcher: string -> Option<PrRef>): (k: nat)
    ensures k <= |ls|
    ensures forall j :: 0 <= j < k ==> matcher(ls[j]).None?
    ensures k < |ls| ==> matcher(ls[k]).Some?
  {
    if |ls| == 0 || matcher(ls[0]).Some? then 0
    else 1 + FirstHit(ls[1..], matcher)
  }

  /** What `matcher` finds on the first line where it succeeds. */
  function FirstMatch(ls: seq<string>, matcher: string -> Option<PrRef>): Option<PrRef> {
    var k := FirstHit(ls, matcher);
    if k < |ls| then matcher(ls[k]) else None
  }

  /** prUrlRegexp.FindStringSubmatch: the groups of the leftmost match,
      which lies on the first line that matches the whole pattern. */
  function FindSubmatch(s: string): Option<PrRef> {
    FirstMatch(Lines(s), MatchLine)
  }

  /** prUrlRegexp.MatchString. */
  predicate MatchString(s: string) {
    FindSubmatch(s).Some?
  }

  /** Some line of `ls` is, as a whole, an instance of the pattern. */
  ghost predicate SomeLineDenotes(ls: seq<string>) {
    exists i, ref :: 0 <= i < |ls| && Denotes(ls[i], ref)
  }

  /** Some line has a match iff some line is, as a whole, an instance of the
      pattern. */
  lemma FirstMatchIffSomeDenotes(ls: seq<string>)
    ensures FirstMatch(ls, MatchLine).Some? <==> SomeLineDenotes(ls)
  {
    var k := FirstHit(ls, MatchLine);
    if k < |ls| {
      MatchLineCorrect(ls[k], MatchLine(ls[k]).value);
    }
    if SomeLineDenotes(ls) {
      var i, ref :| 0 <= i < |ls| && Denotes(ls[i], ref);
      MatchLineCorrect(ls[i], ref);
    }
  }

  /** Line `k` of `ls` is, as a whole, the link of `ref`, and no earlier line
      is the link of any pull request. */
  ghost predicate FirstDenoting(ls: seq<string>, k: int, ref: PrRef) {
    && 0 <= k < |ls|
    && Denotes(ls[k], ref)
    && forall j, other :: 0 <= j < k ==> !Denotes(ls[j], other)
  }

  /** A line the matcher rejects is not the link of any pull request. */
  lemma NoMatchNoLink(line: string)
    requires MatchLine(line).None?
    ensures forall other :: !Denotes(line, other)
  {
    forall other ensures !Denotes(line, other) {
      MatchLineCorrect(line, other);
    }
  }

  /** The groups found on the first matching line are those of the first
      line that is a link. */
  lemma FirstMatchIsFirstDenoting(ls: seq<string>, ref: PrRef)
    requires FirstMatch(ls, MatchLine) == Some(ref)
    ensures FirstDenoting(ls, FirstHit(ls, MatchLine), ref)
  {
    var h := FirstHit(ls, MatchLine);
    MatchLineCorrect(ls[h], ref);
    forall j | 0 <= j < h ensures forall other :: !Denotes(ls[j], other) {
      NoMatchNoLink(ls[j]);
    }
  }

  /** The first line that is a link is the first line the matcher accepts,
      with the same groups. */
  lemma FirstDenotingIsFirstMatch(ls: seq<string>, k: int, ref: PrRef)
    requires FirstDenoting(ls, k, ref)
    ensures FirstHit(ls, MatchLine) == k && FirstMatch(ls, MatchLine) == Some(ref)
  {
    var h := FirstHit(ls, MatchLine);
    MatchLineCorrect(ls[k], ref);
    if h < k {
      MatchLineCorrect(ls[h], MatchLine(ls[h]).value);
      assert false;
    }
  }

  /** The matcher yields the groups of the first line that is an instance of
      the pattern, and fails when there is none. */
  lemma FirstMatchFirstDenoting(ls: seq<string>, ref: PrRef)
    ensures FirstMatch(ls, MatchLine) == Some(ref) <==> exists k :: FirstDenoting(ls, k, ref)
  {
    if FirstMatch(ls, MatchLine) == Some(ref) {
      FirstMatchIsFirstDenoting(ls, ref);
    }
    if exists k :: FirstDenoting(ls, k, ref) {
      var k :| FirstDenoting(ls, k, ref);
      FirstDenotingIsFirstMatch(ls, k, ref);
    }
  }

  /** FindStringSubmatch returns the groups of the first line of the text
      that is, as a whole, a link to a pull request. */
  lemma FindSubmatchFirstDenoting(s: string, ref: PrRef)
    ensures FindSubmatch(s) == Some(ref) ==> FirstDenoting(Lines(s), FirstHit(Lines(s), MatchLine), ref)
    ensures forall k :: FirstDenoting(Lines(s), k, ref) ==> FindSubmatch(s) == Some(ref)
  {
    var ls := Lines(s);
    if FindSubmatch(s) == Some(ref) {
      FirstMatchIsFirstDenoting(ls, ref);
    }
    forall k | FirstDenoting(ls, k, ref) ensures FindSubmatch(s) == Some(ref) {
      FirstDenotingIsFirstMatch(ls, k, ref);
    }
  }

  /** A link is accepted iff one of its lines is, as a whole, an instance of
      the pattern. */
  lemma MatchStringIffSomeLine(s: string)
    ensures MatchString(s) <==> SomeLineDenotes(Lines(s))
  {
    FirstMatchIffSomeDenotes(Lines(s));
  }

  lemma NoNewlineInLiterals()
    ensures '\n' !in Scheme && '\n' !in HostTail && '\n' !in PullInfix
  {
  }

  lemma NoNewlineInPath(ref: PrRef)
    requires WellFormed(ref)
    ensures '\n' !in Path(ref)
  {
    assert '\n' !in ref.owner && '\n' !in ref.repo && '\n' !in ref.id;
    NoNewlineInLiterals();
    assert '\n' !in PullInfix + ref.id;
    assert '\n' !in "/" + (ref.repo + (PullInfix + ref.id));
  }

  /** Any one character other than '\n' may stand between "github" and
      "com": a single-line link of that shape is accepted and yields its
      three groups. */
  lemma {:induction false} ParseLink(c: char, ref: PrRef)
    requires c != '\n' && WellFormed(ref)
    ensures FindSubmatch(Scheme + ([c] + (HostTail + Path(ref)))) == Some(ref)
  {
    var line := Scheme + ([c] + (HostTail + Path(ref)));
    LinkIsOneLine(c, ref);
    MatchLineCorrect(line, ref);
    FindSubmatchOneLine(line);
  }

  /** Such a link is a single line that is an instance of the pattern. */
  lemma LinkIsOneLine(c: char, ref: PrRef)
    requires c != '\n' && WellFormed(ref)
    ensures var line := Scheme + ([c] + (HostTail + Path(ref)));
            '\n' !in line && Denotes(line, ref)
  {
    var line := Scheme + ([c] + (HostTail + Path(ref)));
    assert line[|Scheme|] == c;
    NoNewlineInPath(ref);
    NoNewlineInLiterals();
    assert '\n' !in HostTail + Path(ref);
    assert '\n' !in [c] + (HostTail + Path(ref));
  }

  /** On a text without '\n' the pattern is matched against the whole
      text. */
  lemma FindSubmatchOneLine(line: string)
    requires '\n' !in line
    ensures FindSubmatch(line) == MatchLine(line)
  {
    LinesOfOneLine(line);
    if MatchLine(line).Some? {
      assert FirstHit([line], MatchLine) == 0;
    }
  }

  /** Round trip: the canonical link built from an owner, a repository and a
      number made of the allowed characters is accepted and parsed back into
      exactly those three parts. */
  lemma ParseCanonicalLink(owner: string, repo: string, id: string)
    requires IsSegment(owner) && IsSegment(repo) && AllDigits(id)
    ensures FindSubmatch(CanonicalHost + owner + "/" + repo + PullInfix + id)
            == Some(PrRef(owner, repo, id))
  {
    var ref := PrRef(owner, repo, id);
    CanonicalShape(ref);
    ParseLink('.', ref);
  }

  /** The canonical link is the general shape with '.' for the free character. */
  lemma CanonicalShape(ref: PrRef)
    ensures CanonicalHost + ref.owner + "/" + ref.repo + PullInfix + ref.id
            == Scheme + (['.'] + (HostTail + Path(ref)))
  {
  }

  /** Earlier lines that do not match are skipped: the groups of a
      multi-line submission come from its first matching line. */
  lemma MatchOnLaterLine(junk: string, link: string)
    requires !MatchString(junk)
    ensures FindSubmatch(junk + "\n" + link) == FindSubmatch(link)
  {
    LinesAppend(junk, link);
    FirstMatchAppend(Lines(junk), Lines(link), MatchLine);
  }

  /** Lines on which `matcher` fails, put in front, change nothing. */
  lemma FirstMatchAppend(a: seq<string>, b: seq<string>, matcher: string -> Option<PrRef>)
    requires FirstMatch(a, matcher).None?
    ensures FirstMatch(a + b, matcher) == FirstMatch(b, matcher)
  {
    var k := FirstHit(b, matcher);
    assert FirstHit(a, matcher) == |a|;
    forall j | 0 <= j < |b| ensures (a + b)[|a| + j] == b[j] { }
    assert FirstHit(a + b, matcher) == |a| + k;
  }

  /** The unescaped '.' and the empty groups let through links that are not
      pull requests of github.com, such as one with '-' for the dot and
      nothing in any group. */
  lemma LooseLinksAccepted(c: char)
    requires c != '\n'
    ensures FindSubmatch("https://github" + [c] + "com///pull/") == Some(PrRef("", "", ""))
  {
    var ref := PrRef("", "", "");
    ParseLink(c, ref);
    assert PullInfix + "" == PullInfix;
    assert Path(ref) == "/" + PullInfix;
    assert "https://github" + [c] + "com///pull/" == Scheme + ([c] + (HostTail + ("/" + PullInfix)));
  }
}

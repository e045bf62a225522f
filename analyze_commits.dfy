/**
 * The release-type suggestion of scripts/analyze-commits.js: each commit
 * header is parsed as a Conventional Commits header (a type of ASCII letters,
 * an optional parenthesised scope, an optional `!`, a colon, optional white
 * space and a one-line subject), classified as a bump, and the bumps are
 * folded into the most significant one.
 *
 * The output of `git log -n <n> --pretty=%s` is given as a string; what the
 * script prints per commit is not modelled, only the overall suggestion.
 */
module AnalyzeCommits {
  import opened Wrappers
  import opened Strings
  import opened Filtering

  /** What `parseHeader` returns for a matching header. */
  datatype Header = Header(kind: string, scope: Option<string>, breaking: bool, subject: string)

  /** The letters the case-insensitive `[a-z]` class accepts. */
  predicate IsAsciiLetter(c: char) {
    'a' <= c <= 'z' || 'A' <= c <= 'Z'
  }

  predicate NotCloseParen(c: char) {
    c != ')'
  }

  /** The text has no character the regex `.` refuses. */
  predicate OneLine(t: string) {
    forall i :: 0 <= i < |t| ==> !IsLineTerminator(t[i])
  }

  predicate AllSpace(t: string) {
    forall i :: 0 <= i < |t| ==> IsJsSpace(t[i])
  }

  /**
   * `parseHeader`: the header regex matched by hand, stage by stage on what
   * is left of the header. The type is the whole leading run of letters.
   */
  function ParseHeader(h: string): Option<Header> {
    var n := RunFrom(h, 0, IsAsciiLetter);
    if n == 0 then None else ParseScope(h[..n], h[n..])
  }

  /** A `(` after the type must open a non-empty scope, closed by the first `)`. */
  function ParseScope(kind: string, t: string): Option<Header> {
    if |t| > 0 && t[0] == '(' then
      var close := RunFrom(t, 1, NotCloseParen);
      if close == 1 || close == |t| then None
      else ParseBang(kind, Some(t[1..close]), t[close + 1..])
    else ParseBang(kind, None, t)
  }

  /** An optional `!` marks a breaking change. */
  function ParseBang(kind: string, scope: Option<string>, t: string): Option<Header> {
    if |t| > 0 && t[0] == '!' then ParseColon(kind, scope, true, t[1..])
    else ParseColon(kind, scope, false, t)
  }

  /** The colon, the longest run of white space, and a subject that runs to the end without a line terminator. */
  function ParseColon(kind: string, scope: Option<string>, breaking: bool, t: string): Option<Header> {
    if |t| == 0 || t[0] != ':' then None
    else
      var s := RunFrom(t, 1, IsJsSpace);
      if OneLine(t[s..]) then Some(Header(kind, scope, breaking, t[s..])) else None
  }

  /** A subject the parser can return: one line, not opening with white space. */
  predicate GoodSubject(subject: string) {
    OneLine(subject) && (subject == "" || !IsJsSpace(subject[0]))
  }

  /** The headers the parser can return: a non-empty letter type, a non-empty scope without `)`, a good subject. */
  predicate WellFormed(hd: Header) {
    |hd.kind| > 0 && (forall i :: 0 <= i < |hd.kind| ==> IsAsciiLetter(hd.kind[i]))
    && (hd.scope.Some? ==> |hd.scope.value| > 0 && ')' !in hd.scope.value)
    && GoodSubject(hd.subject)
  }

  /** The text of a scope, with its parentheses. */
  function ScopeText(scope: Option<string>): string {
    if scope.Some? then "(" + scope.value + ")" else ""
  }

  function BangText(breaking: bool): string {
    if breaking then "!" else ""
  }

  /** What follows the scope: `!`, colon, `gap` and subject. */
  function AfterScope(hd: Header, gap: string): string {
    BangText(hd.breaking) + ":" + gap + hd.subject
  }

  /** What follows the type: scope, `!`, colon, `gap` and subject. */
  function Tail(hd: Header, gap: string): string {
    ScopeText(hd.scope) + AfterScope(hd, gap)
  }

  /** A header written out, with `gap` between the colon and the subject. */
  function Render(hd: Header, gap: string): string {
    hd.kind + Tail(hd, gap)
  }

  lemma ColonRender(kind: string, scope: Option<string>, breaking: bool, gap: string, subject: string)
    requires AllSpace(gap) && GoodSubject(subject)
    ensures ParseColon(kind, scope, breaking, ":" + gap + subject) == Some(Header(kind, scope, breaking, subject))
  {
    var t := ":" + gap + subject;
    assert forall i :: 1 <= i < 1 + |gap| ==> t[i] == gap[i - 1];
    assert t[1 + |gap|..] == subject;
    RunEndsAt(t, 1, IsJsSpace, 1 + |gap|);
  }

  lemma BangRender(hd: Header, gap: string)
    requires AllSpace(gap) && GoodSubject(hd.subject)
    ensures ParseBang(hd.kind, hd.scope, AfterScope(hd, gap)) == Some(hd)
  {
    var rest := ":" + gap + hd.subject;
    ColonRender(hd.kind, hd.scope, hd.breaking, gap, hd.subject);
    assert AfterScope(hd, gap) == BangText(hd.breaking) + rest;
    if hd.breaking {
      assert ("!" + rest)[1..] == rest;
    } else {
      assert ("" + rest) == rest && rest[0] == ':';
    }
  }

  lemma ScopeRender(hd: Header, gap: string)
    requires WellFormed(hd) && AllSpace(gap)
    ensures ParseScope(hd.kind, Tail(hd, gap)) == Some(hd)
  {
    var rest := AfterScope(hd, gap);
    BangRender(hd, gap);
    var t := Tail(hd, gap);
    if hd.scope.Some? {
      var scope := hd.scope.value;
      assert t == "(" + scope + ")" + rest;
      assert forall i :: 1 <= i < 1 + |scope| ==> t[i] == scope[i - 1];
      RunEndsAt(t, 1, NotCloseParen, 1 + |scope|);
      assert t[1..1 + |scope|] == scope;
      assert t[2 + |scope|..] == rest;
    } else {
      assert t == rest;
    }
  }

  /** What follows the type opens with `(`, `!` or `:`, so the type's run of letters stops there. */
  lemma TailOpens(hd: Header, gap: string)
    ensures |Tail(hd, gap)| > 0 && !IsAsciiLetter(Tail(hd, gap)[0])
  {
    var after := AfterScope(hd, gap);
    assert |after| > 0 && after[0] == (if hd.breaking then '!' else ':') by {
      assert after == (BangText(hd.breaking) + ":") + gap + hd.subject;
    }
    if hd.scope.Some? {
      assert ScopeText(hd.scope)[0] == '(';
    } else {
      assert Tail(hd, gap) == after;
    }
  }

  /** Every well-formed header, written with any white space after the colon (none included), is parsed back to itself. */
  lemma ParseRender(hd: Header, gap: string)
    requires WellFormed(hd) && AllSpace(gap)
    ensures ParseHeader(Render(hd, gap)) == Some(hd)
  {
    var h := Render(hd, gap);
    var n := |hd.kind|;
    var t := Tail(hd, gap);
    assert h[..n] == hd.kind && h[n..] == t;
    assert RunFrom(h, 0, IsAsciiLetter) == n by {
      TailOpens(hd, gap);
      RunEndsAt(h, 0, IsAsciiLetter, n);
    }
    ScopeRender(hd, gap);
  }

  /** The white space the colon stage skips. */
  function ColonGap(t: string): string
    requires |t| > 0
  {
    t[1..RunFrom(t, 1, IsJsSpace)]
  }

  /** The white space skipped after the optional `!`. */
  function BangGap(t: string): string {
    if |t| > 0 && t[0] == '!' then (if |t| > 1 then ColonGap(t[1..]) else "")
    else if |t| > 0 then ColonGap(t) else ""
  }

  /** The white space skipped after the optional scope. */
  function ScopeGap(t: string): string {
    if |t| > 0 && t[0] == '(' then
      var close := RunFrom(t, 1, NotCloseParen);
      if close == |t| then "" else BangGap(t[close + 1..])
    else BangGap(t)
  }

  lemma ColonSound(kind: string, scope: Option<string>, breaking: bool, t: string)
    requires ParseColon(kind, scope, breaking, t).Some?
    ensures var hd := ParseColon(kind, scope, breaking, t).value;
            hd.kind == kind && hd.scope == scope && hd.breaking == breaking && GoodSubject(hd.subject)
            && AllSpace(ColonGap(t)) && t == ":" + ColonGap(t) + hd.subject
  {
    var s := RunFrom(t, 1, IsJsSpace);
    var gap := t[1..s];
    HeadPieceRest(t, s);
    assert AllSpace(gap) by {
      assert forall i :: 0 <= i < |gap| ==> gap[i] == t[1 + i];
    }
  }

  lemma BangSound(kind: string, scope: Option<string>, t: string)
    requires ParseBang(kind, scope, t).Some?
    ensures var hd := ParseBang(kind, scope, t).value;
            hd.kind == kind && hd.scope == scope && GoodSubject(hd.subject)
            && AllSpace(BangGap(t)) && t == AfterScope(hd, BangGap(t))
  {
    var hd := ParseBang(kind, scope, t).value;
    AfterScopeText(hd, BangGap(t));
    if |t| > 0 && t[0] == '!' {
      MarkedSound(kind, scope, t);
    } else {
      assert ParseBang(kind, scope, t) == ParseColon(kind, scope, false, t) && BangGap(t) == ColonGap(t);
      ColonSound(kind, scope, false, t);
    }
  }

  /** What follows the scope is the mark, then the colon part. */
  lemma AfterScopeText(hd: Header, gap: string)
    ensures AfterScope(hd, gap) == BangText(hd.breaking) + (":" + gap + hd.subject)
    ensures !hd.breaking ==> AfterScope(hd, gap) == ":" + gap + hd.subject
  {
  }

  /** The `!` stage when the mark is present: the rest is the colon stage's text. */
  lemma MarkedSound(kind: string, scope: Option<string>, t: string)
    requires |t| > 0 && t[0] == '!' && ParseBang(kind, scope, t).Some?
    ensures var hd := ParseBang(kind, scope, t).value;
            hd.kind == kind && hd.scope == scope && hd.breaking && GoodSubject(hd.subject)
            && AllSpace(BangGap(t)) && t == "!" + (":" + BangGap(t) + hd.subject)
  {
    var rest := t[1..];
    assert ParseBang(kind, scope, t) == ParseColon(kind, scope, true, rest) && BangGap(t) == ColonGap(rest);
    ColonSound(kind, scope, true, rest);
    HeadRest(t);
  }

  /** A text cut around its first character and the character at `close`. */
  lemma Bracketed(t: string, close: nat)
    requires 0 < close < |t|
    ensures t == [t[0]] + t[1..close] + [t[close]] + t[close + 1..]
  {
    assert t[..close] == [t[0]] + t[1..close];
    assert t[close..] == [t[close]] + t[close + 1..];
    assert t == t[..close] + t[close..];
  }

  /** A present scope: the first `)` closes a non-empty text without `)`, and the `!` stage parses what follows it. */
  lemma ScopeSplit(kind: string, t: string, close: nat)
    requires |t| > 0 && t[0] == '(' && ParseScope(kind, t).Some?
    requires close == RunFrom(t, 1, NotCloseParen)
    ensures 1 < close < |t| && ')' !in t[1..close] && t == "(" + t[1..close] + ")" + t[close + 1..]
    ensures ParseScope(kind, t) == ParseBang(kind, Some(t[1..close]), t[close + 1..])
    ensures ScopeGap(t) == BangGap(t[close + 1..])
  {
    var scope := t[1..close];
    Bracketed(t, close);
    assert ')' !in scope by {
      assert forall i :: 0 <= i < |scope| ==> scope[i] == t[1 + i];
    }
  }

  /** The scope stage when a scope is present: the parentheses hold a non-empty text without `)`. */
  lemma ScopedSound(kind: string, t: string)
    requires |t| > 0 && t[0] == '(' && ParseScope(kind, t).Some?
    ensures var hd := ParseScope(kind, t).value;
            hd.kind == kind && hd.scope.Some? && |hd.scope.value| > 0 && ')' !in hd.scope.value && GoodSubject(hd.subject)
            && AllSpace(ScopeGap(t)) && t == Tail(hd, ScopeGap(t))
  {
    var close := RunFrom(t, 1, NotCloseParen);
    ScopeSplit(kind, t, close);
    BangSound(kind, Some(t[1..close]), t[close + 1..]);
  }

  lemma ScopeSound(kind: string, t: string)
    requires ParseScope(kind, t).Some?
    ensures var hd := ParseScope(kind, t).value;
            hd.kind == kind && (hd.scope.Some? ==> |hd.scope.value| > 0 && ')' !in hd.scope.value) && GoodSubject(hd.subject)
            && AllSpace(ScopeGap(t)) && t == Tail(hd, ScopeGap(t))
  {
    if |t| > 0 && t[0] == '(' {
      ScopedSound(kind, t);
    } else {
      BangSound(kind, None, t);
    }
  }

  /** Whatever the parser accepts is a well-formed header written with some white space after the colon. */
  lemma ParseSound(h: string)
    requires ParseHeader(h).Some?
    ensures WellFormed(ParseHeader(h).value)
    ensures exists gap :: AllSpace(gap) && h == Render(ParseHeader(h).value, gap)
  {
    var n := RunFrom(h, 0, IsAsciiLetter);
    ScopeSound(h[..n], h[n..]);
    var hd := ParseHeader(h).value;
    var gap := ScopeGap(h[n..]);
    assert h == h[..n] + h[n..];
    assert h == Render(hd, gap);
  }

  /** The release types in increasing order of significance (`none` first). */
  datatype Level = NoRelease | Patch | Minor | Major

  /** The `order` table: `none` < `patch` < `minor` < `major`. */
  function Rank(l: Level): nat {
    match l
    case NoRelease => 0
    case Patch => 1
    case Minor => 2
    case Major => 3
  }

  /** `bumpFromCommit`: `None` stands for `null`, no release. */
  function BumpFromCommit(parsed: Option<Header>): (r: Option<Level>)
    ensures r != Some(NoRelease)
    ensures parsed.None? ==> r.None?
    ensures parsed.Some? && parsed.value.breaking ==> r == Some(Major)
    ensures r == Some(Major) <==> parsed.Some? && parsed.value.breaking
    ensures r == Some(Minor) <==> parsed.Some? && !parsed.value.breaking && ToLower(parsed.value.kind) == "feat"
                                  && parsed.value.scope.Some? && ToLower(parsed.value.scope.value) == "minor"
    ensures r.None? <==> parsed.None? || (!parsed.value.breaking && ToLower(parsed.value.kind) != "fix"
                                          && ToLower(parsed.value.kind) != "perf" && ToLower(parsed.value.kind) != "feat")
  {
    if parsed.None? then None
    else if parsed.value.breaking then Some(Major)
    else
      var t := ToLower(parsed.value.kind);
      if t == "fix" || t == "perf" then Some(Patch)
      else if t == "feat" then
        if parsed.value.scope.Some? && ToLower(parsed.value.scope.value) == "minor" then Some(Minor) else Some(Patch)
      else None
  }

  /** The bump `main` records for one header: `bumpFromCommit(parseHeader(h)) || 'none'`. */
  function BumpOf(h: string): Level {
    BumpFromCommit(ParseHeader(h)).GetOr(NoRelease)
  }

  /** `mostSignificant`: `None` stands for a falsy argument. */
  function MostSignificant(a: Option<Level>, b: Option<Level>): (r: Level)
    ensures a.None? ==> r == b.GetOr(NoRelease)
    ensures a.Some? && b.None? ==> r == a.value
    ensures a.Some? && b.Some? ==> (r == a.value || r == b.value) && Rank(r) >= Rank(a.value) && Rank(r) >= Rank(b.value)
  {
    if a.None? then b.GetOr(NoRelease)
    else if b.None? then a.value
    else if Rank(a.value) >= Rank(b.value) then a.value else b.value
  }

  /** Two levels of the same rank are the same level, so the tie rule never matters. */
  lemma RankInjective(a: Level, b: Level)
    requires Rank(a) == Rank(b)
    ensures a == b
  {
  }

  /** `mostSignificant` is symmetric on two levels. */
  lemma MostSignificantSymmetric(a: Level, b: Level)
    ensures MostSignificant(Some(a), Some(b)) == MostSignificant(Some(b), Some(a))
  {
    if Rank(a) == Rank(b) {
      RankInjective(a, b);
    }
  }

  /** The lines of `git log` output. */
  function Lines(log: string): seq<string> {
    Split(log, '\n')
  }

  /** The headers `main` analyses: the lines of the log, empty lines dropped. */
  function Headers(log: string): seq<string> {
    Collect(Lines(log), IsHeader, AsHeader)
  }

  /** `.filter(Boolean)` keeps the non-empty lines. */
  predicate IsHeader(line: string) {
    line != ""
  }

  function AsHeader(line: string): string {
    line
  }

  /** There are no commits exactly when every line of the log is empty. */
  lemma NoCommitsIffBlank(log: string)
    ensures |Headers(log)| == 0 <==> forall i :: 0 <= i < |Lines(log)| ==> Lines(log)[i] == ""
  {
    CollectEmptyIffNoneKept(Lines(log), IsHeader, AsHeader);
  }

  /** The fold of `main`: `overall` starts at `none` and takes each header's bump in turn. */
  function Overall(headers: seq<string>): Level
    decreases |headers|
  {
    if |headers| == 0 then NoRelease
    else MostSignificant(Some(Overall(headers[..|headers| - 1])), Some(BumpOf(headers[|headers| - 1])))
  }

  /** The fold is the maximum: no bump ranks above it, and it is `none` or the bump of some header. */
  lemma OverallIsMaximum(headers: seq<string>)
    ensures forall i :: 0 <= i < |headers| ==> Rank(BumpOf(headers[i])) <= Rank(Overall(headers))
    ensures Overall(headers) == NoRelease || exists i :: 0 <= i < |headers| && Overall(headers) == BumpOf(headers[i])
  {
    OverallBoundsEvery(headers);
    OverallIsSomeBump(headers);
  }

  /** No header's bump ranks above the fold. */
  lemma {:induction false} OverallBoundsEvery(headers: seq<string>)
    ensures forall i :: 0 <= i < |headers| ==> Rank(BumpOf(headers[i])) <= Rank(Overall(headers))
    decreases |headers|
  {
    if |headers| > 0 {
      var init := headers[..|headers| - 1];
      OverallBoundsEvery(init);
      assert Overall(headers) == MostSignificant(Some(Overall(init)), Some(BumpOf(headers[|headers| - 1])));
      forall i | 0 <= i < |init|
        ensures Rank(BumpOf(headers[i])) <= Rank(Overall(headers))
      {
        assert headers[i] == init[i];
      }
    }
  }

  /** The fold is `none` or the bump of one of the headers. */
  lemma {:induction false} OverallIsSomeBump(headers: seq<string>)
    ensures Overall(headers) == NoRelease || exists i :: 0 <= i < |headers| && Overall(headers) == BumpOf(headers[i])
    decreases |headers|
  {
    if |headers| > 0 {
      var init := headers[..|headers| - 1];
      var last := headers[|headers| - 1];
      OverallIsSomeBump(init);
      assert Overall(headers) == MostSignificant(Some(Overall(init)), Some(BumpOf(last)));
      if Overall(headers) != NoRelease && Overall(headers) != BumpOf(last) {
        var j :| 0 <= j < |init| && Overall(init) == BumpOf(init[j]);
        assert headers[j] == init[j];
      }
    }
  }

  /** The suggestion does not depend on the order of the commits, only on which headers occur. */
  lemma OverallOrderIndependent(a: seq<string>, b: seq<string>)
    requires multiset(a) == multiset(b)
    ensures Overall(a) == Overall(b)
  {
    OverallIsMaximum(a);
    OverallIsMaximum(b);
    forall i | 0 <= i < |b|
      ensures Rank(BumpOf(b[i])) <= Rank(Overall(a))
    {
      assert b[i] in multiset(a);
      var j :| 0 <= j < |a| && a[j] == b[i];
    }
    forall i | 0 <= i < |a|
      ensures Rank(BumpOf(a[i])) <= Rank(Overall(b))
    {
      assert a[i] in multiset(b);
      var j :| 0 <= j < |b| && b[j] == a[i];
    }
    RankInjective(Overall(a), Overall(b));
  }

  /** What the script concludes: no commits, or the number of commits and the overall release type. */
  datatype Analysis = NoCommits | Suggested(count: nat, overall: Level)

  /** What `main` prints: no commits for a blank log, else the number of headers and the highest bump among them. */
  function AnalysisOf(log: string): (r: Analysis)
    ensures r.NoCommits? <==> |Headers(log)| == 0
    ensures r.Suggested? ==> r.count == |Headers(log)|
    ensures r.Suggested? ==> forall i :: 0 <= i < |Headers(log)| ==> Rank(BumpOf(Headers(log)[i])) <= Rank(r.overall)
    ensures r.Suggested? ==> r.overall == NoRelease || exists i :: 0 <= i < |Headers(log)| && r.overall == BumpOf(Headers(log)[i])
  {
    var headers := Headers(log);
    OverallIsMaximum(headers);
    if |headers| == 0 then NoCommits else Suggested(|headers|, Overall(headers))
  }

  /** `main`, given the log text: the loop folds the bumps as the source does. */
  method Analyze(log: string) returns (result: Analysis)
    ensures result == AnalysisOf(log)
  {
    var headers := Headers(log);
    if |headers| == 0 {
      return NoCommits;
    }
    var overall := NoRelease;
    for i := 0 to |headers|
      invariant overall == Overall(headers[..i])
    {
      assert headers[..i + 1][..i] == headers[..i];
      var parsed := ParseHeader(headers[i]);
      var bump := BumpFromCommit(parsed).GetOr(NoRelease);
      overall := MostSignificant(Some(overall), Some(bump));
    }
    assert headers[..|headers|] == headers;
    result := Suggested(|headers|, overall);
  }
}

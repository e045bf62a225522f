/**
 * The JavaScript string operations the tools rely on, over `seq<char>`:
 * `startsWith`, `includes`, `indexOf`, `replace` with a string pattern,
 * `toLowerCase` (ASCII), `split`/`join` on a separator, `trim`, and the
 * decimal rendering of a number inside a template literal.
 */
module Strings {
  import opened Wrappers

  /** `s.startsWith(p)`. */
  predicate IsPrefix(p: string, s: string) {
    |p| <= |s| && s[..|p|] == p
  }

  /** `sub` sits in `s` at index `i`. */
  predicate OccursAt(s: string, sub: string, i: nat) {
    i + |sub| <= |s| && s[i..i + |sub|] == sub
  }

  /** `s.includes(sub)`. */
  predicate Contains(s: string, sub: string) {
    exists i: nat | i <= |s| :: OccursAt(s, sub, i)
  }

  /** A JavaScript `string` used as a condition: present and not empty. */
  predicate Given(o: Option<string>) {
    o.Some? && o.value != ""
  }

  /** The text a template literal prints for an optional string: its value or `undefined`. */
  function Shown(o: Option<string>): (r: string)
    ensures o.Some? ==> r == o.value
  {
    if o.Some? then o.value else "undefined"
  }

  /** An occurrence stays an occurrence when text is added on either side. */
  lemma ContainsInConcat(a: string, b: string, sub: string)
    ensures Contains(a, sub) ==> Contains(a + b, sub)
    ensures Contains(b, sub) ==> Contains(a + b, sub)
  {
    if Contains(a, sub) {
      var i: nat :| i <= |a| && OccursAt(a, sub, i);
      assert (a + b)[i..i + |sub|] == a[i..i + |sub|];
      assert OccursAt(a + b, sub, i);
    }
    if Contains(b, sub) {
      var i: nat :| i <= |b| && OccursAt(b, sub, i);
      assert i + |sub| <= |b|;
      assert (a + b)[|a| + i..|a| + i + |sub|] == b[i..i + |sub|];
      assert OccursAt(a + b, sub, |a| + i);
    }
  }

  /** A text starts with each of its prefixes, and what follows is the rest. */
  lemma PrefixOfConcat(p: string, rest: string)
    ensures IsPrefix(p, p + rest)
    ensures (p + rest)[|p|..] == rest
  {
    assert (p + rest)[..|p|] == p;
  }

  /** A text contains what it starts with. */
  lemma ContainsOwnPrefix(p: string, rest: string)
    ensures Contains(p + rest, p)
  {
    assert (p + rest)[0..|p|] == p;
    assert OccursAt(p + rest, p, 0);
  }

  lemma PrefixContained(s: string, p: string)
    requires IsPrefix(p, s)
    ensures Contains(s, p)
  {
    assert OccursAt(s, p, 0);
  }

  /** A text without the first character of `sub` cannot contain `sub`. */
  lemma MissingFirstChar(s: string, sub: string)
    requires |sub| > 0 && sub[0] !in s
    ensures !Contains(s, sub)
  {
    forall i: nat | i <= |s|
      ensures !OccursAt(s, sub, i)
    {
      if i + |sub| <= |s| {
        assert s[i..i + |sub|][0] == s[i];
      }
    }
  }

  /** `s.indexOf(sub)`: the first index where `sub` occurs, if any. */
  function IndexOf(s: string, sub: string): (r: Option<nat>)
    ensures r.Some? ==> OccursAt(s, sub, r.value)
    ensures r.Some? ==> forall j: nat :: j < r.value ==> !OccursAt(s, sub, j)
    ensures r.None? <==> !Contains(s, sub)
    decreases |s|
  {
    if IsPrefix(sub, s) then Some(0)
    else if |s| == 0 then None
    else
      match IndexOf(s[1..], sub)
      case None =>
        AbsentAfterHead(s, sub);
        None
      case Some(k) =>
        OccursShift(s, sub);
        Some(k + 1)
  }

  /** No occurrence at the head and none in the tail means none at all. */
  lemma AbsentAfterHead(s: string, sub: string)
    requires |s| > 0 && !IsPrefix(sub, s) && !Contains(s[1..], sub)
    ensures !Contains(s, sub)
  {
    OccursShift(s, sub);
    assert !OccursAt(s, sub, 0) by {
      if |sub| <= |s| {
        assert s[0..|sub|] == s[..|sub|];
      }
    }
    forall j: nat | 1 <= j <= |s|
      ensures !OccursAt(s, sub, j)
    {
      assert !OccursAt(s[1..], sub, j - 1);
    }
  }

  lemma OccursShift(s: string, sub: string)
    requires |s| > 0
    ensures forall j: nat :: j >= 1 ==> (OccursAt(s, sub, j) <==> OccursAt(s[1..], sub, j - 1))
  {
    forall j: nat | j >= 1
      ensures OccursAt(s, sub, j) <==> OccursAt(s[1..], sub, j - 1)
    {
      if j + |sub| <= |s| {
        assert s[1..][j - 1..j - 1 + |sub|] == s[j..j + |sub|];
      }
    }
  }

  /** `s.replace(pat, "")`: the first occurrence of `pat` removed; `s` itself when there is none. */
  function RemoveFirst(s: string, pat: string): (r: string)
    ensures !Contains(s, pat) ==> r == s
    ensures |r| == |s| || |r| + |pat| == |s|
    ensures Contains(s, pat) ==>
              exists i: nat :: OccursAt(s, pat, i) && (forall j: nat :: j < i ==> !OccursAt(s, pat, j)) && r == s[..i] + s[i + |pat|..]
  {
    match IndexOf(s, pat)
    case None => s
    case Some(i) => s[..i] + s[i + |pat|..]
  }

  /** `c.toLowerCase()` for ASCII letters; other characters are kept. */
  function LowerChar(c: char): char {
    if 'A' <= c <= 'Z' then (c as int + 32) as char else c
  }

  /** `s.toLowerCase()`, ASCII only. */
  function ToLower(s: string): (r: string)
    ensures |r| == |s|
    ensures forall i :: 0 <= i < |s| ==> r[i] == LowerChar(s[i])
  {
    seq(|s|, i requires 0 <= i < |s| => LowerChar(s[i]))
  }

  lemma ToLowerConcat(a: string, b: string)
    ensures ToLower(a + b) == ToLower(a) + ToLower(b)
  {
  }

  /** The first index of character `c` in `s`. */
  function IndexOfChar(s: string, c: char): (i: nat)
    requires c in s
    ensures i < |s| && s[i] == c && c !in s[..i]
  {
    if s[0] == c then 0 else 1 + IndexOfChar(s[1..], c)
  }

  /** `s.split(sep)` for a one-character separator: the pieces between separators, never empty. */
  function Split(s: string, sep: char): (parts: seq<string>)
    ensures |parts| >= 1
    ensures forall k :: 0 <= k < |parts| ==> sep !in parts[k]
    decreases |s|
  {
    if sep !in s then [s]
    else
      var i := IndexOfChar(s, sep);
      [s[..i]] + Split(s[i + 1..], sep)
  }

  /** `parts.join(sep)`. */
  function Join(parts: seq<string>, sep: string): string
    decreases |parts|
  {
    if |parts| == 0 then ""
    else if |parts| == 1 then parts[0]
    else parts[0] + sep + Join(parts[1..], sep)
  }

  /** An empty piece appended in the middle changes nothing. Stated once here so that the proofs about the list tool's text stay within the solver's resource limit. */
  lemma AppendEmpty(a: string, b: string)
    ensures a + "" + b == a + b
  {
  }

  /** An empty piece appended before two others changes nothing. Stated once here so that the proofs about the list tool's text stay within the solver's resource limit. */
  lemma AppendEmptyBetween(a: string, b: string, c: string)
    ensures a + "" + b + c == a + b + c
  {
  }

  /** Appending two pieces one after the other appends their concatenation. Stated once here so that the proofs about the list tool's text stay within the solver's resource limit. */
  lemma AppendTwo(text: string, a: string, b: string)
    ensures text + a + b == text + (a + b)
  {
  }

  /** Appending four pieces one after another appends their concatenation. Stated once here so that the proofs about the list tool's text stay within the solver's resource limit. */
  lemma AppendFour(text: string, a: string, b: string, c: string, d: string)
    ensures text + a + b + c + d == text + (a + b + c + d)
  {
  }

  /** A text is its first character followed by the rest. Stated once so that the commit-header parsing proofs stay within the solver's resource limit. */
  lemma HeadRest(t: string)
    requires |t| > 0
    ensures t == [t[0]] + t[1..]
  {
  }

  /** A text is its first character, the piece up to `s`, and the rest. */
  lemma HeadPieceRest(t: string, s: nat)
    requires 1 <= s <= |t|
    ensures t == [t[0]] + t[1..s] + t[s..]
  {
    assert t[..s] == [t[0]] + t[1..s];
    assert t == t[..s] + t[s..];
  }

  /** Recording one more element of a sequence extends the recorded prefix by one. */
  lemma RecordNext<T>(log: seq<T>, s: seq<T>, i: nat)
    requires i < |s|
    ensures log + s[..i] + [s[i]] == log + s[..i + 1]
  {
    assert s[..i] + [s[i]] == s[..i + 1];
  }

  /** A join opens with the first part. */
  lemma JoinOpensWithFirst(parts: seq<string>, sep: string)
    requires |parts| > 0
    ensures IsPrefix(parts[0], Join(parts, sep))
  {
    if |parts| > 1 {
      assert Join(parts, sep) == parts[0] + (sep + Join(parts[1..], sep));
    }
  }

  /** Splitting on a character and joining back with it gives the text back. */
  lemma {:induction false} JoinSplit(s: string, sep: char)
    ensures Join(Split(s, sep), [sep]) == s
    decreases |s|
  {
    if sep in s {
      var i := IndexOfChar(s, sep);
      var rest := Split(s[i + 1..], sep);
      JoinSplit(s[i + 1..], sep);
      assert Split(s, sep) == [s[..i]] + rest;
      assert Join([s[..i]] + rest, [sep]) == s[..i] + [sep] + Join(rest, [sep]) by {
        assert ([s[..i]] + rest)[1..] == rest;
      }
      CutAt(s, i);
    }
  }

  /** A text is what precedes position `i`, the character there, and what follows. Split out of `JoinSplit`, whose proof otherwise exceeds the resource limit. */
  lemma CutAt(s: string, i: nat)
    requires i < |s|
    ensures s == s[..i] + [s[i]] + s[i + 1..]
  {
    assert s[..i + 1] == s[..i] + [s[i]];
  }

  /** A common opening keeps a prefix a prefix. */
  lemma PrefixExtend(a: string, t: string, u: string)
    requires IsPrefix(t, u)
    ensures IsPrefix(a + t, a + u)
  {
    assert (a + u)[..|a + t|] == a + u[..|t|];
  }

  /** Joining a first piece and a prefix of the later pieces, when those pieces join to a prefix of the rest. */
  lemma JoinPrefixStep(s: string, sep: char, i: nat, rest: seq<string>, n: nat)
    requires i < |s| && s[i] == sep
    requires 2 <= n <= 1 + |rest|
    requires IsPrefix(Join(rest[..n - 1], [sep]), s[i + 1..])
    ensures IsPrefix(Join(([s[..i]] + rest)[..n], [sep]), s)
  {
    var parts := ([s[..i]] + rest)[..n];
    var tail := Join(rest[..n - 1], [sep]);
    assert parts[1..] == rest[..n - 1];
    assert Join(parts, [sep]) == s[..i] + ([sep] + tail);
    assert s == s[..i] + ([sep] + s[i + 1..]);
    PrefixExtend([sep], tail, s[i + 1..]);
    PrefixExtend(s[..i], [sep] + tail, [sep] + s[i + 1..]);
  }

  /** Joining the first `n` pieces of a split gives a prefix of the text. */
  lemma {:induction false} JoinSplitPrefix(s: string, sep: char, n: nat)
    requires n <= |Split(s, sep)|
    ensures IsPrefix(Join(Split(s, sep)[..n], [sep]), s)
    decreases |s|, 1
  {
    if n == 0 {
    } else if sep !in s {
      assert Split(s, sep)[..n] == [s];
    } else if n == 1 {
      FirstPieceIsPrefix(s, sep);
    } else {
      JoinSplitPrefixAtSep(s, sep, n);
    }
  }

  /** The piece before the first separator opens the text. */
  lemma FirstPieceIsPrefix(s: string, sep: char)
    requires sep in s
    ensures IsPrefix(Join(Split(s, sep)[..1], [sep]), s)
  {
    var i := IndexOfChar(s, sep);
    assert Split(s, sep)[..1] == [s[..i]];
  }

  /** The case of `JoinSplitPrefix` where the separator occurs and more than one piece is joined. */
  lemma {:induction false} JoinSplitPrefixAtSep(s: string, sep: char, n: nat)
    requires sep in s && 2 <= n <= |Split(s, sep)|
    ensures IsPrefix(Join(Split(s, sep)[..n], [sep]), s)
    decreases |s|, 0
  {
    var i := IndexOfChar(s, sep);
    var rest := Split(s[i + 1..], sep);
    assert Split(s, sep) == [s[..i]] + rest;
    JoinSplitPrefix(s[i + 1..], sep, n - 1);
    JoinPrefixStep(s, sep, i, rest, n);
  }



  /** The characters JavaScript's `\s` and `String.prototype.trim` treat as white space. */
  predicate IsJsSpace(c: char) {
    c == '\t' || c == '\n' || c == '\U{000B}' || c == '\U{000C}' || c == '\r' || c == ' '
    || c == '\U{00A0}' || c == '\U{1680}' || ('\U{2000}' <= c <= '\U{200A}')
    || c == '\U{2028}' || c == '\U{2029}' || c == '\U{202F}' || c == '\U{205F}'
    || c == '\U{3000}' || c == '\U{FEFF}'
  }

  /** The characters JavaScript's `.` does not match. */
  predicate IsLineTerminator(c: char) {
    c == '\n' || c == '\r' || c == '\U{2028}' || c == '\U{2029}'
  }

  /** `s` with its leading white space removed. */
  function TrimStart(s: string): (r: string)
    ensures |r| <= |s| && s[|s| - |r|..] == r
    ensures r == "" || !IsJsSpace(r[0])
    ensures forall k :: 0 <= k < |s| - |r| ==> IsJsSpace(s[k])
  {
    if |s| > 0 && IsJsSpace(s[0]) then TrimStart(s[1..]) else s
  }

  /** `s` with its trailing white space removed. */
  function TrimEnd(s: string): (r: string)
    ensures IsPrefix(r, s)
    ensures r == "" || !IsJsSpace(r[|r| - 1])
  {
    if |s| > 0 && IsJsSpace(s[|s| - 1]) then TrimEnd(s[..|s| - 1]) else s
  }

  /** `s.trim()`. */
  function Trim(s: string): string {
    TrimEnd(TrimStart(s))
  }

  /** Trailing white space is all `trimEnd` removes: a prefix ending in a visible character survives. */
  lemma {:induction false} TrimEndKeepsPrefix(p: string, rest: string)
    requires |p| > 0 && !IsJsSpace(p[|p| - 1])
    ensures IsPrefix(p, TrimEnd(p + rest))
    decreases |rest|
  {
    var s := p + rest;
    if |rest| > 0 && IsJsSpace(s[|s| - 1]) {
      assert s[..|s| - 1] == p + rest[..|rest| - 1];
      TrimEndKeepsPrefix(p, rest[..|rest| - 1]);
    } else {
      assert s[..|p|] == p;
    }
  }

  /** Trimming a text that opens with one space before a visible character keeps every prefix that ends visibly. */
  lemma TrimKeepsPrefix(space: char, p: string, rest: string)
    requires IsJsSpace(space) && |p| > 0 && !IsJsSpace(p[0]) && !IsJsSpace(p[|p| - 1])
    ensures IsPrefix(p, Trim([space] + p + rest))
  {
    var s := [space] + p + rest;
    assert s[1..] == p + rest;
    assert TrimStart(s) == p + rest;
    TrimEndKeepsPrefix(p, rest);
  }

  /** The end of the run of characters satisfying `p` that starts at index `i`. */
  function RunFrom(s: string, i: nat, p: char -> bool): (r: nat)
    requires i <= |s|
    ensures i <= r <= |s|
    ensures forall m :: i <= m < r ==> p(s[m])
    ensures r < |s| ==> !p(s[r])
    decreases |s| - i
  {
    if i < |s| && p(s[i]) then RunFrom(s, i + 1, p) else i
  }

  /** A run is determined by where it stops. */
  lemma RunEndsAt(s: string, i: nat, p: char -> bool, k: nat)
    requires i <= k <= |s|
    requires forall m :: i <= m < k ==> p(s[m])
    requires k < |s| ==> !p(s[k])
    ensures RunFrom(s, i, p) == k
  {
  }

  /** `s || fallback` for a string: the empty string is falsy. */
  function OrElse(s: string, fallback: string): (r: string)
    ensures s != "" ==> r == s
    ensures s == "" ==> r == fallback
  {
    if s != "" then s else fallback
  }

  function DigitChar(d: nat): char
    requires d < 10
  {
    ('0' as int + d) as char
  }

  /** The decimal text of `n`, as a template literal prints a number. */
  function NatToString(n: nat): (r: string)
    ensures |r| >= 1
    ensures forall i :: 0 <= i < |r| ==> '0' <= r[i] <= '9'
  {
    if n < 10 then [DigitChar(n)] else NatToString(n / 10) + [DigitChar(n % 10)]
  }

  /** The decimal text of a number determines the number. */
  lemma {:induction false} NatToStringInjective(m: nat, n: nat)
    requires NatToString(m) == NatToString(n)
    ensures m == n
  {
    var r := NatToString(m);
    if m < 10 && n < 10 {
    } else if m >= 10 && n >= 10 {
      assert NatToString(m / 10) == r[..|r| - 1] == NatToString(n / 10);
      NatToStringInjective(m / 10, n / 10);
      assert DigitChar(m % 10) == r[|r| - 1] == DigitChar(n % 10);
    }
  }

  /** The length of the run of decimal digits `s` opens with. */
  function DigitRun(s: string): (r: nat)
    ensures r <= |s|
    decreases |s|
  {
    if |s| > 0 && '0' <= s[0] <= '9' then 1 + DigitRun(s[1..]) else 0
  }

  /** A number's text followed by a non-digit is read back as exactly that many digits. */
  lemma {:induction false} DigitRunOfNumber(digits: string, rest: string)
    requires forall i :: 0 <= i < |digits| ==> '0' <= digits[i] <= '9'
    requires |rest| > 0 && !('0' <= rest[0] <= '9')
    ensures DigitRun(digits + rest) == |digits|
    decreases |digits|
  {
    if |digits| > 0 {
      assert (digits + rest)[1..] == digits[1..] + rest;
      DigitRunOfNumber(digits[1..], rest);
    } else {
      assert digits + rest == rest;
    }
  }
}

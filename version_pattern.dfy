/**
 * The `version:` line the release scripts read and rewrite in
 * src/mastra/mcp-server.ts: `version:`, optional white space, and a quoted,
 * non-empty, quote-free value. scripts/update-version-in-code.js and
 * scripts/sync-versions.js replace the first occurrence that is followed by a
 * comma; scripts/check-versions.js extracts the value of the first occurrence,
 * comma or not.
 *
 * Both regular expressions are matched by hand. The match found at an index
 * is unique: the white space run is the longest one, and the value runs to
 * the first quote, because anything shorter leaves a character the next part
 * of the pattern refuses.
 */
module VersionPattern {
  import opened Wrappers
  import opened Strings

  const Key := "version:"

  predicate NotQuote(c: char) {
    c != '"'
  }

  /** The quotes of a match: `open` is the index of the opening quote, `close` that of the closing one. */
  datatype Span = Span(open: nat, close: nat)

  /** `version:` occurs at index `q`, character by character. */
  predicate KeyAt(s: string, q: nat) {
    q + 8 <= |s| && s[q] == 'v' && s[q + 1] == 'e' && s[q + 2] == 'r' && s[q + 3] == 's'
    && s[q + 4] == 'i' && s[q + 5] == 'o' && s[q + 6] == 'n' && s[q + 7] == ':'
  }

  /** `KeyAt` is the occurrence of `Key`. */
  lemma KeyAtIsKey(s: string, q: nat)
    ensures KeyAt(s, q) <==> q + |Key| <= |s| && s[q..q + |Key|] == Key
  {
    if q + |Key| <= |s| && s[q..q + |Key|] == Key {
      assert forall i :: 0 <= i < |Key| ==> s[q + i] == Key[i];
    }
  }

  /** The pattern tried at index `q`; `comma` says whether a comma must follow the closing quote. */
  function MatchAt(s: string, q: nat, comma: bool): (r: Option<Span>)
    requires q <= |s|
    ensures r.Some? ==> q + |Key| <= r.value.open && r.value.open + 1 < r.value.close < |s|
                        && (comma ==> r.value.close + 1 < |s|)
  {
    if !KeyAt(s, q) then None else ValueAt(s, RunFrom(s, q + |Key|, IsJsSpace), comma)
  }

  /** The rest of the pattern once the white space ends at `j`: the opening quote and the value. */
  function ValueAt(s: string, j: nat, comma: bool): (r: Option<Span>)
    requires j <= |s|
    ensures r.Some? ==> r.value.open == j && j + 1 < r.value.close < |s| && (comma ==> r.value.close + 1 < |s|)
  {
    if j == |s| || s[j] != '"' then None else Closed(s, j, RunFrom(s, j + 1, NotQuote), comma)
  }

  /** The end of the pattern once the value ends at `k`: a non-empty value, the closing quote, and the comma when asked for. */
  function Closed(s: string, j: nat, k: nat, comma: bool): (r: Option<Span>)
    ensures r.Some? ==> r == Some(Span(j, k)) && j + 1 < k < |s| && (comma ==> k + 1 < |s|)
  {
    if k <= j + 1 || k >= |s| then None
    else if comma && (k + 1 == |s| || s[k + 1] != ',') then None
    else Some(Span(j, k))
  }

  /** No attempt from `lo` up to (not including) `hi` succeeds. */
  predicate NoMatchBetween(s: string, lo: nat, hi: nat, comma: bool)
    requires hi <= |s|
    decreases hi - lo
  {
    lo >= hi || (MatchAt(s, lo, comma).None? && NoMatchBetween(s, lo + 1, hi, comma))
  }

  /** `NoMatchBetween` rules out each attempt in its range. */
  lemma {:induction false} NoMatchBetweenAt(s: string, lo: nat, hi: nat, comma: bool, q: nat)
    requires hi <= |s| && NoMatchBetween(s, lo, hi, comma) && lo <= q < hi
    ensures MatchAt(s, q, comma).None?
    decreases hi - lo
  {
    if q > lo {
      NoMatchBetweenAt(s, lo + 1, hi, comma, q);
    }
  }

  /** The leftmost match at or after index `i`. */
  function FirstFrom(s: string, i: nat, comma: bool): (r: Option<nat>)
    requires i <= |s|
    ensures r.Some? ==> i <= r.value <= |s| && MatchAt(s, r.value, comma).Some? && NoMatchBetween(s, i, r.value, comma)
    ensures r.None? ==> forall q :: i <= q <= |s| ==> MatchAt(s, q, comma).None?
    decreases |s| - i
  {
    if MatchAt(s, i, comma).Some? then Some(i)
    else if i == |s| then None
    else FirstFrom(s, i + 1, comma)
  }

  /** Where the regex finds its first match. */
  function FirstMatch(s: string, comma: bool): Option<nat> {
    FirstFrom(s, 0, comma)
  }

  /** No attempt before the first match succeeds. */
  lemma NoneBeforeFirst(s: string, p: nat, comma: bool)
    requires FirstMatch(s, comma) == Some(p)
    ensures p <= |s| && forall q :: 0 <= q < p ==> MatchAt(s, q, comma).None?
  {
    forall q | 0 <= q < p
      ensures MatchAt(s, q, comma).None?
    {
      NoMatchBetweenAt(s, 0, p, comma, q);
    }
  }

  /** A match with none before it is the first match. */
  lemma FirstMatchAt(s: string, p: nat, comma: bool)
    requires p <= |s| && MatchAt(s, p, comma).Some?
    requires forall q :: 0 <= q < p ==> MatchAt(s, q, comma).None?
    ensures FirstMatch(s, comma) == Some(p)
  {
    var r := FirstMatch(s, comma);
    if r.Some? && r.value > p {
      NoMatchBetweenAt(s, 0, r.value, comma, p);
    }
  }

  /**
   * The replacement-pattern expansion of `String.prototype.replace`: `$$`,
   * `$&`, `` $` `` and `$'` stand for a dollar sign, the match, the text
   * before it and the text after it; any other `$` is literal, since the
   * pattern has no capture groups.
   */
  function Expand(t: string, matched: string, before: string, after: string): string
    decreases |t|
  {
    if |t| == 0 then ""
    else if t[0] == '$' && |t| >= 2 && t[1] == '$' then "$" + Expand(t[2..], matched, before, after)
    else if t[0] == '$' && |t| >= 2 && t[1] == '&' then matched + Expand(t[2..], matched, before, after)
    else if t[0] == '$' && |t| >= 2 && t[1] == '`' then before + Expand(t[2..], matched, before, after)
    else if t[0] == '$' && |t| >= 2 && t[1] == '\'' then after + Expand(t[2..], matched, before, after)
    else [t[0]] + Expand(t[1..], matched, before, after)
  }

  /** A replacement without a dollar sign is inserted as it is. */
  lemma {:induction false} ExpandLiteral(t: string, matched: string, before: string, after: string)
    requires '$' !in t
    ensures Expand(t, matched, before, after) == t
    decreases |t|
  {
    if |t| > 0 {
      assert '$' !in t[1..];
      ExpandLiteral(t[1..], matched, before, after);
      assert [t[0]] + t[1..] == t;
    }
  }

  /** The replacement text `version: "<v>",`. */
  function Replacement(v: string): string {
    "version: \"" + v + "\","
  }

  /** `code.replace(/version:\s*"[^"]+",/, replacement)`: the first comma-terminated match is replaced; without one the text is unchanged. */
  function Update(code: string, v: string): (r: string)
    ensures FirstMatch(code, true).None? ==> r == code
  {
    match FirstMatch(code, true)
    case None => code
    case Some(p) => ReplaceAt(code, p, v)
  }

  /** The replacement of the comma-terminated match at `p`, with the replacement pattern expanded against it. */
  function ReplaceAt(code: string, p: nat, v: string): string
    requires p <= |code| && MatchAt(code, p, true).Some?
  {
    var e := MatchAt(code, p, true).value.close + 2;
    code[..p] + Expand(Replacement(v), code[p..e], code[..p], code[e..]) + code[e..]
  }

  /** `code.match(/version:\s*"([^"]+)"/)[1]`: the value of the first match, comma or not. */
  function Extract(code: string): (r: Option<string>)
    ensures r.Some? ==> |r.value| > 0 && '"' !in r.value
    ensures r.None? <==> forall q :: 0 <= q <= |code| ==> MatchAt(code, q, false).None?
  {
    match FirstMatch(code, false)
    case None => None
    case Some(p) =>
      var sp := MatchAt(code, p, false).value;
      var value := code[sp.open + 1..sp.close];
      MatchLayout(code, p, false);
      assert forall i :: 0 <= i < |value| ==> value[i] == code[sp.open + 1 + i];
      Some(value)
  }

  /** The extracted value is the text between the quotes of the first match. */
  lemma ExtractFirst(s: string, p: nat)
    requires FirstMatch(s, false) == Some(p)
    ensures var sp := MatchAt(s, p, false).value;
            Extract(s) == Some(s[sp.open + 1..sp.close])
  {
  }

  /** Where the text of a replacement lies. */
  lemma ReplacementLayout(v: string)
    ensures var t := Replacement(v);
            |t| == |v| + 12 && KeyAt(t, 0) && t[8] == ' ' && t[9] == '"'
            && (forall i :: 0 <= i < |v| ==> t[10 + i] == v[i])
            && t[10 + |v|] == '"' && t[11 + |v|] == ','
            && ('$' !in v ==> '$' !in t)
  {
    var t := Replacement(v);
    assert t == "version: \"" + v + "\",";
  }

  /** With a dollar-free version, the update splices the replacement in place of the first comma-terminated match. */
  lemma UpdateSplices(code: string, v: string, p: nat)
    requires '$' !in v && FirstMatch(code, true) == Some(p)
    ensures var e := MatchAt(code, p, true).value.close + 2;
            e <= |code| && Update(code, v) == Spliced(code, p, e, v)
  {
    var e := MatchAt(code, p, true).value.close + 2;
    assert Update(code, v) == ReplaceAt(code, p, v);
    ReplacementLayout(v);
    ExpandLiteral(Replacement(v), code[p..e], code[..p], code[e..]);
  }

  /** The key cannot start again within its own eight characters. */
  lemma KeyNoOverlap(s: string, q: nat, p: nat)
    requires q < p < |s| && KeyAt(s, q) && s[p] == 'v'
    ensures q + 8 <= p
  {
  }

  /** Two texts that agree up to a character ending a run have the same run. */
  lemma RunAgree(a: string, b: string, i: nat, m: nat, p: char -> bool)
    requires i <= m < |a| && m < |b| && !p(a[m])
    requires forall x :: i <= x <= m ==> a[x] == b[x]
    ensures RunFrom(a, i, p) <= m && RunFrom(b, i, p) == RunFrom(a, i, p)
  {
    RunEndsAt(b, i, p, RunFrom(a, i, p));
  }

  /** What a match at `p` consists of: the key, white space up to the opening quote, a value up to the closing quote, and the comma when asked for. */
  predicate MatchShape(s: string, p: nat, comma: bool, open: nat, close: nat) {
    KeyAt(s, p) && p + 8 <= open < close < |s|
    && (forall m :: p + 8 <= m < open ==> IsJsSpace(s[m])) && s[open] == '"'
    && (forall m :: open < m < close ==> s[m] != '"') && s[close] == '"'
    && (comma ==> close + 1 < |s| && s[close + 1] == ',')
  }

  /** A match has the shape of the pattern. */
  lemma MatchLayout(s: string, p: nat, comma: bool)
    requires p <= |s| && MatchAt(s, p, comma).Some?
    ensures MatchShape(s, p, comma, MatchAt(s, p, comma).value.open, MatchAt(s, p, comma).value.close)
  {
  }

  /**
   * A match attempt before the replaced line. `updated` agrees with `code`
   * before `p`, and both have the key at `p`; in `code` white space follows
   * up to the opening quote at `jo`, in `updated` one space and the opening
   * quote of a non-empty value. An attempt at `q < p` that reaches `p` can only
   * close its value at that opening quote, so it succeeds in `updated` only
   * where it succeeds in `code`, or, with the comma, where the new value
   * opens with a comma.
   */
  lemma EarlierAttempt(code: string, updated: string, p: nat, jo: nat, v: string, q: nat, comma: bool)
    requires q < p && p + 8 <= jo < |code| && |v| > 0 && p + 10 < |updated|
    requires forall i :: 0 <= i < p ==> updated[i] == code[i]
    requires KeyAt(code, p) && KeyAt(updated, p)
    requires (forall m :: p + 8 <= m < jo ==> IsJsSpace(code[m])) && code[jo] == '"'
    requires updated[p + 8] == ' ' && updated[p + 9] == '"' && updated[p + 10] == v[0]
    ensures MatchAt(updated, q, comma).Some? ==> MatchAt(code, q, comma).Some? || (comma && v[0] == ',')
  {
    if KeyAt(updated, q) {
      KeyNoOverlap(updated, q, p);
      RunAgree(code, updated, q + 8, p, IsJsSpace);
      var j := RunFrom(code, q + 8, IsJsSpace);
      if j < p && code[j] == '"' {
        EarlierValue(code, updated, p, jo, v, j, comma);
      } else {
        assert updated[j] == code[j];
      }
    }
  }

  /** The value part of an earlier attempt whose opening quote is at `j < p`. */
  lemma EarlierValue(code: string, updated: string, p: nat, jo: nat, v: string, j: nat, comma: bool)
    requires j < p && p + 8 <= jo < |code| && |v| > 0 && p + 10 < |updated|
    requires forall i :: 0 <= i < p ==> updated[i] == code[i]
    requires KeyAt(code, p) && KeyAt(updated, p)
    requires (forall m :: p + 8 <= m < jo ==> IsJsSpace(code[m])) && code[jo] == '"'
    requires updated[p + 8] == ' ' && updated[p + 9] == '"' && updated[p + 10] == v[0]
    requires code[j] == '"'
    ensures ValueAt(updated, j, comma).Some? ==> ValueAt(code, j, comma).Some? || (comma && v[0] == ',')
  {
    var kc := RunFrom(code, j + 1, NotQuote);
    if kc < p {
      RunAgree(code, updated, j + 1, kc, NotQuote);
      assert updated[kc + 1] == code[kc + 1];
    } else {
      RunEndsAt(code, j + 1, NotQuote, jo);
      RunEndsAt(updated, j + 1, NotQuote, p + 9);
    }
  }

  /** The text an update leaves, when the first comma-terminated match is at `p` and ends before `e`. */
  function Spliced(code: string, p: nat, e: nat, v: string): (r: string)
    requires p <= e <= |code|
    ensures |r| == p + |v| + 12 + (|code| - e)
  {
    code[..p] + Replacement(v) + code[e..]
  }

  /** The spliced text agrees with the old one outside the new line, and the new line lies at `p`. */
  lemma SplicedLayout(code: string, p: nat, e: nat, v: string)
    requires p <= e <= |code| && |v| > 0
    ensures var updated := Spliced(code, p, e, v);
            |updated| == |code| - (e - p) + |v| + 12
            && (forall i :: 0 <= i < p ==> updated[i] == code[i])
            && KeyAt(updated, p) && updated[p + 8] == ' ' && updated[p + 9] == '"'
            && (forall i :: 0 <= i < |v| ==> updated[p + 10 + i] == v[i])
            && updated[p + 10 + |v|] == '"' && updated[p + 11 + |v|] == ','
            && updated[..p] == code[..p] && updated[p + 12 + |v|..] == code[e..]
  {
    SplicedOutside(code, p, e, v);
    SplicedLine(code, p, e, v);
  }

  /** Before and after the new line the spliced text is the old one. */
  lemma SplicedOutside(code: string, p: nat, e: nat, v: string)
    requires p <= e <= |code|
    ensures var updated := Spliced(code, p, e, v);
            (forall i :: 0 <= i < p ==> updated[i] == code[i])
            && updated[..p] == code[..p] && updated[p + 12 + |v|..] == code[e..]
  {
    ReplacementLayout(v);
  }

  /** The new line, character by character. */
  lemma SplicedLine(code: string, p: nat, e: nat, v: string)
    requires p <= e <= |code| && |v| > 0
    ensures var updated := Spliced(code, p, e, v);
            KeyAt(updated, p) && updated[p + 8] == ' ' && updated[p + 9] == '"'
            && (forall i :: 0 <= i < |v| ==> updated[p + 10 + i] == v[i])
            && updated[p + 10 + |v|] == '"' && updated[p + 11 + |v|] == ','
  {
    var updated := Spliced(code, p, e, v);
    var t := Replacement(v);
    ReplacementLayout(v);
    assert forall i :: 0 <= i < |t| ==> updated[p + i] == t[i];
  }

  /** The new line is a match, with and without the comma, whose value is the new version. */
  lemma SplicedMatch(code: string, p: nat, e: nat, v: string)
    requires p <= e <= |code| && |v| > 0 && '"' !in v
    ensures var updated := Spliced(code, p, e, v);
            MatchAt(updated, p, false) == Some(Span(p + 9, p + 10 + |v|))
            && MatchAt(updated, p, true) == Some(Span(p + 9, p + 10 + |v|))
            && updated[p + 10..p + 10 + |v|] == v
  {
    var updated := Spliced(code, p, e, v);
    SplicedLayout(code, p, e, v);
    RunEndsAt(updated, p + 8, IsJsSpace, p + 9);
    RunEndsAt(updated, p + 10, NotQuote, p + 10 + |v|);
    assert updated[p + 10..p + 10 + |v|] == v;
  }

  /** No attempt before the rewritten line succeeds in the new text where none succeeded in the old one. */
  lemma NoEarlierMatch(code: string, updated: string, p: nat, jo: nat, v: string, comma: bool)
    requires p + 8 <= jo < |code| && |v| > 0 && p + 10 < |updated| && (comma ==> v[0] != ',')
    requires forall i :: 0 <= i < p ==> updated[i] == code[i]
    requires KeyAt(code, p) && KeyAt(updated, p)
    requires (forall m :: p + 8 <= m < jo ==> IsJsSpace(code[m])) && code[jo] == '"'
    requires updated[p + 8] == ' ' && updated[p + 9] == '"' && updated[p + 10] == v[0]
    requires forall q :: 0 <= q < p ==> MatchAt(code, q, comma).None?
    ensures forall q :: 0 <= q < p ==> MatchAt(updated, q, comma).None?
  {
    forall q | 0 <= q < p
      ensures MatchAt(updated, q, comma).None?
    {
      EarlierAttempt(code, updated, p, jo, v, q, comma);
    }
  }

  /** In the spliced text, no attempt before the rewritten line succeeds, when none did in the old text. */
  lemma SplicedNoEarlier(code: string, v: string, p: nat, e: nat, comma: bool)
    requires |v| > 0 && (comma ==> v[0] != ',')
    requires FirstMatch(code, true) == Some(p) && FirstMatch(code, comma) == Some(p)
    requires e == MatchAt(code, p, true).value.close + 2
    ensures e <= |code| && forall q :: 0 <= q < p ==> MatchAt(Spliced(code, p, e, v), q, comma).None?
  {
    MatchLayout(code, p, true);
    var jo := MatchAt(code, p, true).value.open;
    SplicedLayout(code, p, e, v);
    NoneBeforeFirst(code, p, comma);
    NoEarlierMatch(code, Spliced(code, p, e, v), p, jo, v, comma);
  }

  /**
   * The rewritten line stays the first match of either pattern, when it was
   * the first in the old text: an earlier attempt succeeds in the new text
   * only where it did in the old one, or, with the comma, where the version
   * opens with a comma.
   */
  lemma SplicedFirst(code: string, v: string, p: nat, comma: bool)
    requires |v| > 0 && '"' !in v && (comma ==> v[0] != ',')
    requires FirstMatch(code, true) == Some(p) && FirstMatch(code, comma) == Some(p)
    ensures var e := MatchAt(code, p, true).value.close + 2;
            e <= |code| && FirstMatch(Spliced(code, p, e, v), comma) == Some(p)
  {
    var e := MatchAt(code, p, true).value.close + 2;
    assert e <= |code| by {
      MatchLayout(code, p, true);
    }
    var updated := Spliced(code, p, e, v);
    assert forall q :: 0 <= q < p ==> MatchAt(updated, q, comma).None? by {
      SplicedNoEarlier(code, v, p, e, comma);
    }
    assert MatchAt(updated, p, comma).Some? by {
      SplicedMatch(code, p, e, v);
    }
    FirstMatchAt(updated, p, comma);
  }

  /** Updating the spliced text with the same version changes nothing: its first comma-terminated match is the new line. */
  lemma SecondUpdate(code: string, v: string, p: nat, e: nat)
    requires |v| > 0 && '"' !in v && '$' !in v && v[0] != ','
    requires FirstMatch(code, true) == Some(p) && e == MatchAt(code, p, true).value.close + 2
    ensures e <= |code| && Update(Spliced(code, p, e, v), v) == Spliced(code, p, e, v)
  {
    assert e <= |code| by {
      MatchLayout(code, p, true);
    }
    var updated := Spliced(code, p, e, v);
    assert FirstMatch(updated, true) == Some(p) by {
      SplicedFirst(code, v, p, true);
    }
    assert MatchAt(updated, p, true).value.close + 2 == p + 12 + |v| by {
      SplicedMatch(code, p, e, v);
    }
    assert Spliced(updated, p, p + 12 + |v|, v) == updated by {
      SplicedLayout(code, p, e, v);
      ReplacementLayout(v);
    }
    UpdateSplices(updated, v, p);
  }

  /** A text that updates to a fixed point of the update is updated to itself the second time. */
  lemma UpdateFixedPoint(code: string, updated: string, v: string)
    requires Update(code, v) == updated && Update(updated, v) == updated
    ensures Update(Update(code, v), v) == Update(code, v)
  {
  }

  /**
   * Updating twice with the same version changes nothing the second time:
   * the rewritten line is still the first comma-terminated match. This needs
   * a non-empty version with no quote and no dollar sign that does not open
   * with a comma.
   */
  lemma UpdateIdempotent(code: string, v: string)
    requires |v| > 0 && '"' !in v && '$' !in v && v[0] != ','
    ensures Update(Update(code, v), v) == Update(code, v)
  {
    if FirstMatch(code, true).Some? {
      var p := FirstMatch(code, true).value;
      IdempotentAt(code, v, p, MatchAt(code, p, true).value.close + 2);
    }
  }

  /** `UpdateIdempotent` for a text whose first comma-terminated match is at `p` and ends before `e`. */
  lemma IdempotentAt(code: string, v: string, p: nat, e: nat)
    requires |v| > 0 && '"' !in v && '$' !in v && v[0] != ','
    requires FirstMatch(code, true) == Some(p) && e == MatchAt(code, p, true).value.close + 2
    ensures Update(Update(code, v), v) == Update(code, v)
  {
    UpdateSplices(code, v, p);
    SecondUpdate(code, v, p, e);
    UpdateFixedPoint(code, Spliced(code, p, e, v), v);
  }

  /** The check's extraction reads the new version from the spliced text, when the rewritten line was the first match of both patterns. */
  lemma SplicedExtract(code: string, v: string, p: nat, e: nat)
    requires |v| > 0 && '"' !in v
    requires FirstMatch(code, true) == Some(p) && FirstMatch(code, false) == Some(p)
    requires e == MatchAt(code, p, true).value.close + 2
    ensures e <= |code| && Extract(Spliced(code, p, e, v)) == Some(v)
  {
    assert e <= |code| by {
      MatchLayout(code, p, true);
    }
    var updated := Spliced(code, p, e, v);
    assert FirstMatch(updated, false) == Some(p) by {
      SplicedFirst(code, v, p, false);
    }
    assert updated[MatchAt(updated, p, false).value.open + 1..MatchAt(updated, p, false).value.close] == v by {
      SplicedMatch(code, p, e, v);
    }
    ExtractFirst(updated, p);
  }

  /** The update of a text whose first match of both patterns is at `p` and ends before `e` extracts as the new version. */
  lemma UpdateExtractAt(code: string, v: string, p: nat, e: nat)
    requires |v| > 0 && '"' !in v && '$' !in v
    requires FirstMatch(code, true) == Some(p) && FirstMatch(code, false) == Some(p)
    requires e == MatchAt(code, p, true).value.close + 2
    ensures Extract(Update(code, v)) == Some(v)
  {
    SplicedExtract(code, v, p, e);
    UpdateSplices(code, v, p);
  }

  /**
   * After an update, the extraction of the check reads back the new version,
   * provided the first match of the check (no comma needed) is the line the
   * update rewrote. The version must be non-empty, quote-free and dollar-free.
   */
  lemma UpdateThenExtract(code: string, v: string)
    requires |v| > 0 && '"' !in v && '$' !in v
    requires FirstMatch(code, true).Some? && FirstMatch(code, false) == FirstMatch(code, true)
    ensures Extract(Update(code, v)) == Some(v)
  {
    var p := FirstMatch(code, true).value;
    UpdateExtractAt(code, v, p, MatchAt(code, p, true).value.close + 2);
  }
}

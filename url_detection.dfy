/**
 * Finding URLs in free text with the two patterns of `URL_PATTERNS`, as
 * `String.prototype.match` with the global flag finds them: the leftmost
 * match, then the next one from where it ended, and so on.
 *
 * The first pattern is `https?://` (any letter case) followed by the
 * longest non-empty run of characters that are neither whitespace nor one
 * of `< > " { } | \ ^ ` [ ]`. The second is a domain-like word: start of
 * text or a whitespace character, one or more `label.` segments, a
 * top-level part of at least two letters, and an optional `/path`. Its
 * backtracking is written out in `DomainFrom`.
 */
module UrlDetection {
  import opened Wrappers
  import opened Text
  import opened OrderedSet
  import opened Sequences

  /** The two entries of `URL_PATTERNS`, in order. */
  datatype Pattern = WithProtocol | DomainLike

  const Patterns: seq<Pattern> := [WithProtocol, DomainLike]

  /** The characters a URL run stops at: `\s` and ``<>"{}|\^`[]``. */
  predicate Excluded(c: char) {
    IsJsWhitespace(c) || c in "<>\"{}|\\^`[]"
  }

  /** The length of the longest run of non-excluded characters starting at `i`. */
  function AllowedRun(text: string, i: nat): (n: nat)
    requires i <= |text|
    ensures i + n <= |text|
    ensures forall k :: i <= k < i + n ==> !Excluded(text[k])
    ensures i + n == |text| || Excluded(text[i + n])
    decreases |text| - i
  {
    if i == |text| || Excluded(text[i]) then 0 else 1 + AllowedRun(text, i + 1)
  }

  // ---------------------------------------------------------------------
  // The first pattern

  /** `lit` (lower-case) occurs at `i`, compared without regard to ASCII letter case. */
  predicate LiteralAt(text: string, i: nat, lit: string) {
    i + |lit| <= |text| && LowerAscii(text[i..i + |lit|]) == lit
  }

  /** Where `https?://` ends when it matches at `i`; the `s` is tried first. */
  function SchemeEnd(text: string, i: nat): (r: Option<nat>)
    ensures r.Some? ==> r.value <= |text|
  {
    if LiteralAt(text, i, "https://") then Some(i + 8)
    else if LiteralAt(text, i, "http://") then Some(i + 7)
    else None
  }

  /** A URL starts with `http://` or `https://` in some letter case. */
  predicate HasScheme(u: string) {
    (|u| >= 7 && LowerAscii(u[..7]) == "http://") || (|u| >= 8 && LowerAscii(u[..8]) == "https://")
  }

  predicate NoExcluded(u: string) {
    forall k :: 0 <= k < |u| ==> !Excluded(u[k])
  }

  // ---------------------------------------------------------------------
  // The second pattern

  predicate LabelChar(c: char) {
    ('a' <= c <= 'z') || ('A' <= c <= 'Z') || ('0' <= c <= '9') || c == '-'
  }

  predicate Letter(c: char) {
    ('a' <= c <= 'z') || ('A' <= c <= 'Z')
  }

  /** The length of the run `[a-zA-Z0-9-]*` at `i`. */
  function LabelRun(text: string, i: nat): (n: nat)
    requires i <= |text|
    ensures i + n <= |text|
    ensures forall k :: i <= k < i + n ==> LabelChar(text[k])
    ensures i + n == |text| || !LabelChar(text[i + n])
    decreases |text| - i
  {
    if i == |text| || !LabelChar(text[i]) then 0 else 1 + LabelRun(text, i + 1)
  }

  /** The length of the run `[a-zA-Z]*` at `i`. */
  function LetterRun(text: string, i: nat): (n: nat)
    requires i <= |text|
    ensures i + n <= |text|
    ensures forall k :: i <= k < i + n ==> Letter(text[k])
    ensures i + n == |text| || !Letter(text[i + n])
    decreases |text| - i
  {
    if i == |text| || !Letter(text[i]) then 0 else 1 + LetterRun(text, i + 1)
  }

  /**
   * One iteration of `(?:[a-zA-Z0-9-]+\.)`: the label can only end at the
   * dot, so backtracking into the label never finds another match.
   */
  function SegmentEnd(text: string, i: nat): (r: Option<nat>)
    requires i <= |text|
    ensures r.Some? ==> i < r.value <= |text| && text[r.value - 1] == '.'
  {
    var n := LabelRun(text, i);
    if n > 0 && i + n < |text| && text[i + n] == '.' then Some(i + n + 1) else None
  }

  /**
   * The end of the domain once at least one segment ended at `q`: the greedy
   * `+` first tries another segment, and only when everything after it fails
   * tries `[a-zA-Z]{2,}` here, taking the longest run of letters.
   */
  function DomainFrom(text: string, q: nat): (r: Option<nat>)
    requires q <= |text|
    ensures r.Some? ==> q + 2 <= r.value <= |text|
    decreases |text| - q
  {
    var deeper := match SegmentEnd(text, q)
                  case None => None
                  case Some(q') => DomainFrom(text, q');
    if deeper.Some? then deeper
    else
      var n := LetterRun(text, q);
      if n >= 2 then Some(q + n) else None
  }

  /** The end of `(?:[a-zA-Z0-9-]+\.)+[a-zA-Z]{2,}` matched at `i`. */
  function DomainEnd(text: string, i: nat): (r: Option<nat>)
    requires i <= |text|
    ensures r.Some? ==> i < r.value <= |text|
  {
    match SegmentEnd(text, i)
    case None => None
    case Some(q) => DomainFrom(text, q)
  }

  /** The optional `(?:\/[^\s<>"{}|\\^`\[\]]*)?` after the domain ending at `e`. */
  function PathEnd(text: string, e: nat): (r: nat)
    requires e <= |text|
    ensures e <= r <= |text|
  {
    if e < |text| && text[e] == '/' then e + 1 + AllowedRun(text, e + 1) else e
  }

  // ---------------------------------------------------------------------
  // Matching and scanning

  /**
   * Where a match of `pattern` that starts at `i` ends. For the domain
   * pattern, `^` (only at 0) is tried before `\s`, and the whitespace is
   * part of the match.
   */
  function MatchAt(pattern: Pattern, text: string, i: nat): (r: Option<nat>)
    requires i <= |text|
    ensures r.Some? ==> i < r.value <= |text|
  {
    match pattern
    case WithProtocol =>
      (match SchemeEnd(text, i)
       case None => None
       case Some(e) => if AllowedRun(text, e) > 0 then Some(e + AllowedRun(text, e)) else None)
    case DomainLike =>
      var atStart := if i == 0 then DomainEnd(text, 0) else None;
      if atStart.Some? then Some(PathEnd(text, atStart.value))
      else if i < |text| && IsJsWhitespace(text[i]) then
        match DomainEnd(text, i + 1)
        case None => None
        case Some(e) => Some(PathEnd(text, e))
      else None
  }

  /** `pattern` matched at each position of `text`; positions past the end match nothing. */
  function Matcher(pattern: Pattern, text: string): (m: nat -> Option<nat>)
    ensures Advances(m, |text|)
    ensures forall i: nat :: i <= |text| ==> m(i) == MatchAt(pattern, text, i)
  {
    (i: nat) => if i <= |text| then MatchAt(pattern, text, i) else None
  }

  /** A matcher over a text of length `n`: a match ends after it starts and within the text. */
  ghost predicate Advances(m: nat -> Option<nat>, n: nat) {
    forall i: nat :: i <= n && m(i).Some? ==> i < m(i).value <= n
  }

  /** A match: where it starts and where it ends. */
  datatype Span = Span(start: nat, end: nat)

  /**
   * The matches of a global search from `from` on, over a text of length
   * `n`: the leftmost match, then the matches from its end.
   */
  function Spans(m: nat -> Option<nat>, n: nat, from: nat): (r: seq<Span>)
    requires Advances(m, n) && from <= n
    ensures forall k :: 0 <= k < |r| ==> from <= r[k].start < n && m(r[k].start) == Some(r[k].end)
    ensures forall k :: 0 <= k < |r| - 1 ==> r[k].end <= r[k + 1].start
    decreases n - from
  {
    if from == n then []
    else
      match m(from)
      case None =>
        Spans(m, n, from + 1)
      case Some(e) =>
        var rest := Spans(m, n, e);
        var r := [Span(from, e)] + rest;
        assert forall k :: 1 <= k < |r| ==> r[k] == rest[k - 1];
        r
  }

  /** Position `q` lies inside one of `spans`. */
  predicate Covered(spans: seq<Span>, q: nat)
    decreases |spans|
  {
    spans != [] && (spans[0].start <= q < spans[0].end || Covered(spans[1..], q))
  }

  /** No match is skipped: every position at which a match could start lies inside a found match. */
  lemma {:induction false} SpansCoverMatches(m: nat -> Option<nat>, n: nat, from: nat, q: nat)
    requires Advances(m, n)
    requires from <= q < n
    requires m(q).Some?
    ensures Covered(Spans(m, n, from), q)
    decreases n - from
  {
    match m(from)
    case None =>
      SpansCoverMatches(m, n, from + 1, q);
    case Some(e) =>
      if q >= e {
        SpansCoverMatches(m, n, e, q);
        assert Spans(m, n, from)[1..] == Spans(m, n, e);
      }
  }

  /** The spans of `pattern` in the whole of `text`. */
  function PatternSpans(pattern: Pattern, text: string): (r: seq<Span>)
    ensures forall k :: 0 <= k < |r| ==> r[k].start < r[k].end <= |text|
  {
    var m := Matcher(pattern, text);
    var r := Spans(m, |text|, 0);
    assert forall k :: 0 <= k < |r| ==> m(r[k].start).Some?;
    r
  }

  /** Each span of `pattern` is a match of `pattern` at its start. */
  lemma PatternSpansMatch(pattern: Pattern, text: string)
    ensures forall k :: 0 <= k < |PatternSpans(pattern, text)| ==>
              var sp := PatternSpans(pattern, text)[k];
              MatchAt(pattern, text, sp.start) == Some(sp.end)
  {
  }

  /** `text.match(pattern)`, with `null` as the empty list. */
  function Matches(pattern: Pattern, text: string): (r: seq<string>)
    ensures |r| == |PatternSpans(pattern, text)|
  {
    var spans := PatternSpans(pattern, text);
    seq(|spans|, k requires 0 <= k < |spans| => text[spans[k].start..spans[k].end])
  }

  // ---------------------------------------------------------------------
  // Extraction

  /** ``url.startsWith('http') ? url : `https://${url}` `` (a case-sensitive test). */
  function Normalize(url: string): (r: string)
    ensures StartsWith(r, "http")
  {
    if StartsWith(url, "http") then url else "https://" + url
  }

  /** Each match trimmed, as the protocol-mode `forEach` adds them. */
  function TrimAll(ms: seq<string>): (r: seq<string>)
    ensures |r| == |ms|
    ensures forall k :: 0 <= k < |ms| ==> r[k] == Trim(ms[k])
  {
    seq(|ms|, k requires 0 <= k < |ms| => Trim(ms[k]))
  }

  /** Each match trimmed and given a scheme when it lacks one, as the protocol-free `forEach` adds them. */
  function NormalizeAll(ms: seq<string>): (r: seq<string>)
    ensures |r| == |ms|
    ensures forall k :: 0 <= k < |ms| ==> r[k] == Normalize(Trim(ms[k]))
  {
    seq(|ms|, k requires 0 <= k < |ms| => Normalize(Trim(ms[k])))
  }

  /** The strings added to the set for one pattern in protocol-free mode. */
  function NormalizedMatches(pattern: Pattern, text: string): seq<string> {
    NormalizeAll(Matches(pattern, text))
  }

  /** The strings added to the set for a list of patterns, pattern by pattern. */
  function AllNormalizedMatches(patterns: seq<Pattern>, text: string): seq<string>
    decreases |patterns|
  {
    if patterns == [] then []
    else AllNormalizedMatches(patterns[..|patterns| - 1], text) + NormalizedMatches(patterns[|patterns| - 1], text)
  }

  /** The strings added to the set in protocol mode. */
  function TrimmedMatches(text: string): seq<string> {
    TrimAll(Matches(WithProtocol, text))
  }

  /** Everything `extractUrls` adds to its set, in the order it adds it. */
  function UrlCandidates(text: string, requireProtocol: bool): seq<string> {
    if requireProtocol then TrimmedMatches(text) else AllNormalizedMatches(Patterns, text)
  }

  /** `Array.from(urls)` at the end of `extractUrls`. */
  function ExtractedUrls(text: string, requireProtocol: bool): (r: seq<string>)
    ensures NoDuplicates(r)
    ensures forall u :: u in r <==> u in UrlCandidates(text, requireProtocol)
  {
    DedupNoDuplicates(UrlCandidates(text, requireProtocol));
    DedupElements(UrlCandidates(text, requireProtocol));
    Dedup(UrlCandidates(text, requireProtocol))
  }

  lemma TrimAllSnoc(ms: seq<string>, i: nat)
    requires i < |ms|
    ensures TrimAll(ms[..i + 1]) == TrimAll(ms[..i]) + [Trim(ms[i])]
  {
  }

  lemma NormalizeAllSnoc(ms: seq<string>, i: nat)
    requires i < |ms|
    ensures NormalizeAll(ms[..i + 1]) == NormalizeAll(ms[..i]) + [Normalize(Trim(ms[i]))]
  {
  }

  /** The protocol-mode `forEach`: each trimmed match is added to the set. */
  method AddTrimmed(urls: seq<string>, matches: seq<string>) returns (r: seq<string>)
    ensures r == AddAll(urls, TrimAll(matches))
  {
    r := urls;
    for i := 0 to |matches|
      invariant r == AddAll(urls, TrimAll(matches[..i]))
    {
      TrimAllSnoc(matches, i);
      AddAllSnoc(urls, TrimAll(matches[..i]), Trim(matches[i]));
      r := Add(r, Trim(matches[i]));
    }
    assert matches[..|matches|] == matches;
  }

  /** The protocol-free `forEach`: each trimmed match is added, prefixed with `https://` unless it starts with `http`. */
  method AddNormalized(urls: seq<string>, matches: seq<string>) returns (r: seq<string>)
    ensures r == AddAll(urls, NormalizeAll(matches))
  {
    r := urls;
    for i := 0 to |matches|
      invariant r == AddAll(urls, NormalizeAll(matches[..i]))
    {
      var url := Trim(matches[i]);
      NormalizeAllSnoc(matches, i);
      AddAllSnoc(urls, NormalizeAll(matches[..i]), Normalize(url));
      if !StartsWith(url, "http") {
        r := Add(r, "https://" + url);
      } else {
        r := Add(r, url);
      }
    }
    assert matches[..|matches|] == matches;
  }

  /** `extractUrls(text, requireProtocol)`: the `forEach` loops adding to a `Set`. */
  method ExtractUrls(text: string, requireProtocol: bool) returns (urls: seq<string>)
    ensures urls == ExtractedUrls(text, requireProtocol)
  {
    urls := [];
    if requireProtocol {
      var matches := Matches(WithProtocol, text);
      urls := AddTrimmed(urls, matches);
    } else {
      for p := 0 to |Patterns|
        invariant urls == AddAll([], AllNormalizedMatches(Patterns[..p], text))
      {
        var matches := Matches(Patterns[p], text);
        ghost var before := AllNormalizedMatches(Patterns[..p], text);
        urls := AddNormalized(urls, matches);
        AddAllConcat([], before, NormalizeAll(matches));
        assert Patterns[..p + 1][..p] == Patterns[..p];
      }
      assert Patterns[..|Patterns|] == Patterns;
    }
  }

  /** `hasUrls(text, requireProtocol)` */
  predicate HasUrls(text: string, requireProtocol: bool): (b: bool)
    ensures b <==> |UrlCandidates(text, requireProtocol)| > 0
  {
    DedupEmpty(UrlCandidates(text, requireProtocol));
    |ExtractedUrls(text, requireProtocol)| > 0
  }

  /** `filterValidUrls(urls)`, with the `URL` constructor's verdict as the parameter `isValidUrl`. */
  function FilterValidUrls(urls: seq<string>, isValidUrl: string -> bool): (r: seq<string>)
    ensures IsSubsequence(r, urls)
    ensures forall u :: u in r ==> u in urls && isValidUrl(u)
    ensures forall k :: 0 <= k < |urls| && isValidUrl(urls[k]) ==> urls[k] in r
    ensures forall u :: multiset(r)[u] == if isValidUrl(u) then multiset(urls)[u] else 0
  {
    Filter(urls, isValidUrl)
  }

  // ---------------------------------------------------------------------
  // Properties

  /** A character that lower-cases to a character of a scheme is not excluded. */
  lemma SchemeCharAllowed(c: char)
    requires LowerChar(c) in "https:/"
    ensures !Excluded(c)
  {
  }

  /** A case-insensitive match of a scheme literal has no excluded character. */
  lemma LiteralChars(text: string, i: nat, lit: string)
    requires LiteralAt(text, i, lit)
    requires forall k :: 0 <= k < |lit| ==> lit[k] in "https:/"
    ensures forall k :: i <= k < i + |lit| ==> !Excluded(text[k])
  {
    forall k | i <= k < i + |lit|
      ensures !Excluded(text[k])
    {
      assert LowerAscii(text[i..i + |lit|])[k - i] == LowerChar(text[k]);
      assert lit[k - i] == LowerChar(text[k]);
      SchemeCharAllowed(text[k]);
    }
  }

  /** What follows a matched scheme keeps it as a prefix, and the scheme has no excluded character. */
  lemma SchemePrefix(text: string, i: nat, e: nat)
    requires SchemeEnd(text, i).Some? && SchemeEnd(text, i).value <= e <= |text|
    ensures HasScheme(text[i..e])
    ensures forall k :: i <= k < SchemeEnd(text, i).value ==> !Excluded(text[k])
  {
    if LiteralAt(text, i, "https://") {
      assert text[i..e][..8] == text[i..i + 8];
      LiteralChars(text, i, "https://");
    } else {
      assert text[i..e][..7] == text[i..i + 7];
      LiteralChars(text, i, "http://");
    }
  }

  /**
   * A protocol-mode match is a scheme and a non-empty run with no excluded
   * character, and it reaches the first excluded character or the end.
   */
  lemma UrlMatchShape(text: string, i: nat)
    requires i <= |text| && MatchAt(WithProtocol, text, i).Some?
    ensures var e := MatchAt(WithProtocol, text, i).value;
            var m := text[i..e];
            && HasScheme(m)
            && NoExcluded(m)
            && (e == |text| || Excluded(text[e]))
  {
    var s := SchemeEnd(text, i).value;
    var e := s + AllowedRun(text, s);
    SchemePrefix(text, i, e);
    var m := text[i..e];
    forall k | 0 <= k < |m|
      ensures !Excluded(m[k])
    {
      assert m[k] == text[i + k];
    }
  }

  /** Trimming leaves a string without excluded characters alone: whitespace is excluded. */
  lemma TrimNoExcluded(m: string)
    requires NoExcluded(m)
    ensures Trim(m) == m
  {
    assert !HasWhitespace(m) by {
      forall j | 0 <= j < |m|
        ensures !IsJsWhitespace(m[j])
      {
        assert !Excluded(m[j]);
      }
    }
  }

  /** In protocol mode every result carries a scheme, contains no excluded character, and is a whole greedy match. */
  lemma ProtocolResultsShape(text: string)
    ensures forall u :: u in ExtractedUrls(text, true) ==>
              && HasScheme(u)
              && NoExcluded(u)
              && exists k :: 0 <= k < |PatternSpans(WithProtocol, text)| &&
                             var sp := PatternSpans(WithProtocol, text)[k];
                             u == text[sp.start..sp.end] && (sp.end == |text| || Excluded(text[sp.end]))
  {
    var spans := PatternSpans(WithProtocol, text);
    var ms := Matches(WithProtocol, text);
    DedupElements(TrimAll(ms));
    forall u | u in ExtractedUrls(text, true)
      ensures HasScheme(u) && NoExcluded(u)
      ensures exists k :: 0 <= k < |spans| && u == text[spans[k].start..spans[k].end] &&
                          (spans[k].end == |text| || Excluded(text[spans[k].end]))
    {
      var k :| 0 <= k < |ms| && TrimAll(ms)[k] == u;
      var m := text[spans[k].start..spans[k].end];
      assert ms[k] == m;
      PatternSpansMatch(WithProtocol, text);
      UrlMatchShape(text, spans[k].start);
      TrimNoExcluded(m);
    }
  }

  /** Whatever the mode, results are distinct and listed in the order of their first addition. */
  lemma ResultsDistinctInFirstSeenOrder(text: string, requireProtocol: bool)
    ensures var urls := ExtractedUrls(text, requireProtocol);
            var cands := UrlCandidates(text, requireProtocol);
            && NoDuplicates(urls)
            && (forall u :: u in urls <==> u in cands)
            && forall i, j :: 0 <= i < j < |urls| ==> FirstIndex(cands, urls[i]) < FirstIndex(cands, urls[j])
  {
    var cands := UrlCandidates(text, requireProtocol);
    DedupNoDuplicates(cands);
    DedupElements(cands);
    DedupFirstOccurrenceOrder(cands);
  }

  lemma {:induction false} AllNormalizedStartWithHttp(patterns: seq<Pattern>, text: string)
    ensures forall u :: u in AllNormalizedMatches(patterns, text) ==> StartsWith(u, "http")
    decreases |patterns|
  {
    if patterns != [] {
      AllNormalizedStartWithHttp(patterns[..|patterns| - 1], text);
    }
  }

  /** Without the protocol requirement every result starts with `http`: a missing one is prefixed. */
  lemma LooseResultsStartWithHttp(text: string)
    ensures forall u :: u in ExtractedUrls(text, false) ==> StartsWith(u, "http")
  {
    AllNormalizedStartWithHttp(Patterns, text);
    DedupElements(UrlCandidates(text, false));
  }

  /** A trimmed match that already starts with `http` is also what normalising that match gives. */
  lemma TrimmedHttpIsNormalized(ms: seq<string>, u: string)
    requires u in TrimAll(ms) && StartsWith(u, "http")
    ensures u in NormalizeAll(ms)
  {
    var k :| 0 <= k < |ms| && TrimAll(ms)[k] == u;
    assert NormalizeAll(ms)[k] == u;
  }

  /** A protocol-mode result spelt with a lower-case `http` is also found without the protocol requirement. */
  lemma ProtocolResultsAlsoLoose(text: string)
    ensures forall u :: u in ExtractedUrls(text, true) && StartsWith(u, "http") ==> u in ExtractedUrls(text, false)
  {
    var strict, loose := UrlCandidates(text, true), UrlCandidates(text, false);
    DedupElements(strict);
    DedupElements(loose);
    var ms := Matches(WithProtocol, text);
    assert Patterns[..1] == [WithProtocol] && Patterns[..1][..0] == [];
    assert AllNormalizedMatches(Patterns[..1], text) == NormalizeAll(ms);
    assert loose == NormalizeAll(ms) + NormalizedMatches(DomainLike, text);
    forall u | u in strict && StartsWith(u, "http")
      ensures u in loose
    {
      TrimmedHttpIsNormalized(ms, u);
    }
  }

  /** A global search finds something exactly when the pattern matches at some position. */
  lemma SpansIffSomeMatch(pattern: Pattern, text: string)
    ensures |PatternSpans(pattern, text)| > 0 <==> exists q :: 0 <= q < |text| && MatchAt(pattern, text, q).Some?
  {
    var spans := PatternSpans(pattern, text);
    if |spans| > 0 {
      PatternSpansMatch(pattern, text);
      assert MatchAt(pattern, text, spans[0].start).Some?;
    }
    if q :| 0 <= q < |text| && MatchAt(pattern, text, q).Some? {
      SpansCoverMatches(Matcher(pattern, text), |text|, 0, q);
    }
  }

  /**
   * `hasUrls` in protocol mode holds exactly when some position of the
   * text starts a match: a scheme followed by a character that is not excluded.
   */
  lemma HasUrlsIffSomeMatch(text: string)
    ensures HasUrls(text, true) <==> exists q :: 0 <= q < |text| && MatchAt(WithProtocol, text, q).Some?
  {
    DedupEmpty(TrimmedMatches(text));
    SpansIffSomeMatch(WithProtocol, text);
  }

  /**
   * `hasUrls` without the protocol requirement holds exactly when one of
   * the two patterns matches at some position of the text.
   */
  lemma HasUrlsLooseIffSomeMatch(text: string)
    ensures HasUrls(text, false) <==>
            exists q :: 0 <= q < |text| && (MatchAt(WithProtocol, text, q).Some? || MatchAt(DomainLike, text, q).Some?)
  {
    assert Patterns[..1] == [WithProtocol] && Patterns[..1][..0] == [];
    assert AllNormalizedMatches(Patterns[..1], text) == NormalizedMatches(WithProtocol, text);
    var loose := UrlCandidates(text, false);
    assert loose == NormalizedMatches(WithProtocol, text) + NormalizedMatches(DomainLike, text);
    assert |loose| == |PatternSpans(WithProtocol, text)| + |PatternSpans(DomainLike, text)|;
    SpansIffSomeMatch(WithProtocol, text);
    SpansIffSomeMatch(DomainLike, text);
  }

  /** The normalisation rule as written: a host that happens to start with `http` gets no scheme. */
  lemma NormalizeHttpHost()
    ensures Normalize("httpbin.org") == "httpbin.org"
  {
    assert "httpbin.org"[..4] == "http";
  }

  /** An upper-case scheme is not recognised and gets a second one in front. */
  lemma NormalizeUpperCaseScheme()
    ensures Normalize("HTTP://example.com") == "https://" + "HTTP://example.com"
  {
    assert "HTTP://example.com"[0] == 'H';
  }
}

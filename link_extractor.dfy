/**
 * The link extractor of index.js: the global regular expression
 * /https?:\/\/\S+/g applied to the chat transcript with String.prototype.match.
 *
 * The regular expression engine is written out as a left-to-right scanner over
 * positions: at each position it tries one match; a match yields a span and the
 * scan resumes at the span's end, no match moves it one position on. The links
 * are the texts of the spans. `match` answers `null` when nothing matches; here
 * that is the empty sequence.
 */
module LinkExtractor {
  import opened Options

  /**
   * The characters JavaScript's `\s` matches: the ECMAScript WhiteSpace
   * characters (tab, vertical tab, form feed, space, no-break space, byte order
   * mark and the other space separators) and the LineTerminator characters.
   */
  predicate IsWhitespace(c: char) {
    || '\t' <= c <= '\r' || c == ' ' || c == '\U{00A0}' || c == '\U{1680}' || '\U{2000}' <= c <= '\U{200A}'
    || c == '\U{2028}' || c == '\U{2029}' || c == '\U{202F}' || c == '\U{205F}'
    || c == '\U{3000}' || c == '\U{FEFF}'
  }

  const HttpScheme: string := "http://"
  const HttpsScheme: string := "https://"

  /** `p` occurs in `s` starting at position `i`. */
  predicate OccursAt(s: string, i: nat, p: string) {
    i + |p| <= |s| && s[i..i + |p|] == p
  }

  predicate NoWhitespace(t: string) {
    forall k :: 0 <= k < |t| ==> !IsWhitespace(t[k])
  }

  /** What the regular expression can match: a scheme, at least one more character, no whitespace. */
  predicate IsLink(l: string) {
    && ((OccursAt(l, 0, HttpScheme) && |l| > |HttpScheme|) || (OccursAt(l, 0, HttpsScheme) && |l| > |HttpsScheme|))
    && NoWhitespace(l)
  }

  /**
   * The length of the `https?:\/\/` part that matches at `i`, or 0. The
   * optional `s` is tried first; if `://` does not follow it, `s?` can only
   * match the empty string, and then `://` must start where the `s` would.
   */
  function SchemeLength(s: string, i: nat): nat {
    if i + 4 <= |s| && s[i] == 'h' && s[i + 1] == 't' && s[i + 2] == 't' && s[i + 3] == 'p' then
      if i + 8 <= |s| && s[i + 4] == 's' && s[i + 5] == ':' && s[i + 6] == '/' && s[i + 7] == '/' then 8
      else if i + 7 <= |s| && s[i + 4] == ':' && s[i + 5] == '/' && s[i + 6] == '/' then 7
      else 0
    else 0
  }

  /** The scheme part matches exactly where "https://" or "http://" occurs. */
  lemma SchemeLengthOccurs(s: string, i: nat)
    ensures SchemeLength(s, i) == 8 <==> OccursAt(s, i, HttpsScheme)
    ensures SchemeLength(s, i) == 7 <==> OccursAt(s, i, HttpScheme)
    ensures SchemeLength(s, i) == 0 <==> !OccursAt(s, i, HttpsScheme) && !OccursAt(s, i, HttpScheme)
  {
    if i + 8 <= |s| {
      assert OccursAt(s, i, HttpsScheme) <==> forall k :: 0 <= k < 8 ==> s[i + k] == HttpsScheme[k];
    }
    if i + 7 <= |s| {
      assert OccursAt(s, i, HttpScheme) <==> forall k :: 0 <= k < 7 ==> s[i + k] == HttpScheme[k];
    }
  }

  /** Where the greedy `\S+` that starts at `j` stops: the first whitespace at or after `j`, or the end. */
  function RunEnd(s: string, j: nat): (e: nat)
    requires j <= |s|
    ensures j <= e <= |s|
    decreases |s| - j
  {
    if j == |s| || IsWhitespace(s[j]) then j else RunEnd(s, j + 1)
  }

  /** The run holds no whitespace and is maximal. */
  lemma {:induction false} RunEndIsFirstWhitespace(s: string, j: nat)
    requires j <= |s|
    ensures forall k :: j <= k < RunEnd(s, j) ==> !IsWhitespace(s[k])
    ensures RunEnd(s, j) == |s| || IsWhitespace(s[RunEnd(s, j)])
    decreases |s| - j
  {
    if j < |s| && !IsWhitespace(s[j]) {
      RunEndIsFirstWhitespace(s, j + 1);
    }
  }

  /**
   * The end of the match that starts at `i`, if one does: the scheme, then a
   * non-empty run of non-whitespace. Nothing follows `\S+` in the pattern, so
   * it keeps every character it can take.
   */
  function MatchAt(s: string, i: nat): (r: Option<nat>)
    requires i <= |s|
    ensures r.Some? ==> i < r.value <= |s|
  {
    var n := SchemeLength(s, i);
    if n > 0 && i + n < |s| && !IsWhitespace(s[i + n]) then Some(RunEnd(s, i + n)) else None
  }

  /** A match holds no whitespace, and whitespace or the end of the text follows it. */
  lemma MatchIsGreedy(s: string, i: nat)
    requires i <= |s|
    ensures MatchAt(s, i).Some? ==> forall k :: i <= k < MatchAt(s, i).value ==> !IsWhitespace(s[k])
    ensures MatchAt(s, i).Some? ==> MatchAt(s, i).value == |s| || IsWhitespace(s[MatchAt(s, i).value])
  {
    var n := SchemeLength(s, i);
    if MatchAt(s, i).Some? {
      RunEndIsFirstWhitespace(s, i + n);
      assert forall k :: i <= k < i + n ==> s[k] in "https:/";
    }
  }

  /** The text of a match is a link. */
  lemma MatchIsLink(s: string, i: nat)
    requires i <= |s|
    ensures MatchAt(s, i).Some? ==> IsLink(s[i..MatchAt(s, i).value])
  {
    if MatchAt(s, i).Some? {
      var e := MatchAt(s, i).value;
      SchemeLengthOccurs(s, i);
      MatchIsGreedy(s, i);
      assert s[i..e][..|HttpsScheme|] == s[i..i + |HttpsScheme|] || e < i + |HttpsScheme|;
      assert s[i..e][..|HttpScheme|] == s[i..i + |HttpScheme|];
    }
  }

  /** Greedy `\S+` has one place to stop. */
  lemma RunIsUnique(s: string, i: nat, e: nat, v: nat)
    requires i <= e <= |s| && i <= v <= |s|
    requires forall k :: i <= k < e ==> !IsWhitespace(s[k])
    requires forall k :: i <= k < v ==> !IsWhitespace(s[k])
    requires e == |s| || IsWhitespace(s[e])
    requires v == |s| || IsWhitespace(s[v])
    ensures e == v
  {
  }

  /** One match of the regular expression: the text `s[start..end]`. */
  datatype Span = Span(start: nat, end: nat)

  /**
   * The matches found by scanning from position `i` on, as `match` with the
   * `g` flag finds them: after a match the scan resumes at its end.
   */
  function ScanFrom(s: string, i: nat): (r: seq<Span>)
    requires i <= |s|
    decreases |s| - i
  {
    if i == |s| then []
    else match MatchAt(s, i)
      case Some(e) => [Span(i, e)] + ScanFrom(s, e)
      case None => ScanFrom(s, i + 1)
  }

  /** One step of the scan at a position where a link matches. */
  lemma ScanFromMatchStep(s: string, i: nat, e: nat)
    requires i < |s| && MatchAt(s, i) == Some(e)
    ensures ScanFrom(s, i) == [Span(i, e)] + ScanFrom(s, e)
  {
  }

  /** One step of the scan at a position where no link matches. */
  lemma ScanFromSkipStep(s: string, i: nat)
    requires i < |s| && MatchAt(s, i).None?
    ensures ScanFrom(s, i) == ScanFrom(s, i + 1)
  {
  }

  /** Every span found from `i` on is a non-empty piece of the text at or after `i`. */
  lemma {:induction false} ScanFromBounds(s: string, i: nat)
    requires i <= |s|
    ensures forall k :: 0 <= k < |ScanFrom(s, i)| ==> i <= ScanFrom(s, i)[k].start < ScanFrom(s, i)[k].end <= |s|
    decreases |s| - i
  {
    if i < |s| {
      if MatchAt(s, i).Some? {
        var e := MatchAt(s, i).value;
        ScanFromMatchStep(s, i, e);
        ScanFromBounds(s, e);
      } else {
        ScanFromSkipStep(s, i);
        ScanFromBounds(s, i + 1);
      }
    }
  }

  /**
   * Each span is a match at its start, and the spans come in text order with
   * whitespace between one and the next.
   */
  lemma {:induction false} ScanFromMatches(s: string, i: nat)
    requires i <= |s|
    ensures forall k :: 0 <= k < |ScanFrom(s, i)| ==> i <= ScanFrom(s, i)[k].start < ScanFrom(s, i)[k].end <= |s|
    ensures forall k :: 0 <= k < |ScanFrom(s, i)| ==>
              MatchAt(s, ScanFrom(s, i)[k].start) == Some(ScanFrom(s, i)[k].end)
    ensures forall k, m :: 0 <= k < m < |ScanFrom(s, i)| ==> ScanFrom(s, i)[k].end < ScanFrom(s, i)[m].start
    decreases |s| - i
  {
    ScanFromBounds(s, i);
    if i < |s| {
      match MatchAt(s, i)
      case Some(e) =>
        ScanFromMatches(s, e);
        var rest := ScanFrom(s, e);
        var r := [Span(i, e)] + rest;
        ScanFromMatchStep(s, i, e);
        assert forall k :: 0 < k < |r| ==> r[k] == rest[k - 1];
        if rest != [] {
          MatchIsGreedy(s, i);
          MatchIsGreedy(s, rest[0].start);
          assert e < rest[0].start;
        }
      case None =>
        ScanFromSkipStep(s, i);
        ScanFromMatches(s, i + 1);
    }
  }

  /** Every position where the regular expression would match lies inside one of the spans. */
  lemma {:induction false} ScanFromCovers(s: string, i: nat, p: nat) returns (k: nat)
    requires i <= p < |s| && MatchAt(s, p).Some?
    ensures k < |ScanFrom(s, i)| && ScanFrom(s, i)[k].start <= p < ScanFrom(s, i)[k].end
    decreases |s| - i
  {
    if MatchAt(s, i).Some? {
      var e := MatchAt(s, i).value;
      ScanFromMatchStep(s, i, e);
      if p < e {
        k := 0;
      } else {
        var k' := ScanFromCovers(s, e, p);
        k := k' + 1;
      }
    } else {
      ScanFromSkipStep(s, i);
      k := ScanFromCovers(s, i + 1, p);
    }
  }

  /** The text a span covers; a span that does not lie within the text covers nothing. */
  function SpanText(s: string, x: Span): string {
    if x.start <= x.end <= |s| then s[x.start..x.end] else []
  }

  /** The texts of the spans, in order. */
  function Texts(s: string, spans: seq<Span>): (r: seq<string>)
    ensures |r| == |spans|
    ensures forall k :: 0 <= k < |r| ==> r[k] == SpanText(s, spans[k])
  {
    if spans == [] then [] else [SpanText(s, spans[0])] + Texts(s, spans[1..])
  }

  /**
   * `extractLinksFromZoomChat`: every match of /https?:\/\/\S+/g in `text`, in
   * order; the k-th link is the text of the k-th match.
   */
  function ExtractLinks(text: string): (links: seq<string>)
    ensures |links| == |ScanFrom(text, 0)|
    ensures forall k :: 0 <= k < |links| ==>
              links[k] == SpanText(text, ScanFrom(text, 0)[k])
    ensures forall k :: 0 <= k < |links| ==> IsLink(links[k])
  {
    var spans := ScanFrom(text, 0);
    ScanFromMatches(text, 0);
    forall k | 0 <= k < |spans| ensures IsLink(SpanText(text, spans[k])) {
      MatchIsLink(text, spans[k].start);
    }
    Texts(text, spans)
  }

  /**
   * The links are exactly the global match: each is the text of a match, is
   * greedy (whitespace or the end of the text follows it), comes after the
   * previous one without overlapping it, and every position where a match
   * could start lies inside one of them.
   */
  lemma ExtractLinksIsGlobalMatch(text: string)
    ensures var spans := ScanFrom(text, 0);
      && (forall k :: 0 <= k < |spans| ==>
            && spans[k].start < spans[k].end <= |text|
            && MatchAt(text, spans[k].start) == Some(spans[k].end)
            && (spans[k].end == |text| || IsWhitespace(text[spans[k].end])))
      && (forall k, m :: 0 <= k < m < |spans| ==> spans[k].end < spans[m].start)
      && (forall p :: 0 <= p < |text| && MatchAt(text, p).Some? ==>
            exists k :: 0 <= k < |spans| && spans[k].start <= p < spans[k].end)
  {
    var spans := ScanFrom(text, 0);
    ScanFromMatches(text, 0);
    forall k | 0 <= k < |spans| ensures spans[k].end == |text| || IsWhitespace(text[spans[k].end]) {
      MatchIsGreedy(text, spans[k].start);
    }
    forall p | 0 <= p < |text| && MatchAt(text, p).Some?
      ensures exists k :: 0 <= k < |spans| && spans[k].start <= p < spans[k].end
    {
      var k := ScanFromCovers(text, 0, p);
    }
  }

  /** No links exactly when the regular expression matches nowhere; `main` then reports "No links found". */
  lemma NoLinksIff(text: string)
    ensures ExtractLinks(text) == [] <==> forall p :: 0 <= p < |text| ==> MatchAt(text, p).None?
  {
    var spans := ScanFrom(text, 0);
    if spans != [] {
      ScanFromMatches(text, 0);
      assert MatchAt(text, spans[0].start).Some?;
    }
    forall p | 0 <= p < |text| && MatchAt(text, p).Some? ensures spans != [] {
      var k := ScanFromCovers(text, 0, p);
    }
  }

  /** A text in which neither "http://" nor "https://" occurs yields no links. */
  lemma NoSchemeNoLinks(text: string)
    requires forall p :: !OccursAt(text, p, HttpScheme) && !OccursAt(text, p, HttpsScheme)
    ensures ExtractLinks(text) == []
  {
    forall p | 0 <= p < |text| ensures MatchAt(text, p).None? {
      SchemeLengthOccurs(text, p);
    }
    NoLinksIff(text);
  }

  /** The spans moved `d` positions to the right. */
  function Shift(spans: seq<Span>, d: nat): (r: seq<Span>)
    ensures |r| == |spans|
  {
    if spans == [] then [] else [Span(spans[0].start + d, spans[0].end + d)] + Shift(spans[1..], d)
  }

  lemma {:induction false} RunEndSuffix(s: string, d: nat, j: nat)
    requires d + j <= |s|
    ensures RunEnd(s, d + j) == d + RunEnd(s[d..], j)
    decreases |s| - d - j
  {
    if d + j < |s| {
      assert s[d..][j] == s[d + j];
      if !IsWhitespace(s[d + j]) {
        RunEndSuffix(s, d, j + 1);
      }
    }
  }

  /** A match depends only on the text from its start on. */
  lemma MatchAtSuffix(s: string, d: nat, j: nat)
    requires d + j <= |s|
    ensures MatchAt(s, d + j).Some? == MatchAt(s[d..], j).Some?
    ensures MatchAt(s, d + j).Some? ==> MatchAt(s, d + j).value == d + MatchAt(s[d..], j).value
  {
    var t := s[d..];
    assert forall k :: j <= k < |t| ==> t[k] == s[d + k];
    var n := SchemeLength(t, j);
    assert SchemeLength(s, d + j) == n;
    if n > 0 && j + n <= |t| {
      RunEndSuffix(s, d, j + n);
    }
  }

  /** Scanning a text from position `d + j` finds the matches of scanning its suffix from `j`, moved by `d`. */
  lemma {:induction false} ScanFromSuffix(s: string, d: nat, j: nat)
    requires d + j <= |s|
    ensures ScanFrom(s, d + j) == Shift(ScanFrom(s[d..], j), d)
    decreases |s| - d - j
  {
    if d + j < |s| {
      if MatchAt(s[d..], j).Some? {
        var e := MatchAt(s[d..], j).value;
        ScanFromSuffix(s, d, e);
        ScanFromSuffixMatch(s, d, j, e);
      } else {
        ScanFromSuffix(s, d, j + 1);
        ScanFromSuffixSkip(s, d, j);
      }
    } else {
      assert ScanFrom(s[d..], j) == [];
    }
  }

  lemma ScanFromSuffixMatch(s: string, d: nat, j: nat, e: nat)
    requires d + j < |s|
    requires MatchAt(s[d..], j) == Some(e)
    requires ScanFrom(s, d + e) == Shift(ScanFrom(s[d..], e), d)
    ensures ScanFrom(s, d + j) == Shift(ScanFrom(s[d..], j), d)
  {
    ScanFromSuffixMatchStep(s, d, j, e);
    ScanFromMatchStep(s[d..], j, e);
    ShiftPrepend(ScanFrom(s, d + j), ScanFrom(s, d + e), ScanFrom(s[d..], j), ScanFrom(s[d..], e), Span(j, e), d);
  }

  lemma ScanFromSuffixMatchStep(s: string, d: nat, j: nat, e: nat)
    requires d + j < |s|
    requires MatchAt(s[d..], j) == Some(e)
    ensures ScanFrom(s, d + j) == [Span(d + j, d + e)] + ScanFrom(s, d + e)
  {
    MatchAtSuffix(s, d, j);
    ScanFromMatchStep(s, d + j, d + e);
  }

  lemma ShiftPrepend(a: seq<Span>, b: seq<Span>, c: seq<Span>, f: seq<Span>, x: Span, d: nat)
    requires a == [Span(x.start + d, x.end + d)] + b && c == [x] + f && b == Shift(f, d)
    ensures a == Shift(c, d)
  {
  }

  lemma ScanFromSuffixSkip(s: string, d: nat, j: nat)
    requires d + j < |s|
    requires MatchAt(s[d..], j).None?
    requires ScanFrom(s, d + j + 1) == Shift(ScanFrom(s[d..], j + 1), d)
    ensures ScanFrom(s, d + j) == Shift(ScanFrom(s[d..], j), d)
  {
  }

  lemma {:induction false} TextsOfShift(s: string, d: nat, spans: seq<Span>)
    requires d <= |s|
    requires forall k :: 0 <= k < |spans| ==> spans[k].start <= spans[k].end <= |s| - d
    ensures Texts(s, Shift(spans, d)) == Texts(s[d..], spans)
  {
    if spans != [] {
      var x := Span(spans[0].start + d, spans[0].end + d);
      var shifted := Shift(spans, d);
      assert shifted == [x] + Shift(spans[1..], d);
      assert shifted[0] == x && shifted[1..] == Shift(spans[1..], d);
      TextsOfShift(s, d, spans[1..]);
      SliceOfSuffix(s, d, spans[0].start, spans[0].end);
    }
  }

  lemma SliceOfSuffix(s: string, d: nat, a: nat, b: nat)
    requires d + a <= d + b <= |s|
    ensures s[d + a..d + b] == s[d..][a..b]
  {
  }

  /** A link followed by whitespace (or nothing) is extracted whole, and the scan goes on after it. */
  lemma LeadingLink(l: string, w: string)
    requires IsLink(l)
    requires w == [] || IsWhitespace(w[0])
    ensures ExtractLinks(l + w) == [l] + ExtractLinks(w)
  {
    var s := l + w;
    LeadingLinkScan(l, w);
    assert s[|l|..] == w;
    ScanFromBounds(w, 0);
    TextsOfShift(s, |l|, ScanFrom(w, 0));
    TextsCons(s, Span(0, |l|), Shift(ScanFrom(w, 0), |l|));
    assert s[0..|l|] == l;
  }

  lemma LeadingLinkScan(l: string, w: string)
    requires IsLink(l)
    requires w == [] || IsWhitespace(w[0])
    ensures ScanFrom(l + w, 0) == [Span(0, |l|)] + Shift(ScanFrom(w, 0), |l|)
  {
    var s := l + w;
    LeadingLinkMatches(l, w);
    ScanFromMatchStep(s, 0, |l|);
    ScanFromSuffix(s, |l|, 0);
    assert s[|l|..] == w;
  }

  /** The match at the start of a link followed by whitespace (or nothing) is the link. */
  lemma LeadingLinkMatches(l: string, w: string)
    requires IsLink(l)
    requires w == [] || IsWhitespace(w[0])
    ensures MatchAt(l + w, 0) == Some(|l|)
  {
    var s := l + w;
    assert forall k :: 0 <= k < |l| ==> s[k] == l[k];
    SchemeLengthOccurs(l, 0);
    assert SchemeLength(s, 0) == SchemeLength(l, 0);
    MatchIsGreedy(s, 0);
    RunIsUnique(s, 0, |l|, MatchAt(s, 0).value);
  }

  /** A link-shaped piece of text followed by whitespace (or the end) is a match at its start. */
  lemma MatchAtComplete(s: string, i: nat, e: nat)
    requires i <= e <= |s| && IsLink(s[i..e])
    requires e == |s| || IsWhitespace(s[e])
    ensures MatchAt(s, i) == Some(e)
  {
    LeadingLinkMatches(s[i..e], s[e..]);
    assert s[i..] == s[i..e] + s[e..];
    MatchAtSuffix(s, i, 0);
  }

  lemma TextsCons(s: string, x: Span, spans: seq<Span>)
    ensures Texts(s, [x] + spans) == [SpanText(s, x)] + Texts(s, spans)
  {
  }

  /** No match starts at `x` when no 'p' lies between `x` and the next whitespace at `g - 1`. */
  lemma NoMatchBeforeGap(s: string, g: nat, x: nat)
    requires x < g <= |s|
    requires IsWhitespace(s[g - 1])
    requires forall k :: x <= k < g ==> s[k] != 'p'
    ensures MatchAt(s, x).None?
  {
  }

  lemma {:induction false} SkipNoMatch(s: string, i: nat, j: nat)
    requires i <= j <= |s|
    requires forall x :: i <= x < j ==> MatchAt(s, x).None?
    ensures ScanFrom(s, i) == ScanFrom(s, j)
    decreases j - i
  {
    if i < j {
      SkipNoMatch(s, i + 1, j);
    }
  }

  /**
   * Text without the letter 'p' that ends in whitespace holds no link and no
   * link can start in it, so the links after it are found as if it were absent.
   */
  lemma LeadingGap(g: string, w: string)
    requires |g| > 0 && IsWhitespace(g[|g| - 1])
    requires 'p' !in g
    ensures ExtractLinks(g + w) == ExtractLinks(w)
  {
    var s := g + w;
    forall x | 0 <= x < |g| ensures MatchAt(s, x).None? {
      assert forall k :: x <= k < |g| ==> s[k] == g[k];
      NoMatchBeforeGap(s, |g|, x);
    }
    SkipNoMatch(s, 0, |g|);
    ScanFromSuffix(s, |g|, 0);
    assert s[|g|..] == w;
    ScanFromBounds(w, 0);
    TextsOfShift(s, |g|, ScanFrom(w, 0));
  }

  /** A transcript line with two links between words: both are found, in the order they appear. */
  lemma TwoLinksBetweenWords(a: string, b: string)
    requires IsLink(a) && IsLink(b)
    ensures ExtractLinks("see " + a + " and " + b) == [a, b]
  {
    assert "see " + a + " and " + b == "see " + (a + (" and " + (b + [])));
    LeadingLink(b, []);
    assert ExtractLinks([]) == [];
    LeadingGap(" and ", b + []);
    LeadingLink(a, " and " + (b + []));
    LeadingGap("see ", a + (" and " + (b + [])));
  }
}

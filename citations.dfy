/** The agents' shared helpers: score normalisation, the post-processing of
    article citations found in a research reply, and the numbered reference
    list appended to a rationale. The regular-expression matching itself is
    an input: the `TITLE: … | URL: …` matches as pairs, and for the line
    scan a search function giving the text before a line's first URL and
    that URL. */
module Citations {
  import opened Wrappers
  import opened Collections
  import Text

  // ---------------------------------------------------------------------
  // Score normalisation

  /** Where `value` lies between `lo` and `hi`, as a fraction. */
  function Fraction(value: real, lo: real, hi: real): real
    requires lo != hi
  {
    (value - lo) / (hi - lo)
  }

  /** `_normalize_score`: `value` on a 0-100 scale between `lo` and `hi`,
      clamped; 50 when the range is empty. */
  function NormalizeScore(value: real, lo: real, hi: real): (r: real)
    ensures 0.0 <= r <= 100.0
  {
    if hi == lo then 50.0
    else
      var n := Fraction(value, lo, hi) * 100.0;
      if n > 100.0 then 100.0 else if n < 0.0 then 0.0 else n
  }

  lemma FractionMonotone(v: real, w: real, lo: real, hi: real)
    requires lo < hi && v <= w
    ensures Fraction(v, lo, hi) <= Fraction(w, lo, hi)
  {
    var d := hi - lo;
    assert Fraction(w, lo, hi) - Fraction(v, lo, hi) == (w - v) / d;
  }

  /** A larger value never normalises lower, the range maps onto 0..100,
      and an empty range gives the neutral 50. */
  lemma NormalizeScoreShape(v: real, w: real, lo: real, hi: real)
    ensures hi == lo ==> NormalizeScore(v, lo, hi) == 50.0
    ensures lo < hi && v <= w ==> NormalizeScore(v, lo, hi) <= NormalizeScore(w, lo, hi)
    ensures lo < hi ==> NormalizeScore(lo, lo, hi) == 0.0 && NormalizeScore(hi, lo, hi) == 100.0
  {
    if lo < hi {
      if v <= w {
        FractionMonotone(v, w, lo, hi);
      }
      var d := hi - lo;
      assert Fraction(hi, lo, hi) == d / d == 1.0;
    }
  }

  // ---------------------------------------------------------------------
  // Hosts and URLs

  /** The text before and after the first occurrence of `p`. */
  function SplitAt(s: string, p: string): (r: Option<(string, string)>)
    requires p != []
    ensures r.Some? ==> |r.value.0| + |p| <= |s|
    decreases |s|
  {
    if |s| < |p| then None
    else if s[..|p|] == p then Some(([], s[|p|..]))
    else
      match SplitAt(s[1..], p)
      case None => None
      case Some(parts) => Some(([s[0]] + parts.0, parts.1))
  }

  /** `SplitAt` finds an occurrence exactly when there is one. */
  lemma {:induction false} SplitAtFound(s: string, p: string)
    requires p != []
    ensures SplitAt(s, p).Some? <==> Text.Contains(s, p)
    decreases |s|
  {
    if s != [] {
      SplitAtFound(s[1..], p);
    }
  }

  /** The parts around the occurrence put back together give `s`. */
  lemma {:induction false} SplitAtParts(s: string, p: string)
    requires p != [] && SplitAt(s, p).Some?
    ensures s == SplitAt(s, p).value.0 + p + SplitAt(s, p).value.1
    decreases |s|
  {
    if s[..|p|] != p {
      SplitAtParts(s[1..], p);
      assert s == [s[0]] + s[1..];
    }
  }

  /** No occurrence starts before the one `SplitAt` finds. */
  lemma {:induction false} SplitAtFirst(s: string, p: string)
    requires p != [] && SplitAt(s, p).Some?
    ensures forall i :: 0 <= i < |SplitAt(s, p).value.0| ==> !Text.StartsWith(s[i..], p)
    decreases |s|
  {
    if s[..|p|] != p {
      SplitAtFirst(s[1..], p);
      var b := SplitAt(s[1..], p).value.0;
      forall i | 0 <= i < |b| + 1 ensures !Text.StartsWith(s[i..], p) {
        if i > 0 {
          assert s[i..] == s[1..][i - 1..];
        }
      }
    }
  }

  /** The text before the first `c` (all of it when there is none). */
  function UpTo(s: string, c: char): (r: string)
    ensures |r| <= |s| && c !in r && r == s[..|r|] && (|r| < |s| ==> s[|r|] == c)
  {
    if s == [] || s[0] == c then [] else [s[0]] + UpTo(s[1..], c)
  }

  const UnknownSource: string := "Unknown"
  const Scheme: string := "//"
  const WebPrefix: string := "www."

  /** `url.split('//')[1].split('/')[0].replace('www.', '')` when the URL
      has a `//`, else "Unknown". */
  function SourceOf(url: string): string {
    match SplitAt(url, Scheme)
    case None => UnknownSource
    case Some(parts) => Text.RemoveAll(UpTo(parts.1, '/'), WebPrefix)
  }

  /** The host is what follows the first `//` up to the next `/`, with
      every "www." removed. */
  lemma SourceIsHost(url: string, scheme: string, host: string, path: string)
    requires url == scheme + Scheme + host + path
    requires forall i :: 0 <= i < |scheme| ==> !Text.StartsWith(url[i..], Scheme)
    requires '/' !in host && (path == [] || path[0] == '/')
    ensures SourceOf(url) == Text.RemoveAll(host, WebPrefix)
  {
    SplitAtFound(url, Scheme);
    assert Text.StartsWith(url[|scheme|..], Scheme) by {
      assert url[|scheme|..] == Scheme + host + path;
    }
    assert Text.Contains(url, Scheme) by {
      ContainsAt(url, Scheme, |scheme|);
    }
    var (b, a) := SplitAt(url, Scheme).value;
    SplitAtParts(url, Scheme);
    SplitAtFirst(url, Scheme);
    assert url == b + Scheme + a;
    assert Text.StartsWith(url[|b|..], Scheme) by {
      assert url[|b|..] == Scheme + a;
    }
    assert |b| == |scheme|;
    assert a == url[|scheme| + 2..] == host + path;
    UpToPrefix(host, path, '/');
  }

  lemma {:induction false} ContainsAt(s: string, p: string, i: nat)
    requires i <= |s| && Text.StartsWith(s[i..], p)
    ensures Text.Contains(s, p)
    decreases i
  {
    if i > 0 {
      assert s[i..] == s[1..][i - 1..];
      ContainsAt(s[1..], p, i - 1);
    }
  }

  lemma {:induction false} UpToPrefix(host: string, path: string, c: char)
    requires c !in host && (path == [] || path[0] == c)
    ensures UpTo(host + path, c) == host
  {
    if host != [] {
      assert (host + path)[1..] == host[1..] + path;
      UpToPrefix(host[1..], path, c);
    }
  }

  /** Without `//` there is no host to report. */
  lemma SourceUnknown(url: string)
    requires !Text.Contains(url, Scheme)
    ensures SourceOf(url) == UnknownSource
  {
    SplitAtFound(url, Scheme);
  }

  /** A reported source never contains a `/`. */
  lemma SourceHasNoSlash(url: string)
    ensures '/' !in SourceOf(url)
  {
    var split := SplitAt(url, Scheme);
    if split.Some? {
      Text.RemoveKeepsAbsent(UpTo(split.value.1, '/'), WebPrefix, '/');
    }
  }

  /** `.rstrip('.,;)')`. */
  const TrailingPunctuation: set<char> := {'.', ',', ';', ')'}

  function CleanUrl(url: string): string {
    Text.TrimRightOf(url, TrailingPunctuation)
  }

  // ---------------------------------------------------------------------
  // Citations

  datatype Article = Article(title: string, url: string, source: string)

  /** One `TITLE: … | URL: …` match. */
  function PrimaryArticle(m: (string, string)): Article {
    var url := CleanUrl(Text.Strip(m.1));
    Article(Text.Strip(m.0), url, SourceOf(url))
  }

  function PrimaryArticles(matches: seq<(string, string)>): (r: seq<Article>)
    ensures |r| == |matches|
  {
    seq(|matches|, i requires 0 <= i < |matches| => PrimaryArticle(matches[i]))
  }

  /** `re.sub(r'^[\d\.\)\-\*]+\s*', '', s)`. */
  const EnumeratorChars: set<char> := {'0', '1', '2', '3', '4', '5', '6', '7', '8', '9', '.', ')', '-', '*'}
  /** `.rstrip('|:- ')`. */
  const TitleTail: set<char> := {'|', ':', '-', ' '}
  const DefaultTitle: string := "Financial Analysis Article"
  const TitleLimit: nat := 100

  function DropEnumerator(s: string): string {
    if s != [] && s[0] in EnumeratorChars then Text.TrimLeftOf(Text.TrimLeftOf(s, EnumeratorChars), Text.Whitespace)
    else s
  }

  /** The text before a line's URL with its enumerator and trailing
      separators dropped. */
  function CleanedTitle(before: string): string {
    Text.Strip(Text.TrimRightOf(Text.Strip(DropEnumerator(Text.Strip(before))), TitleTail))
  }

  /** The title made from the text before a line's URL: the stock title when
      fewer than 5 characters remain after cleaning, otherwise the cleaned
      text cut to 100 characters. */
  function FallbackTitle(before: string): (t: string)
    ensures 5 <= |t| <= TitleLimit
    ensures |CleanedTitle(before)| < 5 ==> t == DefaultTitle
    ensures |CleanedTitle(before)| >= 5 ==> t == Take(CleanedTitle(before), TitleLimit)
  {
    var cleaned := CleanedTitle(before);
    Take(if |cleaned| < 5 then DefaultTitle else cleaned, TitleLimit)
  }

  /** What the URL search finds in a line: the text before the match and
      the matched URL, or nothing. */
  type UrlSearch = string -> Option<(string, string)>

  function LineArticle(line: string, search: UrlSearch): Option<Article> {
    var l := Text.Strip(line);
    if l == "" then None
    else
      match search(l)
      case None => None
      case Some(found) =>
        var url := CleanUrl(found.1);
        Some(Article(FallbackTitle(found.0), url, SourceOf(url)))
  }

  /** The line scan: one article per non-blank line with a URL. */
  function FallbackArticles(lines: seq<string>, search: UrlSearch): (r: seq<Article>)
    ensures |r| <= |lines|
  {
    if lines == [] then []
    else
      var a := LineArticle(lines[|lines| - 1], search);
      FallbackArticles(lines[..|lines| - 1], search) + (if a.Some? then [a.value] else [])
  }

  /** `_parse_article_citations`: the pattern matches, or the line scan
      when there are none, cut to `maxArticles`. */
  function Citations(matches: seq<(string, string)>, lines: seq<string>, search: UrlSearch, maxArticles: nat): seq<Article> {
    Take(if matches != [] then PrimaryArticles(matches) else FallbackArticles(lines, search), maxArticles)
  }

  /** Trailing punctuation is gone from a cleaned URL. */
  predicate CleanEnd(url: string) {
    url == [] || url[|url| - 1] !in TrailingPunctuation
  }

  lemma CleanUrlEnd(url: string)
    ensures CleanEnd(CleanUrl(url))
  {
    Text.TrimRightOfPrefix(url, TrailingPunctuation);
  }

  /** Every URL cleaned and every source a bare host. */
  predicate Cited(articles: seq<Article>) {
    forall i :: 0 <= i < |articles| ==> CleanEnd(articles[i].url) && '/' !in articles[i].source
  }

  /** Every title between 5 and 100 characters. */
  predicate TitlesFit(articles: seq<Article>) {
    forall i :: 0 <= i < |articles| ==> 5 <= |articles[i].title| <= TitleLimit
  }

  lemma {:induction false} FallbackArticlesShape(lines: seq<string>, search: UrlSearch)
    ensures Cited(FallbackArticles(lines, search)) && TitlesFit(FallbackArticles(lines, search))
  {
    if lines != [] {
      var init := lines[..|lines| - 1];
      FallbackArticlesShape(init, search);
      var a := LineArticle(lines[|lines| - 1], search);
      if a.Some? {
        var l := Text.Strip(lines[|lines| - 1]);
        var found := search(l).value;
        assert a.value == Article(FallbackTitle(found.0), CleanUrl(found.1), SourceOf(CleanUrl(found.1)));
        CleanUrlEnd(found.1);
        SourceHasNoSlash(CleanUrl(found.1));
      }
      assert FallbackArticles(lines, search) == FallbackArticles(init, search) + (if a.Some? then [a.value] else []);
    }
  }

  /** At most `maxArticles` citations; with pattern matches they are exactly
      the matches in order (the line scan is not used), otherwise they come
      from the line scan with titles of 5 to 100 characters; every URL has
      lost its trailing punctuation and no source contains a `/`. */
  lemma CitationsShape(matches: seq<(string, string)>, lines: seq<string>, search: UrlSearch, maxArticles: nat)
    ensures var a := Citations(matches, lines, search, maxArticles);
      && |a| <= maxArticles
      && (matches != [] ==> |a| == (if maxArticles < |matches| then maxArticles else |matches|)
                            && forall i :: 0 <= i < |a| ==> a[i] == PrimaryArticle(matches[i]))
      && (matches == [] ==> forall i :: 0 <= i < |a| ==> 5 <= |a[i].title| <= TitleLimit)
      && (forall i :: 0 <= i < |a| ==> CleanEnd(a[i].url) && '/' !in a[i].source)
  {
    var a := Citations(matches, lines, search, maxArticles);
    if matches != [] {
      forall i | 0 <= i < |a| ensures CleanEnd(a[i].url) && '/' !in a[i].source {
        CleanUrlEnd(Text.Strip(matches[i].1));
        SourceHasNoSlash(CleanUrl(Text.Strip(matches[i].1)));
      }
    } else {
      var f := FallbackArticles(lines, search);
      FallbackArticlesShape(lines, search);
      assert a == f[..|a|];
      forall i | 0 <= i < |a| ensures 5 <= |a[i].title| <= TitleLimit && CleanEnd(a[i].url) && '/' !in a[i].source {
        assert a[i] == f[i];
        assert 0 <= i < |f|;
      }
    }
  }

  /** `_parse_article_citations`, with its two loops. */
  method ParseArticleCitations(matches: seq<(string, string)>, lines: seq<string>, search: UrlSearch, maxArticles: nat)
    returns (articles: seq<Article>)
    ensures articles == Citations(matches, lines, search, maxArticles)
  {
    articles := [];
    for i := 0 to |matches|
      invariant articles == PrimaryArticles(matches[..i])
    {
      articles := articles + [PrimaryArticle(matches[i])];
    }
    assert matches[..|matches|] == matches;
    if articles == [] {
      for i := 0 to |lines|
        invariant articles == FallbackArticles(lines[..i], search)
      {
        assert lines[..i + 1][..i] == lines[..i];
        var line := Text.Strip(lines[i]);
        if line == "" {
          continue;
        }
        var found := search(line);
        if found.Some? {
          var url := CleanUrl(found.value.1);
          articles := articles + [Article(FallbackTitle(found.value.0), url, SourceOf(url))];
        }
      }
      assert lines[..|lines|] == lines;
    }
    articles := Take(articles, maxArticles);
  }

  // ---------------------------------------------------------------------
  // Reference list

  /** An article record as the formatter reads it: any key may be absent. */
  datatype Reference = Reference(title: Option<string>, url: Option<string>, source: Option<string>)

  function ReferenceOf(a: Article): Reference {
    Reference(Some(a.title), Some(a.url), Some(a.source))
  }

  const SourcesHeader: string := "\n\nSources:\n"

  const LineBreak: string := "\n"

  /** `"{i}. {title} | {source} | {url}"`, without the URL part when the
      URL is empty; absent keys read as "Article", "" and "Unknown". */
  function ReferenceText(number: nat, r: Reference): string {
    var title := if r.title.Some? then r.title.value else "Article";
    var url := if r.url.Some? then r.url.value else "";
    var source := if r.source.Some? then r.source.value else UnknownSource;
    Text.NatToString(number) + ". " + title + " | " + source + (if url != "" then " | " + url else "")
  }

  /** One line of the list. */
  function ReferenceLine(number: nat, r: Reference): string {
    ReferenceText(number, r) + LineBreak
  }

  /** The lines, numbered from 1 in list order. */
  function ReferenceLines(refs: seq<Reference>): string {
    if refs == [] then "" else ReferenceLines(refs[..|refs| - 1]) + ReferenceLine(|refs|, refs[|refs| - 1])
  }

  /** `_format_article_references`. */
  function References(refs: seq<Reference>): string {
    if refs == [] then "" else SourcesHeader + ReferenceLines(refs)
  }

  /** `_format_article_references`, accumulating the text in a loop. */
  method FormatArticleReferences(refs: seq<Reference>) returns (text: string)
    ensures text == References(refs)
  {
    if refs == [] {
      return "";
    }
    var lines := "";
    for i := 0 to |refs|
      invariant lines == ReferenceLines(refs[..i])
    {
      assert refs[..i + 1][..i] == refs[..i];
      lines := lines + ReferenceLine(i + 1, refs[i]);
    }
    assert refs[..|refs|] == refs;
    text := SourcesHeader + lines;
  }

  predicate NoNewline(r: Reference) {
    (r.title.Some? ==> '\n' !in r.title.value)
    && (r.url.Some? ==> '\n' !in r.url.value)
    && (r.source.Some? ==> '\n' !in r.source.value)
  }

  function Newlines(s: string): nat {
    multiset(s)['\n']
  }

  lemma NoNewlineInText(number: nat, r: Reference)
    requires NoNewline(r)
    ensures '\n' !in ReferenceText(number, r)
  {
    Text.NatToStringRoundTrip(number);
    var digits := Text.NatToString(number);
    forall k | 0 <= k < |digits| ensures digits[k] != '\n' {
      assert Text.IsDigit(digits[k]);
    }
  }

  lemma OneNewline(t: string)
    requires '\n' !in t
    ensures Newlines(t + LineBreak) == 1
  {
    assert multiset(t)['\n'] == 0;
    assert LineBreak == ['\n'];
    assert multiset(t + LineBreak) == multiset(t) + multiset(LineBreak);
  }

  lemma LineHasOneNewline(number: nat, r: Reference)
    requires NoNewline(r)
    ensures Newlines(ReferenceLine(number, r)) == 1
  {
    NoNewlineInText(number, r);
    OneNewline(ReferenceText(number, r));
  }

  lemma NewlinesConcat(a: string, b: string)
    ensures Newlines(a + b) == Newlines(a) + Newlines(b)
  {
    assert multiset(a + b) == multiset(a) + multiset(b);
  }

  /** With no line breaks inside the fields, the list below the header
      holds exactly one line per reference. */
  lemma {:induction false} ReferencesLineCount(refs: seq<Reference>)
    requires forall i :: 0 <= i < |refs| ==> NoNewline(refs[i])
    ensures Newlines(ReferenceLines(refs)) == |refs|
  {
    if refs != [] {
      var init := refs[..|refs| - 1];
      ReferencesLineCount(init);
      LineHasOneNewline(|refs|, refs[|refs| - 1]);
      assert ReferenceLines(refs) == ReferenceLines(init) + ReferenceLine(|refs|, refs[|refs| - 1]);
      NewlinesConcat(ReferenceLines(init), ReferenceLine(|refs|, refs[|refs| - 1]));
    }
  }
}

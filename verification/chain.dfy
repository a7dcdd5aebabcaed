/**
 * Summarization result shaping (blingo/lib/chain.ts): the deterministic mock summarizer used
 * when no model credential is configured, and the success/failure/mock envelope around the
 * model call. The model call itself (`summarizeReadme`) is an input: what it returned, or the
 * failure it raised.
 *
 * The mock reads the README with two JavaScript regular expressions, both under the `m` flag:
 * `^#\s+(.+)$` for the title and `^[-*]\s+(.+)$` (also `g`) for the bullet points. They are
 * modelled as written: `^` holds at the start and after any line terminator, `\s+` may itself
 * cross line terminators and backtracks from its longest match, `(.+)` is the rest of one line.
 */
module Chain {
  import opened Wrappers
  import opened Text

  /** The two patterns, which differ only in their first character. */
  datatype Pattern = Heading | Bullet

  predicate IsMarker(p: Pattern, c: char) {
    match p
    case Heading => c == '#'
    case Bullet => c == '-' || c == '*'
  }

  /** A match: the marker at `start`, the captured `(.+)` from `content` to `end`. */
  datatype Span = Span(start: nat, content: nat, end: nat)

  predicate AtLineStart(s: string, p: nat)
    requires p <= |s|
  {
    p == 0 || IsLineTerminator(s[p - 1])
  }

  /** How many whitespace characters start at `i`. */
  function WsRun(s: string, i: nat): (n: nat)
    requires i <= |s|
    ensures i + n <= |s|
    ensures forall k :: i <= k < i + n ==> IsJsWhitespace(s[k])
    ensures i + n < |s| ==> !IsJsWhitespace(s[i + n])
    decreases |s| - i
  {
    if i < |s| && IsJsWhitespace(s[i]) then 1 + WsRun(s, i + 1) else 0
  }

  /** How many characters start at `i` before a line terminator or the end (what a greedy `.+` takes). */
  function LineRun(s: string, i: nat): (n: nat)
    requires i <= |s|
    ensures i + n <= |s|
    ensures forall k :: i <= k < i + n ==> !IsLineTerminator(s[k])
    ensures i + n < |s| ==> IsLineTerminator(s[i + n])
    decreases |s| - i
  {
    if i < |s| && !IsLineTerminator(s[i]) then 1 + LineRun(s, i + 1) else 0
  }

  /**
   * Backtracking of `\s+` before `(.+)`: the largest j in 1..len such that `(.+)` can start at
   * base + j, i.e. base + j is a character that is not a line terminator.
   */
  function ContentStart(s: string, base: nat, len: nat): (r: Option<nat>)
    requires base + len <= |s|
    ensures r.Some? ==> base < r.value <= base + len && r.value < |s| && !IsLineTerminator(s[r.value])
    ensures r.Some? ==> forall c :: r.value < c <= base + len && c < |s| ==> IsLineTerminator(s[c])
    ensures r.None? ==> forall c :: base < c <= base + len && c < |s| ==> IsLineTerminator(s[c])
    decreases len
  {
    if len == 0 then None
    else if base + len < |s| && !IsLineTerminator(s[base + len]) then Some(base + len)
    else ContentStart(s, base, len - 1)
  }

  /** The pattern matched at position `p` (without the `^` test), as the regex engine finds it. */
  function MatchAt(s: string, p: nat, pat: Pattern): (r: Option<Span>)
    requires p < |s|
    ensures r.Some? ==> r.value.start == p && p < r.value.content < r.value.end <= |s|
  {
    if !IsMarker(pat, s[p]) then None
    else
      var k := WsRun(s, p + 1);
      if k == 0 then None
      else match ContentStart(s, p + 1, k)
        case None => None
        case Some(c) =>
          LineTerminatorIsWhitespace(s[c]);
          Some(Span(p, c, c + LineRun(s, c)))
  }

  /** What a match consists of: the marker, whitespace, then one line's worth of characters. */
  lemma MatchAtShape(s: string, p: nat, pat: Pattern)
    requires p < |s| && MatchAt(s, p, pat).Some?
    ensures var m := MatchAt(s, p, pat).value;
      && IsMarker(pat, s[p])
      && (forall k :: p < k < m.content ==> IsJsWhitespace(s[k]))
      && (forall k :: m.content <= k < m.end ==> !IsLineTerminator(s[k]))
  {
  }

  /** Whether the pattern, `^` included, matches at position `q`. */
  predicate MatchesAt(s: string, q: nat, pat: Pattern) {
    q < |s| && AtLineStart(s, q) && MatchAt(s, q, pat).Some?
  }

  /** The leftmost match at or after `from`. */
  function FirstMatchFrom(s: string, pat: Pattern, from: nat): (r: Option<Span>)
    requires from <= |s|
    ensures r.Some? ==> from <= r.value.start && MatchesAt(s, r.value.start, pat) && MatchAt(s, r.value.start, pat) == r
    ensures r.Some? ==> forall q :: from <= q < r.value.start ==> !MatchesAt(s, q, pat)
    ensures r.None? ==> forall q :: from <= q ==> !MatchesAt(s, q, pat)
    decreases |s| - from
  {
    if from == |s| then None
    else if MatchesAt(s, from, pat) then MatchAt(s, from, pat)
    else
      FirstMatchFrom(s, pat, from + 1)
  }

  /** All matches of the global pattern from `from` on, in document order and not overlapping. */
  function AllMatchesFrom(s: string, pat: Pattern, from: nat): (r: seq<Span>)
    requires from <= |s|
    ensures forall i :: 0 <= i < |r| ==> from <= r[i].start < r[i].end <= |s|
    ensures forall i, j :: 0 <= i < j < |r| ==> r[i].end <= r[j].start
    decreases |s| - from
  {
    match FirstMatchFrom(s, pat, from)
    case None => []
    case Some(m) => [m] + AllMatchesFrom(s, pat, m.end)
  }

  /** Every element of the global match list is a match of the pattern, `^` included. */
  lemma {:induction false} AllMatchesAreMatches(s: string, pat: Pattern, from: nat, i: nat)
    requires from <= |s| && i < |AllMatchesFrom(s, pat, from)|
    ensures var m := AllMatchesFrom(s, pat, from)[i];
      MatchesAt(s, m.start, pat) && MatchAt(s, m.start, pat) == Some(m)
    decreases |s| - from
  {
    var m := FirstMatchFrom(s, pat, from).value;
    if i > 0 {
      AllMatchesAreMatches(s, pat, m.end, i - 1);
    }
  }

  /** Position `q` lies inside one of the spans. */
  predicate Covered(r: seq<Span>, q: nat) {
    exists i :: 0 <= i < |r| && r[i].start <= q < r[i].end
  }

  /**
   * No match is skipped: every match at or after `from` is one of the listed matches, or lies
   * inside one (the global search resumes after the end of each match).
   */
  lemma {:induction false} AllMatchesComplete(s: string, pat: Pattern, from: nat, q: nat)
    requires from <= q && from <= |s| && MatchesAt(s, q, pat)
    ensures Covered(AllMatchesFrom(s, pat, from), q)
    decreases |s| - from
  {
    var first := FirstMatchFrom(s, pat, from);
    if first.None? {
      assert false;
    } else {
      var m := first.value;
      AllMatchesStep(s, pat, from, m);
      if m.end <= q {
        AllMatchesComplete(s, pat, m.end, q);
      }
      CoveredCons(m, AllMatchesFrom(s, pat, m.end), q);
    }
  }

  /** A position inside the head span, or covered by the rest, is covered by the whole list. */
  lemma CoveredCons(m: Span, tail: seq<Span>, q: nat)
    requires m.start <= q < m.end || Covered(tail, q)
    ensures Covered([m] + tail, q)
  {
    var r := [m] + tail;
    if m.start <= q < m.end {
      assert r[0] == m;
    } else {
      var i :| 0 <= i < |tail| && tail[i].start <= q < tail[i].end;
      assert r[i + 1] == tail[i];
    }
  }

  /** The list is empty exactly when the pattern matches nowhere. */
  lemma AllMatchesEmpty(s: string, pat: Pattern)
    ensures AllMatchesFrom(s, pat, 0) == [] <==> forall q :: !MatchesAt(s, q, pat)
  {
    if AllMatchesFrom(s, pat, 0) == [] {
      forall q | MatchesAt(s, q, pat) ensures false {
        AllMatchesComplete(s, pat, 0, q);
      }
    } else {
      AllMatchesAreMatches(s, pat, 0, 0);
    }
  }

  const DefaultTitle: string := "This project"

  /** The title: the capture of the first `^#\s+(.+)$` match, or "This project". */
  function MockTitle(readme: string): (r: string)
    // never empty, always within one line
    ensures r != [] && forall k :: 0 <= k < |r| ==> !IsLineTerminator(r[k])
  {
    match FirstMatchFrom(readme, Heading, 0)
    case Some(m) =>
      MatchAtShape(readme, m.start, Heading);
      readme[m.content..m.end]
    case None => DefaultTitle
  }

  /**
   * `b.replace(/^[-*]\s+/, "")`: a leading marker and the whole whitespace run after it go;
   * a string that does not start with a marker and whitespace stays as it is.
   */
  function StripMarker(b: string): (r: string)
    ensures StartsStripped(b) ==>
      && |r| <= |b| - 2 && r == b[|b| - |r|..]
      && (forall k :: 1 <= k < |b| - |r| ==> IsJsWhitespace(b[k]))
      && (r == [] || !IsJsWhitespace(r[0]))
    ensures !StartsStripped(b) ==> r == b
  {
    if StartsStripped(b) then b[1 + WsRun(b, 1)..] else b
  }

  /** Whether `^[-*]\s+` matches at the start of `b`. */
  predicate StartsStripped(b: string) {
    |b| >= 2 && IsMarker(Bullet, b[0]) && IsJsWhitespace(b[1])
  }

  /** The bullet texts: the first three whole bullet matches, each stripped of its marker. */
  function MockFeatures(readme: string): (r: seq<string>)
    ensures |r| <= 3
  {
    var ms := AllMatchesFrom(readme, Bullet, 0);
    var firsts := if |ms| <= 3 then ms else ms[..3];
    seq(|firsts|, i requires 0 <= i < |firsts| => StripMarker(readme[firsts[i].start..firsts[i].end]))
  }

  /**
   * The features are the first (at most three) bullet matches in document order, each stripped
   * of its marker; together with `AllMatchesAreMatches` and `AllMatchesComplete` this says they
   * are the first bullet lines of the README.
   */
  lemma MockFeaturesAreFirstBullets(readme: string)
    ensures var ms := AllMatchesFrom(readme, Bullet, 0);
      && |MockFeatures(readme)| == (if |ms| <= 3 then |ms| else 3)
      && forall i :: 0 <= i < |MockFeatures(readme)| ==>
           MockFeatures(readme)[i] == StripMarker(readme[ms[i].start..ms[i].end])
  {
  }

  /**
   * There are features exactly when some line is a bullet, and the first feature is the leftmost
   * bullet match with its marker stripped.
   */
  lemma MockFeaturesEmptyIffNoBullet(readme: string)
    ensures MockFeatures(readme) == [] <==> forall q :: !MatchesAt(readme, q, Bullet)
    ensures MockFeatures(readme) != [] ==>
      var m := FirstMatchFrom(readme, Bullet, 0).value;
      MockFeatures(readme)[0] == StripMarker(readme[m.start..m.end])
  {
    AllMatchesEmpty(readme, Bullet);
  }

  const MockPrefix: string := "[MOCK] "

  const MockSummaryTail: string :=
    " is a software project. This is a MOCK summary generated for testing purposes because no OpenAI API key"
    + " was provided. The actual summary would analyze the README content and provide meaningful insights."

  const Placeholders: seq<string> := [
    "[MOCK] This is a placeholder fact #1",
    "[MOCK] This is a placeholder fact #2",
    "[MOCK] This is a placeholder fact #3"
  ]

  /** RepoSummary. */
  datatype RepoSummary = RepoSummary(summary: string, coolFacts: seq<string>)

  /** generateMockSummary. */
  function GenerateMockSummary(readme: string): (r: RepoSummary)
    ensures r.summary == MockTitle(readme) + MockSummaryTail
    ensures 1 <= |r.coolFacts| <= 3
    ensures forall i :: 0 <= i < |r.coolFacts| ==> StartsWith(r.coolFacts[i], MockPrefix)
    ensures MockFeatures(readme) == [] ==> r.coolFacts == Placeholders
    ensures MockFeatures(readme) != [] ==>
      |r.coolFacts| == |MockFeatures(readme)|
      && forall i :: 0 <= i < |r.coolFacts| ==> r.coolFacts[i] == MockPrefix + MockFeatures(readme)[i]
  {
    RepoSummary(MockTitle(readme) + MockSummaryTail, MockFacts(MockFeatures(readme)))
  }

  /** The facts of the mock: the marked features, or the placeholders when there are none. */
  function MockFacts(features: seq<string>): (facts: seq<string>)
    requires |features| <= 3
    ensures 1 <= |facts| <= 3
    ensures forall i :: 0 <= i < |facts| ==> StartsWith(facts[i], MockPrefix)
    ensures features == [] ==> facts == Placeholders
    ensures features != [] ==>
      |facts| == |features| && forall i :: 0 <= i < |facts| ==> facts[i] == MockPrefix + features[i]
  {
    if |features| > 0 then Marked(features)
    else
      assert forall i :: 0 <= i < |Placeholders| ==> Placeholders[i][..|MockPrefix|] == MockPrefix;
      Placeholders
  }

  /** `features.map(f => `[MOCK] ${f}`)`. */
  function Marked(features: seq<string>): (facts: seq<string>)
    ensures |facts| == |features|
    ensures forall i :: 0 <= i < |facts| ==> facts[i] == MockPrefix + features[i]
    ensures forall i :: 0 <= i < |facts| ==> StartsWith(facts[i], MockPrefix)
  {
    var facts := seq(|features|, i requires 0 <= i < |features| => MockPrefix + features[i]);
    assert forall i :: 0 <= i < |facts| ==> facts[i][..|MockPrefix|] == MockPrefix;
    facts
  }

  /** A bullet fact is the rest of one line: it never holds a line terminator. */
  lemma FeaturesAreOneLine(readme: string, i: nat)
    requires i < |MockFeatures(readme)|
    ensures forall k :: 0 <= k < |MockFeatures(readme)[i]| ==> !IsLineTerminator(MockFeatures(readme)[i][k])
  {
    var ms := AllMatchesFrom(readme, Bullet, 0);
    var m := ms[i];
    assert MockFeatures(readme)[i] == StripMarker(readme[m.start..m.end]);
    AllMatchesAreMatches(readme, Bullet, 0, i);
    StrippedMatchIsOneLine(readme, m.start);
  }

  /** Stripping the marker and its whitespace from a match leaves text without line terminators. */
  lemma StrippedMatchIsOneLine(s: string, p: nat)
    requires p < |s| && MatchAt(s, p, Bullet).Some?
    ensures var m := MatchAt(s, p, Bullet).value;
      forall k :: 0 <= k < |StripMarker(s[p..m.end])| ==> !IsLineTerminator(StripMarker(s[p..m.end])[k])
  {
    var m := MatchAt(s, p, Bullet).value;
    MatchAtShape(s, p, Bullet);
    var b := s[p..m.end];
    var c := m.content - p;
    forall k | 1 <= k < c ensures IsJsWhitespace(b[k]) {
      assert b[k] == s[p + k];
    }
    WsRunCovers(b, 1, c - 1);
    assert StartsStripped(b);
    var w := WsRun(b, 1);
    var f := StripMarker(b);
    assert f == b[1 + w..] && c <= 1 + w;
    forall k | 0 <= k < |f| ensures !IsLineTerminator(f[k]) {
      assert f[k] == s[p + 1 + w + k];
    }
  }

  /** A whitespace run of length `len` is contained in the maximal one. */
  lemma {:induction false} WsRunCovers(s: string, i: nat, len: nat)
    requires i + len <= |s|
    requires forall k :: i <= k < i + len ==> IsJsWhitespace(s[k])
    ensures WsRun(s, i) >= len
    decreases len
  {
    if len > 0 {
      WsRunCovers(s, i + 1, len - 1);
    }
  }

  /** A run of non-terminators ended by a terminator or by the end is exactly what `.+` takes. */
  lemma {:induction false} LineRunIs(s: string, i: nat, n: nat)
    requires i + n <= |s|
    requires forall k :: i <= k < i + n ==> !IsLineTerminator(s[k])
    requires i + n == |s| || IsLineTerminator(s[i + n])
    ensures LineRun(s, i) == n
    decreases n
  {
    if n > 0 {
      LineRunIs(s, i + 1, n - 1);
    }
  }

  /**
   * A README whose first line is "# " followed by a title (not starting with whitespace, one line
   * long) has exactly that title.
   */
  lemma HeadingIsTitle(title: string, rest: string)
    requires title != [] && !IsJsWhitespace(title[0])
    requires forall k :: 0 <= k < |title| ==> !IsLineTerminator(title[k])
    requires rest == [] || IsLineTerminator(rest[0])
    ensures MockTitle("# " + title + rest) == title
  {
    var s := "# " + title + rest;
    assert s[0] == '#' && s[1] == ' ' && s[2] == title[0];
    assert WsRun(s, 2) == 0;
    assert WsRun(s, 1) == 1;
    assert ContentStart(s, 1, 1) == Some(2);
    LineRunIs(s, 2, |title|);
    assert MatchAt(s, 0, Heading) == Some(Span(0, 2, 2 + |title|));
    assert s[2..2 + |title|] == title;
  }

  /** A README without any heading line gets the default title. */
  lemma NoHeadingDefaultTitle(readme: string)
    requires forall k :: 0 <= k < |readme| ==> readme[k] != '#'
    ensures MockTitle(readme) == DefaultTitle
  {
    forall q | 0 <= q < |readme| ensures !MatchesAt(readme, q, Heading) {
      assert !IsMarker(Heading, readme[q]);
    }
    UntitledIsDefault(readme);
  }

  /** With no heading line anywhere the title is the default; with one, it is the first heading's text. */
  lemma UntitledIsDefault(readme: string)
    ensures (forall q :: 0 <= q < |readme| ==> !MatchesAt(readme, q, Heading)) ==> MockTitle(readme) == DefaultTitle
    ensures (exists q :: 0 <= q < |readme| && MatchesAt(readme, q, Heading)) ==>
      exists q :: 0 <= q < |readme| && MatchesAt(readme, q, Heading)
        && (forall p :: 0 <= p < q ==> !MatchesAt(readme, p, Heading))
        && MockTitle(readme) == readme[MatchAt(readme, q, Heading).value.content..MatchAt(readme, q, Heading).value.end]
  {
    match FirstMatchFrom(readme, Heading, 0)
    case Some(m) =>
      assert MatchesAt(readme, m.start, Heading);
    case None =>
  }

  /** Stripping "- " from a bullet whose text does not start with whitespace leaves that text. */
  lemma StripDashSpace(t: string)
    requires t != [] && !IsJsWhitespace(t[0])
    ensures StripMarker("- " + t) == t
  {
    var b := "- " + t;
    assert b[2] == t[0];
    assert WsRun(b, 2) == 0;
    assert WsRun(b, 1) == 1;
  }

  /** The match found at a "- t" line: marker, one space, then t. */
  lemma BulletLineMatch(s: string, p: nat, t: string)
    requires p + 2 + |t| <= |s| && s[p..p + 2 + |t|] == "- " + t
    requires t != [] && !IsJsWhitespace(t[0])
    requires forall k :: 0 <= k < |t| ==> !IsLineTerminator(t[k])
    requires p + 2 + |t| == |s| || IsLineTerminator(s[p + 2 + |t|])
    ensures MatchAt(s, p, Bullet) == Some(Span(p, p + 2, p + 2 + |t|))
  {
    assert s[p] == '-' && s[p + 1] == ' ' && s[p + 2] == t[0] by {
      assert s[p..p + 2 + |t|][0] == '-' && s[p..p + 2 + |t|][1] == ' ' && s[p..p + 2 + |t|][2] == t[0];
    }
    assert WsRun(s, p + 2) == 0;
    assert WsRun(s, p + 1) == 1;
    assert ContentStart(s, p + 1, 1) == Some(p + 2);
    forall k | p + 2 <= k < p + 2 + |t| ensures !IsLineTerminator(s[k]) {
      assert s[k] == s[p..p + 2 + |t|][k - p] == t[k - p - 2];
    }
    LineRunIs(s, p + 2, |t|);
  }

  /**
   * A line "- t" (t one line long, not starting with whitespace) at the start of a line is a
   * bullet match whose stripped text is exactly t.
   */
  lemma BulletLine(pre: string, t: string, post: string)
    requires pre == [] || IsLineTerminator(pre[|pre| - 1])
    requires t != [] && !IsJsWhitespace(t[0])
    requires forall k :: 0 <= k < |t| ==> !IsLineTerminator(t[k])
    requires post == [] || IsLineTerminator(post[0])
    ensures var s := pre + ("- " + t) + post;
      && MatchesAt(s, |pre|, Bullet)
      && MatchAt(s, |pre|, Bullet) == Some(Span(|pre|, |pre| + 2, |pre| + 2 + |t|))
      && StripMarker(s[|pre|..|pre| + 2 + |t|]) == t
  {
    var line := "- " + t;
    var s := pre + line + post;
    MiddleOfThree(pre, line, post);
    assert AtLineStart(s, |pre|);
    BulletLineMatch(s, |pre|, t);
    StripDashSpace(t);
  }

  /** The middle piece of `a + b + c`, and the characters on either side of it. */
  lemma MiddleOfThree(a: string, b: string, c: string)
    ensures var s := a + b + c;
      && s[|a|..|a| + |b|] == b
      && (|a| > 0 ==> s[|a| - 1] == a[|a| - 1])
      && (|a| + |b| < |s| ==> s[|a| + |b|] == c[0])
  {
  }

  /** A position in the middle of a line is never a match: `^` fails there. */
  lemma MidLineNoMatch(s: string, k: nat, pat: Pattern)
    requires 0 < k < |s| && !IsLineTerminator(s[k - 1])
    ensures !MatchesAt(s, k, pat)
  {
  }

  /**
   * The leftmost search passes over positions where nothing matches: both searches find the
   * leftmost match at or after `q`, so they agree.
   */
  lemma SkipNonMatches(s: string, pat: Pattern, from: nat, q: nat)
    requires from <= q <= |s|
    requires forall k :: from <= k < q ==> !MatchesAt(s, k, pat)
    ensures FirstMatchFrom(s, pat, from) == FirstMatchFrom(s, pat, q)
  {
    var r1, r2 := FirstMatchFrom(s, pat, from), FirstMatchFrom(s, pat, q);
    if r1.Some? {
      assert q <= r1.value.start;
      if r2.Some? {
        assert r1.value.start <= r2.value.start;
        assert r2.value.start <= r1.value.start;
      }
    }
  }

  /** The text of a bullet line: non-empty, one line long, not starting with whitespace. */
  predicate BulletText(t: string) {
    t != [] && !IsJsWhitespace(t[0]) && forall k :: 0 <= k < |t| ==> !IsLineTerminator(t[k])
  }

  /** Position `p` of `s` starts a whole line "- t". */
  predicate LineAt(s: string, p: nat, t: string) {
    && p + 2 + |t| <= |s| && s[p..p + 2 + |t|] == "- " + t && AtLineStart(s, p)
    && (p + 2 + |t| == |s| || IsLineTerminator(s[p + 2 + |t|]))
  }

  lemma LineAtConcat(pre: string, t: string, post: string)
    requires pre == [] || IsLineTerminator(pre[|pre| - 1])
    requires post == [] || IsLineTerminator(post[0])
    ensures LineAt(pre + ("- " + t) + post, |pre|, t)
  {
    MiddleOfThree(pre, "- " + t, post);
  }

  /** The next match after `from` is the "- t" line at `p` when nothing matches in between. */
  lemma NextBullet(s: string, p: nat, t: string, from: nat)
    requires LineAt(s, p, t) && BulletText(t) && from <= p
    requires forall k :: from <= k < p ==> !MatchesAt(s, k, Bullet)
    ensures FirstMatchFrom(s, Bullet, from) == Some(Span(p, p + 2, p + 2 + |t|))
  {
    BulletLineMatch(s, p, t);
    SkipNonMatches(s, Bullet, from, p);
  }

  /** The line terminator ending a bullet line does not start a match. */
  lemma AfterLineNoMatch(s: string, p: nat, t: string)
    requires LineAt(s, p, t) && BulletText(t) && p + 2 + |t| < |s|
    ensures !MatchesAt(s, p + 2 + |t|, Bullet)
  {
    var e := p + 2 + |t|;
    assert s[e - 1] == s[p..e][e - 1 - p] == t[|t| - 1];
    MidLineNoMatch(s, e, Bullet);
  }

  /** A line that neither starts with a marker nor holds a line terminator has no match. */
  lemma PlainLineNoMatch(s: string, head: string)
    requires |head| < |s| && s[..|head|] == head
    requires forall k :: 0 <= k < |head| ==> !IsLineTerminator(head[k])
    requires head == [] || !IsMarker(Bullet, head[0])
    requires IsLineTerminator(s[|head|])
    ensures forall k :: 0 <= k <= |head| ==> !MatchesAt(s, k, Bullet)
  {
    forall k | 0 <= k <= |head| ensures !MatchesAt(s, k, Bullet) {
      if k == 0 {
        if head == [] {
          assert s[0] == s[|head|];
        } else {
          assert s[0] == head[0];
        }
      } else {
        assert s[k - 1] == head[k - 1];
        MidLineNoMatch(s, k, Bullet);
      }
    }
  }

  /** The first bullet line, after a stretch without matches, is the first match. */
  lemma FirstBulletLine(s: string, p: nat, t: string, e: nat)
    requires LineAt(s, p, t) && BulletText(t) && e == p + 2 + |t|
    requires forall k :: 0 <= k < p ==> !MatchesAt(s, k, Bullet)
    ensures FirstMatchFrom(s, Bullet, 0) == Some(Span(p, p + 2, e))
  {
    NextBullet(s, p, t, 0);
  }

  /** A bullet line right after another one (which ends at `from`) is the next match. */
  lemma NextBulletLine(s: string, p0: nat, t0: string, from: nat, p: nat, t: string, e: nat)
    requires LineAt(s, p0, t0) && BulletText(t0) && from == p0 + 2 + |t0| && p == from + 1
    requires LineAt(s, p, t) && BulletText(t) && e == p + 2 + |t|
    ensures FirstMatchFrom(s, Bullet, from) == Some(Span(p, p + 2, e))
  {
    AfterLineNoMatch(s, p0, t0);
    NextBullet(s, p, t, from);
  }

  /** Three successive first matches, the last one ending the text, are all the matches. */
  lemma ThreeMatches(s: string, p1: nat, e1: nat, p2: nat, e2: nat, p3: nat)
    requires e1 <= e2 <= |s|
    requires FirstMatchFrom(s, Bullet, 0) == Some(Span(p1, p1 + 2, e1))
    requires FirstMatchFrom(s, Bullet, e1) == Some(Span(p2, p2 + 2, e2))
    requires FirstMatchFrom(s, Bullet, e2) == Some(Span(p3, p3 + 2, |s|))
    ensures AllMatchesFrom(s, Bullet, 0) == [Span(p1, p1 + 2, e1), Span(p2, p2 + 2, e2), Span(p3, p3 + 2, |s|)]
  {
    var m1, m2, m3 := Span(p1, p1 + 2, e1), Span(p2, p2 + 2, e2), Span(p3, p3 + 2, |s|);
    assert AllMatchesFrom(s, Bullet, |s|) == [];
    AllMatchesStep(s, Bullet, e2, m3);
    assert AllMatchesFrom(s, Bullet, e2) == [m3];
    AllMatchesStep(s, Bullet, e1, m2);
    assert AllMatchesFrom(s, Bullet, e1) == [m2, m3];
    AllMatchesStep(s, Bullet, 0, m1);
  }

  /** Two bullet lines following the bullet line at `p1` and ending the text are the next two matches. */
  lemma TwoNextBullets(s: string, p1: nat, e1: nat, a: string, p2: nat, e2: nat, b: string, p3: nat, c: string)
    requires BulletText(a) && BulletText(b) && BulletText(c)
    requires e1 == p1 + 2 + |a| && p2 == e1 + 1 && e2 == p2 + 2 + |b| && p3 == e2 + 1 && p3 + 2 + |c| == |s|
    requires LineAt(s, p1, a) && LineAt(s, p2, b) && LineAt(s, p3, c)
    ensures FirstMatchFrom(s, Bullet, e1) == Some(Span(p2, p2 + 2, e2))
    ensures FirstMatchFrom(s, Bullet, e2) == Some(Span(p3, p3 + 2, |s|))
    ensures s[p1..e1] == "- " + a && s[p2..e2] == "- " + b && s[p3..|s|] == "- " + c
  {
    NextBulletLine(s, p1, a, e1, p2, b, e2);
    NextBulletLine(s, p2, b, e2, p3, c, |s|);
    LineText(s, p1, a, e1);
    LineText(s, p2, b, e2);
    LineText(s, p3, c, |s|);
  }

  /** The text of the line "- t" at `p`, which ends at `e`. */
  lemma LineText(s: string, p: nat, t: string, e: nat)
    requires LineAt(s, p, t) && e == p + 2 + |t|
    ensures s[p..e] == "- " + t
  {
  }

  /** One step of the global search: the first match, then the search resumed at its end. */
  lemma AllMatchesStep(s: string, pat: Pattern, from: nat, m: Span)
    requires from <= |s| && FirstMatchFrom(s, pat, from) == Some(m)
    ensures AllMatchesFrom(s, pat, from) == [m] + AllMatchesFrom(s, pat, m.end)
  {
  }

  /** After one plain line, a bullet line is the first match. */
  lemma BulletAfterHead(s: string, head: string, t: string, rest: string, p: nat, e: nat)
    requires forall k :: 0 <= k < |head| ==> !IsLineTerminator(head[k])
    requires head == [] || !IsMarker(Bullet, head[0])
    requires BulletText(t) && (rest == [] || IsLineTerminator(rest[0]))
    requires s == (head + "\n") + ("- " + t) + rest && p == |head| + 1 && e == p + 2 + |t|
    ensures LineAt(s, p, t)
    ensures FirstMatchFrom(s, Bullet, 0) == Some(Span(p, p + 2, e))
  {
    LineAtConcat(head + "\n", t, rest);
    assert s[..|head|] == head && s[|head|] == '\n';
    PlainLineNoMatch(s, head);
    FirstBulletLine(s, p, t, e);
  }

  /** A README made of one plain line followed by three bullet lines "- a", "- b", "- c". */
  function ThreeBulletReadme(head: string, a: string, b: string, c: string): string {
    head + "\n" + ("- " + a) + "\n" + ("- " + b) + "\n" + ("- " + c)
  }

  /** The shape of such a README: three bullet lines ending it, the first of them the first match. */
  lemma ThreeBulletLinesShape(s: string, head: string, p1: nat, e1: nat, a: string, p2: nat, b: string, p3: nat, c: string)
    requires forall k :: 0 <= k < |head| ==> !IsLineTerminator(head[k])
    requires head == [] || !IsMarker(Bullet, head[0])
    requires BulletText(a) && BulletText(b) && BulletText(c)
    requires s == ThreeBulletReadme(head, a, b, c)
    requires p1 == |head| + 1 && e1 == p1 + 2 + |a| && p2 == e1 + 1 && p3 == p2 + 3 + |b|
    ensures p3 + 2 + |c| == |s|
    ensures LineAt(s, p1, a) && LineAt(s, p2, b) && LineAt(s, p3, c)
    ensures FirstMatchFrom(s, Bullet, 0) == Some(Span(p1, p1 + 2, e1))
  {
    FirstBulletOfReadme(s, head, p1, e1, a, b, c);
    LaterBulletLines(s, head, a, p2, b, p3, c);
  }

  /** The first line after the plain one is a bullet line and the first match. */
  lemma FirstBulletOfReadme(s: string, head: string, p1: nat, e1: nat, a: string, b: string, c: string)
    requires forall k :: 0 <= k < |head| ==> !IsLineTerminator(head[k])
    requires head == [] || !IsMarker(Bullet, head[0])
    requires BulletText(a)
    requires s == ThreeBulletReadme(head, a, b, c)
    requires p1 == |head| + 1 && e1 == p1 + 2 + |a|
    ensures LineAt(s, p1, a) && FirstMatchFrom(s, Bullet, 0) == Some(Span(p1, p1 + 2, e1))
  {
    var la, lb, lc := "- " + a, "- " + b, "- " + c;
    ThreeLinesSplit(head, la, lb, lc);
    BulletAfterHead(s, head, a, "\n" + lb + "\n" + lc, p1, e1);
  }

  /** The second and third lines of such a README are bullet lines, the third ending it. */
  lemma LaterBulletLines(s: string, head: string, a: string, p2: nat, b: string, p3: nat, c: string)
    requires s == ThreeBulletReadme(head, a, b, c)
    requires p2 == |head| + 4 + |a| && p3 == p2 + 3 + |b|
    ensures p3 + 2 + |c| == |s| && LineAt(s, p2, b) && LineAt(s, p3, c)
  {
    var la, lb, lc := "- " + a, "- " + b, "- " + c;
    ThreeLinesSplit(head, la, lb, lc);
    LineAtConcat(head + "\n" + la + "\n", b, "\n" + lc);
    LineAtConcat(head + "\n" + la + "\n" + lb + "\n", c, []);
  }

  /** The same text, cut before each of the three lines. */
  lemma ThreeLinesSplit(head: string, la: string, lb: string, lc: string)
    ensures var s := head + "\n" + la + "\n" + lb + "\n" + lc;
      && s == (head + "\n") + la + ("\n" + lb + "\n" + lc)
      && s == (head + "\n" + la + "\n") + lb + ("\n" + lc)
      && s == (head + "\n" + la + "\n" + lb + "\n") + lc + []
      && s[..|head|] == head && s[|head|] == '\n'
  {
  }

  /** The three matches found, read back through the match list. */
  lemma ThreeMatchTexts(s: string, p1: nat, e1: nat, a: string, p2: nat, e2: nat, b: string, p3: nat, c: string)
    requires p1 + 2 <= e1 <= p2 && p2 + 2 <= e2 <= p3 && p3 + 2 <= |s|
    requires AllMatchesFrom(s, Bullet, 0) == [Span(p1, p1 + 2, e1), Span(p2, p2 + 2, e2), Span(p3, p3 + 2, |s|)]
    requires s[p1..e1] == "- " + a && s[p2..e2] == "- " + b && s[p3..|s|] == "- " + c
    ensures var ms := AllMatchesFrom(s, Bullet, 0);
      && |ms| == 3
      && s[ms[0].start..ms[0].end] == "- " + a
      && s[ms[1].start..ms[1].end] == "- " + b
      && s[ms[2].start..ms[2].end] == "- " + c
  {
  }

  /** When the matches are three bullet lines "- a", "- b", "- c", the features are a, b and c. */
  lemma FeaturesOfThree(s: string, a: string, b: string, c: string)
    requires BulletText(a) && BulletText(b) && BulletText(c)
    requires var ms := AllMatchesFrom(s, Bullet, 0);
      && |ms| == 3
      && s[ms[0].start..ms[0].end] == "- " + a
      && s[ms[1].start..ms[1].end] == "- " + b
      && s[ms[2].start..ms[2].end] == "- " + c
    ensures MockFeatures(s) == [a, b, c]
  {
    FeatureOfBulletLine(s, 0, a);
    FeatureOfBulletLine(s, 1, b);
    FeatureOfBulletLine(s, 2, c);
  }

  /** The feature taken from a bullet match "- t" is t. */
  lemma FeatureOfBulletLine(s: string, i: nat, t: string)
    requires i < 3 && BulletText(t)
    requires var ms := AllMatchesFrom(s, Bullet, 0); i < |ms| && s[ms[i].start..ms[i].end] == "- " + t
    ensures i < |MockFeatures(s)| && MockFeatures(s)[i] == t
  {
    MockFeaturesAreFirstBullets(s);
    StripDashSpace(t);
  }

  /** Three features give three facts, each the feature marked as mock. */
  lemma FactsOfThree(s: string, a: string, b: string, c: string)
    requires MockFeatures(s) == [a, b, c]
    ensures GenerateMockSummary(s).coolFacts == [MockPrefix + a, MockPrefix + b, MockPrefix + c]
  {
    var facts := GenerateMockSummary(s).coolFacts;
    assert |facts| == 3;
    assert facts[0] == MockPrefix + a && facts[1] == MockPrefix + b && facts[2] == MockPrefix + c;
  }

  /**
   * A README made of one plain line (no marker, e.g. a heading "# Foo") and three bullet lines
   * "- a", "- b", "- c": the features are a, b and c, and the facts are those texts marked as mock.
   */
  lemma ThreeBulletLinesFeatures(s: string, head: string, a: string, b: string, c: string)
    requires forall k :: 0 <= k < |head| ==> !IsLineTerminator(head[k])
    requires head == [] || !IsMarker(Bullet, head[0])
    requires BulletText(a) && BulletText(b) && BulletText(c)
    requires s == ThreeBulletReadme(head, a, b, c)
    ensures MockFeatures(s) == [a, b, c]
    ensures GenerateMockSummary(s).coolFacts == [MockPrefix + a, MockPrefix + b, MockPrefix + c]
  {
    var p1 := |head| + 1;
    var e1 := p1 + 2 + |a|;
    var p2 := e1 + 1;
    var e2 := p2 + 2 + |b|;
    var p3 := e2 + 1;
    ThreeBulletLinesFirstMatches(s, head, p1, e1, a, p2, e2, b, p3, c);
    FeaturesOfFirstMatches(s, p1, e1, a, p2, e2, b, p3, c);
    FactsOfThree(s, a, b, c);
  }

  /** In such a README the leftmost search, resumed after each bullet line, finds the next one. */
  lemma ThreeBulletLinesFirstMatches(s: string, head: string, p1: nat, e1: nat, a: string, p2: nat, e2: nat, b: string,
                                     p3: nat, c: string)
    requires forall k :: 0 <= k < |head| ==> !IsLineTerminator(head[k])
    requires head == [] || !IsMarker(Bullet, head[0])
    requires BulletText(a) && BulletText(b) && BulletText(c)
    requires s == ThreeBulletReadme(head, a, b, c)
    requires p1 == |head| + 1 && e1 == p1 + 2 + |a| && p2 == e1 + 1 && e2 == p2 + 2 + |b| && p3 == e2 + 1
    ensures p3 + 2 + |c| == |s|
    ensures FirstMatchFrom(s, Bullet, 0) == Some(Span(p1, p1 + 2, e1))
    ensures FirstMatchFrom(s, Bullet, e1) == Some(Span(p2, p2 + 2, e2))
    ensures FirstMatchFrom(s, Bullet, e2) == Some(Span(p3, p3 + 2, |s|))
    ensures s[p1..e1] == "- " + a && s[p2..e2] == "- " + b && s[p3..|s|] == "- " + c
  {
    ThreeBulletLinesShape(s, head, p1, e1, a, p2, b, p3, c);
    TwoNextBullets(s, p1, e1, a, p2, e2, b, p3, c);
  }

  /** Three bullet lines found one after the other by the leftmost search are the features. */
  lemma FeaturesOfFirstMatches(s: string, p1: nat, e1: nat, a: string, p2: nat, e2: nat, b: string, p3: nat, c: string)
    requires BulletText(a) && BulletText(b) && BulletText(c)
    requires p1 + 2 <= e1 <= p2 && p2 + 2 <= e2 <= p3 && p3 + 2 <= |s|
    requires FirstMatchFrom(s, Bullet, 0) == Some(Span(p1, p1 + 2, e1))
    requires FirstMatchFrom(s, Bullet, e1) == Some(Span(p2, p2 + 2, e2))
    requires FirstMatchFrom(s, Bullet, e2) == Some(Span(p3, p3 + 2, |s|))
    requires s[p1..e1] == "- " + a && s[p2..e2] == "- " + b && s[p3..|s|] == "- " + c
    ensures MockFeatures(s) == [a, b, c]
  {
    ThreeMatches(s, p1, e1, p2, e2, p3);
    ThreeMatchTexts(s, p1, e1, a, p2, e2, b, p3, c);
    FeaturesOfThree(s, a, b, c);
  }

  // ---------------------------------------------------------------- the envelope

  /** What `summarizeReadme` did: returned a structured summary, or raised (with an Error's message, if any). */
  datatype ModelOutcome = Returned(summary: string, coolFacts: seq<string>) | Raised(message: Option<string>)

  /** The result of summarizeGithubRepo. */
  datatype SummaryResult = SummaryResult(
    success: bool, summary: Option<string>, coolFacts: seq<string>, error: Option<string>, mock: bool)

  /**
   * summarizeGithubRepo. Without a credential the mock is always used and succeeds; with one,
   * the model is asked exactly once and a failure is reported, never replaced by the mock.
   */
  function SummarizeGithubRepo(readme: string, credentialConfigured: bool, model: ModelOutcome): (r: SummaryResult)
    ensures r.mock <==> !credentialConfigured
    ensures !credentialConfigured ==>
      r.success && r.error.None? && r.summary == Some(GenerateMockSummary(readme).summary)
      && r.coolFacts == GenerateMockSummary(readme).coolFacts
    ensures credentialConfigured && model.Returned? ==>
      r == SummaryResult(true, Some(model.summary), model.coolFacts, None, false)
    ensures credentialConfigured && model.Raised? ==>
      !r.success && r.summary.None? && r.coolFacts == [] && r.error.Some?
      && r.error.value == model.message.GetOr("Failed to summarize repository")
    ensures r.success <==> r.error.None?
  {
    if !credentialConfigured then
      var m := GenerateMockSummary(readme);
      SummaryResult(true, Some(m.summary), m.coolFacts, None, true)
    else match model
      case Returned(summary, facts) => SummaryResult(true, Some(summary), facts, None, false)
      case Raised(message) => SummaryResult(false, None, [], Some(message.GetOr("Failed to summarize repository")), false)
  }
}

/** Projection of retrieved history snippets: span subtraction, anchored cropping, and admission
    under a snippet limit and a token budget.

    Text is a sequence of runes and offsets are rune offsets. The token estimate, the caller's
    extra fitness test and the rune-wise lower-casing are arbitrary functions. */
module Retrieval {
  import opened Wrappers
  import opened Sorting
  import Timeline

  // ---------------------------------------------------------------- spans

  /** A half-open stretch of one field. */
  datatype Span = Span(path: string, start: int, end: int)

  predicate InSpan(s: Span, path: string, k: int) { s.path == path && s.start <= k < s.end }

  /** Whether a list of spans covers offset `k` of a field. */
  predicate Covers(spans: seq<Span>, path: string, k: int) {
    exists i :: 0 <= i < |spans| && InSpan(spans[i], path, k)
  }

  predicate NonEmpty(spans: seq<Span>) { forall i | 0 <= i < |spans| :: spans[i].start < spans[i].end }

  predicate Apart(a: Span, b: Span) { a.path != b.path || a.end <= b.start || b.end <= a.start }

  predicate Disjoint(spans: seq<Span>) { Pairwise(Apart, spans) }

  predicate Inside(inner: Span, outer: Span) {
    inner.path == outer.path && outer.start <= inner.start && inner.end <= outer.end
  }

  predicate InsideSome(s: Span, outer: seq<Span>) { exists i :: 0 <= i < |outer| && Inside(s, outer[i]) }

  predicate AllInside(inner: seq<Span>, outer: seq<Span>) { forall p | 0 <= p < |inner| :: InsideSome(inner[p], outer) }

  /** `left` covers exactly the offsets of `spans` that `covered` does not. */
  ghost predicate Difference(left: seq<Span>, spans: seq<Span>, covered: seq<Span>) {
    forall path, k :: Covers(left, path, k) <==> Covers(spans, path, k) && !Covers(covered, path, k)
  }

  /** What is left of one span outside one cover, in order. */
  function Pieces(span: Span, cover: Span): (r: seq<Span>)
  {
    if cover.path != span.path || cover.end <= cover.start || cover.end <= span.start || cover.start >= span.end then [span]
    else
      (if span.start < cover.start then [Span(span.path, span.start, cover.start)] else []) +
      (if cover.end < span.end then [Span(span.path, cover.end, span.end)] else [])
  }

  lemma PiecesAreTheDifference(span: Span, cover: Span)
    ensures forall path, k :: Covers(Pieces(span, cover), path, k) <==> InSpan(span, path, k) && !InSpan(cover, path, k)
    ensures forall i | 0 <= i < |Pieces(span, cover)| :: Inside(Pieces(span, cover)[i], span)
    ensures span.start < span.end ==> NonEmpty(Pieces(span, cover))
    ensures Disjoint(Pieces(span, cover))
  {
    var r := Pieces(span, cover);
    forall path, k ensures Covers(r, path, k) <==> InSpan(span, path, k) && !InSpan(cover, path, k) {
      if InSpan(span, path, k) && !InSpan(cover, path, k) {
        assert InSpan(r[0], path, k) || (|r| == 2 && InSpan(r[1], path, k));
      }
    }
  }

  function SubtractOne(spans: seq<Span>, cover: Span): seq<Span> {
    if spans == [] then [] else SubtractOne(spans[..|spans| - 1], cover) + Pieces(spans[|spans| - 1], cover)
  }

  function Subtract(spans: seq<Span>, covered: seq<Span>): seq<Span> {
    if covered == [] then spans else SubtractOne(Subtract(spans, covered[..|covered| - 1]), covered[|covered| - 1])
  }

  /** Appends what is left of one span. */
  method KeepPieces(remaining: seq<Span>, span: Span, cover: Span) returns (r: seq<Span>)
    ensures r == remaining + Pieces(span, cover)
  {
    r := remaining;
    if cover.path != span.path || cover.end <= cover.start || cover.end <= span.start || cover.start >= span.end {
      return r + [span];
    }
    if span.start < cover.start { r := r + [Span(span.path, span.start, cover.start)]; }
    if cover.end < span.end { r := r + [Span(span.path, cover.end, span.end)]; }
  }

  lemma SubtractOneStep(spans: seq<Span>, cover: Span, i: nat)
    requires i < |spans|
    ensures SubtractOne(spans[..i + 1], cover) == SubtractOne(spans[..i], cover) + Pieces(spans[i], cover)
  {
    assert spans[..i + 1][..i] == spans[..i];
  }

  lemma SubtractStep(spans: seq<Span>, covered: seq<Span>, c: nat)
    requires c < |covered|
    ensures Subtract(spans, covered[..c + 1]) == SubtractOne(Subtract(spans, covered[..c]), covered[c])
  {
    assert covered[..c + 1][..c] == covered[..c];
  }

  method SubtractCover(spans: seq<Span>, cover: Span) returns (remaining: seq<Span>)
    ensures remaining == SubtractOne(spans, cover)
  {
    remaining := [];
    for i := 0 to |spans|
      invariant remaining == SubtractOne(spans[..i], cover)
    {
      SubtractOneStep(spans, cover, i);
      remaining := KeepPieces(remaining, spans[i], cover);
    }
    assert spans[..|spans|] == spans;
  }

  method SubtractRetrievalSpans(spans: seq<Span>, covered: seq<Span>) returns (left: seq<Span>)
    ensures left == Subtract(spans, covered)
  {
    left := spans;
    for c := 0 to |covered|
      invariant left == Subtract(spans, covered[..c])
    {
      SubtractStep(spans, covered, c);
      left := SubtractCover(left, covered[c]);
    }
    assert covered[..|covered|] == covered;
  }

  lemma CoversConcat(a: seq<Span>, b: seq<Span>, path: string, k: int)
    ensures Covers(a + b, path, k) <==> Covers(a, path, k) || Covers(b, path, k)
  {
    if Covers(b, path, k) {
      var i :| 0 <= i < |b| && InSpan(b[i], path, k);
      assert (a + b)[|a| + i] == b[i];
    }
    if Covers(a, path, k) {
      var i :| 0 <= i < |a| && InSpan(a[i], path, k);
      assert (a + b)[i] == a[i];
    }
  }

  lemma {:induction false} SubtractOneIsExact(spans: seq<Span>, cover: Span, path: string, k: int)
    ensures Covers(SubtractOne(spans, cover), path, k) <==> Covers(spans, path, k) && !InSpan(cover, path, k)
  {
    if spans != [] {
      var n := |spans| - 1;
      SubtractOneIsExact(spans[..n], cover, path, k);
      PiecesAreTheDifference(spans[n], cover);
      CoversConcat(SubtractOne(spans[..n], cover), Pieces(spans[n], cover), path, k);
      CoversConcat(spans[..n], [spans[n]], path, k);
      assert spans[..n] + [spans[n]] == spans && [spans[n]][0] == spans[n];
    }
  }

  lemma {:induction false} SubtractOneStaysInside(spans: seq<Span>, cover: Span)
    ensures NonEmpty(spans) ==> NonEmpty(SubtractOne(spans, cover))
    ensures AllInside(SubtractOne(spans, cover), spans)
  {
    if spans != [] {
      var n := |spans| - 1;
      SubtractOneStaysInside(spans[..n], cover);
      PiecesAreTheDifference(spans[n], cover);
      var before, pieces := SubtractOne(spans[..n], cover), Pieces(spans[n], cover);
      forall p | 0 <= p < |before + pieces| ensures InsideSome((before + pieces)[p], spans) {
        if p < |before| {
          assert InsideSome(before[p], spans[..n]);
          var i :| 0 <= i < n && Inside(before[p], spans[..n][i]);
          assert Inside((before + pieces)[p], spans[i]);
        } else {
          assert Inside((before + pieces)[p], spans[n]);
        }
      }
    }
  }

  lemma {:induction false} SubtractOneKeepsDisjoint(spans: seq<Span>, cover: Span)
    requires Disjoint(spans)
    ensures Disjoint(SubtractOne(spans, cover))
  {
    if spans != [] {
      var n := |spans| - 1;
      SubtractOneKeepsDisjoint(spans[..n], cover);
      SubtractOneStaysInside(spans[..n], cover);
      PiecesAreTheDifference(spans[n], cover);
      var before, pieces := SubtractOne(spans[..n], cover), Pieces(spans[n], cover);
      forall i, j | 0 <= i < j < |before + pieces| ensures Apart((before + pieces)[i], (before + pieces)[j]) {
        if i < |before| <= j {
          assert InsideSome(before[i], spans[..n]);
          var k :| 0 <= k < n && Inside(before[i], spans[..n][k]);
          assert Apart(spans[k], spans[n]);
        }
      }
    }
  }

  lemma {:induction false} SubtractStaysInside(spans: seq<Span>, covered: seq<Span>)
    ensures NonEmpty(spans) ==> NonEmpty(Subtract(spans, covered))
    ensures Disjoint(spans) ==> Disjoint(Subtract(spans, covered))
    ensures AllInside(Subtract(spans, covered), spans)
  {
    if covered == [] {
      forall p | 0 <= p < |spans| ensures InsideSome(spans[p], spans) { assert Inside(spans[p], spans[p]); }
    } else {
      var n := |covered| - 1;
      var before := Subtract(spans, covered[..n]);
      SubtractStaysInside(spans, covered[..n]);
      SubtractOneStaysInside(before, covered[n]);
      InsideTransitive(spans, before, SubtractOne(before, covered[n]));
      if Disjoint(spans) { SubtractOneKeepsDisjoint(before, covered[n]); }
    }
  }

  lemma {:induction false} SubtractIsDifference(spans: seq<Span>, covered: seq<Span>, path: string, k: int)
    ensures Covers(Subtract(spans, covered), path, k) <==> Covers(spans, path, k) && !Covers(covered, path, k)
  {
    if covered != [] {
      var n := |covered| - 1;
      SubtractIsDifference(spans, covered[..n], path, k);
      SubtractOneIsExact(Subtract(spans, covered[..n]), covered[n], path, k);
      CoversLast(covered, path, k);
    }
  }

  lemma CoversLast(covered: seq<Span>, path: string, k: int)
    requires covered != []
    ensures Covers(covered, path, k) <==> Covers(covered[..|covered| - 1], path, k) || InSpan(covered[|covered| - 1], path, k)
  {
    var n := |covered| - 1;
    CoversConcat(covered[..n], [covered[n]], path, k);
    assert covered[..n] + [covered[n]] == covered && [covered[n]][0] == covered[n];
  }

  /** Subtraction is exact set difference on offsets, and keeps spans disjoint, non-empty and
      inside the spans they came from. */
  lemma SubtractIsExact(spans: seq<Span>, covered: seq<Span>)
    ensures Difference(Subtract(spans, covered), spans, covered)
    ensures NonEmpty(spans) ==> NonEmpty(Subtract(spans, covered))
    ensures Disjoint(spans) ==> Disjoint(Subtract(spans, covered))
    ensures AllInside(Subtract(spans, covered), spans)
  {
    forall path, k
      ensures Covers(Subtract(spans, covered), path, k) <==> Covers(spans, path, k) && !Covers(covered, path, k)
    {
      SubtractIsDifference(spans, covered, path, k);
    }
    SubtractStaysInside(spans, covered);
  }

  lemma InsideTransitive(outer: seq<Span>, middle: seq<Span>, inner: seq<Span>)
    requires AllInside(middle, outer) && AllInside(inner, middle)
    ensures AllInside(inner, outer)
  {
    forall p | 0 <= p < |inner| ensures InsideSome(inner[p], outer) {
      assert InsideSome(inner[p], middle);
      var m :| 0 <= m < |middle| && Inside(inner[p], middle[m]);
      assert InsideSome(middle[m], outer);
      var i :| 0 <= i < |outer| && Inside(middle[m], outer[i]);
      assert Inside(inner[p], outer[i]);
    }
  }

  /** A non-empty span whose offsets a list never covers is apart from every non-empty span of it. */
  lemma UncoveredIsApart(span: Span, covers: seq<Span>, i: nat)
    requires span.start < span.end && i < |covers| && covers[i].start < covers[i].end
    requires forall k | span.start <= k < span.end :: !Covers(covers, span.path, k)
    ensures Apart(span, covers[i])
  {
    if !Apart(span, covers[i]) {
      var k := if span.start < covers[i].start then covers[i].start else span.start;
      assert InSpan(covers[i], span.path, k);
      assert Covers(covers, span.path, k);
    }
  }

  // ---------------------------------------------------------------- anchors and windows

  type Fold = char -> char

  function Lower(fold: Fold, s: string): string { seq(|s|, k requires 0 <= k < |s| => fold(s[k])) }

  predicate OccursAt(hay: string, needle: string, at: nat) {
    at + |needle| <= |hay| && hay[at..at + |needle|] == needle
  }

  method IndexOf(hay: string, needle: string) returns (at: Option<nat>)
    ensures at.Some? ==> OccursAt(hay, needle, at.value) && forall k: nat | k < at.value :: !OccursAt(hay, needle, k)
    ensures at.None? ==> forall k: nat :: !OccursAt(hay, needle, k)
  {
    var k := 0;
    while k + |needle| <= |hay|
      invariant forall i: nat | i < k :: !OccursAt(hay, needle, i)
    {
      if hay[k..k + |needle|] == needle { return Some(k); }
      k := k + 1;
    }
    return None;
  }

  /** Whether some non-empty term occurs in a stretch of the text. */
  predicate HasAnchor(text: string, span: Span, terms: seq<string>, fold: Fold) {
    0 <= span.start <= span.end <= |text|
    && exists t :: 0 <= t < |terms| && terms[t] != "" && Occurs(Lower(fold, text[span.start..span.end]), Lower(fold, terms[t]))
  }

  predicate Occurs(hay: string, needle: string) { exists k | 0 <= k <= |hay| :: OccursAt(hay, needle, k) }

  lemma LowerOfSlice(fold: Fold, s: string, at: nat, n: nat)
    requires at + n <= |s|
    ensures Lower(fold, s)[at..at + n] == Lower(fold, s[at..at + n])
  {
  }

  lemma SliceOfSlice(text: string, i: nat, j: nat, at: nat, n: nat)
    requires i <= j <= |text| && i + at + n <= j
    ensures text[i..j][at..at + n] == text[i + at..i + at + n]
  {
    var part := text[i..j];
    var left, right := part[at..at + n], text[i + at..i + at + n];
    forall k | 0 <= k < n ensures left[k] == right[k] {
      assert part[at + k] == text[i + at + k];
    }
  }

  /** The anchor is where the first listed term that occurs at all occurs first; `end == 0` means none. */
  method Anchor(text: string, span: Span, terms: seq<string>, fold: Fold) returns (anchor: Span)
    requires 0 <= span.start <= span.end <= |text|
    ensures anchor.end > 0 ==>
              && Inside(anchor, span) && anchor.start < anchor.end
              && exists t :: 0 <= t < |terms| && terms[t] != "" && Lower(fold, text[anchor.start..anchor.end]) == Lower(fold, terms[t])
    ensures anchor.end > 0 <==> HasAnchor(text, span, terms, fold)
    ensures anchor.end <= 0 ==> anchor == Span("", 0, 0)
  {
    var value := Lower(fold, text[span.start..span.end]);
    for t := 0 to |terms|
      invariant forall i | 0 <= i < t && terms[i] != "" :: !Occurs(value, Lower(fold, terms[i]))
    {
      var term := Lower(fold, terms[t]);
      if terms[t] == "" { continue; }
      var at := IndexOf(value, term);
      if at.Some? {
        assert Occurs(value, term);
        anchor := Span(span.path, span.start + at.value, span.start + at.value + |term|);
        SliceOfSlice(text, span.start, span.end, at.value, |term|);
        LowerOfSlice(fold, text[span.start..span.end], at.value, |term|);
        return;
      }
    }
    return Span("", 0, 0);
  }

  /** No anchor, or one inside the stretch. */
  predicate AnchorIn(anchor: Span, span: Span) { anchor.end > 0 ==> Inside(anchor, span) && anchor.start < anchor.end }

  /** Where a window of `width` starts: at the span's start without an anchor, else centred on the
      anchor and pushed back inside the span. */
  function WindowStart(span: Span, anchor: Span, width: int): int {
    if anchor.end <= 0 then span.start
    else
      var slack := width - (anchor.end - anchor.start);
      var wanted := anchor.start - (if slack > 0 then slack / 2 else 0);
      var last := if wanted < span.end - width then wanted else span.end - width;
      if span.start < last then last else span.start
  }

  function WindowOf(span: Span, anchor: Span, width: int): Span {
    var start := WindowStart(span, anchor, width);
    Span(span.path, start, start + width)
  }

  /** A window stays in its span, and one at least as wide as the anchor contains the anchor. */
  lemma WindowHoldsAnchor(span: Span, anchor: Span, width: int)
    requires 0 < width <= span.end - span.start && AnchorIn(anchor, span)
    ensures Inside(WindowOf(span, anchor, width), span)
    ensures anchor.end > 0 && width >= anchor.end - anchor.start ==> Inside(anchor, WindowOf(span, anchor, width))
  {
  }

  // ---------------------------------------------------------------- snippets

  datatype Snippet = Snippet(sourceId: string, sequence: int, path: string, start: int, end: int, text: string, cropped: bool)
  {
    function At(): Span { Span(path, start, end) }
  }

  datatype Match = Match(eligible: bool, sourceId: string, sequence: int, span: Span, text: string, terms: seq<string>)

  datatype Unit = Unit(sourceId: string, complete: bool, spans: seq<Span>)

  predicate Valid(m: Match) { m.eligible && 0 <= m.span.start < m.span.end <= |m.text| }

  function SnippetOf(m: Match, span: Span): Snippet
    requires 0 <= span.start <= span.end <= |m.text|
  {
    Snippet(m.sourceId, m.sequence, span.path, span.start, span.end, m.text[span.start..span.end],
            span.start != 0 || span.end != |m.text|)
  }

  predicate DisplayLeq(x: Snippet, y: Snippet) {
    if x.sequence != y.sequence then x.sequence < y.sequence
    else if x.sourceId != y.sourceId then Timeline.CompareText(x.sourceId, y.sourceId) <= 0
    else if x.path != y.path then Timeline.CompareText(x.path, y.path) <= 0
    else x.start <= y.start
  }

  lemma DisplayTotal(s: seq<Snippet>)
    ensures TotalOn(DisplayLeq, s)
  {
    forall x, y, z | x in s && y in s && z in s
      ensures DisplayLeq(x, y) || DisplayLeq(y, x)
      ensures DisplayLeq(x, y) && DisplayLeq(y, z) ==> DisplayLeq(x, z)
    {
      Timeline.TextOrder(x.sourceId, y.sourceId, z.sourceId);
      Timeline.TextOrder(y.sourceId, z.sourceId, x.sourceId);
      Timeline.TextOrder(x.path, y.path, z.path);
      Timeline.TextOrder(y.path, z.path, x.path);
    }
  }

  function Place(snippets: seq<Snippet>, s: Snippet): seq<Snippet> { StableSort(DisplayLeq, snippets + [s]) }

  type Cost = seq<Snippet> -> nat
  type Fits = seq<Snippet> -> Option<bool>

  datatype Budget = Budget(limit: int, maxTokens: int, cost: Cost, fits: Fits)

  /** None when the caller's fitness test failed with an error. */
  function Accepts(b: Budget, snippets: seq<Snippet>): Option<bool> {
    if b.cost(snippets) > b.maxTokens then Some(false) else b.fits(snippets)
  }

  /** A snippet is the slice of its match's field at its own offsets, inside the match. */
  predicate FromMatch(s: Snippet, m: Match) {
    && Valid(m) && s.sourceId == m.sourceId && s.sequence == m.sequence
    && Inside(s.At(), m.span) && s.start < s.end && s.text == m.text[s.start..s.end]
    && (s.cropped <==> s.start != 0 || s.end != |m.text|)
  }

  predicate ClearOf(s: Snippet, recent: seq<Unit>) {
    forall u | 0 <= u < |recent| && recent[u].sourceId == s.sourceId ::
      !recent[u].complete
      && forall i | 0 <= i < |recent[u].spans| && recent[u].spans[i].start < recent[u].spans[i].end :: Apart(s.At(), recent[u].spans[i])
  }

  predicate ApartFrom(s: Snippet, others: seq<Snippet>) { forall k | 0 <= k < |others| :: NoOverlap(others[k], s) }

  predicate NoOverlap(a: Snippet, b: Snippet) { a.sourceId == b.sourceId ==> Apart(a.At(), b.At()) }

  predicate MutuallyApart(snippets: seq<Snippet>) { Pairwise(NoOverlap, snippets) }

  /** Everything promised of the displayed snippets. */
  ghost predicate Displayed(snippets: seq<Snippet>, matches: seq<Match>, recent: seq<Unit>, b: Budget) {
    && |snippets| <= (if b.limit > 0 then b.limit else 0)
    && (snippets != [] ==> Accepts(b, snippets) == Some(true))
    && (forall k | 0 <= k < |snippets| :: exists m :: 0 <= m < |matches| && FromMatch(snippets[k], matches[m]))
    && (forall k | 0 <= k < |snippets| :: ClearOf(snippets[k], recent))
    && MutuallyApart(snippets)
    && Sorted(DisplayLeq, snippets)
  }

  lemma PlacedIsOldOrNew(snippets: seq<Snippet>, s: Snippet)
    ensures |Place(snippets, s)| == |snippets| + 1
    ensures forall k | 0 <= k < |Place(snippets, s)| ::
              Place(snippets, s)[k] == s || exists i :: 0 <= i < |snippets| && snippets[i] == Place(snippets, s)[k]
  {
    var all, placed := snippets + [s], Place(snippets, s);
    forall k | 0 <= k < |placed| ensures placed[k] == s || exists i :: 0 <= i < |snippets| && snippets[i] == placed[k] {
      assert placed[k] in multiset(all);
      var i :| 0 <= i < |all| && all[i] == placed[k];
      if i < |snippets| { assert all[i] == snippets[i]; }
    }
  }

  lemma PlacedIsSortedAndApart(snippets: seq<Snippet>, s: Snippet)
    requires MutuallyApart(snippets) && ApartFrom(s, snippets)
    ensures MutuallyApart(Place(snippets, s)) && Sorted(DisplayLeq, Place(snippets, s))
  {
    DisplayTotal(snippets + [s]);
    StableSortSorts(DisplayLeq, snippets + [s]);
    SortKeepsPairwise(DisplayLeq, NoOverlap, snippets + [s]);
  }

  /** Placing an accepted snippet that is clear of everything keeps the promises. */
  lemma PlaceKeeps(snippets: seq<Snippet>, s: Snippet, matches: seq<Match>, recent: seq<Unit>, b: Budget, m: nat)
    requires Displayed(snippets, matches, recent, b) && |snippets| < b.limit
    requires m < |matches| && FromMatch(s, matches[m]) && ClearOf(s, recent) && ApartFrom(s, snippets)
    requires Accepts(b, Place(snippets, s)) == Some(true)
    ensures Displayed(Place(snippets, s), matches, recent, b)
  {
    PlacedIsOldOrNew(snippets, s);
    PlacedIsSortedAndApart(snippets, s);
  }

  /** Whether the window of this width was turned down. */
  predicate Rejected(b: Budget, snippets: seq<Snippet>, m: Match, window: Span) {
    0 <= window.start <= window.end <= |m.text| && Accepts(b, Place(snippets, SnippetOf(m, window))) == Some(false)
  }

  predicate Accepted(b: Budget, snippets: seq<Snippet>, m: Match, window: Span) {
    0 <= window.start <= window.end <= |m.text| && Accepts(b, Place(snippets, SnippetOf(m, window))) == Some(true)
  }

  /** The answer for the window of this width. */
  function Verdict(b: Budget, snippets: seq<Snippet>, m: Match, span: Span, anchor: Span, width: int): Option<bool> {
    var window := WindowOf(span, anchor, width);
    if 0 <= window.start <= window.end <= |m.text| then Accepts(b, Place(snippets, SnippetOf(m, window))) else None
  }

  /** Looks for the widest accepted window narrower than the stretch, by bisection; a width of zero
      means none. The width found is accepted and the next one turned down, whatever the answers are. */
  method Crop(stretch: nat, ask: int -> Option<bool>) returns (width: nat, error: bool)
    requires stretch > 0
    ensures width < stretch && (width > 0 ==> ask(width) == Some(true))
    ensures !error && width + 1 < stretch ==> ask(width + 1) == Some(false)
    ensures error ==> exists probe :: 0 < probe < stretch && ask(probe) == None
  {
    error, width := false, 0;
    var low, high := 1, stretch - 1;
    while low <= high
      invariant 1 <= low <= high + 1 <= stretch
      invariant width == low - 1
      invariant width > 0 ==> ask(width) == Some(true)
      invariant high + 1 < stretch ==> ask(high + 1) == Some(false)
      decreases high - low
    {
      var middle := low + (high - low) / 2;
      var accepted := ask(middle);
      if accepted.None? { return 0, true; }
      if accepted.value { width, low := middle, middle + 1; } else { high := middle - 1; }
    }
  }

  /** The whole stretch if it is accepted, else the window around its anchor that `Crop` found. */
  method Fit(snippets: seq<Snippet>, m: Match, span: Span, fold: Fold, b: Budget) returns (window: Option<Span>, error: bool)
    requires Valid(m) && Inside(span, m.span) && span.start < span.end
    ensures window.Some? ==>
              && !error && Inside(window.value, span) && window.value.start < window.value.end
              && Accepted(b, snippets, m, window.value)
    ensures !error && window != Some(span) ==> Rejected(b, snippets, m, span)
  {
    error := false;
    var full := Accepts(b, Place(snippets, SnippetOf(m, span)));
    if full.None? { return None, true; }
    if full.value { return Some(span), false; }
    var anchor := Anchor(m.text, span, m.terms, fold);
    var width, failed := Crop(span.end - span.start, width => Verdict(b, snippets, m, span, anchor, width));
    if failed { return None, true; }
    if width == 0 { return None, false; }
    WindowHoldsAnchor(span, anchor, width);
    window := Some(WindowOf(span, anchor, width));
  }

  // ---------------------------------------------------------------- projection

  /** The stretches of a match no recent unit shows. */
  ghost predicate FreeOf(spans: seq<Span>, m: Match, recent: seq<Unit>) {
    && NonEmpty(spans) && Disjoint(spans) && (forall i | 0 <= i < |spans| :: Inside(spans[i], m.span))
    && forall u | 0 <= u < |recent| && recent[u].sourceId == m.sourceId :: UnitClear(spans, recent[u])
  }

  predicate UnitClear(spans: seq<Span>, unit: Unit) {
    spans == [] || (!unit.complete && AllApart(spans, unit.spans))
  }

  predicate AllApart(spans: seq<Span>, covers: seq<Span>) {
    forall p, i | 0 <= p < |spans| && 0 <= i < |covers| && covers[i].start < covers[i].end :: Apart(spans[p], covers[i])
  }

  /** Subtracting leaves every span apart from the covers, and still apart from what it was apart from. */
  lemma SubtractIsApart(spans: seq<Span>, covered: seq<Span>)
    requires NonEmpty(spans)
    ensures AllApart(Subtract(spans, covered), covered)
  {
    SubtractIsExact(spans, covered);
    var left := Subtract(spans, covered);
    forall p, i | 0 <= p < |left| && 0 <= i < |covered| && covered[i].start < covered[i].end ensures Apart(left[p], covered[i]) {
      forall k | left[p].start <= k < left[p].end ensures !Covers(covered, left[p].path, k) {
        assert InSpan(left[p], left[p].path, k);
        assert Covers(left, left[p].path, k);
      }
      UncoveredIsApart(left[p], covered, i);
    }
  }

  lemma InsideKeepsApart(inner: seq<Span>, outer: seq<Span>, covers: seq<Span>)
    requires AllInside(inner, outer) && AllApart(outer, covers)
    ensures AllApart(inner, covers)
  {
    forall p, i | 0 <= p < |inner| && 0 <= i < |covers| && covers[i].start < covers[i].end ensures Apart(inner[p], covers[i]) {
      assert InsideSome(inner[p], outer);
      var o :| 0 <= o < |outer| && Inside(inner[p], outer[o]);
    }
  }

  lemma SubtractStaysFree(spans: seq<Span>, covered: seq<Span>, m: Match, recent: seq<Unit>)
    requires FreeOf(spans, m, recent)
    ensures FreeOf(Subtract(spans, covered), m, recent)
  {
    SubtractIsExact(spans, covered);
    var left := Subtract(spans, covered);
    forall p | 0 <= p < |left| ensures Inside(left[p], m.span) {
      assert InsideSome(left[p], spans);
    }
    forall u | 0 <= u < |recent| && recent[u].sourceId == m.sourceId ensures UnitClear(left, recent[u]) {
      assert UnitClear(spans, recent[u]);
      if left != [] {
        assert InsideSome(left[0], spans);
        InsideKeepsApart(left, spans, recent[u].spans);
      }
    }
  }

  /** Whether a recent unit of the match's source shows offset `k` of its field. */
  predicate ShownAt(m: Match, recent: seq<Unit>, k: int) {
    exists u :: 0 <= u < |recent| && UnitShows(recent[u], m, k)
  }

  predicate UnitShows(unit: Unit, m: Match, k: int) {
    unit.sourceId == m.sourceId && (unit.complete || Covers(unit.spans, m.span.path, k))
  }

  /** `spans` are exactly the offsets of the match that no recent unit shows. */
  ghost predicate Unshown(spans: seq<Span>, m: Match, recent: seq<Unit>) {
    && FreeOf(spans, m, recent)
    && forall k :: Covers(spans, m.span.path, k) <==> InSpan(m.span, m.span.path, k) && !ShownAt(m, recent, k)
  }

  lemma ShownAppend(m: Match, recent: seq<Unit>, unit: Unit, k: int)
    ensures ShownAt(m, recent + [unit], k) <==> ShownAt(m, recent, k) || UnitShows(unit, m, k)
  {
    if ShownAt(m, recent, k) {
      var u :| 0 <= u < |recent| && UnitShows(recent[u], m, k);
      assert UnitShows((recent + [unit])[u], m, k);
    }
    if UnitShows(unit, m, k) { assert UnitShows((recent + [unit])[|recent|], m, k); }
  }

  lemma UnshownAppend(spans: seq<Span>, m: Match, recent: seq<Unit>, unit: Unit)
    requires Unshown(spans, m, recent) && !unit.complete && unit.sourceId == m.sourceId
    ensures Unshown(Subtract(spans, unit.spans), m, recent + [unit])
  {
    SubtractStaysFree(spans, unit.spans, m, recent);
    SubtractIsApart(spans, unit.spans);
    SubtractIsExact(spans, unit.spans);
    var left := Subtract(spans, unit.spans);
    assert FreeOf(left, m, recent + [unit]);
    forall k ensures Covers(left, m.span.path, k) <==> InSpan(m.span, m.span.path, k) && !ShownAt(m, recent + [unit], k) {
      ShownAppend(m, recent, unit, k);
    }
  }

  lemma UnshownOther(spans: seq<Span>, m: Match, recent: seq<Unit>, unit: Unit)
    requires Unshown(spans, m, recent) && unit.sourceId != m.sourceId
    ensures Unshown(spans, m, recent + [unit])
  {
    assert FreeOf(spans, m, recent + [unit]);
    forall k ensures Covers(spans, m.span.path, k) <==> InSpan(m.span, m.span.path, k) && !ShownAt(m, recent + [unit], k) {
      ShownAppend(m, recent, unit, k);
    }
  }

  lemma CompleteHidesAll(m: Match, recent: seq<Unit>, u: nat)
    requires u < |recent| && recent[u].complete && recent[u].sourceId == m.sourceId
    ensures Unshown([], m, recent)
  {
    forall k ensures ShownAt(m, recent, k) { assert UnitShows(recent[u], m, k); }
  }

  /** What the recent units leave of a match: nothing once one of them is complete. */
  method NotShownRecently(m: Match, recent: seq<Unit>) returns (spans: seq<Span>)
    requires Valid(m)
    ensures Unshown(spans, m, recent)
  {
    spans := [m.span];
    assert Unshown(spans, m, []) by {
      forall k ensures Covers(spans, m.span.path, k) <==> InSpan(m.span, m.span.path, k) { assert spans[0] == m.span; }
    }
    assert recent[..0] == [];
    for u := 0 to |recent|
      invariant Unshown(spans, m, recent[..u])
    {
      assert recent[..u + 1] == recent[..u] + [recent[u]];
      if recent[u].sourceId != m.sourceId {
        UnshownOther(spans, m, recent[..u], recent[u]);
        continue;
      }
      if recent[u].complete {
        CompleteHidesAll(m, recent, u);
        return [];
      }
      UnshownAppend(spans, m, recent[..u], recent[u]);
      spans := SubtractRetrievalSpans(spans, recent[u].spans);
    }
    assert recent[..|recent|] == recent;
  }

  predicate ApartFromShown(spans: seq<Span>, sourceId: string, shown: seq<Snippet>) {
    forall p, k | 0 <= p < |spans| && 0 <= k < |shown| && shown[k].sourceId == sourceId :: Apart(spans[p], shown[k].At())
  }

  predicate Proper(shown: seq<Snippet>) { forall k | 0 <= k < |shown| :: shown[k].start < shown[k].end }

  method NotShownAlready(spans: seq<Span>, m: Match, recent: seq<Unit>, shown: seq<Snippet>) returns (left: seq<Span>)
    requires FreeOf(spans, m, recent) && Proper(shown)
    ensures FreeOf(left, m, recent) && ApartFromShown(left, m.sourceId, shown)
    ensures shown == [] ==> left == spans
  {
    left := spans;
    for k := 0 to |shown|
      invariant FreeOf(left, m, recent) && ApartFromShown(left, m.sourceId, shown[..k])
      invariant shown == [] ==> left == spans
    {
      if shown[k].sourceId == m.sourceId {
        var cover := [shown[k].At()];
        SubtractStaysFree(left, cover, m, recent);
        SubtractIsApart(left, cover);
        SubtractIsExact(left, cover);
        ghost var before := left;
        left := SubtractRetrievalSpans(left, cover);
        forall p, i | 0 <= p < |left| && 0 <= i < k + 1 && shown[i].sourceId == m.sourceId
          ensures Apart(left[p], shown[i].At())
        {
          if i < k {
            assert InsideSome(left[p], before);
            var o :| 0 <= o < |before| && Inside(left[p], before[o]);
            assert Apart(before[o], shown[..k][i].At());
          } else {
            assert Apart(left[p], cover[0]);
          }
        }
      }
    }
  }

  function AnchorFirst(m: Match, fold: Fold): Order<Span> {
    (x: Span, y: Span) => HasAnchor(m.text, y, m.terms, fold) ==> HasAnchor(m.text, x, m.terms, fold)
  }

  /** Stretches that hold a query term come first; nothing is lost or moved otherwise. */
  method OrderSpans(spans: seq<Span>, m: Match, recent: seq<Unit>, shown: seq<Snippet>, fold: Fold) returns (sorted: seq<Span>)
    requires FreeOf(spans, m, recent) && ApartFromShown(spans, m.sourceId, shown)
    ensures FreeOf(sorted, m, recent) && ApartFromShown(sorted, m.sourceId, shown)
    ensures multiset(sorted) == multiset(spans) && Sorted(AnchorFirst(m, fold), sorted)
  {
    var leq := AnchorFirst(m, fold);
    sorted := StableSort(leq, spans);
    StableSortSorts(leq, spans);
    SortKeepsPairwise(leq, Apart, spans);
    forall p | 0 <= p < |sorted| ensures sorted[p] in spans { assert sorted[p] in multiset(spans); }
    assert AllInside(sorted, spans) by {
      forall p | 0 <= p < |sorted| ensures InsideSome(sorted[p], spans) {
        var o :| 0 <= o < |spans| && spans[o] == sorted[p];
        assert Inside(sorted[p], spans[o]);
      }
    }
    forall u | 0 <= u < |recent| && recent[u].sourceId == m.sourceId ensures UnitClear(sorted, recent[u]) {
      assert UnitClear(spans, recent[u]);
      if sorted != [] { InsideKeepsApart(sorted, spans, recent[u].spans); }
    }
  }

  /** A window of a free stretch is clear of the recent units and of everything shown. */
  lemma WindowIsClear(m: Match, spans: seq<Span>, i: nat, window: Span, recent: seq<Unit>, shown: seq<Snippet>)
    requires Valid(m) && FreeOf(spans, m, recent) && i < |spans|
    requires Inside(window, spans[i]) && window.start < window.end
    requires ApartFromShown(spans[i..], m.sourceId, shown)
    ensures FromMatch(SnippetOf(m, window), m)
    ensures ClearOf(SnippetOf(m, window), recent)
    ensures ApartFrom(SnippetOf(m, window), shown)
  {
    var s := SnippetOf(m, window);
    forall u | 0 <= u < |recent| && recent[u].sourceId == s.sourceId ensures !recent[u].complete {
      assert UnitClear(spans, recent[u]);
    }
    forall u, k | 0 <= u < |recent| && recent[u].sourceId == s.sourceId && 0 <= k < |recent[u].spans|
                  && recent[u].spans[k].start < recent[u].spans[k].end
      ensures Apart(s.At(), recent[u].spans[k])
    {
      assert UnitClear(spans, recent[u]);
      assert Apart(spans[i], recent[u].spans[k]);
    }
    assert spans[i..][0] == spans[i];
  }

  /** What is shown after a window of stretch `i` was placed leaves the later stretches untouched. */
  lemma LaterStretchesStayApart(m: Match, spans: seq<Span>, i: nat, window: Span, shown: seq<Snippet>)
    requires Valid(m) && Disjoint(spans) && i < |spans| && Inside(window, m.span) && Inside(window, spans[i])
    requires window.start < window.end
    requires ApartFromShown(spans[i..], m.sourceId, shown)
    ensures ApartFromShown(spans[i + 1..], m.sourceId, Place(shown, SnippetOf(m, window)))
  {
    var s := SnippetOf(m, window);
    var placed := Place(shown, s);
    PlacedIsOldOrNew(shown, s);
    var rest := spans[i + 1..];
    forall p, k | 0 <= p < |rest| && 0 <= k < |placed| && placed[k].sourceId == m.sourceId
      ensures Apart(rest[p], placed[k].At())
    {
      assert rest[p] == spans[i + 1 + p] == spans[i..][p + 1];
      if placed[k] == s {
        assert Apart(spans[i], spans[i + 1 + p]);
      } else {
        var o :| 0 <= o < |shown| && shown[o] == placed[k];
        assert Apart(spans[i..][p + 1], shown[o].At());
      }
    }
  }

  /** Shows what fits of one match: each stretch whole if accepted, else its widest accepted window. */
  method ShowMatch(before: seq<Snippet>, matches: seq<Match>, at: nat, spans: seq<Span>, recent: seq<Unit>, fold: Fold, b: Budget)
    returns (shown: seq<Snippet>, included: bool, error: bool)
    requires at < |matches| && Valid(matches[at]) && b.limit > 0 && Displayed(before, matches, recent, b)
    requires FreeOf(spans, matches[at], recent) && ApartFromShown(spans, matches[at].sourceId, before)
    ensures Displayed(shown, matches, recent, b)
    ensures included ==> |shown| > |before|
    ensures !included ==> shown == before
    ensures !included && !error && |before| < b.limit ==>
              forall i | 0 <= i < |spans| :: Rejected(b, before, matches[at], spans[i])
  {
    shown, included, error := before, false, false;
    var m := matches[at];
    assert spans[0..] == spans;
    for i := 0 to |spans|
      invariant Displayed(shown, matches, recent, b) && ApartFromShown(spans[i..], m.sourceId, shown)
      invariant Tried(shown, included, before, m, spans, i, b)
    {
      if |shown| >= b.limit { break; }
      var placed;
      var had := shown;
      shown, placed, error := ShowStretch(shown, matches, at, spans, i, recent, fold, b);
      if error { return; }
      TriedOneMore(had, shown, included, placed, before, m, spans, i, b);
      included := included || placed;
    }
  }

  /** After `i` stretches: snippets were added, or every one of them was turned down. */
  ghost predicate Tried(shown: seq<Snippet>, included: bool, before: seq<Snippet>, m: Match, spans: seq<Span>, i: nat, b: Budget) {
    i <= |spans| && if included then |shown| > |before| else shown == before && RejectedTo(before, m, spans, i, b)
  }

  ghost predicate RejectedTo(before: seq<Snippet>, m: Match, spans: seq<Span>, i: nat, b: Budget)
    requires i <= |spans|
  {
    forall k | 0 <= k < i :: Rejected(b, before, m, spans[k])
  }

  lemma TriedOneMore(had: seq<Snippet>, shown: seq<Snippet>, included: bool, placed: bool, before: seq<Snippet>, m: Match, spans: seq<Span>, i: nat, b: Budget)
    requires Tried(had, included, before, m, spans, i, b) && i < |spans|
    requires if placed then |shown| == |had| + 1 else shown == had && Rejected(b, had, m, spans[i])
    ensures Tried(shown, included || placed, before, m, spans, i + 1, b)
  {
  }

  /** Shows one stretch, or nothing of it. */
  method ShowStretch(before: seq<Snippet>, matches: seq<Match>, at: nat, spans: seq<Span>, i: nat, recent: seq<Unit>, fold: Fold, b: Budget)
    returns (shown: seq<Snippet>, placed: bool, error: bool)
    requires at < |matches| && Valid(matches[at]) && Displayed(before, matches, recent, b) && |before| < b.limit
    requires FreeOf(spans, matches[at], recent) && i < |spans| && ApartFromShown(spans[i..], matches[at].sourceId, before)
    ensures Displayed(shown, matches, recent, b) && ApartFromShown(spans[i + 1..], matches[at].sourceId, shown)
    ensures if placed then !error && |shown| == |before| + 1 else shown == before
    ensures !placed && !error ==> Rejected(b, before, matches[at], spans[i])
  {
    shown, placed := before, false;
    var fitting;
    fitting, error := Fit(before, matches[at], spans[i], fold, b);
    if !error && fitting.Some? {
      WindowCanBePlaced(before, matches, at, spans, i, fitting.value, recent, b);
      return Place(before, SnippetOf(matches[at], fitting.value)), true, false;
    }
    StretchesShrink(spans, i, matches[at].sourceId, before);
  }

  lemma WindowCanBePlaced(shown: seq<Snippet>, matches: seq<Match>, at: nat, spans: seq<Span>, i: nat, window: Span, recent: seq<Unit>, b: Budget)
    requires at < |matches| && Valid(matches[at]) && Displayed(shown, matches, recent, b) && |shown| < b.limit
    requires FreeOf(spans, matches[at], recent) && i < |spans| && ApartFromShown(spans[i..], matches[at].sourceId, shown)
    requires Inside(window, spans[i]) && window.start < window.end && Accepted(b, shown, matches[at], window)
    ensures var placed := Place(shown, SnippetOf(matches[at], window));
            Displayed(placed, matches, recent, b) && ApartFromShown(spans[i + 1..], matches[at].sourceId, placed) && |placed| == |shown| + 1
  {
    var m := matches[at];
    WindowIsClear(m, spans, i, window, recent, shown);
    LaterStretchesStayApart(m, spans, i, window, shown);
    PlacedIsOldOrNew(shown, SnippetOf(m, window));
    PlaceKeeps(shown, SnippetOf(m, window), matches, recent, b, at);
  }

  lemma StretchesShrink(spans: seq<Span>, i: nat, sourceId: string, shown: seq<Snippet>)
    requires i < |spans| && ApartFromShown(spans[i..], sourceId, shown)
    ensures ApartFromShown(spans[i + 1..], sourceId, shown)
  {
    var rest := spans[i + 1..];
    forall p | 0 <= p < |rest| ensures rest[p] == spans[i..][p + 1] {}
  }

  /** Nothing of a match can be shown: it is not valid, or every stretch the recent units leave is turned down. */
  ghost predicate Unshowable(m: Match, recent: seq<Unit>, b: Budget) {
    Valid(m) ==> exists spans :: Unshown(spans, m, recent) && AllRejected(spans, m, b)
  }

  predicate AllRejected(spans: seq<Span>, m: Match, b: Budget) { forall s | s in spans :: Rejected(b, [], m, s) }

  /** The whole projection. Nothing is shown only when no match can be. Every match is counted once, as retained or as dropped. */
  method ProjectRetrieved(owned: bool, matches: seq<Match>, recent: seq<Unit>, fold: Fold, b: Budget)
    returns (shown: seq<Snippet>, retained: nat, dropped: nat, error: bool)
    ensures Displayed(shown, matches, recent, b)
    ensures retained + dropped == |matches| && retained <= |shown|
    ensures !error && shown != [] ==> retained > 0
    ensures !owned || b.limit <= 0 || b.maxTokens <= 0 ==> shown == [] && !error
    ensures owned && b.limit > 0 && b.maxTokens > 0 && !error && shown == [] ==>
              forall at | 0 <= at < |matches| :: Unshowable(matches[at], recent, b)
  {
    shown, retained, dropped, error := [], 0, |matches|, false;
    if !owned || b.maxTokens <= 0 || b.limit <= 0 { return; }
    for at := 0 to |matches|
      invariant Displayed(shown, matches, recent, b)
      invariant retained + dropped == |matches| && retained <= at && retained <= |shown|
      invariant shown != [] ==> retained > 0
      invariant shown == [] ==> forall k | 0 <= k < at :: Unshowable(matches[k], recent, b)
    {
      var m := matches[at];
      if !Valid(m) { continue; }
      var spans := NotShownRecently(m, recent);
      if spans == [] {
        assert AllRejected(spans, m, b);
        continue;
      }
      spans := NotShownAlready(spans, m, recent, shown);
      if spans == [] { continue; }
      ghost var stretches := spans;
      spans := OrderSpans(spans, m, recent, shown, fold);
      var included;
      ghost var before := shown;
      shown, included, error := ShowMatch(shown, matches, at, spans, recent, fold, b);
      if error { return; }
      if shown == [] {
        assert before == [] && AllRejected(stretches, m, b) by {
          forall s | s in stretches ensures Rejected(b, [], m, s) {
            assert s in multiset(spans);
            var i :| 0 <= i < |spans| && spans[i] == s;
          }
        }
      }
      if included { retained, dropped := retained + 1, dropped - 1; }
    }
  }
}

/** Projection of the history section: a bounded summary and the newest run of sources that fits.

    The token cost of the rendered section is an arbitrary function of what is rendered, zero when
    nothing is. */
module HistoryProjection {
  import opened Wrappers
  import opened Numbers
  import opened Sorting
  import G = GameTime
  import H = HistoryText
  import J = JsonTree
  import Retrieval
  import Timeline
  import U = UnitCrop

  // ---------------------------------------------------------------- input

  /** A stored batch; `doc` is None when it has no canonical form. */
  datatype Batch = Batch(experience: bool, owner: string, legacyOwner: Option<string>, times: seq<G.Time>, doc: Option<J.Json>)

  datatype Source = Source(id: string, sequence: int, owner: string, availability: string, times: seq<G.Time>, batch: Option<Batch>)

  datatype Summary = Summary(id: string, owner: string, text: string, blank: bool, times: seq<G.Time>, covers: set<string>)

  predicate Owned(s: Source, owner: string) {
    && s.owner == owner
    && (s.batch.Some? ==> s.batch.value.owner == owner && (s.batch.value.legacyOwner.Some? ==> s.batch.value.legacyOwner.value == owner))
  }

  predicate Available(s: Source) { s.batch.Some? && s.availability in {"", "available"} }

  /** A source the section may show: not an experience, owned, available, not later than now, and not
      already told by the displayed summary. */
  predicate Eligible(s: Source, owner: string, now: G.Time, covered: set<string>) {
    && !(s.batch.Some? && s.batch.value.experience)
    && Owned(s, owner) && Available(s) && G.Visible(s.batch.value.times + s.times, now) && s.id !in covered
  }

  /** A source that can be rendered at all. */
  predicate Renderable(s: Source) { s.id != "" && s.batch.Some? && s.batch.value.doc.Some? }

  predicate Documents(sources: seq<Source>) {
    forall s | s in sources && Renderable(s) :: s.batch.value.doc.value.Obj? && J.WellFormed(s.batch.value.doc.value)
  }

  predicate Before(x: Source, y: Source) {
    if x.sequence == y.sequence then Timeline.CompareText(x.id, y.id) <= 0 else x.sequence <= y.sequence
  }

  lemma BeforeIsTotal(s: seq<Source>)
    ensures TotalOn(Before, s)
  {
    forall x, y, z | x in s && y in s && z in s
      ensures Before(x, y) || Before(y, x)
      ensures Before(x, y) && Before(y, z) ==> Before(x, z)
    {
      Timeline.TextOrder(x.id, y.id, z.id);
      Timeline.TextOrder(y.id, z.id, x.id);
    }
  }

  // ---------------------------------------------------------------- output

  datatype Heading = Heading(id: string, text: string)

  datatype Line = Line(id: string, sequence: int, relation: string, content: J.Json, complete: bool)

  datatype Unit = Unit(line: Line, spans: seq<Retrieval.Span>)

  function Lines(units: seq<Unit>): (r: seq<Line>)
    ensures |r| == |units|
  {
    seq(|units|, i requires 0 <= i < |units| => units[i].line)
  }

  const Nothing := Heading("", "")

  type Cost = (Heading, seq<Line>) -> nat

  ghost predicate NothingIsFree(cost: Cost) { forall id: string :: cost(Heading(id, ""), []) == 0 }

  function Relation(s: Source, now: G.Time): string
    requires s.batch.Some?
  {
    if G.UnknownTime(s.batch.value.times + s.times, now) then "unknown" else "visible"
  }

  function FullSpans(fields: seq<H.Field>): seq<Retrieval.Span> {
    seq(|fields|, i requires 0 <= i < |fields| => Retrieval.Span(fields[i].Path(), 0, |fields[i].text|))
  }

  function FullUnit(s: Source, now: G.Time): Unit
    requires Renderable(s)
  {
    var doc := s.batch.value.doc.value;
    Unit(Line(s.id, s.sequence, Relation(s, now), doc, true), FullSpans(H.TextFields(doc)))
  }

  /** The complete units of the sources that can be rendered. */
  function FullUnits(sources: seq<Source>, now: G.Time): seq<Unit> {
    if sources == [] then []
    else (if Renderable(sources[0]) then [FullUnit(sources[0], now)] else []) + FullUnits(sources[1..], now)
  }

  // ---------------------------------------------------------------- the summary

  const Ellipsis := "\n_truncated"

  function Shortened(id: string, text: string, keep: nat): Heading
    requires keep <= |text|
  {
    Heading(id, if keep == |text| then text else text[..keep] + Ellipsis)
  }

  /** The summary in full if it fits, else the longest cut the bisection accepts, else nothing. */
  method BoundSummary(id: string, text: string, budget: int, cost: Cost) returns (heading: Heading, keep: nat)
    requires text != ""
    ensures keep <= |text| && heading == if keep == 0 then Nothing else Shortened(id, text, keep)
    ensures keep > 0 ==> 0 < budget && cost(heading, []) <= budget
    ensures 0 < budget && keep < |text| ==> cost(Shortened(id, text, |text|), []) > budget
    ensures 0 < budget && keep < |text| ==> cost(Shortened(id, text, keep + 1), []) > budget
  {
    if budget <= 0 { return Nothing, 0; }
    if cost(Heading(id, text), []) <= budget { return Heading(id, text), |text|; }
    heading, keep := Nothing, 0;
    var low: nat, high: nat := 1, |text| - 1;
    while low <= high
      invariant 1 <= low <= high + 1 <= |text| && keep == low - 1
      invariant heading == if keep == 0 then Nothing else Shortened(id, text, keep)
      invariant keep > 0 ==> cost(heading, []) <= budget
      invariant cost(Shortened(id, text, high + 1), []) > budget
      decreases high - low
    {
      var middle := low + (high - low) / 2;
      var candidate := Heading(id, text[..middle] + Ellipsis);
      if cost(candidate, []) <= budget {
        heading, keep, low := candidate, middle, middle + 1;
      } else {
        high := middle - 1;
      }
    }
  }

  // ---------------------------------------------------------------- the sources

  function Candidates(ordered: seq<Source>, owner: string, now: G.Time, covered: set<string>): (r: seq<Source>)
    ensures forall s | s in r :: s in ordered && Eligible(s, owner, now, covered)
    ensures forall s | s in ordered && Eligible(s, owner, now, covered) :: s in r
  {
    if ordered == [] then []
    else
      var n := |ordered| - 1;
      Candidates(ordered[..n], owner, now, covered) + (if Eligible(ordered[n], owner, now, covered) then [ordered[n]] else [])
  }

  lemma {:induction false} CandidatesStaySorted(ordered: seq<Source>, owner: string, now: G.Time, covered: set<string>)
    requires Sorted(Before, ordered)
    ensures Sorted(Before, Candidates(ordered, owner, now, covered))
  {
    if ordered != [] {
      var n := |ordered| - 1;
      CandidatesStaySorted(ordered[..n], owner, now, covered);
      var rest := Candidates(ordered[..n], owner, now, covered);
      forall i | 0 <= i < |rest| ensures Before(rest[i], ordered[n]) {
        assert rest[i] in ordered[..n];
        var k :| 0 <= k < n && ordered[..n][k] == rest[i];
        assert ordered[k] == rest[i];
      }
    }
  }

  lemma FullUnitsBack(sources: seq<Source>, i: nat, now: G.Time)
    requires i < |sources|
    ensures FullUnits(sources[i..], now) ==
            (if Renderable(sources[i]) then [FullUnit(sources[i], now)] else []) + FullUnits(sources[i + 1..], now)
  {
    assert sources[i..][1..] == sources[i + 1..];
  }

  /** Cropped content is the marked document with every listed text cut to one limit. */
  ghost predicate CutOf(doc: J.Json, cropped: U.Cropped) {
    var fields := H.TextFields(doc);
    exists homes: seq<J.Address>, limit: nat ::
      && |homes| == |fields| && U.Printed(U.Mark(doc), fields, homes) && U.IsCut(U.Mark(doc), fields, homes, limit, cropped.content)
      && limit < U.Longest(fields) && cropped.spans == U.Spans(fields, limit)
  }

  ghost predicate EmptyTooLarge(unit: Unit, heading: Heading, cost: Cost, budget: int) {
    var fields := H.TextFields(unit.line.content);
    exists homes: seq<J.Address> ::
      && |homes| == |fields| && U.Printed(U.Mark(unit.line.content), fields, homes)
      && cost(heading, [unit.line.(content := U.Trial(U.Mark(unit.line.content), fields, homes, 0).content, complete := false)]) > budget
  }

  /** No cut of the unit fits: it has no text to cut, or is too large without any. */
  ghost predicate Uncuttable(unit: Unit, heading: Heading, cost: Cost, budget: int) {
    U.Longest(H.TextFields(unit.line.content)) == 0 || EmptyTooLarge(unit, heading, cost, budget)
  }

  /** How the shown units relate to the candidates: all from one on, or only the newest and cut. */
  datatype Shape = Complete(from: nat) | Partial(cropped: U.Cropped)

  /** A run of complete units reaching to the newest candidate, leaving out what cannot be rendered, where
      the source before the run would not fit; or the newest candidate alone, cut because it does not fit whole. */
  ghost predicate NewestRun(units: seq<Unit>, shape: Shape, candidates: seq<Source>, now: G.Time, heading: Heading, cost: Cost, budget: int)
  {
    match shape
    case Complete(from) =>
      && from <= |candidates| && units == FullUnits(candidates[from..], now)
      && (from > 0 ==> TooLarge(candidates, from - 1, now, heading, cost, budget))
      && (from > 0 && from == |candidates| ==> Uncuttable(FullUnit(candidates[from - 1], now), heading, cost, budget))
    case Partial(cropped) =>
      && candidates != [] && TooLarge(candidates, |candidates| - 1, now, heading, cost, budget)
      && var newest := FullUnit(candidates[|candidates| - 1], now);
         CutOf(newest.line.content, cropped) && units == [CutUnit(newest, cropped)]
  }

  ghost predicate TooLarge(candidates: seq<Source>, from: nat, now: G.Time, heading: Heading, cost: Cost, budget: int)
    requires from < |candidates|
  {
    Renderable(candidates[from]) && cost(heading, Lines(FullUnits(candidates[from..], now))) > budget
  }

  function CutUnit(full: Unit, cropped: U.Cropped): Unit {
    Unit(full.line.(content := cropped.content, complete := false), cropped.spans)
  }

  /** Walks back from the newest candidate for as long as the whole section fits. */
  method ShowNewest(candidates: seq<Source>, now: G.Time, heading: Heading, cost: Cost, budget: int)
    returns (units: seq<Unit>, ghost shape: Shape)
    requires Documents(candidates) && cost(heading, []) <= budget
    ensures cost(heading, Lines(units)) <= budget
    ensures NewestRun(units, shape, candidates, now, heading, cost, budget)
  {
    units := [];
    var i := |candidates|;
    while i > 0
      invariant 0 <= i <= |candidates|
      invariant units == FullUnits(candidates[i..], now) && cost(heading, Lines(units)) <= budget
    {
      i := i - 1;
      FullUnitsBack(candidates, i, now);
      if !Renderable(candidates[i]) { continue; }
      var unit := FullUnit(candidates[i], now);
      if cost(heading, Lines([unit] + units)) <= budget {
        units := [unit] + units;
        continue;
      }
      units, shape := StopAt(candidates, i, units, now, heading, cost, budget);
      return;
    }
    shape := Complete(0);
    EverythingIsRun(candidates, now, heading, cost, budget);
  }

  lemma EverythingIsRun(candidates: seq<Source>, now: G.Time, heading: Heading, cost: Cost, budget: int)
    ensures NewestRun(FullUnits(candidates[0..], now), Complete(0), candidates, now, heading, cost, budget)
  {
  }

  /** The source at `i` does not fit in front of the run: the run is final, unless the source is the
      newest, which is then cut if it can be. */
  method StopAt(candidates: seq<Source>, i: nat, run: seq<Unit>, now: G.Time, heading: Heading, cost: Cost, budget: int)
    returns (units: seq<Unit>, ghost shape: Shape)
    requires Documents(candidates) && i < |candidates| && TooLarge(candidates, i, now, heading, cost, budget)
    requires run == FullUnits(candidates[i + 1..], now) && cost(heading, Lines(run)) <= budget
    ensures cost(heading, Lines(units)) <= budget
    ensures NewestRun(units, shape, candidates, now, heading, cost, budget)
  {
    units, shape := run, Complete(i + 1);
    if i < |candidates| - 1 {
      CompleteIsRun(candidates, i, now, heading, cost, budget);
      return;
    }
    assert candidates[i] in candidates;
    var unit := FullUnit(candidates[i], now);
    var cropped := CropNewest(unit, heading, cost, budget);
    if cropped.Some? {
      PartialIsRun(candidates, cropped.value, now, heading, cost, budget);
      return [CutUnit(unit, cropped.value)], Partial(cropped.value);
    }
    CompleteIsRun(candidates, i, now, heading, cost, budget);
  }

  lemma CompleteIsRun(candidates: seq<Source>, i: nat, now: G.Time, heading: Heading, cost: Cost, budget: int)
    requires i < |candidates| && TooLarge(candidates, i, now, heading, cost, budget)
    requires i == |candidates| - 1 ==> Uncuttable(FullUnit(candidates[i], now), heading, cost, budget)
    ensures NewestRun(FullUnits(candidates[i + 1..], now), Complete(i + 1), candidates, now, heading, cost, budget)
  {
  }

  lemma PartialIsRun(candidates: seq<Source>, cropped: U.Cropped, now: G.Time, heading: Heading, cost: Cost, budget: int)
    requires candidates != [] && TooLarge(candidates, |candidates| - 1, now, heading, cost, budget)
    requires CutOf(FullUnit(candidates[|candidates| - 1], now).line.content, cropped)
    ensures NewestRun([CutUnit(FullUnit(candidates[|candidates| - 1], now), cropped)], Partial(cropped), candidates, now, heading, cost, budget)
  {
  }

  /** The newest candidate cut so that the section fits, with the other fields of its line untouched. */
  method CropNewest(unit: Unit, heading: Heading, cost: Cost, budget: int)
    returns (cropped: Option<U.Cropped>)
    requires unit.line.content.Obj? && J.WellFormed(unit.line.content)
    ensures cropped.Some? ==> cost(heading, Lines([CutUnit(unit, cropped.value)])) <= budget
    ensures cropped.Some? ==> CutOf(unit.line.content, cropped.value)
    ensures cropped.None? ==> Uncuttable(unit, heading, cost, budget)
  {
    var lineCost := (content: J.Json) => cost(heading, [unit.line.(content := content, complete := false)]);
    ghost var homes; ghost var limit;
    cropped, homes, limit := U.CropUnit(unit.line.content, lineCost, budget);
    if cropped.Some? {
      assert Lines([CutUnit(unit, cropped.value)]) == [unit.line.(content := cropped.value.content, complete := false)];
      assert U.Printed(U.Mark(unit.line.content), H.TextFields(unit.line.content), homes);
    } else {
      assert EmptyTooLarge(unit, heading, cost, budget) || U.Longest(H.TextFields(unit.line.content)) == 0;
    }
  }

  // ---------------------------------------------------------------- the section

  datatype Projection = Projection(heading: Heading, units: seq<Unit>)

  datatype Report = Report(retained: nat, dropped: int, summaryIncluded: bool)

  predicate SummaryUsable(s: Summary, owner: string, now: G.Time) {
    s.owner == owner && s.id != "" && s.text != "" && !s.blank && G.Visible(s.times, now)
  }

  function CoveredBy(summary: Option<Summary>, heading: Heading): set<string> {
    if summary.Some? && heading.text != "" then summary.value.covers else {}
  }

  /** The section fits its budget. Its units are the newest run of the eligible sources in order of
      sequence and id, where a source the displayed summary covers is not eligible; each source is
      counted once, as retained or dropped. */
  method ProjectHistory(summary: Option<Summary>, sources: seq<Source>, owner: string, now: G.Time, maxTokens: int, maxSummaryTokens: int, cost: Cost)
    returns (p: Projection, report: Report, ghost shape: Shape)
    requires Documents(sources) && NothingIsFree(cost)
    ensures cost(p.heading, Lines(p.units)) <= if maxTokens > 0 then maxTokens else 0
    ensures cost(p.heading, Lines(p.units)) <= maxTokens <==> maxTokens >= 0
    ensures maxTokens <= 0 ==> p == Projection(Nothing, []) && report == Report(0, |sources|, false)
    ensures maxTokens > 0 ==>
              NewestRun(p.units, shape, Candidates(StableSort(Before, sources), owner, now, CoveredBy(summary, p.heading)), now,
                        p.heading, cost, maxTokens)
    ensures p.heading != Nothing ==>
              && summary.Some? && SummaryUsable(summary.value, owner, now)
              && cost(p.heading, []) <= Min(maxSummaryTokens, maxTokens)
              && exists keep: nat :: 0 < keep <= |summary.value.text| && p.heading == Shortened(summary.value.id, summary.value.text, keep)
    ensures summary.Some? && SummaryUsable(summary.value, owner, now) && maxTokens > 0
              && cost(Heading(summary.value.id, summary.value.text), []) <= Min(maxSummaryTokens, maxTokens) && maxSummaryTokens > 0 ==>
              p.heading == Heading(summary.value.id, summary.value.text)
    ensures report.retained == |p.units| && report.retained + report.dropped == |sources|
    ensures report.summaryIncluded <==> p.heading != Nothing
  {
    shape := Complete(0);
    assert Lines([]) == [];
    if maxTokens <= 0 { return Projection(Nothing, []), Report(0, |sources|, false), shape; }
    var heading := Nothing;
    if summary.Some? && SummaryUsable(summary.value, owner, now) {
      var keep;
      heading, keep := BoundSummary(summary.value.id, summary.value.text, Min(maxSummaryTokens, maxTokens), cost);
      assert keep > 0 ==> heading == Shortened(summary.value.id, summary.value.text, keep);
    }
    var ordered := StableSort(Before, sources);
    forall s | s in ordered ensures s in sources { assert s in multiset(sources); }
    var candidates := Candidates(ordered, owner, now, CoveredBy(summary, heading));
    var units;
    units, shape := ShowNewest(candidates, now, heading, cost, maxTokens);
    p := Projection(heading, units);
    report := Report(|units|, |sources| - |units|, heading.text != "");
  }

  // ---------------------------------------------------------------- what is shown

  /** The candidates in order. */
  lemma CandidatesInOrder(sources: seq<Source>, owner: string, now: G.Time, covered: set<string>)
    ensures Sorted(Before, Candidates(StableSort(Before, sources), owner, now, covered))
    ensures forall s :: s in Candidates(StableSort(Before, sources), owner, now, covered) <==>
                        s in sources && Eligible(s, owner, now, covered)
  {
    var ordered := StableSort(Before, sources);
    forall s ensures s in ordered <==> s in sources { assert s in multiset(ordered) <==> s in multiset(sources); }
    BeforeIsTotal(sources);
    StableSortSorts(Before, sources);
    CandidatesStaySorted(ordered, owner, now, covered);
  }

  predicate ShowsSource(u: Unit, s: Source) { u.line.id == s.id && u.line.sequence == s.sequence }

  predicate ShowsOneOf(u: Unit, sources: seq<Source>) { exists s | s in sources :: ShowsSource(u, s) }

  predicate Ascending(units: seq<Unit>) { forall i, j | 0 <= i < j < |units| :: units[i].line.sequence <= units[j].line.sequence }

  lemma {:induction false} FullUnitsShow(sources: seq<Source>, now: G.Time, u: Unit)
    requires u in FullUnits(sources, now)
    ensures u.line.complete && ShowsOneOf(u, sources)
  {
    if Renderable(sources[0]) && u == FullUnit(sources[0], now) {
      assert ShowsSource(u, sources[0]);
    } else {
      FullUnitsShow(sources[1..], now, u);
      var s :| s in sources[1..] && ShowsSource(u, s);
      assert s in sources;
    }
  }

  lemma {:induction false} FullUnitsAscend(sources: seq<Source>, now: G.Time)
    requires Sorted(Before, sources)
    ensures Ascending(FullUnits(sources, now))
  {
    if sources != [] {
      var rest := FullUnits(sources[1..], now);
      FullUnitsAscend(sources[1..], now);
      forall i | 0 <= i < |rest| ensures sources[0].sequence <= rest[i].line.sequence {
        FullUnitsShow(sources[1..], now, rest[i]);
        FirstIsOldest(sources, rest[i]);
      }
    }
  }

  lemma FirstIsOldest(sources: seq<Source>, u: Unit)
    requires sources != [] && Sorted(Before, sources) && ShowsOneOf(u, sources[1..])
    ensures sources[0].sequence <= u.line.sequence
  {
    var s :| s in sources[1..] && ShowsSource(u, s);
    var k :| 0 <= k < |sources[1..]| && sources[1..][k] == s;
    assert Before(sources[0], sources[k + 1]);
  }

  /** Every unit shows a candidate; they ascend; only a lone newest unit may be incomplete. */
  lemma ShownUnits(units: seq<Unit>, shape: Shape, candidates: seq<Source>, now: G.Time, heading: Heading, cost: Cost, budget: int)
    requires Sorted(Before, candidates) && NewestRun(units, shape, candidates, now, heading, cost, budget)
    ensures forall u | u in units :: ShowsOneOf(u, candidates)
    ensures Ascending(units)
    ensures forall u | u in units :: !u.line.complete ==> |units| == 1 && NoneNewer(u, candidates)
  {
    match shape
    case Complete(from) =>
      forall u | u in units ensures u.line.complete && ShowsOneOf(u, candidates) {
        FullUnitsShow(candidates[from..], now, u);
        var s :| s in candidates[from..] && ShowsSource(u, s);
        assert s in candidates;
      }
      FullUnitsAscend(candidates[from..], now);
    case Partial(cropped) =>
      var newest := candidates[|candidates| - 1];
      assert newest in candidates && ShowsSource(units[0], newest);
      LastIsNewest(candidates);
  }

  predicate NoneNewer(u: Unit, candidates: seq<Source>) { forall s | s in candidates :: s.sequence <= u.line.sequence }

  lemma LastIsNewest(candidates: seq<Source>)
    requires candidates != [] && Sorted(Before, candidates)
    ensures forall s | s in candidates :: s.sequence <= candidates[|candidates| - 1].sequence
  {
    forall s | s in candidates ensures s.sequence <= candidates[|candidates| - 1].sequence {
      var k :| 0 <= k < |candidates| && candidates[k] == s;
      if k < |candidates| - 1 { assert Before(candidates[k], candidates[|candidates| - 1]); }
    }
  }
}

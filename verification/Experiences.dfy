/** Recent experiences: which of them are told, in which order, and what they take of the history budget.

    What the store answers and what a rendered list costs are arbitrary; whether a record's clock is named
    properly is given with it. */
module Experiences {
  import opened Wrappers
  import opened Numbers
  import opened Sorting
  import G = GameTime
  import L = HistoryLog

  datatype Record = Record(clock: string, clockNamed: bool, occurred: int, focusUntil: int, priority: int)

  datatype View = View(clock: string, now: int, valid: set<string>)

  datatype Batch = Batch(owner: L.Key, told: bool, factId: string, time: G.Time, facts: seq<string>, record: Option<Record>)

  datatype Source = Source(id: string, sequence: int, owner: L.Key, available: bool, batch: Option<Batch>)

  datatype Unit = Unit(sourceId: string, factId: string, time: G.Time, fact: string)

  const MAX_UNITS := 8
  const MAX_TOKENS := 768

  /** What a list of units costs when rendered. */
  type Cost = seq<Unit> -> nat

  // ---------------------------------------------------------------- which experiences count

  predicate ValidRecord(r: Record) { r.clockNamed && r.occurred >= 0 && r.focusUntil > r.occurred && 0 <= r.priority <= 100 }

  predicate Allows(view: View, factId: string, r: Record) {
    ValidRecord(r) && r.clock == view.clock && r.occurred <= view.now && factId in view.valid
  }

  /** An available experience of the owner below the watermark, with one fact that the view allows and that
      is still in focus. */
  predicate Eligible(s: Source, owner: L.Key, watermark: int, view: View) {
    && s.owner == owner && 0 < s.sequence <= watermark && s.available && s.batch.Some?
    && var b := s.batch.value;
       && b.owner == owner && b.told && b.record.Some? && |b.facts| == 1
       && Allows(view, b.factId, b.record.value) && b.record.value.focusUntil > view.now
  }

  function UnitOf(s: Source): Unit
    requires s.batch.Some? && |s.batch.value.facts| == 1
  {
    Unit(s.id, s.batch.value.factId, s.batch.value.time, s.batch.value.facts[0])
  }

  // ---------------------------------------------------------------- their order

  predicate HasRecord(s: Source) { s.batch.Some? && s.batch.value.record.Some? }

  /** Sources with a record come first: by priority, then the latest, then the newest. */
  predicate Precedes(a: Source, b: Source) {
    if !HasRecord(a) then false
    else if !HasRecord(b) then true
    else
      var x, y := a.batch.value.record.value, b.batch.value.record.value;
      if x.priority != y.priority then x.priority > y.priority
      else if x.occurred != y.occurred then x.occurred > y.occurred
      else a.sequence > b.sequence
  }

  predicate InOrder(a: Source, b: Source) { !Precedes(b, a) }

  lemma OrderIsTotal(sources: seq<Source>)
    ensures TotalOn(InOrder, sources)
  {
  }

  // ---------------------------------------------------------------- what is told

  function FactIds(units: seq<Unit>): set<string> { set u | u in units :: u.factId }

  datatype Rules = Rules(owner: L.Key, watermark: int, view: View, limit: int, cost: Cost)

  predicate Counts(s: Source, r: Rules) { Eligible(s, r.owner, r.watermark, r.view) }

  predicate Fits(units: seq<Unit>, r: Rules) { |units| <= MAX_UNITS && r.cost(units) <= r.limit }

  function Tell(units: seq<Unit>, s: Source, r: Rules): seq<Unit> {
    if !Counts(s, r) || UnitOf(s).factId in FactIds(units) || !Fits(units + [UnitOf(s)], r) then units else units + [UnitOf(s)]
  }

  function TellAll(list: seq<Source>, r: Rules): seq<Unit> {
    if list == [] then [] else Tell(TellAll(list[..|list| - 1], r), list[|list| - 1], r)
  }

  /** The units are those of these positions of the list, one after the other. */
  predicate PickedFrom(units: seq<Unit>, list: seq<Source>, picks: seq<nat>, r: Rules) {
    && |picks| == |units| && (forall i, j | 0 <= i < j < |picks| :: picks[i] < picks[j])
    && forall i | 0 <= i < |picks| :: picks[i] < |list| && Counts(list[picks[i]], r) && units[i] == UnitOf(list[picks[i]])
  }

  predicate Distinct(units: seq<Unit>) { forall i, j | 0 <= i < j < |units| :: units[i].factId != units[j].factId }

  /** Its fact is told already, or it did not fit behind what had been told when its turn came. */
  ghost predicate Settled(s: Source, units: seq<Unit>, r: Rules)
    requires Counts(s, r)
  {
    UnitOf(s).factId in FactIds(units) || exists k :: 0 <= k <= |units| && !Fits(units[..k] + [UnitOf(s)], r)
  }

  /** What a list of sources tells. */
  ghost predicate Told(units: seq<Unit>, list: seq<Source>, r: Rules) {
    && (units == [] || Fits(units, r)) && Distinct(units) && (exists picks :: PickedFrom(units, list, picks, r))
    && forall s | s in list && Counts(s, r) :: Settled(s, units, r)
  }

  lemma SettledStays(s: Source, units: seq<Unit>, u: Unit, r: Rules)
    requires Counts(s, r) && Settled(s, units, r)
    ensures Settled(s, units + [u], r)
  {
    if UnitOf(s).factId in FactIds(units) {
      var x :| x in units && x.factId == UnitOf(s).factId;
      assert x in units + [u];
    } else {
      var k :| 0 <= k <= |units| && !Fits(units[..k] + [UnitOf(s)], r);
      assert (units + [u])[..k] == units[..k];
    }
  }

  lemma PickOneMore(units: seq<Unit>, list: seq<Source>, picks: seq<nat>, s: Source, r: Rules)
    requires PickedFrom(units, list, picks, r)
    ensures PickedFrom(units, list + [s], picks, r)
    ensures Counts(s, r) ==> PickedFrom(units + [UnitOf(s)], list + [s], picks + [|list|], r)
  {
  }

  lemma NewFactIsDistinct(units: seq<Unit>, u: Unit)
    requires Distinct(units) && u.factId !in FactIds(units)
    ensures Distinct(units + [u])
  {
    forall i | 0 <= i < |units| ensures units[i].factId != u.factId { assert units[i] in units; }
  }

  lemma NowSettled(units: seq<Unit>, s: Source, r: Rules)
    requires Counts(s, r)
    ensures Settled(s, Tell(units, s, r), r)
  {
    var told := units + [UnitOf(s)];
    if Tell(units, s, r) == told {
      assert told[|units|] in told;
    } else if UnitOf(s).factId !in FactIds(units) {
      assert units[..|units|] == units;
    }
  }

  lemma TellOne(units: seq<Unit>, list: seq<Source>, s: Source, r: Rules)
    requires Told(units, list, r)
    ensures Told(Tell(units, s, r), list + [s], r)
  {
    var next := Tell(units, s, r);
    var picks :| PickedFrom(units, list, picks, r);
    PickOneMore(units, list, picks, s, r);
    if next != units { NewFactIsDistinct(units, UnitOf(s)); }
    forall x | x in list + [s] && Counts(x, r) ensures Settled(x, next, r) {
      if x == s { NowSettled(units, s, r); } else if next != units { SettledStays(x, units, UnitOf(s), r); }
    }
  }

  lemma {:induction false} TellAllTells(list: seq<Source>, r: Rules)
    ensures Told(TellAll(list, r), list, r)
  {
    if list == [] {
      assert PickedFrom([], list, [], r);
    } else {
      var n := |list| - 1;
      TellAllTells(list[..n], r);
      TellOne(TellAll(list[..n], r), list[..n], list[n], r);
      assert list == list[..n] + [list[n]];
    }
  }

  /** Tells what fits of the sources, in their order; greedy, so that a smaller one may follow one that did
      not fit. */
  method ProjectRecentExperiences(sources: seq<Source>, snapshotOwner: L.Key, owner: L.Key, watermark: int, view: Option<View>, maxTokens: int, cost: Cost)
    returns (units: seq<Unit>, retained: int, dropped: int)
    ensures snapshotOwner != owner || view.None? || sources == [] ==> units == []
    ensures snapshotOwner == owner && view.Some? ==>
              Told(units, StableSort(InOrder, sources), Rules(owner, watermark, view.value, Min(maxTokens, MAX_TOKENS), cost))
    ensures Sorted(InOrder, StableSort(InOrder, sources))
    ensures retained == |units| && retained + dropped == |sources|
    ensures units != [] ==> cost(units) <= Min(maxTokens, MAX_TOKENS)
  {
    OrderIsTotal(sources);
    StableSortSorts(InOrder, sources);
    units, retained, dropped := [], 0, |sources|;
    if snapshotOwner != owner || view.None? { return; }
    var r := Rules(owner, watermark, view.value, Min(maxTokens, MAX_TOKENS), cost);
    var ordered := StableSort(InOrder, sources);
    var seen: set<string> := {};
    for i := 0 to |ordered|
      invariant units == TellAll(ordered[..i], r) && seen == FactIds(units)
    {
      assert ordered[..i + 1][..i] == ordered[..i];
      var s := ordered[i];
      if !Eligible(s, owner, watermark, view.value) || UnitOf(s).factId in seen { continue; }
      var candidate := units + [UnitOf(s)];
      if |candidate| > MAX_UNITS || cost(candidate) > Min(maxTokens, MAX_TOKENS) { continue; }
      units := candidate;
      seen := seen + {UnitOf(s).factId};
    }
    assert ordered[..|ordered|] == ordered;
    TellAllTells(ordered, r);
    return units, |units|, |sources| - |units|;
  }

  // ---------------------------------------------------------------- the budget

  /** Reads the experiences before the history and takes what they cost off its budget, with the cost of
      the instruction that goes with them. `answer` is missing when the store failed or has none. */
  method ReadExperiences(owner: L.Key, watermark: int, view: Option<View>, answer: Option<seq<Source>>, maxTokens: int, authority: nat, cost: Cost)
    returns (units: seq<Unit>, left: int)
    ensures view.None? || answer.None? ==> units == []
    ensures view.Some? && answer.Some? ==>
              Told(units, StableSort(InOrder, answer.value),
                   Rules(owner, watermark, view.value, Min(Min(MAX_TOKENS, Max(0, maxTokens - authority)), MAX_TOKENS), cost))
    ensures units == [] ==> left == maxTokens
    ensures units != [] && cost(units) > 0 ==> left == maxTokens - cost(units) - authority && left >= 0
    ensures maxTokens >= 0 ==> 0 <= left <= maxTokens
  {
    units, left := [], maxTokens;
    if view.None? { return; }
    var share := Min(MAX_TOKENS, Max(0, maxTokens - authority));
    var sources := if answer.Some? then answer.value else [];
    var retained, dropped;
    units, retained, dropped := ProjectRecentExperiences(sources, owner, owner, watermark, view, share, cost);
    if |units| > 0 { left := Max(0, maxTokens - cost(units) - authority); }
  }
}

/** The last budget step: parts of the request are dropped in a fixed order until it fits.

    Whether a projection fits is an arbitrary test that may also fail. */
module RequestBudget {
  import opened Wrappers
  import P = HistoryProjection
  import Retrieval
  import T = Transcript

  // ---------------------------------------------------------------- the projection

  datatype Fact = Fact(text: string, attributes: seq<string>)

  datatype Observation = Observation(required: string, nearby: seq<string>, extensions: seq<string>, state: seq<string>)

  datatype GameDefinition = GameDefinition(version: string, gameId: string, title: string, summary: string, rules: seq<string>,
                                           lore: seq<string>, constraints: seq<string>, source: string)

  datatype AgentDefinition = AgentDefinition(version: string, gameId: string, id: string, identity: string, personality: seq<string>,
                                             speech: seq<string>, likes: seq<string>, guidelines: seq<string>, source: string)

  datatype Projection = Projection(
    required: string,
    preferences: string,
    snippets: seq<Retrieval.Snippet>,
    history: P.Projection,
    experiences: seq<string>,
    transcript: seq<T.Message>,
    memories: seq<string>,
    facts: seq<Fact>,
    payload: seq<string>,
    observation: Observation,
    game: Option<GameDefinition>,
    agent: Option<AgentDefinition>)

  datatype Count = Count(retained: int, dropped: int)
  {
    function Total(): int { retained + dropped }
  }

  datatype Report = Report(matches: Count, snippets: int, history: Count, experiences: Count, transcript: Count, memories: Count)

  // ---------------------------------------------------------------- what can be dropped

  /** The classes of parts, in the order they are given up. */
  datatype Class = Preferences | Snippets | History | Experiences | Groups | Memories | Facts | Payload | Nearby | Game | Agent

  const ORDER: seq<Class> := [Preferences, Snippets, History, Experiences, Groups, Memories, Facts, Payload, Nearby, Game, Agent]

  const Marker := "_truncated"

  predicate HasAttributes(facts: seq<Fact>) { exists i :: 0 <= i < |facts| && facts[i].attributes != [] }

  predicate HasText(facts: seq<Fact>) { exists i :: 0 <= i < |facts| && facts[i].text != "" && facts[i].text != Marker }

  function WithoutAttributes(facts: seq<Fact>): seq<Fact> { seq(|facts|, i requires 0 <= i < |facts| => Fact(facts[i].text, [])) }

  function Marked(facts: seq<Fact>): seq<Fact> {
    seq(|facts|, i requires 0 <= i < |facts| => facts[i].(text := if facts[i].text == "" then "" else Marker))
  }

  function GroupsOf(p: Projection): seq<T.Group> {
    var groups := T.Grouped(p.transcript);
    if groups.None? then [] else groups.value
  }

  function MinimalGame(g: Option<GameDefinition>): Option<GameDefinition> {
    if g.None? then None else Some(GameDefinition(g.value.version, g.value.gameId, "", "", [], [], [], ""))
  }

  function MinimalAgent(a: Option<AgentDefinition>): Option<AgentDefinition> {
    if a.None? then None else Some(AgentDefinition(a.value.version, a.value.gameId, a.value.id, "", [], [], [], [], ""))
  }

  /** Whether a class has anything left to give up. */
  predicate Has(p: Projection, c: Class) {
    match c
    case Preferences => p.preferences != ""
    case Snippets => p.snippets != []
    case History => p.history.units != [] || p.history.heading.text != ""
    case Experiences => p.experiences != []
    case Groups => |GroupsOf(p)| > 1
    case Memories => p.memories != []
    case Facts => HasAttributes(p.facts) || HasText(p.facts)
    case Payload => p.payload != []
    case Nearby => p.observation.nearby != [] || p.observation.extensions != [] || p.observation.state != []
    case Game => p.game != MinimalGame(p.game)
    case Agent => p.agent != MinimalAgent(p.agent)
  }

  /** Gives up the next part of a class. */
  function Without(p: Projection, c: Class): Projection
    requires Has(p, c)
  {
    match c
    case Preferences => p.(preferences := "")
    case Snippets => p.(snippets := [])
    case History =>
      if p.history.units != [] then p.(history := p.history.(units := p.history.units[1..])) else p.(history := p.history.(heading := P.Nothing))
    case Experiences => p.(experiences := p.experiences[..|p.experiences| - 1])
    case Groups => p.(transcript := T.Flatten(GroupsOf(p)[1..]))
    case Memories => p.(memories := p.memories[1..])
    case Facts => if HasAttributes(p.facts) then p.(facts := WithoutAttributes(p.facts)) else p.(facts := Marked(p.facts))
    case Payload => p.(payload := [])
    case Nearby => p.(observation := Observation(p.observation.required, [], [], []))
    case Game => p.(game := MinimalGame(p.game))
    case Agent => p.(agent := MinimalAgent(p.agent))
  }

  function Reported(p: Projection, r: Report, c: Class): Report
    requires Has(p, c)
  {
    match c
    case Snippets => r.(matches := Count(0, r.matches.dropped + r.matches.retained), snippets := 0)
    case History =>
      var left := |Without(p, c).history.units|;
      r.(history := Count(left, r.history.Total() - left))
    case Experiences => r.(experiences := Count(|p.experiences| - 1, r.experiences.dropped + 1))
    case Groups => r.(transcript := Count(|T.Flatten(GroupsOf(p)[1..])|, r.transcript.dropped + |GroupsOf(p)[0]|))
    case Memories => r.(memories := Count(|p.memories| - 1, r.memories.dropped + 1))
    case _ => r
  }

  // ---------------------------------------------------------------- the drop steps

  method ClearAttributes(facts: seq<Fact>) returns (cleared: seq<Fact>, changed: bool)
    ensures cleared == WithoutAttributes(facts) && changed == HasAttributes(facts)
  {
    cleared, changed := facts, false;
    for i := 0 to |facts|
      invariant |cleared| == |facts|
      invariant forall k | 0 <= k < |facts| :: cleared[k] == if k < i then Fact(facts[k].text, []) else facts[k]
      invariant changed == HasAttributes(facts[..i])
    {
      HasLonger(facts, i);
      if cleared[i].attributes != [] {
        cleared, changed := cleared[i := cleared[i].(attributes := [])], true;
      }
    }
    assert facts[..|facts|] == facts;
  }

  method MarkTexts(facts: seq<Fact>) returns (marked: seq<Fact>, changed: bool)
    ensures marked == Marked(facts) && changed == HasText(facts)
  {
    marked, changed := facts, false;
    for i := 0 to |facts|
      invariant |marked| == |facts|
      invariant forall k | 0 <= k < |facts| :: marked[k] == if k < i then Marked(facts)[k] else facts[k]
      invariant changed == HasText(facts[..i])
    {
      HasLonger(facts, i);
      if marked[i].text != "" && marked[i].text != Marker {
        marked, changed := marked[i := marked[i].(text := Marker)], true;
      }
    }
    assert facts[..|facts|] == facts;
  }

  lemma HasLonger(facts: seq<Fact>, i: nat)
    requires i < |facts|
    ensures HasAttributes(facts[..i + 1]) <==> HasAttributes(facts[..i]) || facts[i].attributes != []
    ensures HasText(facts[..i + 1]) <==> HasText(facts[..i]) || (facts[i].text != "" && facts[i].text != Marker)
  {
    assert facts[..i + 1][i] == facts[i];
    assert forall k | 0 <= k < i :: facts[..i + 1][k] == facts[..i][k];
  }

  /** The projection and its report, changed in place. */
  class Builder {
    var p: Projection
    var r: Report

    constructor (projection: Projection, report: Report)
      ensures p == projection && r == report
    {
      p, r := projection, report;
    }

    twostate predicate Dropped(done: bool, c: Class)
      reads this
    {
      && (done <==> Has(old(p), c))
      && p == (if done then Without(old(p), c) else old(p))
      && r == (if done then Reported(old(p), old(r), c) else old(r))
    }

    method DropPreferences() returns (done: bool)
      modifies this
      ensures Dropped(done, Preferences)
    {
      if p.preferences == "" { return false; }
      p := p.(preferences := "");
      return true;
    }

    method DropSnippets() returns (done: bool)
      modifies this
      ensures Dropped(done, Snippets)
    {
      if |p.snippets| == 0 { return false; }
      p := p.(snippets := []);
      r := r.(matches := Count(0, r.matches.dropped + r.matches.retained), snippets := 0);
      return true;
    }

    method DropOldestHistory() returns (done: bool)
      modifies this
      ensures Dropped(done, History)
    {
      var total := r.history.retained + r.history.dropped;
      if |p.history.units| > 0 {
        p := p.(history := p.history.(units := p.history.units[1..]));
      } else if p.history.heading.text != "" {
        p := p.(history := p.history.(heading := P.Heading("", "")));
      } else {
        return false;
      }
      r := r.(history := Count(|p.history.units|, total - |p.history.units|));
      return true;
    }

    method DropExperience() returns (done: bool)
      modifies this
      ensures Dropped(done, Experiences)
    {
      if |p.experiences| == 0 { return false; }
      p := p.(experiences := p.experiences[..|p.experiences| - 1]);
      r := r.(experiences := Count(|p.experiences|, r.experiences.dropped + 1));
      return true;
    }

    method DropOldestGroup() returns (done: bool)
      modifies this
      ensures Dropped(done, Groups)
    {
      if |p.transcript| == 0 { return false; }
      var groups := T.CausalGroups(p.transcript);
      if groups.None? || |groups.value| <= 1 { return false; }
      var retained := T.Flatten(groups.value[1..]);
      r := r.(transcript := Count(|retained|, r.transcript.dropped + |groups.value[0]|));
      p := p.(transcript := retained);
      return true;
    }

    method DropOldestMemory() returns (done: bool)
      modifies this
      ensures Dropped(done, Memories)
    {
      if |p.memories| == 0 { return false; }
      p := p.(memories := p.memories[1..]);
      r := r.(memories := Count(|p.memories|, r.memories.dropped + 1));
      return true;
    }

    method DropFactFields() returns (done: bool)
      modifies this
      ensures Dropped(done, Facts)
    {
      var cleared, changed := ClearAttributes(p.facts);
      if changed {
        p := p.(facts := cleared);
        return true;
      }
      var marked;
      marked, changed := MarkTexts(p.facts);
      if changed { p := p.(facts := marked); }
      return changed;
    }

    method DropPayload() returns (done: bool)
      modifies this
      ensures Dropped(done, Payload)
    {
      if |p.payload| == 0 { return false; }
      p := p.(payload := []);
      return true;
    }

    method DropObservation() returns (done: bool)
      modifies this
      ensures Dropped(done, Nearby)
    {
      var o := p.observation;
      done := |o.nearby| > 0 || |o.extensions| > 0 || |o.state| > 0;
      p := p.(observation := Observation(o.required, [], [], []));
    }

    method DropGame() returns (done: bool)
      modifies this
      ensures Dropped(done, Game)
    {
      var minimal := MinimalGame(p.game);
      if p.game == minimal { return false; }
      p := p.(game := minimal);
      return true;
    }

    method DropAgent() returns (done: bool)
      modifies this
      ensures Dropped(done, Agent)
    {
      var minimal := MinimalAgent(p.agent);
      if p.agent == minimal { return false; }
      p := p.(agent := minimal);
      return true;
    }

    /** What the first classes have to give up, when those before them have nothing. */
    method DropEarly() returns (done: bool)
      modifies this
      ensures done <==> exists c: Class :: Rank(c) < 5 && Has(old(p), c)
      ensures done ==> State(p, r) == Next(State(old(p), old(r)))
      ensures !done ==> State(p, r) == State(old(p), old(r))
    {
      FirstIs(p);
      done := DropPreferences();
      if done { return; }
      done := DropSnippets();
      if done { return; }
      done := DropOldestHistory();
      if done { return; }
      done := DropExperience();
      if done { return; }
      done := DropOldestGroup();
    }

    method DropLate() returns (done: bool)
      requires forall c: Class | Rank(c) < 5 :: !Has(p, c)
      modifies this
      ensures done <==> First(old(p)).Some?
      ensures State(p, r) == Next(State(old(p), old(r)))
    {
      FirstIs(p);
      done := DropOldestMemory();
      if done { return; }
      done := DropFactFields();
      if done { return; }
      done := DropLater();
    }

    method DropLater() returns (done: bool)
      requires forall c: Class | Rank(c) < 7 :: !Has(p, c)
      modifies this
      ensures done <==> First(old(p)).Some?
      ensures State(p, r) == Next(State(old(p), old(r)))
    {
      FirstIs(p);
      done := DropPayload();
      if done { return; }
      done := DropLast();
    }

    method DropLast() returns (done: bool)
      requires forall c: Class | Rank(c) < 8 :: !Has(p, c)
      modifies this
      ensures done <==> First(old(p)).Some?
      ensures State(p, r) == Next(State(old(p), old(r)))
    {
      FirstIs(p);
      done := DropObservation();
      if done { return; }
      done := DropGame();
      if done { return; }
      done := DropAgent();
    }

    /** Gives up one part of the first class that has any. */
    method DropNext() returns (done: bool)
      modifies this
      ensures done <==> First(old(p)).Some?
      ensures State(p, r) == Next(State(old(p), old(r)))
    {
      FirstIs(p);
      done := DropEarly();
      if done { return; }
      done := DropLate();
    }

    method DropStep(ghost start: State, ghost trail: nat -> State, ghost bound: nat, ghost n: nat) returns (done: bool)
      requires Trail(trail, start, bound) && State(p, r) == trail(n)
      modifies this
      ensures State(p, r) == if done then trail(n + 1) else trail(n)
      ensures done ==> n < bound
      ensures !done ==> NothingLeft(p)
    {
      assert After(start, n) == trail(n) && After(start, n + 1) == trail(n + 1);
      DropsAreBounded(start, n);
      FirstFinds(p);
      done := DropNext();
    }

    method DropUntil(fits: Test, ghost start: State, ghost trail: nat -> State, ghost bound: nat) returns (outcome: Outcome, ghost n: nat)
      requires Trail(trail, start, bound) && State(p, r) == trail(0)
      modifies this
      ensures State(p, r) == trail(n) && Unfit(fits, trail, n)
      ensures outcome == (if fits(p).None? then Failed else if fits(p).value then Fits else OverBudget)
      ensures outcome == OverBudget ==> NothingLeft(p)
    {
      n := 0;
      while true
        invariant State(p, r) == trail(n) && Unfit(fits, trail, n)
        decreases bound - n
      {
        var fitting := fits(p);
        if fitting.None? { return Failed, n; }
        if fitting.value { return Fits, n; }
        var done := DropStep(start, trail, bound, n);
        if !done { return OverBudget, n; }
        n := n + 1;
      }
    }

    /** Drops until the projection fits, nothing is left to drop, or the test fails; no drop happens
        once it fits. */
    method Enforce(fits: Test) returns (outcome: Outcome, ghost n: nat)
      modifies this
      ensures State(p, r) == After(State(old(p), old(r)), n)
      ensures forall k: nat | k < n :: fits(After(State(old(p), old(r)), k).p) == Some(false)
      ensures outcome == (if fits(p).None? then Failed else if fits(p).value then Fits else OverBudget)
      ensures outcome == OverBudget ==> NothingLeft(p)
    {
      ghost var start := State(p, r);
      outcome, n := DropUntil(fits, start, (k: nat) => After(start, k), Parts(start.p));
    }
  }

  type Test = Projection -> Option<bool>

  datatype Outcome = Fits | OverBudget | Failed

  // ---------------------------------------------------------------- the whole run

  datatype State = State(p: Projection, r: Report)

  ghost predicate Unfit(fits: Test, trail: nat -> State, n: nat) { forall k: nat | k < n :: fits(trail(k).p) == Some(false) }

  /** `trail` gives the state after every number of drops, of which there are at most `bound`. */
  ghost predicate Trail(trail: nat -> State, start: State, bound: nat) {
    bound == Parts(start.p) && forall k: nat {:trigger After(start, k)} :: After(start, k) == trail(k)
  }

  ghost predicate NothingLeft(p: Projection) { forall c: Class :: !Has(p, c) }

  function FirstFrom(p: Projection, k: nat): Option<Class>
    requires k <= |ORDER|
    decreases |ORDER| - k
  {
    if k == |ORDER| then None else if Has(p, ORDER[k]) then Some(ORDER[k]) else FirstFrom(p, k + 1)
  }

  /** The first class with anything left. */
  function First(p: Projection): Option<Class> { FirstFrom(p, 0) }

  function Rank(c: Class): (k: nat)
    ensures k < |ORDER| && ORDER[k] == c
  {
    match c
    case Preferences => 0
    case Snippets => 1
    case History => 2
    case Experiences => 3
    case Groups => 4
    case Memories => 5
    case Facts => 6
    case Payload => 7
    case Nearby => 8
    case Game => 9
    case Agent => 10
  }

  lemma {:induction false} FirstFromFinds(p: Projection, k: nat)
    requires k <= |ORDER|
    ensures FirstFrom(p, k).Some? ==> Has(p, FirstFrom(p, k).value) && k <= Rank(FirstFrom(p, k).value)
    ensures forall j | k <= j < |ORDER| && Has(p, ORDER[j]) :: FirstFrom(p, k).Some? && Rank(FirstFrom(p, k).value) <= j
    decreases |ORDER| - k
  {
    if k < |ORDER| { FirstFromFinds(p, k + 1); }
  }

  /** The first class has something left, and no class before it does. */
  lemma FirstFinds(p: Projection)
    ensures First(p).Some? ==> Has(p, First(p).value)
    ensures forall c: Class | Has(p, c) :: First(p).Some? && Rank(First(p).value) <= Rank(c)
  {
    FirstFromFinds(p, 0);
    forall c: Class | Has(p, c) ensures First(p).Some? && Rank(First(p).value) <= Rank(c) { assert Has(p, ORDER[Rank(c)]); }
  }

  lemma FirstIs(p: Projection)
    ensures forall c: Class :: First(p) == Some(c) <==> Has(p, c) && forall d: Class | Rank(d) < Rank(c) :: !Has(p, d)
    ensures First(p) == None <==> forall c: Class :: !Has(p, c)
  {
    FirstFinds(p);
  }

  function Next(s: State): State {
    var c := First(s.p);
    FirstFinds(s.p);
    if c.None? then s else State(Without(s.p, c.value), Reported(s.p, s.r, c.value))
  }

  /** The state after `n` drops. */
  function After(s: State, n: nat): State { Iterate(Next, s, n) }

  function Iterate<S>(next: S -> S, s: S, n: nat): S { if n == 0 then s else next(Iterate(next, s, n - 1)) }

  function One(b: bool): nat { if b then 1 else 0 }

  /** How much a class has to drop. */
  function Size(p: Projection, c: Class): nat {
    match c
    case History => |p.history.units| + One(p.history.heading.text != "")
    case Experiences => |p.experiences|
    case Groups => |GroupsOf(p)|
    case Memories => |p.memories|
    case Facts => One(HasAttributes(p.facts)) + One(HasText(p.facts))
    case _ => One(Has(p, c))
  }

  function PartsFrom(p: Projection, k: nat): nat
    requires k <= |ORDER|
    decreases |ORDER| - k
  {
    if k == |ORDER| then 0 else Size(p, ORDER[k]) + PartsFrom(p, k + 1)
  }

  /** How much there is to drop. */
  function Parts(p: Projection): nat { PartsFrom(p, 0) }

  lemma GroupsLeft(p: Projection)
    requires Has(p, Groups)
    ensures GroupsOf(Without(p, Groups)) == GroupsOf(p)[1..]
  {
    T.RegroupSuffix(p.transcript, 1);
  }

  lemma FactsShrink(p: Projection)
    requires Has(p, Facts)
    ensures Size(Without(p, Facts), Facts) < Size(p, Facts)
  {
    var q := Without(p, Facts);
    if HasAttributes(p.facts) {
      assert forall i | 0 <= i < |p.facts| :: q.facts[i] == Fact(p.facts[i].text, []);
    } else {
      assert forall i | 0 <= i < |p.facts| :: q.facts[i].attributes == p.facts[i].attributes;
    }
  }

  lemma OwnClassShrinks(p: Projection, c: Class)
    requires Has(p, c)
    ensures Size(Without(p, c), c) < Size(p, c)
  {
    if c == Groups { GroupsLeft(p); }
    if c == Facts { FactsShrink(p); }
  }

  /** Giving up a part of one class neither adds to nor takes from any other. */
  lemma OtherClassesStay(p: Projection, c: Class, d: Class)
    requires Has(p, c) && c != d
    ensures Has(Without(p, c), d) <==> Has(p, d)
  {
  }

  lemma OtherSizesStay(p: Projection, c: Class, d: Class)
    requires Has(p, c) && c != d
    ensures Size(Without(p, c), d) == Size(p, d)
  {
    OtherClassesStay(p, c, d);
  }

  lemma {:induction false} PartsShrink(p: Projection, c: Class, k: nat)
    requires Has(p, c) && k <= |ORDER|
    ensures PartsFrom(Without(p, c), k) == PartsFrom(p, k) || (k <= Rank(c) && PartsFrom(Without(p, c), k) < PartsFrom(p, k))
    ensures k <= Rank(c) ==> PartsFrom(Without(p, c), k) < PartsFrom(p, k)
    decreases |ORDER| - k
  {
    if k < |ORDER| {
      PartsShrink(p, c, k + 1);
      if ORDER[k] == c { OwnClassShrinks(p, c); } else { OtherSizesStay(p, c, ORDER[k]); }
      RankOf(k);
    }
  }

  lemma RankOf(k: nat)
    requires k < |ORDER|
    ensures Rank(ORDER[k]) == k
  {
  }

  lemma NextShrinks(s: State)
    ensures First(s.p).Some? ==> Parts(Next(s).p) < Parts(s.p)
  {
    FirstFinds(s.p);
    if First(s.p).Some? { PartsShrink(s.p, First(s.p).value, 0); }
  }

  /** The rank of the first class with anything left, or the number of classes. */
  function Reached(p: Projection): (k: nat)
    ensures k <= |ORDER|
  {
    if First(p).None? then |ORDER| else Rank(First(p).value)
  }

  /** One drop leaves less of the same class or starts a later one. */
  lemma OneStep(s: State)
    ensures Reached(s.p) <= Reached(Next(s).p)
    ensures Reached(s.p) < |ORDER| ==> Parts(Next(s).p) < Parts(s.p)
  {
    NextShrinks(s);
    FirstFinds(s.p);
    FirstFinds(Next(s).p);
    if First(s.p).Some? && First(Next(s).p).Some? && First(s.p) != First(Next(s).p) {
      OtherClassesStay(s.p, First(s.p).value, First(Next(s).p).value);
    }
  }

  lemma {:induction false} Climb<S>(next: S -> S, rank: S -> nat, s: S, i: nat, j: nat)
    requires i <= j && forall x {:trigger next(x)} :: rank(x) <= rank(next(x))
    ensures rank(Iterate(next, s, i)) <= rank(Iterate(next, s, j))
    decreases j
  {
    if i < j { Climb(next, rank, s, i, j - 1); }
  }

  lemma {:induction false} Descend<S>(next: S -> S, rank: S -> nat, size: S -> nat, top: nat, s: S, n: nat)
    requires forall x {:trigger next(x)} :: rank(x) <= rank(next(x)) && (rank(x) < top ==> size(next(x)) < size(x))
    ensures rank(Iterate(next, s, n)) < top ==> n + size(Iterate(next, s, n)) <= size(s)
  {
    if n > 0 { Descend(next, rank, size, top, s, n - 1); }
  }

  /** Parts go in order: once a class is reached, no class before it is touched again. */
  lemma DropsInOrder(s: State, i: nat, j: nat)
    requires i <= j
    ensures Reached(After(s, i).p) <= Reached(After(s, j).p)
  {
    forall x: State ensures Reached(x.p) <= Reached(Next(x).p) { OneStep(x); }
    Climb(Next, (x: State) => Reached(x.p), s, i, j);
  }

  /** There are at most as many drops as there are parts to begin with. */
  lemma DropsAreBounded(s: State, n: nat)
    ensures Reached(After(s, n).p) < |ORDER| ==> n < Parts(s.p)
  {
    forall x: State
      ensures Reached(x.p) <= Reached(Next(x).p) && (Reached(x.p) < |ORDER| ==> Parts(Next(x).p) < Parts(x.p))
    {
      OneStep(x);
    }
    Descend(Next, (x: State) => Reached(x.p), (x: State) => Parts(x.p), |ORDER|, s, n);
    OneStep(After(s, n));
  }

  // ---------------------------------------------------------------- counts and remains

  /** The report's retained counts are those of the projection. */
  predicate Counted(s: State) {
    && s.r.snippets == |s.p.snippets| && s.r.history.retained == |s.p.history.units|
    && s.r.experiences.retained == |s.p.experiences| && s.r.memories.retained == |s.p.memories|
    && s.r.transcript.retained == |s.p.transcript|
  }

  predicate SameTotals(a: Report, b: Report) {
    && a.matches.Total() == b.matches.Total() && a.history.Total() == b.history.Total()
    && a.experiences.Total() == b.experiences.Total() && a.memories.Total() == b.memories.Total()
    && a.transcript.Total() == b.transcript.Total()
  }

  lemma NextConserves(s: State)
    requires Counted(s)
    ensures Counted(Next(s)) && SameTotals(Next(s).r, s.r)
  {
    FirstFinds(s.p);
    if First(s.p) == Some(Groups) {
      T.GroupedIff(s.p.transcript, GroupsOf(s.p));
      assert s.p.transcript == GroupsOf(s.p)[0] + T.Flatten(GroupsOf(s.p)[1..]);
    }
  }

  /** Retained plus dropped is conserved in every report, whatever the number of drops. */
  lemma {:induction false} DropsConserve(s: State, n: nat)
    requires Counted(s)
    ensures Counted(After(s, n)) && SameTotals(After(s, n).r, s.r)
  {
    if n > 0 {
      DropsConserve(s, n - 1);
      NextConserves(After(s, n - 1));
    }
  }

  predicate Suffix<X(==)>(a: seq<X>, b: seq<X>) { |a| <= |b| && a == b[|b| - |a|..] }

  /** What is left keeps the newest history, groups and memories, the first experiences, and every
      required part. */
  predicate Remains(q: Projection, p: Projection) {
    && OthersRemain(q, p) && Suffix(GroupsOf(q), GroupsOf(p))
    && (p.transcript != [] ==> q.transcript != []) && (T.Grouped(p.transcript).None? ==> q.transcript == p.transcript)
  }

  predicate OthersRemain(q: Projection, p: Projection) {
    && q.required == p.required && Suffix(q.history.units, p.history.units)
    && Suffix(q.memories, p.memories) && q.experiences <= p.experiences
    && |q.facts| == |p.facts| && q.observation.required == p.observation.required
    && MinimalGame(q.game) == MinimalGame(p.game) && MinimalAgent(q.agent) == MinimalAgent(p.agent)
  }

  lemma SuffixTransitive<X>(a: seq<X>, b: seq<X>, c: seq<X>)
    requires Suffix(a, b) && Suffix(b, c)
    ensures Suffix(a, c)
  {
  }

  lemma GroupsRemain(p: Projection)
    requires Has(p, Groups)
    ensures Remains(Without(p, Groups), p)
  {
    GroupsLeft(p);
    T.GroupedIff(p.transcript, GroupsOf(p));
    var rest := GroupsOf(p)[1..];
    assert rest[0] == GroupsOf(p)[1] && T.ValidGroup(GroupsOf(p)[1]);
    assert T.Flatten(rest) == rest[0] + T.Flatten(rest[1..]);
  }

  lemma WithoutRemains(p: Projection, c: Class)
    requires Has(p, c)
    ensures Remains(Without(p, c), p)
  {
    if c == Groups {
      GroupsRemain(p);
    } else {
      PartsRemain(p, c);
      TranscriptRemains(Without(p, c), p);
    }
  }

  lemma PartsRemain(p: Projection, c: Class)
    requires Has(p, c) && c != Groups
    ensures OthersRemain(Without(p, c), p) && Without(p, c).transcript == p.transcript
  {
    HistoryRemains(p, c);
    FactsRemain(p, c);
    DefinitionsRemain(p, c);
  }

  lemma HistoryRemains(p: Projection, c: Class)
    requires Has(p, c) && c != Groups
    ensures var q := Without(p, c);
            && Suffix(q.history.units, p.history.units) && Suffix(q.memories, p.memories) && q.experiences <= p.experiences
            && q.transcript == p.transcript
  {
    SuffixSelf(p.history.units);
    SuffixSelf(p.memories);
    if c == History && p.history.units != [] { SuffixOfRest(p.history.units); }
    if c == Memories { SuffixOfRest(p.memories); }
  }

  lemma FactsRemain(p: Projection, c: Class)
    requires Has(p, c) && c != Groups
    ensures |Without(p, c).facts| == |p.facts|
  {
  }

  lemma DefinitionsRemain(p: Projection, c: Class)
    requires Has(p, c) && c != Groups
    ensures var q := Without(p, c);
            && q.required == p.required && q.observation.required == p.observation.required
            && MinimalGame(q.game) == MinimalGame(p.game) && MinimalAgent(q.agent) == MinimalAgent(p.agent)
  {
  }

  lemma SuffixSelf<X>(s: seq<X>)
    ensures Suffix(s, s)
  {
  }

  lemma SuffixOfRest<X>(s: seq<X>)
    requires s != []
    ensures Suffix(s[1..], s)
  {
  }

  lemma TranscriptRemains(q: Projection, p: Projection)
    requires OthersRemain(q, p) && q.transcript == p.transcript
    ensures Remains(q, p)
  {
    assert GroupsOf(q) == GroupsOf(p);
  }

  lemma RemainsTransitive(o: Projection, p: Projection, q: Projection)
    requires Remains(q, p) && Remains(p, o)
    ensures Remains(q, o)
  {
    SuffixTransitive(q.history.units, p.history.units, o.history.units);
    SuffixTransitive(GroupsOf(q), GroupsOf(p), GroupsOf(o));
    SuffixTransitive(q.memories, p.memories, o.memories);
  }

  lemma NextRemains(s: State)
    ensures Remains(Next(s).p, s.p)
  {
    FirstFinds(s.p);
    if First(s.p).Some? { WithoutRemains(s.p, First(s.p).value); }
  }

  lemma {:induction false} Persist<S>(next: S -> S, rel: (S, S) -> bool, s: S, n: nat)
    requires (forall x {:trigger next(x)} :: rel(next(x), x)) && rel(s, s)
    requires forall x, y {:trigger rel(next(y), x)} :: rel(next(y), y) && rel(y, x) ==> rel(next(y), x)
    ensures rel(Iterate(next, s, n), s)
  {
    if n > 0 { Persist(next, rel, s, n - 1); }
  }

  lemma DropsRemain(s: State, n: nat)
    ensures Remains(After(s, n).p, s.p)
  {
    var rel := (x: State, y: State) => Remains(x.p, y.p);
    forall x: State ensures rel(Next(x), x) { NextRemains(x); }
    forall x: State, y: State | rel(Next(y), y) && rel(y, x) ensures rel(Next(y), x) { RemainsTransitive(x.p, y.p, Next(y).p); }
    RemainsReflexive(s.p);
    Persist(Next, rel, s, n);
  }

  lemma RemainsReflexive(p: Projection)
    ensures Remains(p, p)
  {
  }
}

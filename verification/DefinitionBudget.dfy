/** The definition budget: both definitions are cut to their required minimum and filled up again, item by
    item in a fixed order, while the estimate stays within the limit.

    What a definition costs is an arbitrary function of it. */
module DefinitionBudget {
  import opened Wrappers
  import opened RequestBudget

  // ---------------------------------------------------------------- cuts

  /** The first `k` items of a list, none for a negative `k` and all of them for a large one. */
  function Upto(items: seq<string>, k: int): seq<string> { if k <= 0 then [] else if k >= |items| then items else items[..k] }

  /** A text counts as one item unless it is empty. */
  function Count1(text: string): nat { if text == "" then 0 else 1 }

  function TextIf(text: string, k: int): string { if k >= Count1(text) then text else "" }

  /** Where the fields of an agent's definition begin in fill order. */
  function PersonalityAt(a: AgentDefinition): nat { Count1(a.identity) }
  function SpeechAt(a: AgentDefinition): nat { PersonalityAt(a) + |a.personality| }
  function LikesAt(a: AgentDefinition): nat { SpeechAt(a) + |a.speech| }
  function GuidelinesAt(a: AgentDefinition): nat { LikesAt(a) + |a.likes| }
  function AgentSourceAt(a: AgentDefinition): nat { GuidelinesAt(a) + |a.guidelines| }
  function AgentSize(a: AgentDefinition): nat { AgentSourceAt(a) + Count1(a.source) }

  /** The definition with its first `k` items in fill order. */
  function CutAgent(a: AgentDefinition, k: nat): AgentDefinition {
    AgentDefinition(a.version, a.gameId, a.id, TextIf(a.identity, k), Upto(a.personality, k - PersonalityAt(a)),
                    Upto(a.speech, k - SpeechAt(a)), Upto(a.likes, k - LikesAt(a)), Upto(a.guidelines, k - GuidelinesAt(a)),
                    TextIf(a.source, k - AgentSourceAt(a)))
  }

  function SummaryAt(g: GameDefinition): nat { Count1(g.title) }
  function RulesAt(g: GameDefinition): nat { SummaryAt(g) + Count1(g.summary) }
  function LoreAt(g: GameDefinition): nat { RulesAt(g) + |g.rules| }
  function ConstraintsAt(g: GameDefinition): nat { LoreAt(g) + |g.lore| }
  function GameSourceAt(g: GameDefinition): nat { ConstraintsAt(g) + |g.constraints| }
  function GameSize(g: GameDefinition): nat { GameSourceAt(g) + Count1(g.source) }

  function CutGame(g: GameDefinition, k: nat): GameDefinition {
    GameDefinition(g.version, g.gameId, TextIf(g.title, k), TextIf(g.summary, k - SummaryAt(g)), Upto(g.rules, k - RulesAt(g)),
                   Upto(g.lore, k - LoreAt(g)), Upto(g.constraints, k - ConstraintsAt(g)), TextIf(g.source, k - GameSourceAt(g)))
  }

  /** The required parts are those of the whole, each list is a prefix of its own, and a field has something
      only when the field before it in fill order is whole. */
  predicate AgentPart(c: AgentDefinition, a: AgentDefinition) {
    && MinimalAgent(Some(c)) == MinimalAgent(Some(a))
    && c.personality <= a.personality && c.speech <= a.speech && c.likes <= a.likes && c.guidelines <= a.guidelines
    && (c.identity == a.identity || c.identity == "") && (c.source == a.source || c.source == "")
    && (c.personality != [] ==> c.identity == a.identity) && (c.speech != [] ==> c.personality == a.personality)
    && (c.likes != [] ==> c.speech == a.speech) && (c.guidelines != [] ==> c.likes == a.likes)
    && (c.source != "" ==> c.guidelines == a.guidelines)
  }

  predicate GamePart(c: GameDefinition, g: GameDefinition) {
    && MinimalGame(Some(c)) == MinimalGame(Some(g))
    && c.rules <= g.rules && c.lore <= g.lore && c.constraints <= g.constraints
    && (c.title == g.title || c.title == "") && (c.summary == g.summary || c.summary == "") && (c.source == g.source || c.source == "")
    && (c.summary != "" ==> c.title == g.title) && (c.rules != [] ==> c.summary == g.summary)
    && (c.lore != [] ==> c.rules == g.rules) && (c.constraints != [] ==> c.lore == g.lore)
    && (c.source != "" ==> c.constraints == g.constraints)
  }

  /** The cut after no item is the minimum, and the whole is reached exactly at the last item. */
  lemma AgentCuts(a: AgentDefinition, k: nat)
    requires k <= AgentSize(a)
    ensures Some(CutAgent(a, 0)) == MinimalAgent(Some(a)) && AgentPart(CutAgent(a, k), a)
    ensures CutAgent(a, k) == a <==> k == AgentSize(a)
  {
  }

  lemma GameCuts(g: GameDefinition, k: nat)
    requires k <= GameSize(g)
    ensures Some(CutGame(g, 0)) == MinimalGame(Some(g)) && GamePart(CutGame(g, k), g)
    ensures CutGame(g, k) == g <==> k == GameSize(g)
  {
  }

  // ---------------------------------------------------------------- filling

  /** Every cut up to `k` was accepted. */
  ghost predicate Accepted<D(!new)>(at: nat -> D, fits: D -> bool, k: nat) {
    forall j: nat {:trigger Fits(at, fits, j)} | 0 < j <= k :: Fits(at, fits, j)
  }

  ghost predicate Fits<D(!new)>(at: nat -> D, fits: D -> bool, j: nat) { fits(at(j)) }

  /** The longest cut all of whose shorter ones were accepted too: the next one, if there is one, does not fit. */
  ghost predicate FilledTo<D(!new)>(at: nat -> D, size: nat, fits: D -> bool, k: nat) {
    k <= size && Accepted(at, fits, k) && (k < size ==> !fits(at(k + 1)))
  }

  lemma AcceptedAt<D(!new)>(at: nat -> D, fits: D -> bool, j: nat, k: nat)
    ensures Accepted(at, fits, j) && k < j ==> fits(at(k + 1))
  {
    assert Fits(at, fits, k + 1) == fits(at(k + 1));
  }

  /** There is one such cut. */
  lemma FilledOnce<D(!new)>(at: nat -> D, size: nat, fits: D -> bool, j: nat, k: nat)
    requires FilledTo(at, size, fits, j) && FilledTo(at, size, fits, k)
    ensures j == k
  {
    AcceptedAt(at, fits, j, k);
    AcceptedAt(at, fits, k, j);
  }

  /** Nothing is left out exactly when every cut fits. */
  lemma WholeIff<D(!new)>(at: nat -> D, size: nat, fits: D -> bool, k: nat)
    requires FilledTo(at, size, fits, k)
    ensures k == size <==> Accepted(at, fits, size)
  {
    AcceptedAt(at, fits, size, k);
  }

  /** The state of filling: the first `k` items are in. */
  ghost predicate Filling<D(!new)>(at: nat -> D, fits: D -> bool, d: D, k: nat) { d == at(k) && Accepted(at, fits, k) }

  lemma FillStep<D(!new)>(at: nat -> D, fits: D -> bool, d: D, k: nat, next: D)
    requires Filling(at, fits, d, k) && next == at(k + 1) && fits(next)
    ensures Filling(at, fits, next, k + 1)
  {
  }

  ghost predicate AddsOne<D(!new)>(at: nat -> D, k: nat, items: seq<string>, put: (D, string) -> D, i: nat)
    requires i < |items|
  {
    at(k + i + 1) == put(at(k + i), items[i])
  }

  /** From position `k` on the items are added one by one. */
  ghost predicate Appends<D(!new)>(at: nat -> D, k: nat, items: seq<string>, put: (D, string) -> D) {
    forall i: nat {:trigger AddsOne(at, k, items, put, i)} | i < |items| :: AddsOne(at, k, items, put, i)
  }

  ghost predicate Sets<D(!new)>(at: nat -> D, k: nat, text: string, put: (D, string) -> D) { text != "" ==> at(k + 1) == put(at(k), text) }

  /** A stage that should reach `goal` stopped at `done`, short of it only at an item that does not fit. */
  ghost predicate Stage<D(!new)>(at: nat -> D, fits: D -> bool, filled: D, done: nat, goal: nat, full: bool) {
    Filling(at, fits, filled, done) && done <= goal && (full <==> done < goal) && (full ==> !fits(at(done + 1)))
  }

  /** Appends items until one does not fit; `put` adds one to the definition. Nothing is added after a
      stage that stopped short. */
  method AppendItems<D(!new)>(d: D, was: bool, items: seq<string>, put: (D, string) -> D, fits: D -> bool,
                              ghost at: nat -> D, ghost k: nat, ghost from: nat, ghost goal: nat)
    returns (filled: D, full: bool, ghost done: nat)
    requires Stage(at, fits, d, k, from, was) && Appends(at, from, items, put) && goal == from + |items|
    ensures Stage(at, fits, filled, done, goal, full)
  {
    filled, full, done := d, was, k;
    if was { return; }
    for i := 0 to |items|
      invariant done == from + i && Filling(at, fits, filled, done)
    {
      var candidate := put(filled, items[i]);
      assert AddsOne(at, from, items, put, i);
      if !fits(candidate) { return filled, true, done; }
      FillStep(at, fits, filled, done, candidate);
      filled, done := candidate, done + 1;
    }
  }

  /** Sets a text that is not empty, if it fits. */
  method SetText<D(!new)>(d: D, was: bool, text: string, put: (D, string) -> D, fits: D -> bool,
                          ghost at: nat -> D, ghost k: nat, ghost from: nat, ghost goal: nat)
    returns (filled: D, full: bool, ghost done: nat)
    requires Stage(at, fits, d, k, from, was) && Sets(at, from, text, put) && goal == from + Count1(text)
    ensures Stage(at, fits, filled, done, goal, full)
  {
    filled, full, done := d, was, k;
    if was || text == "" { return; }
    var candidate := put(d, text);
    if !fits(candidate) { return d, true, k; }
    FillStep(at, fits, d, k, candidate);
    filled, done := candidate, k + 1;
  }

  lemma StageIsFilled<D(!new)>(at: nat -> D, size: nat, fits: D -> bool, d: D, k: nat, full: bool)
    requires Stage(at, fits, d, k, size, full)
    ensures FilledTo(at, size, fits, k) && d == at(k) && (k == 0 || fits(d))
    ensures (full <==> k < size) && (full <==> !Accepted(at, fits, size))
  {
    WholeIff(at, size, fits, k);
    if k > 0 { AcceptedAt(at, fits, k, k - 1); }
  }

  // ---------------------------------------------------------------- the agent

  lemma UptoGrows(items: seq<string>, i: nat)
    requires i < |items|
    ensures Upto(items, i + 1) == Upto(items, i) + [items[i]]
  {
  }

  function AgentAt(a: AgentDefinition): nat -> AgentDefinition { (n: nat) => CutAgent(a, n) }

  const IDENTITY := (a: AgentDefinition, text: string) => a.(identity := text)
  const PERSONALITY := (a: AgentDefinition, item: string) => a.(personality := a.personality + [item])
  const SPEECH := (a: AgentDefinition, item: string) => a.(speech := a.speech + [item])
  const LIKES := (a: AgentDefinition, item: string) => a.(likes := a.likes + [item])
  const GUIDELINES := (a: AgentDefinition, item: string) => a.(guidelines := a.guidelines + [item])
  const AGENT_SOURCE := (a: AgentDefinition, text: string) => a.(source := text)

  lemma PersonalityAppends(a: AgentDefinition)
    ensures Appends(AgentAt(a), PersonalityAt(a), a.personality, PERSONALITY)
  {
    forall i: nat | i < |a.personality| ensures AddsOne(AgentAt(a), PersonalityAt(a), a.personality, PERSONALITY, i) {
      UptoGrows(a.personality, i);
    }
  }

  lemma SpeechAppends(a: AgentDefinition)
    ensures Appends(AgentAt(a), SpeechAt(a), a.speech, SPEECH)
  {
    forall i: nat | i < |a.speech| ensures AddsOne(AgentAt(a), SpeechAt(a), a.speech, SPEECH, i) {
      UptoGrows(a.speech, i);
    }
  }

  lemma LikesAppend(a: AgentDefinition)
    ensures Appends(AgentAt(a), LikesAt(a), a.likes, LIKES)
  {
    forall i: nat | i < |a.likes| ensures AddsOne(AgentAt(a), LikesAt(a), a.likes, LIKES, i) {
      UptoGrows(a.likes, i);
    }
  }

  lemma GuidelinesAppend(a: AgentDefinition)
    ensures Appends(AgentAt(a), GuidelinesAt(a), a.guidelines, GUIDELINES)
  {
    forall i: nat | i < |a.guidelines| ensures AddsOne(AgentAt(a), GuidelinesAt(a), a.guidelines, GUIDELINES, i) {
      UptoGrows(a.guidelines, i);
    }
  }

  lemma AgentTextsSet(a: AgentDefinition)
    ensures Sets(AgentAt(a), 0, a.identity, IDENTITY) && Sets(AgentAt(a), AgentSourceAt(a), a.source, AGENT_SOURCE)
  {
  }

  /** The filled agent is the longest acceptable cut of the source. */
  ghost predicate AgentFilled(filled: AgentDefinition, source: AgentDefinition, fits: AgentDefinition -> bool) {
    exists k: nat :: FilledTo(AgentAt(source), AgentSize(source), fits, k) && filled == CutAgent(source, k)
  }

  method FillAgent(source: AgentDefinition, fits: AgentDefinition -> bool) returns (agent: AgentDefinition, full: bool)
    ensures AgentFilled(agent, source, fits) && AgentPart(agent, source) && (agent == CutAgent(source, 0) || fits(agent))
    ensures (full <==> agent != source) && (full <==> !Accepted(AgentAt(source), fits, AgentSize(source)))
  {
    ghost var at := AgentAt(source);
    ghost var k: nat := 0;
    agent, full := CutAgent(source, 0), false;
    AgentAppends(source);
    agent, full, k := SetText(agent, full, source.identity, IDENTITY, fits, at, k, 0, PersonalityAt(source));
    agent, full, k := AppendItems(agent, full, source.personality, PERSONALITY, fits, at, k, PersonalityAt(source), SpeechAt(source));
    agent, full, k := AppendItems(agent, full, source.speech, SPEECH, fits, at, k, SpeechAt(source), LikesAt(source));
    agent, full, k := AppendItems(agent, full, source.likes, LIKES, fits, at, k, LikesAt(source), GuidelinesAt(source));
    agent, full, k := AppendItems(agent, full, source.guidelines, GUIDELINES, fits, at, k, GuidelinesAt(source), AgentSourceAt(source));
    agent, full, k := SetText(agent, full, source.source, AGENT_SOURCE, fits, at, k, AgentSourceAt(source), AgentSize(source));
    AgentEnds(source, fits, agent, k, full);
  }

  lemma AgentAppends(a: AgentDefinition)
    ensures Sets(AgentAt(a), 0, a.identity, IDENTITY) && Sets(AgentAt(a), AgentSourceAt(a), a.source, AGENT_SOURCE)
    ensures Appends(AgentAt(a), PersonalityAt(a), a.personality, PERSONALITY) && Appends(AgentAt(a), SpeechAt(a), a.speech, SPEECH)
    ensures Appends(AgentAt(a), LikesAt(a), a.likes, LIKES) && Appends(AgentAt(a), GuidelinesAt(a), a.guidelines, GUIDELINES)
  {
    AgentTextsSet(a);
    PersonalityAppends(a);
    SpeechAppends(a);
    LikesAppend(a);
    GuidelinesAppend(a);
  }

  lemma AgentEnds(source: AgentDefinition, fits: AgentDefinition -> bool, agent: AgentDefinition, k: nat, full: bool)
    requires Stage(AgentAt(source), fits, agent, k, AgentSize(source), full)
    ensures AgentFilled(agent, source, fits) && AgentPart(agent, source) && (agent == CutAgent(source, 0) || fits(agent))
    ensures (full <==> agent != source) && (full <==> !Accepted(AgentAt(source), fits, AgentSize(source)))
  {
    StageIsFilled(AgentAt(source), AgentSize(source), fits, agent, k, full);
    AgentCuts(source, k);
  }

  // ---------------------------------------------------------------- the game

  function GameAt(g: GameDefinition): nat -> GameDefinition { (n: nat) => CutGame(g, n) }

  const TITLE := (g: GameDefinition, text: string) => g.(title := text)
  const SUMMARY := (g: GameDefinition, text: string) => g.(summary := text)
  const RULES := (g: GameDefinition, item: string) => g.(rules := g.rules + [item])
  const LORE := (g: GameDefinition, item: string) => g.(lore := g.lore + [item])
  const CONSTRAINTS := (g: GameDefinition, item: string) => g.(constraints := g.constraints + [item])
  const GAME_SOURCE := (g: GameDefinition, text: string) => g.(source := text)

  lemma RulesAppend(g: GameDefinition)
    ensures Appends(GameAt(g), RulesAt(g), g.rules, RULES)
  {
    forall i: nat | i < |g.rules| ensures AddsOne(GameAt(g), RulesAt(g), g.rules, RULES, i) {
      UptoGrows(g.rules, i);
    }
  }

  lemma LoreAppends(g: GameDefinition)
    ensures Appends(GameAt(g), LoreAt(g), g.lore, LORE)
  {
    forall i: nat | i < |g.lore| ensures AddsOne(GameAt(g), LoreAt(g), g.lore, LORE, i) {
      UptoGrows(g.lore, i);
    }
  }

  lemma ConstraintsAppend(g: GameDefinition)
    ensures Appends(GameAt(g), ConstraintsAt(g), g.constraints, CONSTRAINTS)
  {
    forall i: nat | i < |g.constraints| ensures AddsOne(GameAt(g), ConstraintsAt(g), g.constraints, CONSTRAINTS, i) {
      UptoGrows(g.constraints, i);
    }
  }

  lemma GameTextsSet(g: GameDefinition)
    ensures Sets(GameAt(g), 0, g.title, TITLE) && Sets(GameAt(g), SummaryAt(g), g.summary, SUMMARY)
    ensures Sets(GameAt(g), GameSourceAt(g), g.source, GAME_SOURCE)
  {
  }

  ghost predicate GameFilled(filled: GameDefinition, source: GameDefinition, fits: GameDefinition -> bool) {
    exists k: nat :: FilledTo(GameAt(source), GameSize(source), fits, k) && filled == CutGame(source, k)
  }

  method FillGame(source: GameDefinition, fits: GameDefinition -> bool) returns (game: GameDefinition, full: bool)
    ensures GameFilled(game, source, fits) && GamePart(game, source) && (game == CutGame(source, 0) || fits(game))
    ensures (full <==> game != source) && (full <==> !Accepted(GameAt(source), fits, GameSize(source)))
  {
    ghost var at := GameAt(source);
    ghost var k: nat := 0;
    game, full := CutGame(source, 0), false;
    GameAppends(source);
    game, full, k := SetText(game, full, source.title, TITLE, fits, at, k, 0, SummaryAt(source));
    game, full, k := SetText(game, full, source.summary, SUMMARY, fits, at, k, SummaryAt(source), RulesAt(source));
    game, full, k := AppendItems(game, full, source.rules, RULES, fits, at, k, RulesAt(source), LoreAt(source));
    game, full, k := AppendItems(game, full, source.lore, LORE, fits, at, k, LoreAt(source), ConstraintsAt(source));
    game, full, k := AppendItems(game, full, source.constraints, CONSTRAINTS, fits, at, k, ConstraintsAt(source), GameSourceAt(source));
    game, full, k := SetText(game, full, source.source, GAME_SOURCE, fits, at, k, GameSourceAt(source), GameSize(source));
    GameEnds(source, fits, game, k, full);
  }

  lemma GameAppends(g: GameDefinition)
    ensures Sets(GameAt(g), 0, g.title, TITLE) && Sets(GameAt(g), SummaryAt(g), g.summary, SUMMARY)
    ensures Sets(GameAt(g), GameSourceAt(g), g.source, GAME_SOURCE) && Appends(GameAt(g), RulesAt(g), g.rules, RULES)
    ensures Appends(GameAt(g), LoreAt(g), g.lore, LORE) && Appends(GameAt(g), ConstraintsAt(g), g.constraints, CONSTRAINTS)
  {
    GameTextsSet(g);
    RulesAppend(g);
    LoreAppends(g);
    ConstraintsAppend(g);
  }

  lemma GameEnds(source: GameDefinition, fits: GameDefinition -> bool, game: GameDefinition, k: nat, full: bool)
    requires Stage(GameAt(source), fits, game, k, GameSize(source), full)
    ensures GameFilled(game, source, fits) && GamePart(game, source) && (game == CutGame(source, 0) || fits(game))
    ensures (full <==> game != source) && (full <==> !Accepted(GameAt(source), fits, GameSize(source)))
  {
    StageIsFilled(GameAt(source), GameSize(source), fits, game, k, full);
    GameCuts(source, k);
  }

  // ---------------------------------------------------------------- the budget

  datatype Tokens = Tokens(agent: AgentDefinition -> nat, game: GameDefinition -> nat)

  function Total(agent: Option<AgentDefinition>, game: Option<GameDefinition>, tokens: Tokens): nat {
    (if agent.Some? then tokens.agent(agent.value) else 0) + (if game.Some? then tokens.game(game.value) else 0)
  }

  datatype Crop = Crop(agent: bool, game: bool)

  predicate Limited(p: Projection, limit: int) { limit > 0 && (p.agent.Some? || p.game.Some?) }

  /** The agent is filled beside the minimal game, and the game beside the filled agent. */
  ghost predicate Filled(next: Projection, p: Projection, limit: int, tokens: Tokens) {
    && next == p.(agent := next.agent, game := next.game)
    && next.agent.Some? == p.agent.Some? && next.game.Some? == p.game.Some?
    && (p.agent.Some? ==> AgentFilled(next.agent.value, p.agent.value, a => Total(Some(a), MinimalGame(p.game), tokens) <= limit))
    && (p.game.Some? ==> GameFilled(next.game.value, p.game.value, g => Total(next.agent, Some(g), tokens) <= limit))
  }

  /** Cuts both definitions to the limit; fails exactly when their minimum is above it. */
  method ApplyDefinitionBudget(p: Projection, limit: int, tokens: Tokens) returns (next: Projection, crop: Crop, error: bool)
    ensures !Limited(p, limit) ==> next == p && crop == Crop(false, false)
    ensures error <==> Limited(p, limit) && Total(MinimalAgent(p.agent), MinimalGame(p.game), tokens) > limit
    ensures error ==> next == p.(agent := MinimalAgent(p.agent), game := MinimalGame(p.game))
    ensures Limited(p, limit) && !error ==> Filled(next, p, limit, tokens) && Total(next.agent, next.game, tokens) <= limit
    ensures next.agent.Some? == p.agent.Some? && (p.agent.Some? ==> AgentPart(next.agent.value, p.agent.value))
    ensures next.game.Some? == p.game.Some? && (p.game.Some? ==> GamePart(next.game.value, p.game.value))
    ensures crop.agent <==> next.agent != p.agent
    ensures crop.game <==> next.game != p.game
  {
    next, crop, error := p, Crop(false, false), false;
    if limit <= 0 || (p.agent.None? && p.game.None?) { return; }
    var agent, game := MinimalAgent(p.agent), MinimalGame(p.game);
    if Total(agent, game, tokens) > limit {
      next := p.(agent := agent, game := game);
      return next, Crop(agent != p.agent, game != p.game), true;
    }
    if p.agent.Some? {
      var filled, _ := FillAgent(p.agent.value, a => Total(Some(a), game, tokens) <= limit);
      AgentCuts(p.agent.value, 0);
      agent := Some(filled);
    }
    if p.game.Some? {
      var filled, _ := FillGame(p.game.value, g => Total(agent, Some(g), tokens) <= limit);
      GameCuts(p.game.value, 0);
      game := Some(filled);
    }
    next := p.(agent := agent, game := game);
    crop := Crop(agent != p.agent, game != p.game);
  }

  /** The conditions on the filled definitions leave one outcome. */
  lemma FilledIsDetermined(x: Projection, y: Projection, p: Projection, limit: int, tokens: Tokens)
    requires Filled(x, p, limit, tokens) && Filled(y, p, limit, tokens)
    ensures x == y
  {
    if p.agent.Some? {
      AgentIsDetermined(x.agent.value, y.agent.value, p.agent.value, a => Total(Some(a), MinimalGame(p.game), tokens) <= limit);
    }
    assert x.agent == y.agent;
    if p.game.Some? { GameIsDetermined(x.game.value, y.game.value, p.game.value, g => Total(x.agent, Some(g), tokens) <= limit); }
  }

  lemma AgentIsDetermined(x: AgentDefinition, y: AgentDefinition, source: AgentDefinition, fits: AgentDefinition -> bool)
    requires AgentFilled(x, source, fits) && AgentFilled(y, source, fits)
    ensures x == y
  {
    var j: nat :| FilledTo(AgentAt(source), AgentSize(source), fits, j) && x == CutAgent(source, j);
    var k: nat :| FilledTo(AgentAt(source), AgentSize(source), fits, k) && y == CutAgent(source, k);
    FilledOnce(AgentAt(source), AgentSize(source), fits, j, k);
  }

  lemma GameIsDetermined(x: GameDefinition, y: GameDefinition, source: GameDefinition, fits: GameDefinition -> bool)
    requires GameFilled(x, source, fits) && GameFilled(y, source, fits)
    ensures x == y
  {
    var j: nat :| FilledTo(GameAt(source), GameSize(source), fits, j) && x == CutGame(source, j);
    var k: nat :| FilledTo(GameAt(source), GameSize(source), fits, k) && y == CutGame(source, k);
    FilledOnce(GameAt(source), GameSize(source), fits, j, k);
  }
}

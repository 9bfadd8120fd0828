/** The displayable text of a history document: which string leaves are listed, under which paths. */
module HistoryText {
  import opened Wrappers
  import opened JsonTree
  import Pointer

  /** A listed text; its path is printed from the tokens. */
  datatype Field = Field(tokens: seq<string>, actor: string, kind: string, text: string)
  {
    function Path(): string { Pointer.Print(tokens) }
  }

  // ---------------------------------------------------------------- reading the document

  function Get(v: Json, key: string): Json {
    if v.Obj? && IndexOfKey(v.members, key).Some? then v.members[IndexOfKey(v.members, key).value].value else Null
  }

  function Items(v: Json): seq<Json> { if v.Arr? then v.items else [] }

  function TextOf(v: Json): string { if v.Str? then v.text else "" }

  /** Every non-empty string under `v`, which is found at `at`. */
  function Leaves(v: Json, at: seq<string>, kind: string): seq<Field>
    decreases v, Size(v) + 1
  {
    if v.Str? then (if v.text == "" then [] else [Field(at, "", kind, v.text)]) else LeavesUpTo(v, Size(v), at, kind)
  }

  function LeavesUpTo(v: Json, n: nat, at: seq<string>, kind: string): seq<Field>
    requires n <= Size(v)
    decreases v, n
  {
    if n == 0 then []
    else LeavesUpTo(v, n - 1, at, kind) + Leaves(Kid(v, n - 1), at + [Token(v, n - 1)], kind)
  }

  function FactFields(facts: seq<Json>, at: seq<string>): seq<Field> {
    if facts == [] then []
    else
      var n := |facts| - 1;
      var text := TextOf(Get(facts[n], "Text"));
      FactFields(facts[..n], at) +
      (if text == "" then []
       else [Field(at + [Pointer.Digits(n)] + ["Text"], TextOf(Get(facts[n], "ActorEntityID")), TextOf(Get(facts[n], "Kind")), text)])
  }

  function CallFields(calls: seq<Json>, at: seq<string>): seq<Field> {
    if calls == [] then []
    else
      var n := |calls| - 1;
      CallFields(calls[..n], at) + Leaves(Get(calls[n], "Arguments"), at + [Pointer.Digits(n)] + ["Arguments"], "tool_argument")
  }

  function ExecutionText(execution: Json, at: seq<string>): seq<Field> {
    var result := Get(execution, "action_result");
    Leaves(Get(Get(execution, "call"), "Arguments"), at + ["call"] + ["Arguments"], "tool_argument") +
    (Leaves(Get(result, "output"), at + ["action_result"] + ["output"], "action_output") +
     Leaves(Get(result, "error"), at + ["action_result"] + ["error"], "action_error"))
  }

  function ExecutionFields(executions: seq<Json>, at: seq<string>): seq<Field> {
    if executions == [] then []
    else
      var n := |executions| - 1;
      ExecutionFields(executions[..n], at) + ExecutionText(executions[n], at + [Pointer.Digits(n)])
  }

  function StepText(step: Json, at: seq<string>): seq<Field> {
    CallFields(Items(Get(Get(step, "decision"), "ToolCalls")), at + ["decision"] + ["ToolCalls"]) +
    ExecutionFields(Items(Get(step, "executions")), at + ["executions"])
  }

  function StepFields(steps: seq<Json>, at: seq<string>): seq<Field> {
    if steps == [] then []
    else
      var n := |steps| - 1;
      StepFields(steps[..n], at) + StepText(steps[n], at + [Pointer.Digits(n)])
  }

  function ReasonField(root: Json): seq<Field> {
    var reason := TextOf(Get(Get(root, "task_result"), "reason"));
    if reason == "" then [] else [Field(["task_result", "reason"], "", "task_result", reason)]
  }

  function TextFields(root: Json): seq<Field> {
    FactFields(Items(Get(Get(root, "event"), "facts")), ["event", "facts"]) +
    FactFields(Items(Get(Get(root, "legacy"), "SourceContextFacts")), ["legacy", "SourceContextFacts"]) +
    ReasonField(root) +
    StepFields(Items(Get(root, "steps")), ["steps"])
  }

  // ---------------------------------------------------------------- where texts are

  /** The node at these tokens is `v`. */
  ghost predicate Reaches(root: Json, tokens: seq<string>, v: Json) {
    exists a: Address :: At(root, a) == Some(v) && TokensAt(root, a) == tokens
  }

  /** `Null` stands for what a lookup did not find. */
  ghost predicate Found(root: Json, tokens: seq<string>, v: Json) { v.Null? || Reaches(root, tokens, v) }

  lemma {:induction false} TokensDeeper(root: Json, a: Address, i: nat)
    requires At(root, a).Some? && i < Size(At(root, a).value)
    ensures At(root, a + [i]) == Some(Kid(At(root, a).value, i))
    ensures TokensAt(root, a + [i]) == TokensAt(root, a) + [Token(At(root, a).value, i)]
    decreases |a|
  {
    if a != [] {
      assert (a + [i])[1..] == a[1..] + [i];
      TokensDeeper(Kid(root, a[0]), a[1..], i);
    }
  }

  lemma ReachKid(root: Json, tokens: seq<string>, v: Json, i: nat)
    requires Reaches(root, tokens, v) && i < Size(v)
    ensures Reaches(root, tokens + [Token(v, i)], Kid(v, i))
  {
    var a: Address :| At(root, a) == Some(v) && TokensAt(root, a) == tokens;
    TokensDeeper(root, a, i);
  }

  lemma ReachGet(root: Json, tokens: seq<string>, v: Json, key: string)
    requires Found(root, tokens, v)
    ensures Found(root, tokens + [key], Get(v, key))
  {
    if v.Obj? && IndexOfKey(v.members, key).Some? { ReachKid(root, tokens, v, IndexOfKey(v.members, key).value); }
  }

  lemma ReachItem(root: Json, tokens: seq<string>, v: Json, i: nat)
    requires Found(root, tokens, v) && i < |Items(v)|
    ensures Found(root, tokens + [Pointer.Digits(i)], Items(v)[i])
  {
    ReachKid(root, tokens, v, i);
  }

  // ---------------------------------------------------------------- groups of fields

  /** Every field is a non-empty string at its own tokens. */
  ghost predicate Sound(root: Json, fields: seq<Field>) {
    forall f | f in fields :: f.text != "" && Reaches(root, f.tokens, Str(f.text))
  }

  predicate Unique(fields: seq<Field>) { forall i, j | 0 <= i < j < |fields| :: fields[i].tokens != fields[j].tokens }

  predicate Extends(tokens: seq<string>, at: seq<string>) { |at| <= |tokens| && tokens[..|at|] == at }

  /** Sound, unique fields below `at`. */
  ghost predicate Group(root: Json, fields: seq<Field>, at: seq<string>) {
    Sound(root, fields) && Unique(fields) && forall f | f in fields :: Extends(f.tokens, at)
  }

  /** Sound, unique fields below `at` whose next token is one of `names`. */
  ghost predicate Headed(root: Json, fields: seq<Field>, at: seq<string>, names: set<string>) {
    && Group(root, fields, at)
    && forall f | f in fields :: |f.tokens| > |at| && f.tokens[|at|] in names
  }

  lemma Head(root: Json, fields: seq<Field>, at: seq<string>, name: string)
    requires Group(root, fields, at + [name])
    ensures Headed(root, fields, at, {name})
  {
    forall f | f in fields ensures Extends(f.tokens, at) && |f.tokens| > |at| && f.tokens[|at|] == name {
      assert Extends(f.tokens, at + [name]);
      assert f.tokens[..|at| + 1][..|at|] == f.tokens[..|at|];
      assert f.tokens[..|at| + 1][|at|] == f.tokens[|at|];
    }
  }

  lemma Join(root: Json, a: seq<Field>, b: seq<Field>, at: seq<string>, names: set<string>, more: set<string>)
    requires Headed(root, a, at, names) && Headed(root, b, at, more) && names !! more
    ensures Headed(root, a + b, at, names + more)
  {
    forall i, j | 0 <= i < j < |a + b| ensures (a + b)[i].tokens != (a + b)[j].tokens {
      if i < |a| <= j {
        assert a[i] in a && b[j - |a|] in b;
      }
    }
  }

  /** The names of the first `n` indices. */
  function Indices(n: nat): set<string> { set i | 0 <= i < n :: Pointer.Digits(i) }

  lemma NewIndex(n: nat)
    ensures Pointer.Digits(n) !in Indices(n) && Indices(n + 1) == Indices(n) + {Pointer.Digits(n)}
  {
    Pointer.AtoiOfDigits(n);
    forall i | 0 <= i < n ensures Pointer.Digits(i) != Pointer.Digits(n) { Pointer.AtoiOfDigits(i); }
  }

  /** A list of numbered groups grows by one. */
  lemma JoinIndexed(root: Json, before: seq<Field>, next: seq<Field>, at: seq<string>, n: nat)
    requires Headed(root, before, at, Indices(n)) && Group(root, next, at + [Pointer.Digits(n)])
    ensures Headed(root, before + next, at, Indices(n + 1))
  {
    NewIndex(n);
    Head(root, next, at, Pointer.Digits(n));
    Join(root, before, next, at, Indices(n), {Pointer.Digits(n)});
  }

  function Names(v: Json, n: nat): set<string>
    requires n <= Size(v)
  {
    set i | 0 <= i < n :: Token(v, i)
  }

  lemma NewName(v: Json, n: nat)
    requires WellFormed(v) && n < Size(v)
    ensures Token(v, n) !in Names(v, n) && Names(v, n + 1) == Names(v, n) + {Token(v, n)}
  {
    StepOfToken(v, n);
    forall i | 0 <= i < n ensures Token(v, i) != Token(v, n) { StepOfToken(v, i); }
  }

  lemma {:induction false} LeavesGroup(root: Json, v: Json, at: seq<string>, kind: string)
    requires WellFormed(v) && Found(root, at, v)
    ensures Group(root, Leaves(v, at, kind), at)
    decreases v, Size(v) + 1
  {
    if !v.Str? { LeavesUpToHeaded(root, v, Size(v), at, kind); }
  }

  lemma {:induction false} LeavesUpToHeaded(root: Json, v: Json, n: nat, at: seq<string>, kind: string)
    requires WellFormed(v) && Found(root, at, v) && n <= Size(v)
    ensures Headed(root, LeavesUpTo(v, n, at, kind), at, Names(v, n))
    decreases v, n
  {
    if n > 0 {
      var below := at + [Token(v, n - 1)];
      ReachKid(root, at, v, n - 1);
      LeavesUpToHeaded(root, v, n - 1, at, kind);
      LeavesGroup(root, Kid(v, n - 1), below, kind);
      NewName(v, n - 1);
      var next := Leaves(Kid(v, n - 1), below, kind);
      Head(root, next, at, Token(v, n - 1));
      Join(root, LeavesUpTo(v, n - 1, at, kind), next, at, Names(v, n - 1), {Token(v, n - 1)});
    }
  }

  lemma WellFormedGet(v: Json, key: string)
    requires WellFormed(v)
    ensures WellFormed(Get(v, key)) && forall i | 0 <= i < |Items(v)| :: WellFormed(Items(v)[i])
  {
    if v.Obj? && IndexOfKey(v.members, key).Some? { assert WellFormed(Kid(v, IndexOfKey(v.members, key).value)); }
    forall i | 0 <= i < |Items(v)| ensures WellFormed(Items(v)[i]) { assert WellFormed(Kid(v, i)); }
  }

  /** A list of items found one by one below `at`. */
  ghost predicate FoundItems(root: Json, items: seq<Json>, at: seq<string>) {
    forall i | 0 <= i < |items| :: WellFormed(items[i]) && Found(root, at + [Pointer.Digits(i)], items[i])
  }

  lemma ItemsAreFound(root: Json, v: Json, at: seq<string>)
    requires WellFormed(v) && Found(root, at, v)
    ensures FoundItems(root, Items(v), at)
  {
    WellFormedGet(v, "");
    forall i | 0 <= i < |Items(v)| ensures Found(root, at + [Pointer.Digits(i)], Items(v)[i]) { ReachItem(root, at, v, i); }
  }

  lemma Down(root: Json, v: Json, at: seq<string>, key: string)
    requires WellFormed(v) && Found(root, at, v)
    ensures WellFormed(Get(v, key)) && Found(root, at + [key], Get(v, key))
  {
    WellFormedGet(v, key);
    ReachGet(root, at, v, key);
  }

  lemma {:induction false} FactsHeaded(root: Json, facts: seq<Json>, at: seq<string>)
    requires FoundItems(root, facts, at)
    ensures Headed(root, FactFields(facts, at), at, Indices(|facts|))
  {
    if facts != [] {
      var n := |facts| - 1;
      FactsHeaded(root, facts[..n], at);
      var below := at + [Pointer.Digits(n)];
      Down(root, facts[n], below, "Text");
      var text := TextOf(Get(facts[n], "Text"));
      var next := if text == "" then []
        else [Field(below + ["Text"], TextOf(Get(facts[n], "ActorEntityID")), TextOf(Get(facts[n], "Kind")), text)];
      assert Group(root, next, below + ["Text"]);
      Head(root, next, below, "Text");
      JoinIndexed(root, FactFields(facts[..n], at), next, at, n);
    }
  }

  lemma {:induction false} CallsHeaded(root: Json, calls: seq<Json>, at: seq<string>)
    requires FoundItems(root, calls, at)
    ensures Headed(root, CallFields(calls, at), at, Indices(|calls|))
  {
    if calls != [] {
      var n := |calls| - 1;
      CallsHeaded(root, calls[..n], at);
      var below := at + [Pointer.Digits(n)];
      Down(root, calls[n], below, "Arguments");
      LeavesGroup(root, Get(calls[n], "Arguments"), below + ["Arguments"], "tool_argument");
      var next := Leaves(Get(calls[n], "Arguments"), below + ["Arguments"], "tool_argument");
      Head(root, next, below, "Arguments");
      JoinIndexed(root, CallFields(calls[..n], at), next, at, n);
    }
  }

  lemma ExecutionGroup(root: Json, execution: Json, at: seq<string>)
    requires WellFormed(execution) && Found(root, at, execution)
    ensures Group(root, ExecutionText(execution, at), at)
  {
    Down(root, execution, at, "call");
    Down(root, Get(execution, "call"), at + ["call"], "Arguments");
    var arguments := Get(Get(execution, "call"), "Arguments");
    LeavesGroup(root, arguments, at + ["call"] + ["Arguments"], "tool_argument");
    var first := Leaves(arguments, at + ["call"] + ["Arguments"], "tool_argument");
    Head(root, first, at + ["call"], "Arguments");
    Head(root, first, at, "call");
    Down(root, execution, at, "action_result");
    var result, below := Get(execution, "action_result"), at + ["action_result"];
    Down(root, result, below, "output");
    Down(root, result, below, "error");
    LeavesGroup(root, Get(result, "output"), below + ["output"], "action_output");
    LeavesGroup(root, Get(result, "error"), below + ["error"], "action_error");
    var output := Leaves(Get(result, "output"), below + ["output"], "action_output");
    var error := Leaves(Get(result, "error"), below + ["error"], "action_error");
    Head(root, output, below, "output");
    Head(root, error, below, "error");
    assert "output"[0] != "error"[0] && "call"[0] != "action_result"[0];
    Join(root, output, error, below, {"output"}, {"error"});
    Head(root, output + error, at, "action_result");
    Join(root, first, output + error, at, {"call"}, {"action_result"});
  }

  lemma {:induction false} ExecutionsHeaded(root: Json, executions: seq<Json>, at: seq<string>)
    requires FoundItems(root, executions, at)
    ensures Headed(root, ExecutionFields(executions, at), at, Indices(|executions|))
  {
    if executions != [] {
      var n := |executions| - 1;
      ExecutionsHeaded(root, executions[..n], at);
      ExecutionGroup(root, executions[n], at + [Pointer.Digits(n)]);
      JoinIndexed(root, ExecutionFields(executions[..n], at), ExecutionText(executions[n], at + [Pointer.Digits(n)]), at, n);
    }
  }

  lemma StepGroup(root: Json, step: Json, at: seq<string>)
    requires WellFormed(step) && Found(root, at, step)
    ensures Group(root, StepText(step, at), at)
  {
    Down(root, step, at, "decision");
    Down(root, Get(step, "decision"), at + ["decision"], "ToolCalls");
    var below := at + ["decision"] + ["ToolCalls"];
    var calls := Get(Get(step, "decision"), "ToolCalls");
    ItemsAreFound(root, calls, below);
    CallsHeaded(root, Items(calls), below);
    Head(root, CallFields(Items(calls), below), at + ["decision"], "ToolCalls");
    Head(root, CallFields(Items(calls), below), at, "decision");
    Down(root, step, at, "executions");
    var executions := Get(step, "executions");
    ItemsAreFound(root, executions, at + ["executions"]);
    ExecutionsHeaded(root, Items(executions), at + ["executions"]);
    Head(root, ExecutionFields(Items(executions), at + ["executions"]), at, "executions");
    assert "decision"[0] != "executions"[0];
    Join(root, CallFields(Items(calls), below), ExecutionFields(Items(executions), at + ["executions"]), at,
         {"decision"}, {"executions"});
  }

  lemma {:induction false} StepsHeaded(root: Json, steps: seq<Json>, at: seq<string>)
    requires FoundItems(root, steps, at)
    ensures Headed(root, StepFields(steps, at), at, Indices(|steps|))
  {
    if steps != [] {
      var n := |steps| - 1;
      StepsHeaded(root, steps[..n], at);
      StepGroup(root, steps[n], at + [Pointer.Digits(n)]);
      JoinIndexed(root, StepFields(steps[..n], at), StepText(steps[n], at + [Pointer.Digits(n)]), at, n);
    }
  }

  lemma FactListHeaded(root: Json, first: string, second: string)
    requires WellFormed(root)
    ensures Headed(root, FactFields(Items(Get(Get(root, first), second)), [first, second]), [], {first})
  {
    assert At(root, []) == Some(root) && TokensAt(root, []) == [];
    Down(root, root, [], first);
    assert [] + [first] == [first] && [first] + [second] == [first, second];
    Down(root, Get(root, first), [first], second);
    var facts := Get(Get(root, first), second);
    ItemsAreFound(root, facts, [first, second]);
    FactsHeaded(root, Items(facts), [first, second]);
    Head(root, FactFields(Items(facts), [first, second]), [first], second);
    Head(root, FactFields(Items(facts), [first, second]), [], first);
  }

  lemma TwoDown(root: Json, first: string, second: string)
    requires WellFormed(root)
    ensures Found(root, [first] + [second], Get(Get(root, first), second))
  {
    assert At(root, []) == Some(root) && TokensAt(root, []) == [];
    Down(root, root, [], first);
    assert [] + [first] == [first];
    Down(root, Get(root, first), [first], second);
  }

  lemma OneField(root: Json, f: Field, v: Json)
    requires Found(root, f.tokens, v) && f.text == TextOf(v) != ""
    ensures Group(root, [f], f.tokens)
  {
  }

  lemma ReasonHeaded(root: Json)
    requires WellFormed(root)
    ensures Headed(root, ReasonField(root), [], {"task_result"})
  {
    TwoDown(root, "task_result", "reason");
    assert ["task_result"] + ["reason"] == ["task_result", "reason"] && [] + ["task_result"] == ["task_result"];
    if ReasonField(root) != [] { OneField(root, ReasonField(root)[0], Get(Get(root, "task_result"), "reason")); }
    Head(root, ReasonField(root), ["task_result"], "reason");
    Head(root, ReasonField(root), [], "task_result");
  }

  function TopNames(): set<string> { {"event"} + {"legacy"} + {"task_result"} + {"steps"} }

  lemma TopNamesDiffer()
    ensures {"event"} !! {"legacy"} && {"event"} + {"legacy"} !! {"task_result"}
    ensures {"event"} + {"legacy"} + {"task_result"} !! {"steps"}
  {
    assert "event"[0] != "legacy"[0] && "event"[0] != "task_result"[0] && "legacy"[0] != "task_result"[0];
    assert "steps"[0] != "event"[0] && "steps"[0] != "legacy"[0] && "steps"[0] != "task_result"[0];
  }

  lemma AllStepsHeaded(root: Json)
    requires WellFormed(root)
    ensures Headed(root, StepFields(Items(Get(root, "steps")), ["steps"]), [], {"steps"})
  {
    assert At(root, []) == Some(root) && TokensAt(root, []) == [];
    Down(root, root, [], "steps");
    assert [] + ["steps"] == ["steps"];
    ItemsAreFound(root, Get(root, "steps"), ["steps"]);
    StepsHeaded(root, Items(Get(root, "steps")), ["steps"]);
    Head(root, StepFields(Items(Get(root, "steps")), ["steps"]), [], "steps");
  }

  /** Every listed field is a non-empty string of the document, found at its own tokens; no two
      fields share their tokens. */
  lemma FieldsAreDistinctLeaves(root: Json)
    requires WellFormed(root)
    ensures Headed(root, TextFields(root), [], TopNames())
  {
    FactListHeaded(root, "event", "facts");
    FactListHeaded(root, "legacy", "SourceContextFacts");
    ReasonHeaded(root);
    AllStepsHeaded(root);
    var events := FactFields(Items(Get(Get(root, "event"), "facts")), ["event", "facts"]);
    var legacy := FactFields(Items(Get(Get(root, "legacy"), "SourceContextFacts")), ["legacy", "SourceContextFacts"]);
    TopNamesDiffer();
    Join(root, events, legacy, [], {"event"}, {"legacy"});
    Join(root, events + legacy, ReasonField(root), [], {"event"} + {"legacy"}, {"task_result"});
    Join(root, events + legacy + ReasonField(root), StepFields(Items(Get(root, "steps")), ["steps"]), [],
         {"event"} + {"legacy"} + {"task_result"}, {"steps"});
  }

  /** Distinct listed fields have distinct printed paths. */
  lemma PathsAreDistinct(root: Json, i: nat, j: nat)
    requires WellFormed(root) && i < j < |TextFields(root)|
    ensures TextFields(root)[i].Path() != TextFields(root)[j].Path()
  {
    FieldsAreDistinctLeaves(root);
    Pointer.PrintIsInjective(TextFields(root)[i].tokens, TextFields(root)[j].tokens);
  }

  /** The collector misses no string below its starting point. */
  lemma {:induction false} LeavesAreComplete(v: Json, a: Address, at: seq<string>, kind: string)
    requires At(v, a).Some? && At(v, a).value.Str? && At(v, a).value.text != ""
    ensures Field(at + TokensAt(v, a), "", kind, At(v, a).value.text) in Leaves(v, at, kind)
    decreases |a|
  {
    if a == [] {
      assert at + TokensAt(v, a) == at;
    } else {
      var below := at + [Token(v, a[0])];
      LeavesAreComplete(Kid(v, a[0]), a[1..], below, kind);
      assert at + TokensAt(v, a) == below + TokensAt(Kid(v, a[0]), a[1..]);
      UpToHolds(v, Size(v), a[0], at, kind);
    }
  }

  lemma {:induction false} UpToHolds(v: Json, n: nat, i: nat, at: seq<string>, kind: string)
    requires i < n <= Size(v)
    ensures forall f | f in Leaves(Kid(v, i), at + [Token(v, i)], kind) :: f in LeavesUpTo(v, n, at, kind)
    decreases n
  {
    if i < n - 1 { UpToHolds(v, n - 1, i, at, kind); }
  }
}

/** Tool-call transcripts: causal grouping of calls with their results, and trimming to a token
    limit by whole groups. */
module Transcript {
  import opened Wrappers

  datatype Message = Message(content: string, calls: seq<string>, results: seq<string>)

  type Group = seq<Message>

  // ---------------------------------------------------------------- identifiers

  /** Unicode white space. */
  predicate Space(c: char) {
    var u := c as int;
    9 <= u <= 13 || 0x2000 <= u <= 0x200A || u in {0x20, 0x85, 0xA0, 0x1680, 0x2028, 0x2029, 0x202F, 0x205F, 0x3000}
  }

  function TrimLeft(s: string): string { if s != "" && Space(s[0]) then TrimLeft(s[1..]) else s }

  function TrimRight(s: string): string {
    if s != "" && Space(s[|s| - 1]) then TrimRight(s[..|s| - 1]) else s
  }

  function Trim(s: string): string { TrimRight(TrimLeft(s)) }

  function TrimAll(ids: seq<string>): (r: seq<string>)
    ensures |r| == |ids| && forall k | 0 <= k < |ids| :: r[k] == Trim(ids[k])
  {
    seq(|ids|, k requires 0 <= k < |ids| => Trim(ids[k]))
  }

  predicate Distinct(ids: seq<string>) { forall i, j | 0 <= i < j < |ids| :: ids[i] != ids[j] }

  /** The results answer the calls: one result for each call, whatever their order, and every
      call named by an identifier of its own. */
  predicate Answers(calls: seq<string>, results: seq<string>) {
    calls != [] && "" !in TrimAll(calls) && Distinct(TrimAll(calls))
    && multiset(TrimAll(results)) == multiset(TrimAll(calls))
  }

  function Elements(ids: seq<string>): set<string> { set id | id in ids }

  lemma {:induction false} DistinctSize(ids: seq<string>)
    requires Distinct(ids)
    ensures |Elements(ids)| == |ids|
    ensures forall id :: multiset(ids)[id] == if id in ids then 1 else 0
  {
    if ids != [] {
      var n := |ids| - 1;
      DistinctSize(ids[..n]);
      assert ids == ids[..n] + [ids[n]];
      assert Elements(ids) == Elements(ids[..n]) + {ids[n]};
    }
  }

  /** Distinct results drawn from as many distinct calls are a permutation of them. */
  lemma DistinctAnswers(calls: seq<string>, results: seq<string>)
    requires Distinct(calls) && Distinct(results) && |calls| == |results|
    requires forall id | id in results :: id in calls
    ensures multiset(results) == multiset(calls)
  {
    DistinctSize(calls);
    DistinctSize(results);
    assert Elements(results) <= Elements(calls);
    SubsetOfSameSize(Elements(results), Elements(calls));
    assert forall id :: id in results <==> id in Elements(results);
    assert forall id :: id in calls <==> id in Elements(calls);
    assert forall id :: multiset(results)[id] == multiset(calls)[id];
  }

  lemma SubsetOfSameSize(a: set<string>, b: set<string>)
    requires a <= b && |a| == |b|
    ensures a == b
  {
    assert |b - a| == |b| - |a|;
  }

  lemma RepeatCounted(ids: seq<string>, i: nat, j: nat)
    requires i < j < |ids| && ids[i] == ids[j]
    ensures multiset(ids)[ids[i]] >= 2
  {
    assert ids == ids[..i] + [ids[i]] + ids[i + 1..j] + [ids[j]] + ids[j + 1..];
  }

  lemma PermutationOfDistinct(calls: seq<string>, results: seq<string>)
    requires Distinct(calls) && multiset(results) == multiset(calls)
    ensures |results| == |calls| && Distinct(results) && forall id | id in results :: id in calls
  {
    assert |results| == |multiset(results)| == |calls|;
    DistinctSize(calls);
    forall i, j | 0 <= i < j < |results| ensures results[i] != results[j] {
      if results[i] == results[j] { RepeatCounted(results, i, j); }
    }
    forall id | id in results ensures id in calls {
      assert id in multiset(results);
    }
  }

  /** Collects the trimmed ids; false at the first blank, repeated or (when `among` is given)
      foreign one. */
  method CollectIds(ids: seq<string>, among: Option<set<string>>) returns (seen: set<string>, ok: bool)
    ensures ok <==> "" !in TrimAll(ids) && Distinct(TrimAll(ids))
                    && (among.Some? ==> forall id | id in TrimAll(ids) :: id in among.value)
    ensures ok ==> seen == Elements(TrimAll(ids))
  {
    seen := {};
    var trimmed := TrimAll(ids);
    for k := 0 to |ids|
      invariant seen == Elements(trimmed[..k]) && "" !in trimmed[..k] && Distinct(trimmed[..k])
      invariant among.Some? ==> forall id | id in trimmed[..k] :: id in among.value
    {
      var id := trimmed[k];
      if id == "" || id in seen || (among.Some? && id !in among.value) {
        assert id in trimmed;
        return seen, false;
      }
      seen := seen + {id};
      assert trimmed[..k + 1] == trimmed[..k] + [id];
    }
    assert trimmed[..|ids|] == trimmed;
    return seen, true;
  }

  /** What the matching loop checks amounts to being a permutation. */
  lemma AnswersIff(calls: seq<string>, results: seq<string>)
    ensures var c, r := TrimAll(calls), TrimAll(results);
            Answers(calls, results) <==>
              && calls != [] && |calls| == |results|
              && "" !in c && Distinct(c) && "" !in r && Distinct(r)
              && forall id | id in r :: id in Elements(c)
  {
    var c, r := TrimAll(calls), TrimAll(results);
    if Answers(calls, results) {
      PermutationOfDistinct(c, r);
    } else if |calls| == |results| && Distinct(c) && Distinct(r) && forall id | id in r :: id in Elements(c) {
      DistinctAnswers(c, r);
    }
  }

  method ToolResultsMatchCalls(calls: seq<string>, results: seq<string>) returns (matched: bool)
    ensures matched <==> Answers(calls, results)
  {
    AnswersIff(calls, results);
    if calls == [] || |calls| != |results| { return false; }
    var seen, distinct := CollectIds(calls, None);
    if !distinct { return false; }
    var answered, matching := CollectIds(results, Some(seen));
    if !matching { return false; }
    DistinctSize(TrimAll(calls));
    DistinctSize(TrimAll(results));
    return |answered| == |seen|;
  }

  // ---------------------------------------------------------------- grouping

  predicate ValidGroup(g: Group) {
    || (|g| == 1 && g[0].calls == [] && g[0].results == [])
    || (|g| == 2 && g[0].calls != [] && g[1].calls == [] && g[1].results != [] && Answers(g[0].calls, g[1].results))
  }

  predicate AllValid(groups: seq<Group>) { forall k | 0 <= k < |groups| :: ValidGroup(groups[k]) }

  function Flatten(groups: seq<Group>): seq<Message> {
    if groups == [] then [] else groups[0] + Flatten(groups[1..])
  }

  /** The size of the group that starts a transcript, if one does. */
  function HeadGroup(messages: seq<Message>): (n: nat)
    requires messages != []
    ensures n <= |messages|
    ensures n > 0 ==> ValidGroup(messages[..n])
  {
    if messages[0].calls == [] then if messages[0].results == [] then 1 else 0
    else if |messages| > 1 && messages[1].results != [] && messages[1].calls == []
         && Answers(messages[0].calls, messages[1].results) then 2
    else 0
  }

  function Grouped(messages: seq<Message>): Option<seq<Group>>
    decreases |messages|
  {
    if messages == [] then Some([])
    else
      var n := HeadGroup(messages);
      if n == 0 then None
      else
        var rest := Grouped(messages[n..]);
        if rest.None? then None else Some([messages[..n]] + rest.value)
  }

  lemma GroupedCons(messages: seq<Message>, done: seq<Group>)
    requires messages != [] && HeadGroup(messages) > 0
    ensures var n := HeadGroup(messages); var rest := Grouped(messages[n..]);
            (Grouped(messages).None? <==> rest.None?)
            && (rest.Some? ==> done + Grouped(messages).value == done + [messages[..n]] + rest.value)
  {
  }

  method CausalGroups(messages: seq<Message>) returns (groups: Option<seq<Group>>)
    ensures groups == Grouped(messages)
  {
    var done: seq<Group> := [];
    var i := 0;
    assert messages[0..] == messages;
    assert Grouped(messages).Some? ==> done + Grouped(messages).value == Grouped(messages).value;
    while i < |messages|
      invariant i <= |messages|
      invariant Grouped(messages).None? <==> Grouped(messages[i..]).None?
      invariant Grouped(messages[i..]).Some? ==> Grouped(messages) == Some(done + Grouped(messages[i..]).value)
    {
      var m := messages[i];
      if m.calls == [] {
        if m.results != [] { return None; }
        assert messages[i..][..1] == [m] && messages[i..][1..] == messages[i + 1..];
        GroupedCons(messages[i..], done);
        done := done + [[m]];
        i := i + 1;
        continue;
      }
      if i + 1 >= |messages| { return None; }
      var r := messages[i + 1];
      if r.results == [] || r.calls != [] { return None; }
      var matched := ToolResultsMatchCalls(m.calls, r.results);
      if !matched { return None; }
      assert messages[i..][..2] == [m, r] && messages[i..][2..] == messages[i + 2..];
      GroupedCons(messages[i..], done);
      done := done + [[m, r]];
      i := i + 2;
    }
    assert messages[i..] == [] && done + [] == done;
    return Some(done);
  }

  /** A valid group is recognised wherever it starts. */
  lemma HeadOfValid(g: Group, rest: seq<Message>)
    requires ValidGroup(g)
    ensures HeadGroup(g + rest) == |g| && (g + rest)[..|g|] == g && (g + rest)[|g|..] == rest
  {
  }

  /** Grouping is exact: a transcript is accepted with these groups if and only if they are valid
      and concatenate to it. So flattening gives the transcript back, and no other grouping exists. */
  lemma {:induction false} GroupedIff(messages: seq<Message>, groups: seq<Group>)
    ensures Grouped(messages) == Some(groups) <==> AllValid(groups) && Flatten(groups) == messages
    decreases |messages|, |groups|
  {
    if messages == [] {
      if groups != [] && AllValid(groups) { assert |Flatten(groups)| >= |groups[0]| > 0; }
    } else if groups != [] {
      if AllValid(groups) && Flatten(groups) == messages {
        HeadOfValid(groups[0], Flatten(groups[1..]));
        GroupedIff(messages[|groups[0]|..], groups[1..]);
        assert [groups[0]] + groups[1..] == groups;
      }
      if Grouped(messages) == Some(groups) {
        var n := HeadGroup(messages);
        GroupedIff(messages[n..], groups[1..]);
        assert AllValid(groups) by {
          forall k | 0 <= k < |groups| ensures ValidGroup(groups[k]) {
            if k > 0 { assert groups[k] == groups[1..][k - 1]; }
          }
        }
        assert messages == messages[..n] + messages[n..];
      }
    }
  }

  /** Regrouping any suffix of groups gives that suffix. */
  lemma RegroupSuffix(messages: seq<Message>, k: nat)
    requires Grouped(messages).Some? && k <= |Grouped(messages).value|
    ensures Grouped(Flatten(Grouped(messages).value[k..])) == Some(Grouped(messages).value[k..])
  {
    var groups := Grouped(messages).value;
    GroupedIff(messages, groups);
    GroupedIff(Flatten(groups[k..]), groups[k..]);
  }

  /** Appending a valid group keeps a transcript accepted; appending an invalid pair never does. */
  lemma {:induction false} GroupedAppendPair(messages: seq<Message>, call: Message, answer: Message)
    requires Grouped(messages).Some?
    requires call.calls != [] && answer.calls == [] && answer.results != []
    ensures Grouped(messages + [call, answer]).Some? <==> Answers(call.calls, answer.results)
    decreases |messages|
  {
    var all := messages + [call, answer];
    if messages == [] {
      assert all == [call, answer];
      assert all[2..] == [];
    } else {
      var n := HeadGroup(messages);
      assert HeadGroup(all) == n;
      assert all[n..] == messages[n..] + [call, answer];
      GroupedAppendPair(messages[n..], call, answer);
    }
  }

  /** Calls without an answer are never accepted. */
  lemma {:induction false} GroupedAppendCall(messages: seq<Message>, call: Message)
    requires Grouped(messages).Some? && call.calls != []
    ensures Grouped(messages + [call]).None?
    decreases |messages|
  {
    var all := messages + [call];
    if messages == [] {
      assert all == [call];
    } else {
      var n := HeadGroup(messages);
      assert HeadGroup(all) == n;
      assert all[n..] == messages[n..] + [call];
      GroupedAppendCall(messages[n..], call);
    }
  }

  // ---------------------------------------------------------------- trimming

  function Cost(groups: seq<Group>, cost: Group -> nat): nat {
    if groups == [] then 0 else cost(groups[0]) + Cost(groups[1..], cost)
  }

  lemma {:induction false} CostSuffix(groups: seq<Group>, cost: Group -> nat, s: nat, t: nat)
    requires s <= t <= |groups|
    ensures Cost(groups[t..], cost) <= Cost(groups[s..], cost)
    decreases t - s
  {
    if s < t {
      CostSuffix(groups, cost, s + 1, t);
      assert groups[s..][1..] == groups[s + 1..];
    }
  }

  datatype Trimmed = Kept(messages: seq<Message>, dropped: nat) | OverBudget(dropped: nat)

  /** The first group kept is `start`: everything from it on fits, one group more would not. */
  ghost predicate Longest(groups: seq<Group>, cost: Group -> nat, limit: int, start: nat) {
    start <= |groups| && Cost(groups[start..], cost) <= limit
    && forall s: nat | s < start :: Cost(groups[s..], cost) > limit
  }

  method TrimGroups(groups: seq<Group>, cost: Group -> nat, limit: int) returns (trimmed: Trimmed)
    ensures trimmed.OverBudget? <==> groups != [] && limit > 0 && cost(groups[|groups| - 1]) > limit
    ensures trimmed.OverBudget? ==> trimmed.dropped == |Flatten(groups)|
    ensures limit <= 0 ==> trimmed == Kept(Flatten(groups), 0)
    ensures limit > 0 && trimmed.Kept? ==>
              exists start: nat :: Longest(groups, cost, limit, start)
                                   && trimmed == Kept(Flatten(groups[start..]), |Flatten(groups[..start])|)
    ensures limit > 0 && trimmed.Kept? && groups != [] && AllValid(groups) ==> trimmed.messages != []
  {
    if groups == [] {
      assert Longest(groups, cost, limit, 0) || limit <= 0;
      assert Flatten(groups) == [] && groups[0..] == groups && groups[..0] == [];
      return Kept([], 0);
    }
    if limit <= 0 { return Kept(Flatten(groups), 0); }
    var start, total := |groups|, 0;
    var i := |groups|;
    while i > 0
      invariant 0 <= i <= |groups| && start == i
      invariant total == Cost(groups[start..], cost) <= limit
      decreases i
    {
      var tokens := cost(groups[i - 1]);
      assert groups[i - 1..][1..] == groups[i..];
      if total + tokens > limit {
        if start == |groups| {
          return OverBudget(|Flatten(groups)|);
        }
        break;
      }
      i := i - 1;
      start, total := i, total + tokens;
    }
    forall s: nat | s < start ensures Cost(groups[s..], cost) > limit {
      CostSuffix(groups, cost, s, start - 1);
    }
    LastFits(groups, cost, start);
    assert Longest(groups, cost, limit, start);
    assert groups[start..] != [] && groups[start..][0] == groups[start];
    return Kept(Flatten(groups[start..]), |Flatten(groups[..start])|);
  }

  lemma LastFits(groups: seq<Group>, cost: Group -> nat, start: nat)
    requires start < |groups|
    ensures cost(groups[|groups| - 1]) <= Cost(groups[start..], cost)
  {
    CostSuffix(groups, cost, start, |groups| - 1);
    assert groups[|groups| - 1..] == [groups[|groups| - 1]];
    assert groups[|groups| - 1..][1..] == [];
  }

  lemma {:induction false} FlattenSplit(groups: seq<Group>, k: nat)
    requires k <= |groups|
    ensures Flatten(groups) == Flatten(groups[..k]) + Flatten(groups[k..])
  {
    if k == 0 {
      assert groups[0..] == groups;
    } else {
      assert groups[..k][1..] == groups[1..][..k - 1] && groups[k..] == groups[1..][k - 1..];
      FlattenSplit(groups[1..], k - 1);
    }
  }

  /** Trimming an accepted transcript loses no message: what is dropped and what is kept are the
      transcript, and what is kept is itself accepted. */
  lemma TrimConserves(messages: seq<Message>, start: nat)
    requires Grouped(messages).Some? && start <= |Grouped(messages).value|
    ensures var groups := Grouped(messages).value;
            messages == Flatten(groups[..start]) + Flatten(groups[start..])
            && Grouped(Flatten(groups[start..])).Some?
  {
    GroupedIff(messages, Grouped(messages).value);
    FlattenSplit(Grouped(messages).value, start);
    RegroupSuffix(messages, start);
  }
}

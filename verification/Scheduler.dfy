/** The tool batch scheduler: validation of a whole batch, bounded parallel groups whose calls
    complete in any order, and barriers between groups. */
module Scheduler {
  import opened Wrappers
  import T = Transcript

  datatype Kind = RuntimeTool | EnvironmentTool
  datatype Entry = Entry(kind: Kind, parallelSafe: bool, async: bool, exclusive: bool, settles: bool)
  datatype Call = Call(id: string, name: string, malformed: bool, missing: bool)

  datatype Status = Succeeded | Invalid | Skipped | Rejected | Failing | Cancelling | Interrupted
  datatype Code = NoCode | DuplicateId | NotRegistered | ExclusiveBatch | AsyncBatch | InvalidJson | MissingArguments
                | InvalidArguments | RequestInvalid | AsyncLimit | ValidationFailed | PriorGroupFailed
  datatype Result = Result(callId: string, name: string, status: Status, code: Code)

  /** How one started call ends: with a terminal status, or with a technical error. */
  datatype Error = Cancelled(id: nat) | Technical(id: nat)
  datatype Attempt = Answered(status: Status) | Broke(error: Error)

  datatype Planned = Planned(index: nat, call: Call, entry: Entry)

  datatype Rules = Rules(view: map<string, Entry>, schemaOk: Call -> bool, requestOk: Call -> bool, asyncFull: bool)

  // ---------------------------------------------------------------- validation of the batch

  predicate Repeats(calls: seq<Call>, i: nat)
    requires i < |calls|
  {
    T.Trim(calls[i].id) != "" && exists j :: 0 <= j < |calls| && j != i && T.Trim(calls[j].id) == T.Trim(calls[i].id)
  }

  /** Why a call may not run in this batch; NoCode when it may. */
  function Verdict(rules: Rules, calls: seq<Call>, i: nat): (code: Code)
    requires i < |calls|
    ensures code == NoCode ==> calls[i].name in rules.view
  {
    var call := calls[i];
    if Repeats(calls, i) then DuplicateId
    else if call.name !in rules.view then NotRegistered
    else
      var entry := rules.view[call.name];
      if entry.exclusive && |calls| > 1 then ExclusiveBatch
      else if entry.async && |calls| > 1 then AsyncBatch
      else if call.malformed then InvalidJson
      else if call.missing then MissingArguments
      else if !rules.schemaOk(call) then InvalidArguments
      else if entry.kind.EnvironmentTool? && !rules.requestOk(call) then RequestInvalid
      else if entry.async && rules.asyncFull then AsyncLimit
      else NoCode
  }

  predicate BatchValid(rules: Rules, calls: seq<Call>) {
    forall i: nat | i < |calls| :: Verdict(rules, calls, i) == NoCode
  }

  function PlanOf(rules: Rules, calls: seq<Call>): (plan: seq<Planned>)
    requires forall i: nat | i < |calls| :: calls[i].name in rules.view
    ensures |plan| == |calls|
    ensures forall i | 0 <= i < |calls| :: plan[i] == Planned(i, calls[i], rules.view[calls[i].name])
  {
    seq(|calls|, i requires 0 <= i < |calls| => Planned(i, calls[i], rules.view[calls[i].name]))
  }

  method Preflight(rules: Rules, calls: seq<Call>) returns (plan: seq<Planned>, results: seq<Result>, failed: bool)
    ensures failed <==> !BatchValid(rules, calls)
    ensures !failed ==> |plan| == |calls| && results == []
                        && forall i: nat | i < |calls| :: calls[i].name in rules.view
                                                     && plan[i] == Planned(i, calls[i], rules.view[calls[i].name])
    ensures failed ==> plan == [] && |results| == |calls|
    ensures failed ==> forall i: nat | i < |calls| :: results[i] == Refusal(rules, calls, i)
  {
    plan, results, failed := [], [], false;
    for i := 0 to |calls|
      invariant |results| == i
      invariant failed <==> exists k: nat :: k < i && Verdict(rules, calls, k) != NoCode
      invariant forall k: nat | k < i && Verdict(rules, calls, k) != NoCode :: results[k] == Refusal(rules, calls, k)
      invariant !failed ==> |plan| == i && forall k: nat | k < i ::
                  calls[k].name in rules.view && plan[k] == Planned(k, calls[k], rules.view[calls[k].name])
    {
      var code := Verdict(rules, calls, i);
      if code != NoCode {
        results := results + [Result(calls[i].id, calls[i].name, Invalid, code)];
        failed := true;
      } else {
        results := results + [Result("", "", Skipped, NoCode)];
        plan := plan + [Planned(i, calls[i], rules.view[calls[i].name])];
      }
    }
    if !failed { return plan, [], false; }
    results := FillSkipped(rules, calls, results);
    return [], results, true;
  }

  /** The result of call `i` in a batch that failed validation. */
  function Refusal(rules: Rules, calls: seq<Call>, i: nat): Result
    requires i < |calls|
  {
    var code := Verdict(rules, calls, i);
    if code != NoCode then Result(calls[i].id, calls[i].name, Invalid, code)
    else Result(calls[i].id, calls[i].name, Skipped, ValidationFailed)
  }

  method FillSkipped(rules: Rules, calls: seq<Call>, invalid: seq<Result>) returns (results: seq<Result>)
    requires |invalid| == |calls|
    requires forall k: nat | k < |calls| && Verdict(rules, calls, k) != NoCode :: invalid[k] == Refusal(rules, calls, k)
    ensures |results| == |calls| && forall k: nat | k < |calls| :: results[k] == Refusal(rules, calls, k)
  {
    results := invalid;
    for i := 0 to |calls|
      invariant |results| == |calls|
      invariant forall k: nat | k < |calls| && (k < i || Verdict(rules, calls, k) != NoCode) ::
                  results[k] == Refusal(rules, calls, k)
    {
      if Verdict(rules, calls, i) == NoCode {
        results := results[i := Result(calls[i].id, calls[i].name, Skipped, ValidationFailed)];
      }
    }
  }

  // ---------------------------------------------------------------- errors

  function Prefer(current: Option<Error>, candidate: Error): Option<Error> {
    if current.None? then Some(candidate)
    else if current.value.Cancelled? && !candidate.Cancelled? then Some(candidate)
    else current
  }

  function FoldErrors(errors: seq<Error>): Option<Error> {
    if errors == [] then None else Prefer(FoldErrors(errors[..|errors| - 1]), errors[|errors| - 1])
  }

  /** The reported error is the first one that is not a cancellation, else the first of all. */
  lemma {:induction false} ReportsFirstRealError(errors: seq<Error>)
    ensures errors == [] <==> FoldErrors(errors) == None
    ensures (forall e | e in errors :: e.Cancelled?) && errors != [] ==> FoldErrors(errors) == Some(errors[0])
    ensures forall k | 0 <= k < |errors| ::
              !errors[k].Cancelled? && (forall i | 0 <= i < k :: errors[i].Cancelled?) ==> FoldErrors(errors) == Some(errors[k])
  {
    if errors != [] {
      var n := |errors| - 1;
      ReportsFirstRealError(errors[..n]);
      assert forall i | 0 <= i < n :: errors[..n][i] == errors[i];
      forall k | 0 <= k < |errors| && !errors[k].Cancelled? && (forall i | 0 <= i < k :: errors[i].Cancelled?)
        ensures FoldErrors(errors) == Some(errors[k])
      {
        if k == n {
          assert forall e | e in errors[..n] :: e.Cancelled?;
        }
      }
    }
  }

  // ---------------------------------------------------------------- one parallel group

  /** What the group did, in order; positions are positions in the group. */
  datatype Act = Launched(at: nat) | Finished(at: nat)

  function Active(acts: seq<Act>): int {
    if acts == [] then 0
    else Active(acts[..|acts| - 1]) + (if acts[|acts| - 1].Launched? then 1 else -1)
  }

  function Finishes(acts: seq<Act>): seq<nat> {
    if acts == [] then []
    else Finishes(acts[..|acts| - 1]) + (if acts[|acts| - 1].Finished? then [acts[|acts| - 1].at] else [])
  }

  function Errors(outcomes: seq<Attempt>, order: seq<nat>): seq<Error>
    requires InRange(order, |outcomes|)
  {
    if order == [] then []
    else
      var a := outcomes[order[|order| - 1]];
      Errors(outcomes, order[..|order| - 1]) + (if a.Broke? then [a.error] else [])
  }

  predicate AllAnswered(outcomes: seq<Attempt>, order: seq<nat>) {
    forall i | 0 <= i < |order| :: order[i] < |outcomes| && outcomes[order[i]].Answered?
  }

  predicate InRange(order: seq<nat>, n: nat) { forall i | 0 <= i < |order| :: order[i] < n }

  function ResultOf(item: Planned, attempt: Attempt): Result
    requires attempt.Answered?
  {
    Result(item.call.id, item.call.name, attempt.status, NoCode)
  }

  predicate Completes(item: Planned, attempt: Attempt) {
    item.entry.kind.EnvironmentTool? && attempt == Answered(Succeeded)
  }

  /** The calls at the positions in `done` that completed an environment action, in call order. */
  function ActionsAmong(items: seq<Planned>, outcomes: seq<Attempt>, done: seq<nat>): seq<nat>
    requires |items| == |outcomes|
  {
    if items == [] then []
    else
      var n := |items| - 1;
      ActionsAmong(items[..n], outcomes[..n], done) +
      (if n in done && Completes(items[n], outcomes[n]) then [items[n].index] else [])
  }

  predicate Bounded(acts: seq<Act>, limit: int) {
    forall p | 0 <= p <= |acts| :: 0 <= Active(acts[..p]) <= limit
  }

  predicate QuietAfterError(outcomes: seq<Attempt>, acts: seq<Act>) {
    forall i, j | 0 <= i < j < |acts| ::
      acts[i].Finished? && acts[i].at < |outcomes| && outcomes[acts[i].at].Broke? ==> !acts[j].Launched?
  }

  lemma ActiveAppend(acts: seq<Act>, act: Act, limit: int)
    requires Bounded(acts, limit)
    requires 0 <= Active(acts) + (if act.Launched? then 1 else -1) <= limit
    ensures Bounded(acts + [act], limit)
    ensures Active(acts + [act]) == Active(acts) + (if act.Launched? then 1 else -1)
    ensures Finishes(acts + [act]) == Finishes(acts) + (if act.Finished? then [act.at] else [])
  {
    var next := acts + [act];
    assert next[..|acts|] == acts && next[..|next|] == next;
    forall p | 0 <= p <= |next| ensures 0 <= Active(next[..p]) <= limit {
      if p <= |acts| { assert next[..p] == acts[..p]; }
    }
  }

  /** The indices are the plan's own positions, so a group is a stretch of the call sequence. */
  predicate Stretch(group: seq<Planned>, start: nat) {
    forall k | 0 <= k < |group| :: group[k].index == start + k
  }

  /** Everything the receive loop maintains: `flying` is in flight, `order` has finished. */
  ghost predicate GroupState(outcomes: seq<Attempt>, limit: int, next: nat, flying: set<nat>, acts: seq<Act>) {
    && next <= |outcomes|
    && (forall i | 0 <= i < |Finishes(acts)| :: Finishes(acts)[i] < next && Finishes(acts)[i] !in flying)
    && (forall k | k in flying :: k < next)
    && (forall k: nat | k < next :: k in flying || k in Finishes(acts))
    && Active(acts) == |flying| <= limit
    && Bounded(acts, limit) && QuietAfterError(outcomes, acts)
  }

  predicate SomeFailed(outcomes: seq<Attempt>, order: seq<nat>)
    requires InRange(order, |outcomes|)
  {
    exists i :: 0 <= i < |order| && outcomes[order[i]].Answered? && outcomes[order[i]].status != Succeeded
  }

  /** Each call of `order` that was answered has its result in its own place, and nothing outside the group changed. */
  ghost predicate Written(group: seq<Planned>, outcomes: seq<Attempt>, start: nat, before: seq<Result>, order: seq<nat>, after: seq<Result>)
    requires |outcomes| == |group| && start + |group| <= |before| && InRange(order, |group|)
  {
    && |after| == |before|
    && (forall i | 0 <= i < |before| && !(start <= i < start + |group|) :: after[i] == before[i])
    && (forall i | 0 <= i < |order| && outcomes[order[i]].Answered? ::
          after[start + order[i]] == ResultOf(group[order[i]], outcomes[order[i]]))
  }

  lemma WriteStep(group: seq<Planned>, outcomes: seq<Attempt>, start: nat, before: seq<Result>, order: seq<nat>, after: seq<Result>, k: nat)
    requires |outcomes| == |group| && start + |group| <= |before| && k < |group| && k !in order && InRange(order, |group|)
    requires Written(group, outcomes, start, before, order, after)
    ensures InRange(order + [k], |group|)
    ensures if outcomes[k].Broke? then Written(group, outcomes, start, before, order + [k], after)
            else Written(group, outcomes, start, before, order + [k], after[start + k := ResultOf(group[k], outcomes[k])])
  {
    var next := order + [k];
    assert next[|order|] == k && forall i | 0 <= i < |order| :: next[i] == order[i];
  }

  /** What the receive loop has recorded once the calls in `order` have finished. */
  ghost predicate Recorded(group: seq<Planned>, outcomes: seq<Attempt>, start: nat, before: seq<Result>, order: seq<nat>,
                           after: seq<Result>, failed: bool, error: Option<Error>)
    requires |outcomes| == |group| && start + |group| <= |before|
  {
    && InRange(order, |group|) && Written(group, outcomes, start, before, order, after)
    && (failed <==> SomeFailed(outcomes, order))
    && (error == None <==> AllAnswered(outcomes, order))
    && error == FoldErrors(Errors(outcomes, order))
  }

  lemma RecordStep(group: seq<Planned>, outcomes: seq<Attempt>, start: nat, before: seq<Result>, order: seq<nat>,
                   after: seq<Result>, failed: bool, error: Option<Error>, k: nat)
    requires |outcomes| == |group| && start + |group| <= |before| && k < |group| && k !in order
    requires Recorded(group, outcomes, start, before, order, after, failed, error)
    ensures var attempt := outcomes[k];
            if attempt.Broke? then
              Recorded(group, outcomes, start, before, order + [k], after, failed, Prefer(error, attempt.error))
            else
              Recorded(group, outcomes, start, before, order + [k], after[start + k := ResultOf(group[k], attempt)],
                       failed || attempt.status != Succeeded, error)
  {
    ErrorsAppend(outcomes, order, k);
    FlagsAppend(outcomes, order, k);
    WriteStep(group, outcomes, start, before, order, after, k);
  }

  lemma FlagsAppend(outcomes: seq<Attempt>, order: seq<nat>, k: nat)
    requires k < |outcomes| && InRange(order, |outcomes|)
    ensures InRange(order + [k], |outcomes|)
    ensures AllAnswered(outcomes, order + [k]) <==> AllAnswered(outcomes, order) && outcomes[k].Answered?
    ensures SomeFailed(outcomes, order + [k]) <==>
              SomeFailed(outcomes, order) || (outcomes[k].Answered? && outcomes[k].status != Succeeded)
  {
    var next := order + [k];
    assert next[|order|] == k;
    assert forall i | 0 <= i < |order| :: next[i] == order[i];
  }

  function Limit(maxParallel: int): (limit: int)
    ensures limit > 0
  {
    if maxParallel <= 0 then 1 else maxParallel
  }

  /** The locals of a group's receive loop. */
  datatype GroupRun = GroupRun(next: nat, flying: set<nat>, acts: seq<Act>, after: seq<Result>, failed: bool, error: Option<Error>)

  ghost predicate RunOk(run: GroupRun, group: seq<Planned>, outcomes: seq<Attempt>, start: nat, before: seq<Result>, limit: int)
    requires |outcomes| == |group| && start + |group| <= |before|
  {
    && GroupState(outcomes, limit, run.next, run.flying, run.acts)
    && Recorded(group, outcomes, start, before, Finishes(run.acts), run.after, run.failed, run.error)
    && (run.error == None ==> |run.flying| == limit || run.next == |group|)
  }

  method RunParallelGroup(group: seq<Planned>, maxParallel: int, outcomes: seq<Attempt>, before: seq<Result>, start: nat)
    returns (run: GroupRun, actions: seq<nat>)
    requires group != [] && |outcomes| == |group| && Stretch(group, start) && start + |group| <= |before|
    ensures Bounded(run.acts, Limit(maxParallel)) && Active(run.acts) == 0
    ensures QuietAfterError(outcomes, run.acts)
    ensures Recorded(group, outcomes, start, before, Finishes(run.acts), run.after, run.failed, run.error)
    ensures run.error == None ==> forall k: nat | k < |group| :: k in Finishes(run.acts)
    ensures actions == ActionsAmong(group, outcomes, Finishes(run.acts))
  {
    var limit := Limit(maxParallel);
    run := Start(group, outcomes, start, before, limit);
    while run.flying != {}
      invariant RunOk(run, group, outcomes, start, before, limit)
      decreases |group| - run.next, |run.flying|
    {
      var k :| k in run.flying;
      run := Receive(run, group, outcomes, start, before, limit, k);
    }
    actions := ActionsAmong(group, outcomes, Finishes(run.acts));
  }

  method Start(group: seq<Planned>, outcomes: seq<Attempt>, start: nat, before: seq<Result>, limit: int) returns (run: GroupRun)
    requires limit > 0 && |outcomes| == |group| && start + |group| <= |before|
    ensures RunOk(run, group, outcomes, start, before, limit)
  {
    assert GroupState(outcomes, limit, 0, {}, []);
    var next, flying, acts := LaunchMore(limit, outcomes, 0, {}, []);
    run := GroupRun(next, flying, acts, before, false, None);
    assert Finishes(acts) == [] && Recorded(group, outcomes, start, before, [], before, false, None);
  }

  /** What one receive records: the finished call's result, or its error, at the call's own index. */
  function Recording(run: GroupRun, group: seq<Planned>, outcomes: seq<Attempt>, k: nat): GroupRun
    requires k < |group| == |outcomes| && group[k].index < |run.after|
  {
    var landed := run.(flying := run.flying - {k}, acts := run.acts + [Finished(k)]);
    if outcomes[k].Broke? then landed.(error := Prefer(run.error, outcomes[k].error))
    else landed.(after := run.after[group[k].index := ResultOf(group[k], outcomes[k])],
                 failed := run.failed || outcomes[k].status != Succeeded)
  }

  lemma RecordingFits(run: GroupRun, group: seq<Planned>, outcomes: seq<Attempt>, start: nat, before: seq<Result>, limit: int, k: nat)
    requires |outcomes| == |group| && Stretch(group, start) && start + |group| <= |before|
    requires RunOk(run, group, outcomes, start, before, limit) && k in run.flying
    ensures k < run.next <= |group| && group[k].index == start + k < |run.after|
  {
  }

  lemma RecordingOk(run: GroupRun, group: seq<Planned>, outcomes: seq<Attempt>, start: nat, before: seq<Result>, limit: int, k: nat)
    requires |outcomes| == |group| && Stretch(group, start) && start + |group| <= |before|
    requires RunOk(run, group, outcomes, start, before, limit) && k in run.flying
    ensures k < run.next <= |group| && group[k].index == start + k < |run.after|
    ensures var landed := Recording(run, group, outcomes, k);
            && GroupState(outcomes, limit, landed.next, landed.flying, landed.acts)
            && Recorded(group, outcomes, start, before, Finishes(landed.acts), landed.after, landed.failed, landed.error)
            && landed.next == run.next && |landed.flying| < |run.flying|
  {
    RecordingFits(run, group, outcomes, start, before, limit, k);
    FinishOne(outcomes, limit, run.next, run.flying, run.acts, k);
    RecordingRecords(run, group, outcomes, start, before, Finishes(run.acts), k);
  }

  lemma RecordingRecords(run: GroupRun, group: seq<Planned>, outcomes: seq<Attempt>, start: nat, before: seq<Result>, order: seq<nat>, k: nat)
    requires |outcomes| == |group| && start + |group| <= |before| && k < |group| && k !in order
    requires group[k].index == start + k < |run.after|
    requires Recorded(group, outcomes, start, before, order, run.after, run.failed, run.error)
    ensures var landed := Recording(run, group, outcomes, k);
            Recorded(group, outcomes, start, before, order + [k], landed.after, landed.failed, landed.error)
  {
    RecordStep(group, outcomes, start, before, order, run.after, run.failed, run.error, k);
  }

  /** One receive, after which the free slot is filled unless some call broke. */
  method Receive(run: GroupRun, group: seq<Planned>, outcomes: seq<Attempt>, start: nat, ghost before: seq<Result>, limit: int, k: nat)
    returns (next: GroupRun)
    requires limit > 0 && |outcomes| == |group| && Stretch(group, start) && start + |group| <= |before|
    requires RunOk(run, group, outcomes, start, before, limit) && k in run.flying
    ensures RunOk(next, group, outcomes, start, before, limit)
    ensures next.next > run.next || (next.next == run.next && |next.flying| < |run.flying|)
  {
    RecordingOk(run, group, outcomes, start, before, limit, k);
    next := Recording(run, group, outcomes, k);
    if next.error == None {
      var n, flying, acts := LaunchMore(limit, outcomes, next.next, next.flying, next.acts);
      next := next.(next := n, flying := flying, acts := acts);
    }
  }

  lemma FinishOne(outcomes: seq<Attempt>, limit: int, next: nat, flying: set<nat>, acts: seq<Act>, k: nat)
    requires GroupState(outcomes, limit, next, flying, acts) && k in flying
    ensures GroupState(outcomes, limit, next, flying - {k}, acts + [Finished(k)])
    ensures Finishes(acts + [Finished(k)]) == Finishes(acts) + [k] && k !in Finishes(acts)
    ensures k < next <= |outcomes| && |flying - {k}| < |flying|
  {
    ActiveAppend(acts, Finished(k), limit);
    assert |flying - {k}| == |flying| - 1;
  }

  lemma LaunchOne(outcomes: seq<Attempt>, limit: int, next: nat, flying: set<nat>, acts: seq<Act>)
    requires GroupState(outcomes, limit, next, flying, acts) && next < |outcomes| && |flying| < limit
    requires AllAnswered(outcomes, Finishes(acts))
    ensures GroupState(outcomes, limit, next + 1, flying + {next}, acts + [Launched(next)])
    ensures Finishes(acts + [Launched(next)]) == Finishes(acts)
  {
    ActiveAppend(acts, Launched(next), limit);
    FinishedIsListed(acts);
    assert next !in flying;
    assert QuietAfterError(outcomes, acts + [Launched(next)]) by {
      forall i | 0 <= i < |acts| && acts[i].Finished? && acts[i].at < |outcomes| ensures outcomes[acts[i].at].Answered? {
        assert acts[i].at in Finishes(acts);
      }
    }
  }

  /** Fills the free slots in call order; only called while no finished call broke. */
  method LaunchMore(limit: int, outcomes: seq<Attempt>, next0: nat, flying0: set<nat>, acts0: seq<Act>)
    returns (next: nat, flying: set<nat>, acts: seq<Act>)
    requires limit > 0 && GroupState(outcomes, limit, next0, flying0, acts0)
    requires AllAnswered(outcomes, Finishes(acts0))
    ensures GroupState(outcomes, limit, next, flying, acts) && next >= next0
    ensures Finishes(acts) == Finishes(acts0)
    ensures next == next0 ==> flying == flying0
    ensures |flying| == limit || next == |outcomes|
  {
    next, flying, acts := next0, flying0, acts0;
    while |flying| < limit && next < |outcomes|
      invariant GroupState(outcomes, limit, next, flying, acts) && next >= next0
      invariant Finishes(acts) == Finishes(acts0)
      invariant next == next0 ==> flying == flying0
    {
      LaunchOne(outcomes, limit, next, flying, acts);
      acts, flying, next := acts + [Launched(next)], flying + {next}, next + 1;
    }
  }

  lemma {:induction false} FinishedIsListed(acts: seq<Act>)
    ensures forall i | 0 <= i < |acts| && acts[i].Finished? :: acts[i].at in Finishes(acts)
  {
    if acts != [] {
      FinishedIsListed(acts[..|acts| - 1]);
    }
  }

  lemma ErrorsAppend(outcomes: seq<Attempt>, order: seq<nat>, k: nat)
    requires k < |outcomes| && InRange(order, |outcomes|)
    ensures InRange(order + [k], |outcomes|)
    ensures FoldErrors(Errors(outcomes, order + [k])) ==
            (if outcomes[k].Broke? then Prefer(FoldErrors(Errors(outcomes, order)), outcomes[k].error)
             else FoldErrors(Errors(outcomes, order)))
  {
    var next := order + [k];
    assert next[..|order|] == order && next[|order|] == k;
    var es := Errors(outcomes, order);
    if outcomes[k].Broke? {
      var e := outcomes[k].error;
      assert Errors(outcomes, next) == es + [e];
      assert (es + [e])[..|es|] == es;
    } else {
      assert Errors(outcomes, next) == es;
    }
  }

  // ---------------------------------------------------------------- the whole batch

  /** Where the group starting at `i` ends: a maximal stretch of parallel-safe calls, or one call. */
  function GroupEnd(plan: seq<Planned>, i: nat): (end: nat)
    requires i < |plan|
    ensures i < end <= |plan|
    decreases |plan| - i
  {
    if plan[i].entry.parallelSafe && i + 1 < |plan| && plan[i + 1].entry.parallelSafe then GroupEnd(plan, i + 1) else i + 1
  }

  predicate AllSucceed(attempts: seq<Attempt>, i: nat, end: nat)
    requires i <= end <= |attempts|
  {
    forall k | i <= k < end :: attempts[k] == Answered(Succeeded)
  }

  /** How many calls a batch starts: the groups up to and including the first with a call that
      does not succeed. */
  function RunLength(plan: seq<Planned>, attempts: seq<Attempt>, i: nat): (n: nat)
    requires |attempts| == |plan| && i <= |plan|
    ensures i <= n <= |plan|
    decreases |plan| - i
  {
    if i == |plan| then i
    else
      var end := GroupEnd(plan, i);
      if AllSucceed(attempts, i, end) then RunLength(plan, attempts, end) else end
  }

  function AllPositions(n: nat): seq<nat> { seq(n, i => i) }

  function Actions(items: seq<Planned>, outcomes: seq<Attempt>): seq<nat>
    requires |items| == |outcomes|
  {
    ActionsAmong(items, outcomes, AllPositions(|items|))
  }

  lemma {:induction false} ActionsDependOnMembership(items: seq<Planned>, outcomes: seq<Attempt>, a: seq<nat>, b: seq<nat>)
    requires |items| == |outcomes| && forall k: nat | k < |items| :: k in a <==> k in b
    ensures ActionsAmong(items, outcomes, a) == ActionsAmong(items, outcomes, b)
  {
    if items != [] {
      var n := |items| - 1;
      ActionsDependOnMembership(items[..n], outcomes[..n], a, b);
    }
  }

  /** Successful actions of consecutive stretches concatenate. */
  lemma {:induction false} ActionsConcat(items: seq<Planned>, outcomes: seq<Attempt>, mid: nat, done: seq<nat>)
    requires mid <= |items| == |outcomes|
    ensures Actions(items[..mid], outcomes[..mid]) + ActionsAmong(items[mid..], outcomes[mid..], done) ==
            ActionsAmong(items, outcomes, AllPositions(mid) + Shift(done, mid))
  {
    if |items| == mid {
      assert items[..mid] == items && outcomes[..mid] == outcomes;
      ActionsDependOnMembership(items, outcomes, AllPositions(mid), AllPositions(mid) + Shift(done, mid));
    } else {
      var n := |items| - 1;
      ActionsConcat(items[..n], outcomes[..n], mid, done);
      assert items[..n][..mid] == items[..mid] && outcomes[..n][..mid] == outcomes[..mid];
      RestActions(items, outcomes, mid, done);
      ShiftMembers(done, mid, n);
      assert n in AllPositions(mid) + Shift(done, mid) <==> n in Shift(done, mid);
    }
  }

  function LastAction(items: seq<Planned>, outcomes: seq<Attempt>, listed: bool): seq<nat>
    requires |items| == |outcomes| > 0
  {
    if listed && Completes(items[|items| - 1], outcomes[|items| - 1]) then [items[|items| - 1].index] else []
  }

  lemma RestActions(items: seq<Planned>, outcomes: seq<Attempt>, mid: nat, done: seq<nat>)
    requires mid < |items| == |outcomes|
    ensures var n := |items| - 1;
            ActionsAmong(items[mid..], outcomes[mid..], done) ==
            ActionsAmong(items[..n][mid..], outcomes[..n][mid..], done) + LastAction(items, outcomes, n - mid in done)
  {
    var n := |items| - 1;
    assert items[mid..][..n - mid] == items[..n][mid..] && outcomes[mid..][..n - mid] == outcomes[..n][mid..];
  }

  function Shift(done: seq<nat>, base: nat): seq<nat> { seq(|done|, i requires 0 <= i < |done| => done[i] + base) }

  lemma ShiftMembers(done: seq<nat>, base: nat, k: nat)
    requires k >= base
    ensures k in Shift(done, base) <==> k - base in done
  {
    if k - base in done {
      var i :| 0 <= i < |done| && done[i] == k - base;
      assert Shift(done, base)[i] == k;
    }
  }

  /** Actions are listed in call order, each the index of a call that completed. */
  lemma {:induction false} ActionsInCallOrder(items: seq<Planned>, outcomes: seq<Attempt>, done: seq<nat>)
    requires |items| == |outcomes| && Stretch(items, 0)
    ensures forall i, j | 0 <= i < j < |ActionsAmong(items, outcomes, done)| ::
              ActionsAmong(items, outcomes, done)[i] < ActionsAmong(items, outcomes, done)[j]
    ensures forall i | 0 <= i < |ActionsAmong(items, outcomes, done)| ::
              var a := ActionsAmong(items, outcomes, done)[i]; a < |items| && Completes(items[a], outcomes[a])
  {
    if items != [] {
      var n := |items| - 1;
      ActionsInCallOrder(items[..n], outcomes[..n], done);
    }
  }

  datatype Outcome = Outcome(results: seq<Result>, actions: seq<nat>, visibleFailure: bool, asyncStarted: bool)

  function SkippedResult(item: Planned): Result { Result(item.call.id, item.call.name, Skipped, PriorGroupFailed) }

  /** The outcome of a valid synchronous batch in which no started call breaks. It mentions neither
      the parallel limit nor the order in which calls complete. */
  function ExpectedOutcome(plan: seq<Planned>, attempts: seq<Attempt>): Outcome
    requires |attempts| == |plan|
    requires forall k | 0 <= k < RunLength(plan, attempts, 0) :: attempts[k].Answered?
  {
    var n := RunLength(plan, attempts, 0);
    Outcome(seq(|plan|, k requires 0 <= k < |plan| => if k < n then ResultOf(plan[k], attempts[k]) else SkippedResult(plan[k])),
            Actions(plan[..n], attempts[..n]), !AllSucceed(attempts, 0, n), false)
  }

  method FillPriorGroupSkipped(plan: seq<Planned>, from: nat, results: seq<Result>) returns (filled: seq<Result>)
    requires Stretch(plan, 0) && from <= |plan| == |results|
    ensures |filled| == |results|
    ensures forall k | 0 <= k < |results| :: filled[k] == if k < from then results[k] else SkippedResult(plan[k])
  {
    filled := results;
    for k := from to |plan|
      invariant |filled| == |results|
      invariant forall i | 0 <= i < |results| :: filled[i] == if from <= i < k then SkippedResult(plan[i]) else results[i]
    {
      filled := filled[plan[k].index := SkippedResult(plan[k])];
    }
  }

  /** What `RunPlan` has established when it reaches the group starting at `i`. */
  ghost predicate Progress(plan: seq<Planned>, attempts: seq<Attempt>, i: nat, results: seq<Result>, actions: seq<nat>)
    requires |attempts| == |plan|
  {
    && i <= |plan| == |results|
    && AllSucceed(attempts, 0, i)
    && RunLength(plan, attempts, 0) == RunLength(plan, attempts, i)
    && (forall k | 0 <= k < i :: results[k] == ResultOf(plan[k], attempts[k]))
    && actions == Actions(plan[..i], attempts[..i])
  }

  /** A group is entered only when every call before it succeeded, and `ran` counts the calls of
      the groups entered: no later call was started. */
  method RunPlan(plan: seq<Planned>, maxParallel: int, attempts: seq<Attempt>)
    returns (outcome: Outcome, error: Option<Error>, ran: nat)
    requires Stretch(plan, 0) && |attempts| == |plan|
    ensures ran == RunLength(plan, attempts, 0)
    ensures error == None <==> forall k | 0 <= k < ran :: attempts[k].Answered?
    ensures error == None ==> outcome == ExpectedOutcome(plan, attempts)
    ensures !outcome.asyncStarted
    ensures error != None ==> exists done: seq<nat> :: outcome.actions == ActionsAmong(plan[..ran], attempts[..ran], done)
  {
    var i := 0;
    var results := seq(|plan|, k => Result("", "", Skipped, NoCode));
    var actions: seq<nat> := [];
    assert Progress(plan, attempts, 0, results, actions);
    while i < |plan|
      invariant Progress(plan, attempts, i, results, actions)
      decreases |plan| - i
    {
      var end := GroupEnd(plan, i);
      var run, more := RunParallelGroupAt(plan, i, end, maxParallel, attempts, results);
      var all := actions + more;
      GroupActions(plan, attempts, i, end, Finishes(run.acts));
      if run.error != None {
        assert RunLength(plan, attempts, i) == end;
        return Outcome(run.after, all, false, false), run.error, end;
      }
      ActionsDependOnMembership(plan[..end], attempts[..end], AllPositions(i) + Shift(Finishes(run.acts), i), AllPositions(end));
      if run.failed {
        assert RunLength(plan, attempts, i) == end;
        results := FillPriorGroupSkipped(plan, end, run.after);
        ResultsAreExpected(plan, attempts, end, results);
        return Outcome(results, all, true, false), None, end;
      }
      i, results, actions := end, run.after, all;
    }
    assert plan[..|plan|] == plan && attempts[..|plan|] == attempts;
    ResultsAreExpected(plan, attempts, |plan|, results);
    return Outcome(results, actions, false, false), None, |plan|;
  }

  lemma ResultsAreExpected(plan: seq<Planned>, attempts: seq<Attempt>, ran: nat, results: seq<Result>)
    requires |attempts| == |plan| == |results| && ran == RunLength(plan, attempts, 0)
    requires forall k | 0 <= k < ran :: attempts[k].Answered? && results[k] == ResultOf(plan[k], attempts[k])
    requires forall k | ran <= k < |plan| :: results[k] == SkippedResult(plan[k])
    ensures ExpectedOutcome(plan, attempts).results == results
  {
  }

  lemma GroupActions(plan: seq<Planned>, attempts: seq<Attempt>, i: nat, end: nat, done: seq<nat>)
    requires |attempts| == |plan| && i <= end <= |plan|
    ensures Actions(plan[..i], attempts[..i]) + ActionsAmong(plan[i..end], attempts[i..end], done) ==
            ActionsAmong(plan[..end], attempts[..end], AllPositions(i) + Shift(done, i))
  {
    ActionsConcat(plan[..end], attempts[..end], i, done);
    assert plan[..end][..i] == plan[..i] && attempts[..end][..i] == attempts[..i];
    assert plan[..end][i..] == plan[i..end] && attempts[..end][i..] == attempts[i..end];
  }

  /** One group of the plan, with its results stated at the plan's own indices. */
  method RunParallelGroupAt(plan: seq<Planned>, i: nat, end: nat, maxParallel: int, attempts: seq<Attempt>, before: seq<Result>)
    returns (run: GroupRun, actions: seq<nat>)
    requires Stretch(plan, 0) && |attempts| == |plan| == |before| && i < end <= |plan|
    ensures |run.after| == |before| && forall k | 0 <= k < i :: run.after[k] == before[k]
    ensures run.error == None <==> forall k | i <= k < end :: attempts[k].Answered?
    ensures run.error == None ==>
              && (forall k | i <= k < end :: run.after[k] == ResultOf(plan[k], attempts[k]))
              && (run.failed <==> !AllSucceed(attempts, i, end))
              && (forall k: nat | k < end :: k in AllPositions(i) + Shift(Finishes(run.acts), i) <==> k in AllPositions(end))
    ensures actions == ActionsAmong(plan[i..end], attempts[i..end], Finishes(run.acts))
  {
    var group, outcomes := plan[i..end], attempts[i..end];
    run, actions := RunParallelGroup(group, maxParallel, outcomes, before, i);
    if run.error == None {
      AllShifted(Finishes(run.acts), i, end);
      Landed(plan, i, end, attempts, before, Finishes(run.acts), run.after, run.failed);
    } else {
      SomeBroke(attempts, i, end, Finishes(run.acts));
    }
  }

  lemma AllShifted(order: seq<nat>, i: nat, end: nat)
    requires i < end && forall k: nat | k < end - i :: k in order
    ensures forall k: nat | k < end :: k in AllPositions(i) + Shift(order, i) <==> k in AllPositions(end)
  {
    forall k: nat | k < end ensures k in AllPositions(i) + Shift(order, i) <==> k in AllPositions(end) {
      assert AllPositions(end)[k] == k;
      if k < i {
        assert AllPositions(i)[k] == k;
      } else {
        ShiftMembers(order, i, k);
      }
    }
  }

  lemma SomeBroke(attempts: seq<Attempt>, i: nat, end: nat, order: seq<nat>)
    requires i < end <= |attempts| && InRange(order, end - i) && !AllAnswered(attempts[i..end], order)
    ensures !forall k | i <= k < end :: attempts[k].Answered?
  {
    var at :| 0 <= at < |order| && !attempts[i..end][order[at]].Answered?;
    assert attempts[i..end][order[at]] == attempts[i + order[at]];
  }

  /** A group without an error, restated at the plan's own indices. */
  lemma Landed(plan: seq<Planned>, i: nat, end: nat, attempts: seq<Attempt>, before: seq<Result>, order: seq<nat>,
               after: seq<Result>, failed: bool)
    requires |attempts| == |plan| == |before| && i < end <= |plan|
    requires Recorded(plan[i..end], attempts[i..end], i, before, order, after, failed, None)
    requires forall k: nat | k < end - i :: k in order
    ensures forall k | i <= k < end :: attempts[k].Answered? && after[k] == ResultOf(plan[k], attempts[k])
    ensures failed <==> !AllSucceed(attempts, i, end)
  {
    var outcomes := attempts[i..end];
    forall k | i <= k < end ensures attempts[k].Answered? && after[k] == ResultOf(plan[k], attempts[k]) {
      assert k - i in order;
      var at :| 0 <= at < |order| && order[at] == k - i;
      assert outcomes[order[at]] == attempts[k] && plan[i..end][order[at]] == plan[k];
    }
    if !AllSucceed(attempts, i, end) {
      var k :| i <= k < end && attempts[k] != Answered(Succeeded);
      assert k - i in order;
      var at :| 0 <= at < |order| && order[at] == k - i;
      assert outcomes[order[at]] == attempts[k];
    }
  }

  predicate Synchronous(rules: Rules, calls: seq<Call>) {
    forall k: nat | k < |calls| :: calls[k].name in rules.view && !rules.view[calls[k].name].async
  }

  /** A batch: validation first, then either one asynchronous call or the plan's groups. */
  method Run(rules: Rules, calls: seq<Call>, maxParallel: int, attempts: seq<Attempt>)
    returns (outcome: Outcome, error: Option<Error>, ran: nat)
    requires |attempts| == |calls|
    ensures error == None ==>
              |outcome.results| == |calls|
              && forall k | 0 <= k < |calls| :: outcome.results[k].callId == calls[k].id && outcome.results[k].name == calls[k].name
    ensures !BatchValid(rules, calls) ==>
              ran == 0 && error == None && outcome.visibleFailure && outcome.actions == [] && !outcome.asyncStarted
    ensures BatchValid(rules, calls) && Synchronous(rules, calls) ==>
              var plan := PlanOf(rules, calls);
              && ran == RunLength(plan, attempts, 0)
              && (error == None <==> forall k | 0 <= k < ran :: attempts[k].Answered?)
              && (error == None ==> outcome == ExpectedOutcome(plan, attempts))
    ensures outcome.asyncStarted ==> |calls| == 1 && !rules.asyncFull && calls[0].name in rules.view && rules.view[calls[0].name].async
  {
    var plan, refusals, invalid := Preflight(rules, calls);
    if invalid { return Outcome(refusals, [], true, false), None, 0; }
    assert plan == PlanOf(rules, calls);
    if |plan| == 1 && plan[0].entry.async {
      if attempts[0].Broke? { return Outcome([], [], false, false), Some(attempts[0].error), 1; }
      var done := attempts[0].status == Succeeded;
      assert Verdict(rules, calls, 0) == NoCode;
      return Outcome([ResultOf(plan[0], attempts[0])], if done then [0] else [], !done, true), None, 1;
    }
    outcome, error, ran := RunPlan(plan, maxParallel, attempts);
  }
}

/** One bounded agent turn: model calls and tool batches under step, call and async limits.

    The model, the context builder, the tools and cancellation are arbitrary; a batch obeys only
    what the scheduler promises. `log` records the calls the turn makes. */
module TurnLoop {
  import opened Numbers
  import T = Transcript

  datatype Config = Config(maxSteps: int, maxCallsPerStep: int, maxCallsPerTurn: int, maxAsync: int)

  datatype Entry =
    | ModelCalled(transcript: seq<T.Message>)
    | BatchRun(ids: seq<string>)
    | AsyncAttempted
    | ArgumentFailure
    | Completed
    | FailedTurn

  type Log = seq<Entry>

  datatype Decision = Decision(ids: seq<string>, controlValid: bool, settle: bool)
  datatype Batch = Batch(error: bool, argumentFailure: bool, invalid: bool, visibleFailure: bool,
                         settle: bool, asyncAttempted: bool, asyncStarted: bool)

  /** The locals of the step loop. */
  datatype Turn = Turn(log: Log, transcript: seq<T.Message>, total: nat, async: nat, seen: set<string>,
                       correctionUsed: bool, correctionPending: bool)

  // ---------------------------------------------------------------- counting

  function Sum(log: Log, weight: Entry -> nat): nat {
    if log == [] then 0 else Sum(log[..|log| - 1], weight) + weight(log[|log| - 1])
  }

  function Models(e: Entry): nat { if e.ModelCalled? then 1 else 0 }
  function Calls(e: Entry): nat { if e.BatchRun? then |e.ids| else 0 }
  function Asyncs(e: Entry): nat { if e.AsyncAttempted? then 1 else 0 }
  function ArgumentFailures(e: Entry): nat { if e.ArgumentFailure? then 1 else 0 }
  function Endings(e: Entry): nat { if e.Completed? || e.FailedTurn? then 1 else 0 }

  /** The non-blank identifiers of one batch, trimmed. */
  function Named(ids: seq<string>): seq<string> {
    if ids == [] then []
    else
      var id := T.Trim(ids[|ids| - 1]);
      Named(ids[..|ids| - 1]) + (if id == "" then [] else [id])
  }

  /** Every non-blank identifier that reached the scheduler, in order. */
  function Scheduled(log: Log): seq<string> {
    if log == [] then []
    else Scheduled(log[..|log| - 1]) + (if log[|log| - 1].BatchRun? then Named(log[|log| - 1].ids) else [])
  }

  function NamedSet(ids: seq<string>): set<string> { set id | id in Named(ids) }

  lemma SumAppend(log: Log, e: Entry)
    ensures Sum(log + [e], Models) == Sum(log, Models) + Models(e)
    ensures Sum(log + [e], Calls) == Sum(log, Calls) + Calls(e)
    ensures Sum(log + [e], Asyncs) == Sum(log, Asyncs) + Asyncs(e)
    ensures Sum(log + [e], ArgumentFailures) == Sum(log, ArgumentFailures) + ArgumentFailures(e)
    ensures Sum(log + [e], Endings) == Sum(log, Endings) + Endings(e)
    ensures Scheduled(log + [e]) == Scheduled(log) + (if e.BatchRun? then Named(e.ids) else [])
  {
    assert (log + [e])[..|log|] == log;
  }

  lemma {:induction false} NamedMembers(ids: seq<string>)
    ensures forall id :: id in Named(ids) <==> id != "" && exists k :: 0 <= k < |ids| && T.Trim(ids[k]) == id
  {
    if ids != [] {
      var n := |ids| - 1;
      NamedMembers(ids[..n]);
      assert forall k | 0 <= k < n :: ids[..n][k] == ids[k];
    }
  }

  lemma {:induction false} AllNamed(ids: seq<string>)
    requires forall k | 0 <= k < |ids| :: T.Trim(ids[k]) != ""
    ensures Named(ids) == T.TrimAll(ids)
  {
    if ids != [] {
      var n := |ids| - 1;
      AllNamed(ids[..n]);
      assert T.TrimAll(ids) == T.TrimAll(ids[..n]) + [T.Trim(ids[n])];
    }
  }

  lemma NamedBasics(ids: seq<string>)
    ensures forall id :: id in Named(ids) <==> id != "" && exists k :: 0 <= k < |ids| && T.Trim(ids[k]) == id
    ensures (forall k | 0 <= k < |ids| :: T.Trim(ids[k]) != "") ==> Named(ids) == T.TrimAll(ids)
  {
    NamedMembers(ids);
    if forall k | 0 <= k < |ids| :: T.Trim(ids[k]) != "" { AllNamed(ids); }
  }

  lemma DistinctConcat(a: seq<string>, b: seq<string>)
    requires T.Distinct(a) && T.Distinct(b) && forall id | id in a :: id !in b
    ensures T.Distinct(a + b)
  {
    var all := a + b;
    forall i, j | 0 <= i < j < |all| ensures all[i] != all[j] {
      if i < |a| <= j { assert a[i] in a && b[j - |a|] in b; }
    }
  }

  /** Scheduling fresh names keeps every scheduled name distinct and seen. */
  lemma ScheduledGrows(log: Log, ids: seq<string>, seen: set<string>)
    requires T.Distinct(Scheduled(log)) && T.Distinct(Named(ids))
    requires forall id | id in Scheduled(log) :: id in seen
    requires forall id | id in Named(ids) :: id !in seen
    ensures T.Distinct(Scheduled(log + [BatchRun(ids)]))
    ensures forall id | id in Scheduled(log + [BatchRun(ids)]) :: id in seen + NamedSet(ids)
  {
    SumAppend(log, BatchRun(ids));
    DistinctConcat(Scheduled(log), Named(ids));
  }

  // ---------------------------------------------------------------- identifiers

  method DuplicateWithinStep(ids: seq<string>) returns (duplicate: bool)
    ensures duplicate <==> !T.Distinct(Named(ids))
  {
    var seen: set<string> := {};
    assert ids[..0] == [];
    for k := 0 to |ids|
      invariant seen == NamedSet(ids[..k]) && T.Distinct(Named(ids[..k]))
    {
      var id := T.Trim(ids[k]);
      assert ids[..k + 1][..k] == ids[..k];
      NamedPrefix(ids, k + 1);
      if id != "" {
        if id in seen {
          RepeatedName(ids, k);
          return true;
        }
        seen := seen + {id};
      }
    }
    assert ids[..|ids|] == ids;
    return false;
  }

  lemma {:induction false} NamedPrefix(ids: seq<string>, k: nat)
    requires k <= |ids|
    ensures Named(ids[..k]) <= Named(ids)
  {
    if k == |ids| {
      assert ids[..k] == ids;
    } else {
      NamedPrefix(ids[..|ids| - 1], k);
      assert ids[..|ids| - 1][..k] == ids[..k];
    }
  }

  lemma NamedOne(ids: seq<string>, k: nat)
    requires k < |ids| && T.Trim(ids[k]) != ""
    ensures Named(ids[..k + 1]) == Named(ids[..k]) + [T.Trim(ids[k])]
  {
    assert ids[..k + 1][..k] == ids[..k];
  }

  lemma RepeatIsNotDistinct(earlier: seq<string>, id: string, all: seq<string>)
    requires id in earlier && earlier + [id] <= all
    ensures !T.Distinct(all)
  {
    var i :| 0 <= i < |earlier| && earlier[i] == id;
    assert (earlier + [id])[i] == id && (earlier + [id])[|earlier|] == id;
    assert all[i] == all[|earlier|];
  }

  lemma RepeatedName(ids: seq<string>, k: nat)
    requires k < |ids| && T.Trim(ids[k]) != "" && T.Trim(ids[k]) in Named(ids[..k])
    ensures !T.Distinct(Named(ids))
  {
    NamedPrefix(ids, k + 1);
    NamedOne(ids, k);
    RepeatIsNotDistinct(Named(ids[..k]), T.Trim(ids[k]), Named(ids));
  }

  method ReusedAcrossSteps(ids: seq<string>, seen: set<string>) returns (reused: bool)
    ensures reused <==> exists id :: id in Named(ids) && id in seen
  {
    NamedBasics(ids);
    for k := 0 to |ids|
      invariant forall i | 0 <= i < k :: T.Trim(ids[i]) == "" || T.Trim(ids[i]) !in seen
    {
      var id := T.Trim(ids[k]);
      if id != "" && id in seen { return true; }
    }
    return false;
  }

  // ---------------------------------------------------------------- the transcript of a turn

  /** No call of the transcript has a blank identifier. */
  predicate NoBlank(transcript: seq<T.Message>) {
    forall k, i | 0 <= k < |transcript| && 0 <= i < |transcript[k].calls| :: T.Trim(transcript[k].calls[i]) != ""
  }

  /** The last calls have been answered; a batch that broke leaves them unanswered. */
  predicate Answered(transcript: seq<T.Message>) { transcript != [] ==> transcript[|transcript| - 1].calls == [] }

  /** The causal grouping accepts a transcript exactly when no identifier is blank and no call is open. */
  predicate WellBuilt(transcript: seq<T.Message>) {
    T.Grouped(transcript).Some? <==> NoBlank(transcript) && Answered(transcript)
  }

  /** The messages one executed batch adds: its calls, then one result for each call. */
  function BatchMessages(ids: seq<string>): seq<T.Message> { [CallMessage(ids), T.Message("", [], ids)] }

  function CallMessage(ids: seq<string>): T.Message { T.Message("", ids, []) }

  /** A batch with distinct names keeps the transcript well formed exactly when no name is blank. */
  lemma TranscriptAcceptedIffNoBlank(transcript: seq<T.Message>, ids: seq<string>)
    requires T.Grouped(transcript).Some? && ids != [] && T.Distinct(Named(ids))
    ensures T.Grouped(transcript + BatchMessages(ids)).Some? <==> forall k | 0 <= k < |ids| :: T.Trim(ids[k]) != ""
  {
    T.GroupedAppendPair(transcript, CallMessage(ids), T.Message("", [], ids));
    NamedBasics(ids);
    if forall k | 0 <= k < |ids| :: T.Trim(ids[k]) != "" {
      assert T.Answers(ids, ids);
    } else {
      var k :| 0 <= k < |ids| && T.Trim(ids[k]) == "";
      assert T.TrimAll(ids)[k] == "";
    }
  }

  lemma NoBlankAppend(transcript: seq<T.Message>, m: T.Message)
    ensures NoBlank(transcript + [m]) <==> NoBlank(transcript) && forall i | 0 <= i < |m.calls| :: T.Trim(m.calls[i]) != ""
  {
    var all := transcript + [m];
    assert all[|transcript|] == m;
    assert forall k | 0 <= k < |transcript| :: all[k] == transcript[k];
  }

  /** An answered batch keeps a transcript well built. */
  lemma BatchIsWellBuilt(transcript: seq<T.Message>, ids: seq<string>)
    requires WellBuilt(transcript) && T.Grouped(transcript).Some? && ids != [] && T.Distinct(Named(ids))
    ensures WellBuilt(transcript + BatchMessages(ids)) && Answered(transcript + BatchMessages(ids))
  {
    TranscriptAcceptedIffNoBlank(transcript, ids);
    NoBlankAppend(transcript, CallMessage(ids));
    NoBlankAppend(transcript + [CallMessage(ids)], T.Message("", [], ids));
    assert transcript + BatchMessages(ids) == transcript + [CallMessage(ids)] + [T.Message("", [], ids)];
  }

  /** So do the calls of a batch that broke: they stay open, and the transcript is not accepted. */
  lemma OpenCallsAreWellBuilt(transcript: seq<T.Message>, ids: seq<string>)
    requires T.Grouped(transcript).Some? && ids != []
    ensures WellBuilt(transcript + [CallMessage(ids)]) && T.Grouped(transcript + [CallMessage(ids)]).None?
  {
    T.GroupedAppendCall(transcript, CallMessage(ids));
  }

  // ---------------------------------------------------------------- what a turn keeps

  /** What holds of every prefix of every turn. */
  ghost predicate Safe(c: Config, t: Turn, steps: nat) {
    && Sum(t.log, Models) <= steps
    && Sum(t.log, Calls) <= t.total <= Max(0, c.maxCallsPerTurn)
    && Sum(t.log, Asyncs) <= Max(0, c.maxAsync)
    && (forall k | 0 <= k < |t.log| && t.log[k].BatchRun? :: |t.log[k].ids| <= c.maxCallsPerStep)
    && (forall k | 0 <= k < |t.log| && t.log[k].ModelCalled? ::
          Sum(t.log[..k], ArgumentFailures) <= 1 && T.Grouped(t.log[k].transcript).Some?)
    && WellBuilt(t.transcript)
    && T.Distinct(Scheduled(t.log))
    && (forall id | id in Scheduled(t.log) :: id in t.seen)
  }

  /** A turn still running, after `steps` steps. */
  ghost predicate Running(c: Config, t: Turn, steps: nat) {
    && Safe(c, t, steps)
    && Sum(t.log, Asyncs) <= t.async <= Max(0, c.maxAsync)
    && Sum(t.log, ArgumentFailures) <= (if t.correctionUsed then 1 else 0)
    && (t.correctionPending ==> t.correctionUsed)
    && Sum(t.log, Endings) == 0
    && Answered(t.transcript)
  }

  /** A finished turn: exactly one of complete and fail was called, and it was the last call. */
  ghost predicate Over(c: Config, t: Turn, steps: nat) {
    && Safe(c, t, steps)
    && Sum(t.log, Endings) == 1
    && t.log != [] && Endings(t.log[|t.log| - 1]) == 1
  }

  function Noted(t: Turn, e: Entry): Turn { t.(log := t.log + [e]) }

  lemma PrefixSums(log: Log, e: Entry)
    ensures forall k | 0 <= k <= |log| :: (log + [e])[..k] == log[..k]
  {
  }

  /** Appending an entry that is neither a model call nor a batch. */
  lemma SafeAppend(c: Config, t: Turn, steps: nat, e: Entry)
    requires Safe(c, t, steps) && !e.ModelCalled? && !e.BatchRun?
    requires Sum(t.log, Asyncs) + Asyncs(e) <= Max(0, c.maxAsync)
    ensures Safe(c, Noted(t, e), steps)
  {
    SumAppend(t.log, e);
    PrefixSums(t.log, e);
  }

  method End(c: Config, t: Turn, steps: nat, e: Entry) returns (over: Turn)
    requires Safe(c, t, steps) && Sum(t.log, Endings) == 0 && (e.Completed? || e.FailedTurn?)
    ensures Over(c, over, steps)
  {
    SafeAppend(c, t, steps, e);
    SumAppend(t.log, e);
    return Noted(t, e);
  }

  // ---------------------------------------------------------------- the turn

  /** A whole turn against any model and any tools. */
  method RunBoundedSteps(c: Config) returns (t: Turn, steps: nat)
    ensures steps <= Max(0, c.maxSteps) && Over(c, t, steps)
  {
    t, steps := Turn([], [], 0, 0, {}, false, false), 0;
    while steps < c.maxSteps
      invariant steps <= Max(0, c.maxSteps)
      invariant Running(c, t, steps)
    {
      var done;
      steps := steps + 1;
      t, done := Step(c, t, steps);
      if done { return; }
    }
    t := End(c, t, steps, FailedTurn);
  }

  lemma MoreSteps(c: Config, t: Turn, steps: nat)
    requires Running(c, t, steps)
    ensures Running(c, t, steps + 1)
  {
  }

  method Step(c: Config, t0: Turn, steps: nat) returns (t: Turn, done: bool)
    requires steps > 0 && Running(c, t0, steps - 1)
    ensures if done then Over(c, t, steps) else Running(c, t, steps)
  {
    t := t0;
    MoreSteps(c, t, steps - 1);
    var cancelled: bool := *;
    if cancelled {
      t := End(c, t, steps, FailedTurn);
      return t, true;
    }
    var stopped: bool := *;
    if stopped {
      t := End(c, t, steps, Completed);
      return t, true;
    }
    var built: bool := *;
    if !built || T.Grouped(t.transcript).None? {
      t := End(c, t, steps, FailedTurn);
      return t, true;
    }
    t := CallModel(c, t0, steps);
    var decision: Decision := *;
    var answered: bool := *;
    if !answered || !decision.controlValid {
      t := End(c, t, steps, FailedTurn);
      return t, true;
    }
    if decision.ids == [] {
      t := End(c, t, steps, if !t.correctionPending && decision.settle then Completed else FailedTurn);
      return t, true;
    }
    var duplicate := DuplicateWithinStep(decision.ids);
    if |decision.ids| > c.maxCallsPerStep || t.total + |decision.ids| > c.maxCallsPerTurn || duplicate {
      t := End(c, t, steps, FailedTurn);
      return t, true;
    }
    t, done := Act(c, t, steps, decision);
  }

  method CallModel(c: Config, t0: Turn, steps: nat) returns (t: Turn)
    requires steps > 0 && Running(c, t0, steps - 1) && T.Grouped(t0.transcript).Some?
    ensures Running(c, t, steps) && t == t0.(log := t.log)
  {
    var e := ModelCalled(t0.transcript);
    SumAppend(t0.log, e);
    PrefixSums(t0.log, e);
    t := Noted(t0, e);
  }

  method Act(c: Config, t0: Turn, steps: nat, decision: Decision) returns (t: Turn, done: bool)
    requires Running(c, t0, steps) && decision.ids != [] && T.Distinct(Named(decision.ids))
    requires |decision.ids| <= c.maxCallsPerStep && t0.total + |decision.ids| <= c.maxCallsPerTurn
    requires T.Grouped(t0.transcript).Some?
    ensures if done then Over(c, t, steps) else Running(c, t, steps)
    ensures t.transcript == t0.transcript + BatchMessages(decision.ids)
            || (done && t.transcript == t0.transcript + [CallMessage(decision.ids)])
  {
    var ids := decision.ids;
    BatchIsWellBuilt(t0.transcript, ids);
    var reused := ReusedAcrossSteps(ids, t0.seen);
    var counted := t0.(total := t0.total + |ids|, seen := t0.seen + NamedSet(ids));
    if reused {
      t := counted.(transcript := t0.transcript + BatchMessages(ids));
      if t.correctionPending {
        t := EndAct(c, t, steps, FailedTurn);
        return t, true;
      }
      return t, false;
    }
    t := Schedule(c, t0, steps, ids);
    var batch := RunBatch(ids, t.async >= c.maxAsync);
    if batch.asyncAttempted {
      t := NoteAsync(c, t, steps);
    }
    if batch.error {
      OpenCallsAreWellBuilt(t0.transcript, ids);
      t := t.(transcript := t0.transcript + [CallMessage(ids)]);
      t := EndAct(c, t, steps, FailedTurn);
      return t, true;
    }
    t := t.(transcript := t0.transcript + BatchMessages(ids));
    t, done := Settle(c, t, steps, batch, decision.settle);
  }

  method EndAct(c: Config, t: Turn, steps: nat, e: Entry) returns (over: Turn)
    requires Safe(c, t, steps) && Sum(t.log, Endings) == 0 && (e.Completed? || e.FailedTurn?)
    ensures Over(c, over, steps) && over.transcript == t.transcript
  {
    SafeAppend(c, t, steps, e);
    SumAppend(t.log, e);
    return Noted(t, e);
  }

  /** Hands a batch with fresh names to the scheduler. */
  method Schedule(c: Config, t0: Turn, steps: nat, ids: seq<string>) returns (t: Turn)
    requires Running(c, t0, steps) && T.Distinct(Named(ids))
    requires |ids| <= c.maxCallsPerStep && t0.total + |ids| <= c.maxCallsPerTurn
    requires forall id | id in Named(ids) :: id !in t0.seen
    ensures Running(c, t, steps)
    ensures t == t0.(log := t0.log + [BatchRun(ids)], total := t0.total + |ids|, seen := t0.seen + NamedSet(ids))
  {
    SumAppend(t0.log, BatchRun(ids));
    PrefixSums(t0.log, BatchRun(ids));
    ScheduledGrows(t0.log, ids, t0.seen);
    t := t0.(log := t0.log + [BatchRun(ids)], total := t0.total + |ids|, seen := t0.seen + NamedSet(ids));
  }

  /** Any batch the scheduler can return: an asynchronous call is alone in its batch and is only
      attempted while the limit has room. */
  method RunBatch(ids: seq<string>, asyncFull: bool) returns (batch: Batch)
    ensures batch.asyncAttempted ==> !asyncFull && |ids| == 1
    ensures batch.asyncStarted ==> batch.asyncAttempted
    ensures batch.argumentFailure ==> batch.invalid
  {
    batch := *;
    var attempted := batch.asyncAttempted && !asyncFull && |ids| == 1;
    batch := batch.(asyncAttempted := attempted, asyncStarted := batch.asyncStarted && attempted,
                    invalid := batch.invalid || batch.argumentFailure);
  }

  /** An attempt that breaks ends the turn, so it is counted in the log only. */
  method NoteAsync(c: Config, t0: Turn, steps: nat) returns (t: Turn)
    requires Running(c, t0, steps) && t0.async < c.maxAsync
    ensures Running(c, t, steps)
    ensures t == t0.(log := t0.log + [AsyncAttempted], async := t0.async + 1)
  {
    SafeAppend(c, t0, steps, AsyncAttempted);
    SumAppend(t0.log, AsyncAttempted);
    t := Noted(t0, AsyncAttempted).(async := t0.async + 1);
  }

  /** What follows a batch without a technical error. */
  method Settle(c: Config, t0: Turn, steps: nat, batch: Batch, settle: bool) returns (t: Turn, done: bool)
    requires Running(c, t0, steps) && (batch.argumentFailure ==> batch.invalid)
    ensures if done then Over(c, t, steps) else Running(c, t, steps)
    ensures t.transcript == t0.transcript
  {
    t, done := t0, true;
    if batch.argumentFailure || (t.correctionPending && batch.invalid) {
      if t.correctionUsed {
        if batch.argumentFailure { t := NoteArgumentFailure(c, t, steps); }
        t := EndAct(c, t, steps, FailedTurn);
        return;
      }
      t := NoteArgumentFailure(c, t, steps);
      t := t.(correctionUsed := true, correctionPending := true);
    } else {
      t := t.(correctionPending := false);
    }
    var stopFailed: bool := *;
    if stopFailed {
      t := EndAct(c, t, steps, FailedTurn);
      return;
    }
    var stopped: bool := *;
    if stopped {
      t := EndAct(c, t, steps, Completed);
      return;
    }
    var observed: bool := *;
    if batch.asyncStarted && !observed {
      t := EndAct(c, t, steps, FailedTurn);
      return;
    }
    if batch.visibleFailure || batch.asyncStarted { return t, false; }
    if settle || batch.settle {
      t := EndAct(c, t, steps, Completed);
      return;
    }
    return t, false;
  }

  method NoteArgumentFailure(c: Config, t0: Turn, steps: nat) returns (t: Turn)
    requires Running(c, t0, steps)
    ensures t == Noted(t0, ArgumentFailure)
    ensures Safe(c, t, steps) && Sum(t.log, Endings) == 0
    ensures !t0.correctionUsed ==> Running(c, t.(correctionUsed := true, correctionPending := true), steps)
  {
    SafeAppend(c, t0, steps, ArgumentFailure);
    SumAppend(t0.log, ArgumentFailure);
    t := Noted(t0, ArgumentFailure);
  }
}

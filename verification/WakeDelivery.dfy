/** One wake delivery: the retry machine that marks a claimed wake as enqueued, opens its lane
    barrier, and later runs, recovers or aborts it.

    The task service, the world authority and cancellation are arbitrary: every answer is
    chosen afresh. A commit may have happened although an error came back, so after each
    counted failure the delivery inspects before it acts. `log` records what the delivery did;
    all its callers hold the delivery's lock, so its methods run one after another. */
module WakeDelivery {

  /** How the delivery classifies an error: recoverable by a rebind, technical, or final. */
  datatype Failure = Recovery | Technical | Final
  datatype Answer = Succeeded | Failed(failure: Failure)
  datatype WakeStatus = Pending | Claimed | Enqueued | Running | Consumed | Unknown
  datatype Inspection = Inspection(headReady: bool, status: WakeStatus, sameClaim: bool)

  datatype Entry =
    | BarrierClosed      // the admitted channel is closed
    | MarkConfirmed      // MarkEnqueued answered, or an inspection showed the wake enqueued
    | SawRunning         // an inspection showed the wake running
    | BeginConfirmed     // BeginWake answered
    | FailureCounted
    | Released
    | WorldPaused
    | Handled
    | Reconciled

  type Log = seq<Entry>

  predicate Before(log: Log, k: nat, e: Entry)
    requires k <= |log|
  {
    e in log[..k]
  }

  /** What must have happened before each effect on the task. */
  predicate Ordered(log: Log) {
    forall k: nat | k < |log| ::
      && (log[k] == Handled ==>
            Before(log, k, BarrierClosed) && Before(log, k, BeginConfirmed)
            && (Before(log, k, MarkConfirmed) || Before(log, k, SawRunning)))
      && (log[k] == Reconciled ==> Before(log, k, BarrierClosed) && Before(log, k, SawRunning))
  }

  function Count(log: Log, e: Entry): nat { multiset(log)[e] }

  function Effects(log: Log): nat { Count(log, Handled) + Count(log, Reconciled) }

  lemma OrderedExtends(log: Log, e: Entry)
    requires Ordered(log)
    requires e == Handled ==> BarrierClosed in log && BeginConfirmed in log && (MarkConfirmed in log || SawRunning in log)
    requires e == Reconciled ==> BarrierClosed in log && SawRunning in log
    ensures Ordered(log + [e])
  {
    var next := log + [e];
    forall k: nat | k < |next|
      ensures next[k] == Handled ==>
                Before(next, k, BarrierClosed) && Before(next, k, BeginConfirmed)
                && (Before(next, k, MarkConfirmed) || Before(next, k, SawRunning))
      ensures next[k] == Reconciled ==> Before(next, k, BarrierClosed) && Before(next, k, SawRunning)
    {
      if k < |log| {
        assert next[..k] == log[..k];
        assert Ordered(log) && next[k] == log[k];
        assert forall x: Entry :: Before(next, k, x) <==> Before(log, k, x);
      } else {
        assert next[..k] == log;
      }
    }
  }

  class Delivery {
    const hasHandle: bool
    const hasReconcile: bool
    var eligible: bool
    var ended: bool
    var failures: nat
    var observedRunning: bool
    var admittedClosed: bool
    var reset: bool
    var log: Log

    predicate Consistent()
      reads this
    {
      && Ordered(log)
      && Count(log, BarrierClosed) == (if admittedClosed then 1 else 0)
      && (admittedClosed ==> BarrierClosed in log)
      && Effects(log) <= 1
      && (Effects(log) > 0 ==> ended)
      && (ended ==> admittedClosed && !eligible)
      && failures <= 3
      && Count(log, FailureCounted) <= failures + (if reset then 2 else 0)
      && (observedRunning ==> SawRunning in log)
      && (eligible && admittedClosed ==> MarkConfirmed in log || SawRunning in log)
    }

    /** Between the methods, a delivery that has not ended still has a failure to spend. */
    predicate Valid()
      reads this
    {
      Consistent() && (!ended ==> failures < 3)
    }

    constructor (hasHandle: bool, hasReconcile: bool)
      ensures Valid() && log == [] && eligible && !ended && !reset && failures == 0
      ensures this.hasHandle == hasHandle && this.hasReconcile == hasReconcile
    {
      this.hasHandle, this.hasReconcile := hasHandle, hasReconcile;
      eligible, ended, failures := true, false, 0;
      observedRunning, admittedClosed, reset, log := false, false, false, [];
    }

    /** Appends an entry that is neither an effect nor the barrier. */
    method Note(e: Entry)
      requires Consistent() && e !in {Handled, Reconciled, BarrierClosed, FailureCounted}
      modifies this`log
      ensures Consistent() && log == old(log) + [e]
    {
      OrderedExtends(log, e);
      log := log + [e];
    }

    method CloseBarrier()
      requires Consistent() && (eligible ==> MarkConfirmed in log || SawRunning in log)
      modifies this`log, this`admittedClosed
      ensures Consistent() && admittedClosed && old(log) <= log && Effects(log) == Effects(old(log))
      ensures Count(log, FailureCounted) == Count(old(log), FailureCounted)
      ensures old(admittedClosed) ==> log == old(log)
    {
      if !admittedClosed {
        OrderedExtends(log, BarrierClosed);
        admittedClosed := true;
        log := log + [BarrierClosed];
      }
    }

    method Finish()
      requires Consistent()
      modifies this`log, this`admittedClosed, this`eligible, this`ended
      ensures Consistent() && ended && old(log) <= log && Effects(log) == Effects(old(log))
      ensures Count(log, FailureCounted) == Count(old(log), FailureCounted)
    {
      eligible := false;
      CloseBarrier();
      ended := true;
    }

    method Pause()
      requires Consistent()
      modifies this`log, this`admittedClosed, this`eligible, this`ended
      ensures Consistent() && ended && old(log) <= log && Effects(log) == Effects(old(log))
    {
      Finish();
      Note(WorldPaused);
    }

    method Invalidate()
      requires Consistent()
      modifies this`log, this`admittedClosed, this`eligible, this`ended
      ensures Consistent() && ended && old(log) <= log && Effects(log) == Effects(old(log))
    {
      Finish();
      var stillCurrent: bool := *;
      if stillCurrent { Note(WorldPaused); }
    }

    /** Whether to try again. A retry always costs one of the three failures. */
    method CountFailure(failure: Failure) returns (retry: bool)
      requires Valid() && !ended
      modifies this`log, this`admittedClosed, this`eligible, this`ended, this`failures
      ensures Valid() && old(log) <= log && Effects(log) == Effects(old(log))
      ensures retry ==> !ended && failures == old(failures) + 1 && eligible == old(eligible) && admittedClosed == old(admittedClosed)
      ensures !retry ==> ended
      ensures failures >= old(failures)
    {
      var cancelled: bool := *;
      if cancelled {
        Invalidate();
        return false;
      }
      if failure.Recovery? {
        Finish();
        return false;
      }
      failures := failures + 1;
      OrderedExtends(log, FailureCounted);
      log := log + [FailureCounted];
      if failures >= 3 {
        Pause();
        return false;
      }
      var waited: bool := *;
      if !waited {
        Invalidate();
        return false;
      }
      return true;
    }

    method Inspect() returns (seen: Inspection, ok: bool)
      requires Valid() && !ended
      modifies this`log, this`admittedClosed, this`eligible, this`ended, this`failures
      ensures Valid() && old(log) <= log && Effects(log) == Effects(old(log)) && failures >= old(failures)
      ensures ok ==> !ended && eligible == old(eligible) && admittedClosed == old(admittedClosed)
      ensures ok ==> seen.headReady && seen.sameClaim && !seen.status.Pending? && !seen.status.Consumed?
      ensures !ok ==> ended
    {
      seen, ok := Inspection(false, Unknown, false), false;
      while true
        invariant Valid() && !ended && old(log) <= log && Effects(log) == Effects(old(log))
        invariant failures >= old(failures)
        invariant eligible == old(eligible) && admittedClosed == old(admittedClosed)
        decreases 3 - failures
      {
        var answer: Answer := *;
        if answer.Failed? {
          var retry := CountFailure(answer.failure);
          if !retry { return seen, false; }
          continue;
        }
        seen := *;
        var current: bool := *;
        if !seen.headReady || !current {
          Finish();
          return seen, false;
        }
        if seen.status.Pending? || seen.status.Consumed? || !seen.sameClaim {
          Finish();
          return seen, false;
        }
        return seen, true;
      }
    }

    method Mark()
      requires Valid() && !ended && eligible && !admittedClosed && !reset
      modifies this
      ensures Valid() && admittedClosed && old(log) <= log && Effects(log) == Effects(old(log))
    {
      while !ended
        invariant Valid() && old(log) <= log && Effects(log) == Effects(old(log))
        invariant !ended ==> eligible && !admittedClosed
        invariant !reset
        decreases 3 - failures, !ended
      {
        var answer: Answer := *;
        var cancelled: bool := *;
        if !answer.Failed? {
          Note(MarkConfirmed);
          failures, reset := 0, true;
          CloseBarrier();
          return;
        }
        if answer.failure.Recovery? || cancelled {
          Finish();
          return;
        }
        if answer.failure.Final? {
          eligible := false;
          CloseBarrier();
          Release();
          return;
        }
        var again := MarkAgain(answer.failure);
        if !again { return; }
      }
    }

    /** After a technical failure to mark: count it, look at the wake, and decide. */
    method MarkAgain(failure: Failure) returns (again: bool)
      requires Valid() && !ended && eligible && !admittedClosed && !reset
      modifies this
      ensures Valid() && old(log) <= log && Effects(log) == Effects(old(log))
      ensures again ==> !ended && eligible && !admittedClosed && !reset && failures > old(failures)
      ensures !again ==> admittedClosed
    {
      again := CountFailure(failure);
      if !again { return; }
      var seen, ok := Inspect();
      if !ok { return false; }
      if seen.status.Claimed? { return true; }
      ConcludeMark(seen);
      again := false;
    }

    /** A wake found past marking settles it one way or the other. */
    method ConcludeMark(seen: Inspection)
      requires Valid() && !ended && eligible && !admittedClosed && !reset && !seen.status.Claimed?
      modifies this
      ensures Valid() && old(log) <= log && Effects(log) == Effects(old(log)) && admittedClosed
    {
      if seen.status.Enqueued? {
        Note(MarkConfirmed);
      } else if seen.status.Running? {
        Note(SawRunning);
        observedRunning := true;
      } else {
        Pause();
        return;
      }
      failures, reset := 0, true;
      CloseBarrier();
    }

    method Release()
      requires Valid() && !eligible
      modifies this`log, this`admittedClosed, this`eligible, this`ended, this`failures
      ensures Valid() && ended && old(log) <= log && Effects(log) == Effects(old(log))
    {
      while !ended
        invariant Valid() && !eligible && old(log) <= log && Effects(log) == Effects(old(log))
        decreases 3 - failures, !ended
      {
        var answer: Answer := *;
        if !answer.Failed? {
          Note(Released);
          Finish();
          return;
        }
        var retry := CountFailure(answer.failure);
        if !retry { return; }
        var seen, ok := Inspect();
        if !ok { return; }
        if !seen.status.Claimed? {
          Pause();
          return;
        }
      }
    }

    /** The enqueuing caller: when it returns, the barrier has been closed. */
    method Enqueue(laneAccepts: bool)
      requires Valid() && !ended && eligible && !admittedClosed && !reset
      modifies this
      ensures Valid() && admittedClosed && Effects(log) == Effects(old(log))
      ensures !laneAccepts ==> ended
    {
      if !laneAccepts {
        eligible := false;
        Release();
        return;
      }
      Mark();
    }

    method Run()
      requires Valid() && admittedClosed
      modifies this
      ensures Valid() && admittedClosed && old(log) <= log
      ensures old(ended || !eligible) ==> log == old(log) && ended == old(ended)
      ensures old(eligible) ==> ended
    {
      if ended || !eligible { return; }
      if !hasHandle && !observedRunning {
        Pause();
        return;
      }
      while !ended
        invariant Valid() && admittedClosed && old(log) <= log && Effects(log) == 0
        invariant !ended ==> eligible
        decreases 3 - failures, !ended
      {
        var cancelled: bool := *;
        var current: bool := *;
        if cancelled || !current {
          Invalidate();
          return;
        }
        if observedRunning {
          RecoverRunning();
          return;
        }
        var answer: Answer := *;
        if !answer.Failed? {
          Handle();
          return;
        }
        var again := RunAgain(answer.failure);
        if !again { return; }
      }
    }

    /** BeginWake answered: end the delivery, then hand the wake over if it is still current. */
    method Handle()
      requires Valid() && !ended && eligible && admittedClosed && Effects(log) == 0
      modifies this`log, this`admittedClosed, this`eligible, this`ended
      ensures Valid() && ended && old(log) <= log
    {
      Note(BeginConfirmed);
      ghost var had := log;
      Finish();
      assert BeginConfirmed in had && had <= log;
      var cancelled: bool := *;
      var current: bool := *;
      if cancelled || !current {
        Invalidate();
        return;
      }
      if hasHandle {
        Affect(Handled);
      }
    }

    /** Runs the handler or the reconciler, and pauses the world if it failed. */
    method Affect(effect: Entry)
      requires Valid() && ended && Effects(log) == 0
      requires effect == Handled || effect == Reconciled
      requires effect == Handled ==> BeginConfirmed in log && (MarkConfirmed in log || SawRunning in log)
      requires effect == Reconciled ==> SawRunning in log
      modifies this`log
      ensures Valid() && old(log) <= log
    {
      OrderedExtends(log, effect);
      log := log + [effect];
      var failed: bool := *;
      if failed { Note(WorldPaused); }
    }

    /** After a failed BeginWake: count it, look at the wake, and decide. */
    method RunAgain(failure: Failure) returns (again: bool)
      requires Valid() && !ended && eligible && admittedClosed && Effects(log) == 0
      modifies this`log, this`admittedClosed, this`eligible, this`ended, this`failures
      ensures Valid() && admittedClosed && old(log) <= log
      ensures again ==> !ended && eligible && Effects(log) == 0 && failures > old(failures)
      ensures !again ==> ended
    {
      again := CountFailure(failure);
      if !again { return; }
      var seen, ok := Inspect();
      if !ok { return false; }
      if seen.status.Enqueued? { return true; }
      if seen.status.Running? {
        Note(SawRunning);
        RecoverRunning();
      } else {
        Finish();
      }
      return false;
    }

    method RecoverRunning()
      requires Valid() && Effects(log) == 0 && SawRunning in log
      modifies this`log, this`admittedClosed, this`eligible, this`ended
      ensures Valid() && ended && old(log) <= log
    {
      var had := log;
      Finish();
      assert SawRunning in had && had <= log;
      var cancelled: bool := *;
      var current: bool := *;
      if cancelled || !current { return; }
      if !hasReconcile {
        Note(WorldPaused);
        return;
      }
      Affect(Reconciled);
    }

    method Abort()
      requires Valid() && admittedClosed
      modifies this
      ensures Valid() && ended && admittedClosed && old(log) <= log && Effects(log) == Effects(old(log))
      ensures old(ended) ==> log == old(log)
    {
      if ended { return; }
      Finish();
      var current: bool := *;
      if current { Note(WorldPaused); }
    }
  }

  datatype Finisher = RunIt | AbortIt

  /** A whole delivery: enqueue, then any order of lane runs and aborts, against any answers.
      `atReturn` is the length of the log when enqueue returned. */
  method Deliver(hasHandle: bool, hasReconcile: bool, laneAccepts: bool, finishers: seq<Finisher>)
    returns (log: Log, atReturn: nat)
    ensures Effects(log) <= 1
    ensures Ordered(log)
    ensures Count(log, BarrierClosed) == 1 && atReturn <= |log| && BarrierClosed in log[..atReturn]
    ensures Effects(log[..atReturn]) == 0
    ensures Count(log, FailureCounted) <= 5
    ensures !laneAccepts ==> Effects(log) == 0
  {
    var delivery := new Delivery(hasHandle, hasReconcile);
    delivery.Enqueue(laneAccepts);
    atReturn := |delivery.log|;
    ghost var atOpen := delivery.log;
    for k := 0 to |finishers|
      invariant delivery.Valid() && delivery.admittedClosed
      invariant atOpen <= delivery.log
      invariant !laneAccepts ==> delivery.ended && Effects(delivery.log) == 0
    {
      match finishers[k] {
        case RunIt => delivery.Run();
        case AbortIt => delivery.Abort();
      }
    }
    log := delivery.log;
    assert log[..atReturn] == atOpen;
  }
}

/** The send slot shared by every environment of one stream: senders, the transport goroutines
    they launch, cancellation and close, interleaved in any order.

    The guard of a task action hands `start` back as its own last step, so a guard either
    refuses before `start` or returns what `start` answered. */
module SendSlot {

  datatype Outcome = NotStarted | Interrupted | Delivered
  datatype Caller = Waiting | Guarding | Flying | Returned(outcome: Outcome)
  datatype Transport = Absent | Sending | Sent | Finished

  /** `reached` says the message was handed to the transport; the two counters count how often
      this sender's slot was taken and given back. */
  datatype Sender = Sender(env: nat, caller: Caller, transport: Transport, cancelled: bool,
                           reached: bool, acquired: nat, released: nat)
  {
    predicate Holds() { caller.Guarding? || transport.Sending? || transport.Sent? }

    predicate Active() { transport.Sending? || transport.Sent? }
  }

  /** `recorded` holds the senders whose operation was durably marked as not sent. */
  datatype State = State(full: bool, senders: map<nat, Sender>, closed: set<nat>, recorded: set<nat>)

  /** What a sender, its guard or its transport goroutine does next. */
  datatype Act = Cancel | GiveUp | Acquire | Refuse | Launch | HandOver | Release | Interrupt | Deliver

  datatype Event =
    | Arrive(id: nat, env: nat)
    | CloseEnv(env: nat)
    | Record(id: nat)
    | Move(id: nat, act: Act)

  predicate Stopped(s: State, sender: Sender) { sender.cancelled || sender.env in s.closed }

  predicate CanAct(s: State, x: Sender, act: Act) {
    match act
    case Cancel => true
    case GiveUp => x.caller.Waiting? && Stopped(s, x)
    case Acquire => x.caller.Waiting? && !s.full
    case Refuse => x.caller.Guarding?
    case Launch => x.caller.Guarding? && !Stopped(s, x)
    case HandOver => x.transport.Sending?
    case Release => x.transport.Sent?
    case Interrupt => x.caller.Flying? && Stopped(s, x)
    case Deliver => x.caller.Flying? && (x.transport.Sent? || x.transport.Finished?)
  }

  function Acted(x: Sender, act: Act): Sender {
    match act
    case Cancel => x.(cancelled := true)
    case GiveUp => x.(caller := Returned(NotStarted))
    case Acquire => x.(caller := Guarding, acquired := x.acquired + 1)
    case Refuse => x.(caller := Returned(NotStarted), released := x.released + 1)
    case Launch => x.(caller := Flying, transport := Sending)
    case HandOver => x.(transport := Sent, reached := true)
    case Release => x.(transport := Finished, released := x.released + 1)
    case Interrupt => x.(caller := Returned(Interrupted))
    case Deliver => x.(caller := Returned(Delivered))
  }

  /** The slot is a one-element channel: acquiring fills it, refusing and releasing drain it. */
  function SlotAfter(full: bool, act: Act): bool {
    if act == Acquire then true else if act == Refuse || act == Release then false else full
  }

  predicate Enabled(s: State, e: Event) {
    match e
    case Arrive(id, _) => id !in s.senders
    case CloseEnv(_) => true
    case Record(id) => id in s.senders && s.senders[id].caller == Returned(NotStarted)
    case Move(id, act) => id in s.senders && CanAct(s, s.senders[id], act)
  }

  function Next(s: State, e: Event): State
    requires Enabled(s, e)
  {
    match e
    case Arrive(id, env) => s.(senders := s.senders[id := Sender(env, Waiting, Absent, false, false, 0, 0)])
    case CloseEnv(env) => s.(closed := s.closed + {env})
    case Record(id) => s.(recorded := s.recorded + {id})
    case Move(id, act) =>
      s.(full := SlotAfter(s.full, act), senders := s.senders[id := Acted(s.senders[id], act)])
  }

  predicate Run(ss: seq<State>, es: seq<Event>) {
    |ss| == |es| + 1
    && ss[0] == State(false, map[], {}, {})
    && forall k | 0 <= k < |es| :: Enabled(ss[k], es[k]) && ss[k + 1] == Next(ss[k], es[k])
  }

  predicate SenderOk(x: Sender) {
    && x.acquired == x.released + (if x.Holds() then 1 else 0)
    && x.acquired <= 1
    && (x.caller.Waiting? ==> x.acquired == 0)
    && (x.transport.Absent? <==> x.caller.Waiting? || x.caller.Guarding? || x.caller == Returned(NotStarted))
    && (x.transport.Absent? || x.transport.Sending? ==> !x.reached)
  }

  predicate Inv(s: State) {
    && (forall id | id in s.senders :: SenderOk(s.senders[id]))
    && (forall a, b | a in s.senders && b in s.senders :: s.senders[a].Holds() && s.senders[b].Holds() ==> a == b)
    && (s.full <==> exists id :: id in s.senders && s.senders[id].Holds())
    && (forall id | id in s.recorded :: id in s.senders && s.senders[id].caller == Returned(NotStarted))
  }

  lemma MoveKeepsInv(s: State, e: Event)
    requires Inv(s) && Enabled(s, e) && e.Move?
    ensures Inv(Next(s, e))
  {
    var t := Next(s, e);
    assert SenderOk(s.senders[e.id]) && SenderOk(t.senders[e.id]);
    if t.full && e.act != Acquire {
      var holder :| holder in s.senders && s.senders[holder].Holds();
      assert t.senders[holder].Holds();
    } else if t.full {
      assert t.senders[e.id].Holds();
    }
  }

  lemma StepKeepsInv(s: State, e: Event)
    requires Inv(s) && Enabled(s, e)
    ensures Inv(Next(s, e))
  {
    if e.Move? {
      MoveKeepsInv(s, e);
    } else if s.full {
      var holder :| holder in s.senders && s.senders[holder].Holds();
      assert Next(s, e).senders[holder].Holds();
    }
  }

  lemma {:induction false} RunKeepsInv(ss: seq<State>, es: seq<Event>, k: nat)
    requires Run(ss, es) && k < |ss|
    ensures Inv(ss[k])
  {
    if k > 0 {
      RunKeepsInv(ss, es, k - 1);
      StepKeepsInv(ss[k - 1], es[k - 1]);
    }
  }

  /** At most one transport send is active, and nobody else holds the slot meanwhile. */
  lemma OneSendAtATime(ss: seq<State>, es: seq<Event>, k: nat, a: nat, b: nat)
    requires Run(ss, es) && k < |ss| && a in ss[k].senders && b in ss[k].senders
    requires ss[k].senders[a].Active() && ss[k].senders[b].Holds()
    ensures a == b && ss[k].full
  {
    RunKeepsInv(ss, es, k);
  }

  /** A sender takes the slot at most once and gives it back exactly once; a sender whose caller
      has returned and whose transport is not running holds nothing. */
  lemma SlotIsBalanced(ss: seq<State>, es: seq<Event>, k: nat, id: nat)
    requires Run(ss, es) && k < |ss| && id in ss[k].senders
    ensures var x := ss[k].senders[id];
            && x.released <= x.acquired <= 1
            && (x.caller.Returned? && !x.Active() ==> x.released == x.acquired)
            && (x.released < x.acquired ==> ss[k].full)
    ensures (forall other | other in ss[k].senders :: !ss[k].senders[other].Holds()) ==> !ss[k].full
  {
    RunKeepsInv(ss, es, k);
    assert SenderOk(ss[k].senders[id]);
  }

  lemma {:induction false} NotStartedIsFinal(ss: seq<State>, es: seq<Event>, i: nat, j: nat, id: nat)
    requires Run(ss, es) && i <= j < |ss| && id in ss[i].senders
    requires ss[i].senders[id].caller == Returned(NotStarted)
    ensures id in ss[j].senders && ss[j].senders[id].caller == Returned(NotStarted)
    ensures ss[j].senders[id].transport.Absent? && !ss[j].senders[id].reached
  {
    RunKeepsInv(ss, es, j);
    if i < j {
      NotStartedIsFinal(ss, es, i, j - 1, id);
      assert Enabled(ss[j - 1], es[j - 1]) && ss[j] == Next(ss[j - 1], es[j - 1]);
    }
    assert SenderOk(ss[j].senders[id]);
  }

  /** An operation recorded as not sent has not reached the transport, at the record or ever after. */
  lemma RecordedMeansNeverSent(ss: seq<State>, es: seq<Event>, i: nat, j: nat, id: nat)
    requires Run(ss, es) && i <= j < |ss| && id in ss[i].recorded
    ensures id in ss[j].senders && !ss[j].senders[id].reached && ss[j].senders[id].transport.Absent?
  {
    RunKeepsInv(ss, es, i);
    NotStartedIsFinal(ss, es, i, j, id);
  }

  /** The answer tells the truth about the launch: "not started" exactly when no transport
      goroutine exists, "delivered" only when the message reached the transport. */
  lemma OutcomeTellsTheLaunch(ss: seq<State>, es: seq<Event>, k: nat, id: nat)
    requires Run(ss, es) && k < |ss| && id in ss[k].senders && ss[k].senders[id].caller.Returned?
    ensures ss[k].senders[id].caller.outcome == NotStarted <==> ss[k].senders[id].transport.Absent?
    ensures ss[k].senders[id].caller.outcome == Delivered ==> ss[k].senders[id].reached
  {
    RunKeepsInv(ss, es, k);
    DeliveredReached(ss, es, k, id);
    assert SenderOk(ss[k].senders[id]);
  }

  lemma {:induction false} DeliveredReached(ss: seq<State>, es: seq<Event>, k: nat, id: nat)
    requires Run(ss, es) && k < |ss| && id in ss[k].senders
    ensures ss[k].senders[id].transport.Sent? || ss[k].senders[id].transport.Finished? ==> ss[k].senders[id].reached
    ensures ss[k].senders[id].caller == Returned(Delivered) ==> ss[k].senders[id].reached
  {
    if k > 0 {
      assert Enabled(ss[k - 1], es[k - 1]) && ss[k] == Next(ss[k - 1], es[k - 1]);
      if id in ss[k - 1].senders {
        DeliveredReached(ss, es, k - 1, id);
      }
    }
  }
}

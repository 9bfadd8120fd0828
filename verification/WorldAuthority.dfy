/** World ownership, the save barrier and the authority epoch of one world slot.

    `WorldSlot` has one method per critical section under the slot lock. Each is
    proved against a function on `SlotState`; the functions are the steps of a
    protocol in which connections, saves, pauses, clock updates and shutdown
    interleave in any order, and the theorems are about every run of it. */
module WorldAuthority {
  import opened Wrappers

  datatype Binding = Binding(runId: string, generation: nat)
  datatype Clock = Clock(id: string, sequence: nat, tick: int)
  datatype Status = Ready | Paused
  datatype Head = Head(binding: Binding, clock: Clock, status: Status, reason: string)

  /** A stream environment: the connection that made it and which of that connection's
      environments it is. A slot's owner is named by the owner's current environment. */
  datatype Env = Env(conn: nat, serial: nat)

  datatype Code = Stale | SaveInProgress | NotReady | ClockMismatch | ClockRewound | ServiceFailed

  datatype SlotState = SlotState(owner: Option<Env>, head: Head, ready: bool, saving: bool,
                                 saveRequestId: string, failed: bool, epoch: nat)
  {
    predicate OwnedBy(conn: nat) { owner.Some? && owner.value.conn == conn }
  }

  /** The state in which a guarded callback for this environment and binding may run. */
  predicate Live(s: SlotState, env: Env, binding: Binding) {
    s.ready && !s.saving && s.owner == Some(env) && s.head.binding == binding
  }

  function Check(s: SlotState, env: Env, binding: Binding): (code: Option<Code>)
    ensures code == None <==> Live(s, env, binding)
  {
    if s.owner != Some(env) || s.head.binding != binding then Some(Stale)
    else if s.saving then Some(SaveInProgress)
    else if !s.ready then Some(NotReady)
    else None
  }

  /** What a guard carrying a binding and an epoch lets through. */
  predicate Admits(s: SlotState, env: Env, binding: Binding, epoch: nat) {
    Live(s, env, binding) && s.epoch == epoch
  }

  // ---------------------------------------------------------------- bind

  datatype BindRequest = BindRequest(runId: string, generation: nat)
  datatype HeadAnswer = Found(head: Head) | NotFound | Unreadable

  /** The first critical section of bind: admission, and the fence that opens the unlocked middle. */
  function BindAdmitted(s: SlotState, conn: nat, request: BindRequest, answer: HeadAnswer, barrierFree: bool): (result: (SlotState, bool))
    ensures result.1 ==> result.0.epoch == s.epoch + 1 && !result.0.ready && !result.0.saving && result.0.owner == s.owner
    ensures !result.1 && result.0 != s ==> s.OwnedBy(conn) && answer.Unreadable? && result.0.epoch == s.epoch + 1
  {
    if s.failed then (s, false)
    else if answer.Unreadable? then
      if s.OwnedBy(conn) then (s.(failed := true, epoch := s.epoch + 1), false) else (s, false)
    else if request.generation != 0
         && (answer.NotFound? || answer.head.binding != Binding(request.runId, request.generation)) then (s, false)
    else if s.owner.Some? && !s.OwnedBy(conn) && request.generation == 0 then (s, false)
    else if s.OwnedBy(conn) && request.runId != s.head.binding.runId then (s, false)
    else if s.saving && !barrierFree then (s, false)
    else
      var open := if s.saving then s.(saving := false, saveRequestId := "", failed := false) else s;
      (open.(epoch := s.epoch + 1, ready := false), true)
  }

  /** The second critical section of bind. It leaves the epoch and `ready` as it finds them. */
  function BindCommitted(s: SlotState, env: Env, head: Head): SlotState {
    s.(owner := Some(env), head := head, saving := false, saveRequestId := "")
  }

  function MarkedReady(s: SlotState, conn: nat, head: Head, stopped: bool): (r: SlotState)
    ensures r.ready && !s.ready ==> s.OwnedBy(conn) && s.head == head && !stopped
    ensures r == s.(ready := r.ready)
  {
    if stopped || !s.OwnedBy(conn) || s.head != head || s.failed then s else s.(ready := true)
  }

  // ---------------------------------------------------------------- saves

  datatype PrepareAnswer = Refused | Prepared(head: Head)

  /** Exactly the requests that get past admission and raise the barrier. */
  predicate PrepareAdmitted(s: SlotState, env: Env, binding: Binding) {
    !s.saving && Check(s, env, binding) == None
  }

  function PreparedState(s: SlotState, env: Env, binding: Binding, requestId: string, answer: PrepareAnswer): SlotState {
    if !PrepareAdmitted(s, env, binding) then s
    else if answer.Refused? then s.(saving := false, saveRequestId := "", ready := false, epoch := s.epoch + 2)
    else s.(saving := true, saveRequestId := requestId, ready := false, head := answer.head, epoch := s.epoch + 1)
  }

  function FinishedState(s: SlotState, requestId: string, accepted: bool): SlotState {
    if s.owner.Some? && accepted && s.saving && s.saveRequestId == requestId
    then s.(saving := false, saveRequestId := "") else s
  }

  function BarrierState(s: SlotState, env: Env, binding: Binding, saving: bool): SlotState {
    if s.owner != Some(env) || s.head.binding != binding || !s.ready then s
    else s.(saving := saving, epoch := if saving && !s.saving then s.epoch + 1 else s.epoch)
  }

  // ---------------------------------------------------------------- clock, pause, disconnect

  function ClockState(s: SlotState, env: Env, binding: Binding, clock: Clock, answer: Option<Head>): SlotState {
    if Check(s, env, binding) != None || clock.id != s.head.clock.id then s
    else if clock.sequence == s.head.clock.sequence && clock != s.head.clock then ViolationState(s, "clock_mismatch")
    else if clock.sequence < s.head.clock.sequence || clock.tick < s.head.clock.tick then ViolationState(s, "clock_rewound")
    else if answer.Some? then s.(head := answer.value) else s
  }

  function ViolationState(s: SlotState, reason: string): SlotState {
    s.(epoch := s.epoch + 1, ready := false, head := s.head.(status := Paused, reason := reason))
  }

  function PausedState(s: SlotState, binding: Binding, reason: string): SlotState {
    if s.head.binding != binding || s.owner.None? then s
    else ViolationState(s, "task_dispatch_" + reason)
  }

  datatype Deactivation = Done | SaveHeld | Broken

  function LeavingState(s: SlotState): SlotState { s.(ready := false, epoch := s.epoch + 1) }

  function LeftState(s: SlotState, outcome: Deactivation, reason: string): SlotState {
    match outcome
    case SaveHeld => s
    case Broken => s.(failed := true)
    case Done =>
      var kept := if s.head.status == Paused && s.head.reason != "" then s.head.reason else reason;
      s.(owner := None, saving := false, saveRequestId := "", head := s.head.(status := Paused, reason := kept))
  }

  // ---------------------------------------------------------------- the slot

  class WorldSlot {
    var owner: Option<Env>
    var head: Head
    var ready: bool
    var saving: bool
    var saveRequestId: string
    var failed: bool
    var epoch: nat

    ghost function State(): SlotState
      reads this
    {
      SlotState(owner, head, ready, saving, saveRequestId, failed, epoch)
    }

    constructor (zero: Head)
      ensures State() == SlotState(None, zero, false, false, "", false, 0)
    {
      owner, head := None, zero;
      ready, saving, saveRequestId, failed, epoch := false, false, "", false, 0;
    }

    method Current(env: Env) returns (seen: Option<(Head, nat)>)
      ensures seen.Some? <==> Live(State(), env, head.binding)
      ensures seen.Some? ==> seen.value == (head, epoch)
    {
      if !ready || saving || owner != Some(env) { return None; }
      return Some((head, epoch));
    }

    /** Whether the callback of a guard carrying `expected` runs. */
    method Guard(env: Env, binding: Binding, expected: nat) returns (ran: bool)
      ensures ran <==> Admits(State(), env, binding, expected)
    {
      var code := CheckSlot(env, binding);
      if code.Some? { return false; }
      return epoch == expected;
    }

    method CheckSlot(env: Env, binding: Binding) returns (code: Option<Code>)
      ensures code == Check(State(), env, binding)
    {
      if owner != Some(env) || head.binding != binding { return Some(Stale); }
      if saving { return Some(SaveInProgress); }
      if !ready { return Some(NotReady); }
      return None;
    }

    method SetSaveBarrier(env: Env, binding: Binding, raise: bool)
      modifies this
      ensures State() == BarrierState(old(State()), env, binding, raise)
    {
      if owner != Some(env) || head.binding != binding { return; }
      if !ready { return; }
      if raise && !saving { epoch := epoch + 1; }
      saving := raise;
    }

    method BindAdmit(conn: nat, request: BindRequest, answer: HeadAnswer, barrierFree: bool) returns (admitted: bool)
      modifies this
      ensures (State(), admitted) == BindAdmitted(old(State()), conn, request, answer, barrierFree)
    {
      if failed { return false; }
      var rebinding := owner.Some? && owner.value.conn == conn;
      if answer.Unreadable? {
        if rebinding {
          failed := true;
          epoch := epoch + 1;
        }
        return false;
      }
      if request.generation != 0 {
        if answer.NotFound? || answer.head.binding != Binding(request.runId, request.generation) { return false; }
      }
      if owner.Some? && !rebinding && request.generation == 0 { return false; }
      if rebinding && request.runId != head.binding.runId { return false; }
      if saving {
        if !barrierFree { return false; }
        saving := false;
        saveRequestId := "";
        failed := false;
      }
      epoch := epoch + 1;
      ready := false;
      return true;
    }

    method BindCommit(env: Env, next: Head)
      modifies this
      ensures State() == BindCommitted(old(State()), env, next)
    {
      owner := Some(env);
      head := next;
      saving := false;
      saveRequestId := "";
    }

    method MarkReady(conn: nat, expected: Head, stopped: bool) returns (marked: bool)
      modifies this
      ensures State() == MarkedReady(old(State()), conn, expected, stopped)
      ensures marked ==> ready
    {
      if stopped || owner.None? || owner.value.conn != conn || head != expected || failed { return false; }
      ready := true;
      return true;
    }

    method PrepareCheckpoint(env: Env, binding: Binding, requestId: string, answer: PrepareAnswer) returns (accepted: bool)
      modifies this
      ensures State() == PreparedState(old(State()), env, binding, requestId, answer)
      ensures accepted && !old(saving) ==> saving && PrepareAdmitted(old(State()), env, binding)
    {
      if saving {
        if owner != Some(env) || saveRequestId != requestId { return false; }
        return answer.Prepared?;
      }
      var code := CheckSlot(env, binding);
      if code.Some? { return false; }
      saving := true;
      saveRequestId := requestId;
      epoch := epoch + 1;
      if answer.Refused? {
        saving := false;
        saveRequestId := "";
        ready := false;
        epoch := epoch + 1;
        return false;
      }
      head := answer.head;
      ready := false;
      return true;
    }

    method FinishCheckpoint(requestId: string, accepted: bool)
      modifies this
      ensures State() == FinishedState(old(State()), requestId, accepted)
    {
      if owner.None? { return; }
      if !accepted { return; }
      if saving && saveRequestId == requestId {
        saving := false;
        saveRequestId := "";
      }
    }

    method UpdateClock(env: Env, binding: Binding, clock: Clock, answer: Option<Head>)
      modifies this
      ensures State() == ClockState(old(State()), env, binding, clock, answer)
    {
      var code := CheckSlot(env, binding);
      if code.Some? || clock.id != head.clock.id { return; }
      if clock.sequence == head.clock.sequence && clock != head.clock {
        PauseClockViolation("clock_mismatch");
        return;
      }
      if clock.sequence < head.clock.sequence || clock.tick < head.clock.tick {
        PauseClockViolation("clock_rewound");
        return;
      }
      if answer.Some? { head := answer.value; }
    }

    method PauseClockViolation(reason: string)
      modifies this
      ensures State() == ViolationState(old(State()), reason)
    {
      epoch := epoch + 1;
      ready := false;
      head := head.(status := Paused, reason := reason);
    }

    method PauseWorld(binding: Binding, reason: string)
      modifies this
      ensures State() == PausedState(old(State()), binding, reason)
    {
      if head.binding != binding || owner.None? { return; }
      ready := false;
      epoch := epoch + 1;
      head := head.(status := Paused, reason := "task_dispatch_" + reason);
    }

    /** The first critical section of disconnect; false when another connection owns the slot. */
    method Leave(conn: nat) returns (owned: bool)
      modifies this
      ensures owned == old(State()).OwnedBy(conn)
      ensures State() == if owned then LeavingState(old(State())) else old(State())
    {
      if owner.None? || owner.value.conn != conn { return false; }
      ready := false;
      epoch := epoch + 1;
      return true;
    }

    /** The last critical section of disconnect, after the service answered. */
    method Left(outcome: Deactivation, reason: string)
      modifies this
      ensures State() == LeftState(old(State()), outcome, reason)
    {
      var kept := if head.status == Paused && head.reason != "" then head.reason else reason;
      if outcome.SaveHeld? { return; }
      if outcome.Broken? {
        failed := true;
        return;
      }
      owner := None;
      saving := false;
      saveRequestId := "";
      head := head.(status := Paused, reason := kept);
    }
  }

  // ---------------------------------------------------------------- the protocol

  /** Where a connection's receive loop stands: outside bind, past bind's opening fence,
      in bind's unlocked middle, or holding the head of a finished bind it has yet to mark ready. */
  datatype Pc = Idle | Closing | Mid | Bound(head: Head)

  /** Who holds the slot's lifecycle lock. */
  datatype Holder = Nobody | Binder(conn: nat) | Leaver(conn: nat)

  datatype World = World(slot: SlotState, pcs: map<nat, Pc>, serials: map<nat, nat>, holder: Holder, stopped: bool)
  {
    function PcOf(conn: nat): Pc { if conn in pcs then pcs[conn] else Idle }
    function EnvOf(conn: nat): Env { Env(conn, if conn in serials then serials[conn] else 0) }
  }

  datatype Event =
    | BindClose(conn: nat)
    | BindFail(conn: nat)
    | BindAdmit(conn: nat, request: BindRequest, answer: HeadAnswer, barrierFree: bool)
    | BindAbort(conn: nat, latch: bool)
    | BindSwap(conn: nat)
    | BindCommit(conn: nat, head: Head)
    | MarkReady(conn: nat)
    | ReplyLost(conn: nat)
    | Leave(conn: nat)
    | Left(conn: nat, outcome: Deactivation, reason: string)
    | Prepare(env: Env, binding: Binding, requestId: string, prepared: PrepareAnswer)
    | Finish(requestId: string, accepted: bool)
    | SetBarrier(env: Env, binding: Binding, raise: bool)
    | ClockUpdate(env: Env, binding: Binding, clock: Clock, updated: Option<Head>)
    | Pause(binding: Binding, reason: string)
    | StopAll
    | StopSlot

  predicate Init(w: World) {
    w.slot.owner == None && !w.slot.ready && !w.slot.saving && w.slot.saveRequestId == "" && w.slot.epoch == 0
    && w.pcs == map[] && w.holder == Nobody && !w.stopped
  }

  /** A connection's own loop is sequential: bind, mark-ready and prepare never overlap on it.
      A clock update answered by the service keeps the binding it was asked about, and a save request
      without an identifier is refused before it gets here. */
  predicate Enabled(w: World, e: Event) {
    match e
    case BindClose(c) => w.PcOf(c) == Idle && w.holder != Leaver(c)
    case BindFail(c) => w.PcOf(c) == Closing
    case BindAdmit(c, _, _, _) => w.PcOf(c) == Closing && w.holder == Nobody
    case BindAbort(c, _) => w.PcOf(c) == Mid && w.holder == Binder(c)
    case BindSwap(c) => w.PcOf(c) == Mid && w.holder == Binder(c) && w.slot.OwnedBy(c)
    case BindCommit(c, h) => w.PcOf(c) == Mid && w.holder == Binder(c) && h.status == Ready
    case MarkReady(c) => w.PcOf(c).Bound?
    case ReplyLost(c) => w.PcOf(c).Bound?
    case Leave(c) => w.holder == Nobody && (w.PcOf(c) == Idle || (w.stopped && w.PcOf(c).Bound?))
    case Left(c, _, _) => w.holder == Leaver(c)
    case Prepare(env, _, id, _) => w.PcOf(env.conn) == Idle && id != ""
    case ClockUpdate(_, b, _, updated) => updated.Some? ==> updated.value.binding == b
    case StopSlot => w.stopped
    case _ => true
  }

  function Next(w: World, e: Event): World {
    match e
    case BindClose(c) =>
      w.(pcs := w.pcs[c := Closing], slot := if w.slot.OwnedBy(c) then w.slot.(ready := false) else w.slot)
    case BindFail(c) => w.(pcs := w.pcs[c := Idle])
    case BindAdmit(c, request, answer, free) =>
      var (slot, admitted) := BindAdmitted(w.slot, c, request, answer, free);
      if admitted then w.(slot := slot, pcs := w.pcs[c := Mid], holder := Binder(c))
      else w.(slot := slot, pcs := w.pcs[c := Idle])
    case BindAbort(c, latch) =>
      w.(slot := if latch then w.slot.(failed := true) else w.slot, pcs := w.pcs[c := Idle], holder := Nobody)
    case BindSwap(c) =>
      var swapped := Env(c, w.EnvOf(c).serial + 1);
      w.(serials := w.serials[c := swapped.serial], slot := w.slot.(owner := Some(swapped)))
    case BindCommit(c, h) =>
      w.(slot := BindCommitted(w.slot, w.EnvOf(c), h), pcs := w.pcs[c := Bound(h)], holder := Nobody)
    case MarkReady(c) =>
      var slot := if w.PcOf(c).Bound? then MarkedReady(w.slot, c, w.PcOf(c).head, w.stopped) else w.slot;
      w.(slot := slot, pcs := w.pcs[c := Idle])
    case ReplyLost(c) => w.(pcs := w.pcs[c := Idle])
    case Leave(c) =>
      if w.slot.OwnedBy(c) then w.(slot := LeavingState(w.slot), holder := Leaver(c)) else w
    case Left(c, outcome, reason) => w.(slot := LeftState(w.slot, outcome, reason), holder := Nobody)
    case Prepare(env, b, id, answer) => w.(slot := PreparedState(w.slot, env, b, id, answer))
    case Finish(id, accepted) => w.(slot := FinishedState(w.slot, id, accepted))
    case SetBarrier(env, b, raise) => w.(slot := BarrierState(w.slot, env, b, raise))
    case ClockUpdate(env, b, clock, updated) => w.(slot := ClockState(w.slot, env, b, clock, updated))
    case Pause(b, reason) => w.(slot := PausedState(w.slot, b, reason))
    case StopAll => w.(stopped := true)
    case StopSlot => w.(slot := w.slot.(ready := false))
  }

  /** A run: states `ws` joined by events `es`. */
  predicate Run(ws: seq<World>, es: seq<Event>) {
    |ws| == |es| + 1
    && Init(ws[0])
    && forall k | 0 <= k < |es| :: Enabled(ws[k], es[k]) && ws[k + 1] == Next(ws[k], es[k])
  }

  /** While a connection rebinds a world it owns, that world is closed. */
  predicate Inv(w: World) {
    w.holder.Binder? ==>
      w.PcOf(w.holder.conn) == Mid && (w.slot.OwnedBy(w.holder.conn) ==> !w.slot.ready)
  }

  lemma StepKeepsInv(w: World, e: Event)
    requires Inv(w) && Enabled(w, e)
    ensures Inv(Next(w, e))
    ensures Next(w, e).slot.epoch >= w.slot.epoch
  {
  }

  lemma {:induction false} RunKeepsInv(ws: seq<World>, es: seq<Event>, k: nat)
    requires Run(ws, es) && k < |ws|
    ensures Inv(ws[k])
  {
    if k > 0 {
      RunKeepsInv(ws, es, k - 1);
      StepKeepsInv(ws[k - 1], es[k - 1]);
    }
  }

  // ---------------------------------------------------------------- the epoch fence

  /** The authority (env, binding) observed at `epoch` can never again be admitted at that epoch. */
  predicate Dead(w: World, env: Env, epoch: nat) {
    w.slot.epoch > epoch
    || (w.slot.epoch == epoch
        && w.holder != Binder(env.conn)
        && (w.slot.owner == Some(env) ==>
              !w.slot.ready && (w.PcOf(env.conn).Bound? ==> w.stopped || w.PcOf(env.conn).head != w.slot.head)))
  }

  lemma LiveStep(w: World, e: Event, env: Env, binding: Binding)
    requires Inv(w) && Enabled(w, e) && Live(w.slot, env, binding)
    ensures var w' := Next(w, e);
            (Live(w'.slot, env, binding) && w'.slot.epoch == w.slot.epoch) || Dead(w', env, w.slot.epoch)
  {
  }

  lemma DeadStep(w: World, e: Event, env: Env, epoch: nat)
    requires Inv(w) && Enabled(w, e) && Dead(w, env, epoch)
    ensures Dead(Next(w, e), env, epoch)
  {
    StepKeepsInv(w, e);
  }

  lemma {:induction false} LiveOrDead(ws: seq<World>, es: seq<Event>, i: nat, j: nat, env: Env, binding: Binding)
    requires Run(ws, es) && i <= j < |ws|
    requires Live(ws[i].slot, env, binding)
    ensures Dead(ws[j], env, ws[i].slot.epoch)
            || forall k | i <= k <= j :: Admits(ws[k].slot, env, binding, ws[i].slot.epoch)
  {
    if i < j {
      LiveOrDead(ws, es, i, j - 1, env, binding);
      RunKeepsInv(ws, es, j - 1);
      if Dead(ws[j - 1], env, ws[i].slot.epoch) {
        DeadStep(ws[j - 1], es[j - 1], env, ws[i].slot.epoch);
      } else {
        assert Admits(ws[j - 1].slot, env, binding, ws[i].slot.epoch);
        LiveStep(ws[j - 1], es[j - 1], env, binding);
      }
    }
  }

  /** If an authority observed (binding, epoch) and a later guard with the same pair runs its
      callback, the slot was ready, unsaving, owned by that environment and on that binding
      in every state in between. */
  lemma EpochFence(ws: seq<World>, es: seq<Event>, i: nat, j: nat, env: Env, binding: Binding, epoch: nat)
    requires Run(ws, es) && i <= j < |ws|
    requires Live(ws[i].slot, env, binding) && ws[i].slot.epoch == epoch
    requires Admits(ws[j].slot, env, binding, epoch)
    ensures forall k | i <= k <= j :: Live(ws[k].slot, env, binding) && ws[k].slot.epoch == epoch
  {
    LiveOrDead(ws, es, i, j, env, binding);
  }

  // ---------------------------------------------------------------- saves close the world

  /** Admission decides whether a prepare closes the world: an admitted one, accepted or refused
      afterwards, clears ready and moves the epoch; any other changes nothing at all. */
  lemma PrepareClosesIffAdmitted(s: SlotState, env: Env, binding: Binding, requestId: string, answer: PrepareAnswer)
    ensures var after := PreparedState(s, env, binding, requestId, answer);
            && (PrepareAdmitted(s, env, binding) <==> after.epoch > s.epoch)
            && (PrepareAdmitted(s, env, binding) ==>
                  !after.ready && forall other, b, epoch :: !Admits(after, other, b, epoch))
            && (!PrepareAdmitted(s, env, binding) ==>
                  after == s && forall other, b, epoch :: Admits(after, other, b, epoch) <==> Admits(s, other, b, epoch))
  {
  }

  /** The prepare of an environment that no longer owns the world is refused and closes nothing. */
  lemma StalePrepareLeavesTheWorldOpen(s: SlotState, env: Env, stale: Env, requestId: string, answer: PrepareAnswer)
    requires Live(s, env, s.head.binding) && stale != env
    ensures Live(PreparedState(s, stale, s.head.binding, requestId, answer), env, s.head.binding)
  {
  }

  predicate CommitBy(es: seq<Event>, k: nat, conn: nat)
    requires k < |es|
  {
    es[k].BindCommit? && es[k].conn == conn
  }

  predicate BoundSince(es: seq<Event>, from: nat, to: nat, conn: nat)
    requires to <= |es|
  {
    exists k: nat :: from < k < to && CommitBy(es, k, conn)
  }

  predicate ReopenedSince(es: seq<Event>, from: nat, to: nat)
    requires to <= |es|
  {
    exists m: nat :: from < m < to && es[m].MarkReady? && BoundSince(es, from, m, es[m].conn)
  }

  /** One step: only a mark-ready opens a closed world, and only a commit makes the holder of a
      bound head the owner. */
  lemma ClosedStep(w: World, e: Event)
    requires Enabled(w, e)
    ensures Next(w, e).slot.ready && !w.slot.ready ==>
              e.MarkReady? && w.PcOf(e.conn).Bound? && w.slot.OwnedBy(e.conn)
    ensures forall conn: nat :: Next(w, e).PcOf(conn).Bound? && Next(w, e).slot.OwnedBy(conn) ==>
              (e.BindCommit? && e.conn == conn) || (w.PcOf(conn).Bound? && w.slot.OwnedBy(conn))
  {
  }

  /** A closed world whose owner holds no head it could mark ready. */
  predicate Sealed(w: World) {
    !w.slot.ready && (w.slot.owner.Some? ==> !w.PcOf(w.slot.owner.value.conn).Bound?)
  }

  /** A raised save barrier that names a request belongs to a sealed world. */
  predicate SaveInv(w: World) { w.slot.saveRequestId != "" ==> w.slot.saving && Sealed(w) }

  lemma StepKeepsSaveInv(w: World, e: Event)
    requires SaveInv(w) && Enabled(w, e)
    ensures SaveInv(Next(w, e))
  {
    ClosedStep(w, e);
  }

  lemma {:induction false} RunKeepsSaveInv(ws: seq<World>, es: seq<Event>, k: nat)
    requires Run(ws, es) && k < |ws|
    ensures SaveInv(ws[k])
  {
    if k > 0 {
      RunKeepsSaveInv(ws, es, k - 1);
      assert Enabled(ws[k - 1], es[k - 1]) && ws[k] == Next(ws[k - 1], es[k - 1]);
      StepKeepsSaveInv(ws[k - 1], es[k - 1]);
    }
  }

  lemma {:induction false} SealedUntilReopened(ws: seq<World>, es: seq<Event>, i: nat, j: nat)
    requires Run(ws, es) && i < j < |ws| && Sealed(ws[i + 1])
    ensures forall conn: nat :: ws[j].PcOf(conn).Bound? && ws[j].slot.OwnedBy(conn) ==> BoundSince(es, i, j, conn)
    ensures ws[j].slot.ready ==> ReopenedSince(es, i, j)
  {
    if j > i + 1 {
      var w, e := ws[j - 1], es[j - 1];
      assert Enabled(w, e) && ws[j] == Next(w, e);
      SealedUntilReopened(ws, es, i, j - 1);
      ClosedStep(w, e);
      forall conn: nat | ws[j].PcOf(conn).Bound? && ws[j].slot.OwnedBy(conn)
        ensures BoundSince(es, i, j, conn)
      {
        if !CommitBy(es, j - 1, conn) {
          assert BoundSince(es, i, j - 1, conn);
        }
      }
      if ws[j].slot.ready && !w.slot.ready {
        assert BoundSince(es, i, j - 1, e.conn);
      }
    }
  }

  /** The repeat of a request the world already prepared is answered without raising anything. */
  predicate Repeated(s: SlotState, env: Env, requestId: string) {
    s.saving && s.owner == Some(env) && s.saveRequestId == requestId
  }

  /** Every prepare that got past admission, whatever its answer, and every repeat leaves the world sealed. */
  lemma PrepareSeals(w: World, e: Event)
    requires SaveInv(w) && Enabled(w, e) && e.Prepare?
    requires PrepareAdmitted(w.slot, e.env, e.binding) || Repeated(w.slot, e.env, e.requestId)
    ensures Sealed(Next(w, e))
  {
    if PrepareAdmitted(w.slot, e.env, e.binding) { PrepareClosesIffAdmitted(w.slot, e.env, e.binding, e.requestId, e.prepared); }
  }

  /** After a prepare that got past admission, or the repeat of one, no guarded callback runs until some
      connection has both finished a bind and then been marked ready. */
  lemma SaveFence(ws: seq<World>, es: seq<Event>, i: nat, j: nat, env: Env, binding: Binding, epoch: nat)
    requires Run(ws, es) && i < j < |ws| && es[i].Prepare?
    requires PrepareAdmitted(ws[i].slot, es[i].env, es[i].binding) || Repeated(ws[i].slot, es[i].env, es[i].requestId)
    requires Admits(ws[j].slot, env, binding, epoch)
    ensures exists k: nat, m: nat :: i < k < m < j && es[m].MarkReady? && CommitBy(es, k, es[m].conn)
  {
    RunKeepsSaveInv(ws, es, i);
    PrepareSeals(ws[i], es[i]);
    SealedUntilReopened(ws, es, i, j);
    var m: nat :| i < m < j && es[m].MarkReady? && BoundSince(es, i, m, es[m].conn);
    var k: nat :| i < k < m && CommitBy(es, k, es[m].conn);
  }

  // ---------------------------------------------------------------- when a world is open

  /** A mark-ready that is let through. */
  predicate Opens(w: World, e: Event) {
    && e.MarkReady? && w.PcOf(e.conn).Bound? && !w.stopped
    && w.slot.OwnedBy(e.conn) && w.slot.head == w.PcOf(e.conn).head && !w.slot.failed
  }

  /** A bind's fence, a disconnect of the owner, a prepare past admission, a clock violation, a pause
      of the bound world, or the stop of the slot. */
  predicate Closes(w: World, e: Event) {
    match e
    case BindClose(c) => w.slot.OwnedBy(c)
    case BindAdmit(c, request, answer, free) => BindAdmitted(w.slot, c, request, answer, free).1
    case Leave(c) => w.slot.OwnedBy(c)
    case Prepare(env, b, _, _) => PrepareAdmitted(w.slot, env, b)
    case ClockUpdate(env, b, clock, _) => Live(w.slot, env, b) && clock.id == w.slot.head.clock.id && Violates(clock, w.slot.head.clock)
    case Pause(b, _) => w.slot.head.binding == b && w.slot.owner.Some?
    case StopSlot => true
    case _ => false
  }

  /** The same sequence with another reading, or a sequence or tick that goes back. */
  predicate Violates(clock: Clock, last: Clock) {
    (clock.sequence == last.sequence && clock != last) || clock.sequence < last.sequence || clock.tick < last.tick
  }

  lemma ReadyStep(w: World, e: Event)
    requires Enabled(w, e)
    ensures Next(w, e).slot.ready <==> Opens(w, e) || (w.slot.ready && !Closes(w, e))
  {
  }

  predicate OpensAt(ws: seq<World>, es: seq<Event>, m: nat) { m < |es| && m < |ws| && Opens(ws[m], es[m]) }

  predicate ClosesAt(ws: seq<World>, es: seq<Event>, m: nat) { m < |es| && m < |ws| && Closes(ws[m], es[m]) }

  /** A mark let through at `m` and nothing that closes the world after it. */
  predicate OpenSince(ws: seq<World>, es: seq<Event>, m: nat, j: nat) {
    m < j && OpensAt(ws, es, m) && forall n: nat | m < n < j :: !ClosesAt(ws, es, n)
  }

  predicate Since(sets: nat -> bool, clears: nat -> bool, m: nat, j: nat) {
    m < j && sets(m) && forall n: nat | m < n < j :: !clears(n)
  }

  /** A flag that steps set and clear is up exactly when a step set it and none has cleared it since. */
  lemma {:induction false} LastOneDecides(flag: nat -> bool, sets: nat -> bool, clears: nat -> bool, i: nat, j: nat)
    requires i <= j && !flag(i)
    requires forall k: nat {:trigger sets(k)} | i <= k < j :: flag(k + 1) <==> sets(k) || (flag(k) && !clears(k))
    ensures flag(j) <==> exists m: nat | i <= m < j :: Since(sets, clears, m, j)
  {
    if i < j {
      var k := j - 1;
      LastOneDecides(flag, sets, clears, i, k);
      assert flag(k + 1) <==> sets(k) || (flag(k) && !clears(k));
      if sets(k) { assert Since(sets, clears, k, j); }
      if flag(k) && !clears(k) {
        var m: nat :| i <= m < k && Since(sets, clears, m, k);
        assert Since(sets, clears, m, j);
      }
      if m: nat :| i <= m < j && Since(sets, clears, m, j) && m != k { assert Since(sets, clears, m, k); }
    }
  }

  /** From a closed state on, the world is open exactly when a mark was let through that nothing has
      undone since. */
  lemma OpenIffMarked(ws: seq<World>, es: seq<Event>, i: nat, j: nat)
    requires Run(ws, es) && i <= j < |ws| && !ws[i].slot.ready
    ensures ws[j].slot.ready <==> exists m: nat | i <= m < j :: OpenSince(ws, es, m, j)
  {
    var flag, sets, clears := (k: nat) => k < |ws| && ws[k].slot.ready, (k: nat) => OpensAt(ws, es, k), (k: nat) => ClosesAt(ws, es, k);
    forall k: nat {:trigger sets(k)} | i <= k < j ensures flag(k + 1) <==> sets(k) || (flag(k) && !clears(k)) { ReadyAt(ws, es, k); }
    LastOneDecides(flag, sets, clears, i, j);
    forall m: nat | i <= m < j ensures Since(sets, clears, m, j) <==> OpenSince(ws, es, m, j) { SameSince(ws, es, sets, clears, m, j); }
  }

  lemma SameSince(ws: seq<World>, es: seq<Event>, sets: nat -> bool, clears: nat -> bool, m: nat, j: nat)
    requires forall k: nat :: sets(k) == OpensAt(ws, es, k)
    requires forall k: nat :: clears(k) == ClosesAt(ws, es, k)
    ensures Since(sets, clears, m, j) <==> OpenSince(ws, es, m, j)
  {
  }

  lemma ReadyAt(ws: seq<World>, es: seq<Event>, k: nat)
    requires Run(ws, es) && k < |es|
    ensures ws[k + 1].slot.ready <==> OpensAt(ws, es, k) || (ws[k].slot.ready && !ClosesAt(ws, es, k))
  {
    assert Enabled(ws[k], es[k]) && ws[k + 1] == Next(ws[k], es[k]);
    ReadyStep(ws[k], es[k]);
  }

  // ---------------------------------------------------------------- shutdown

  lemma {:induction false} StoppedStaysClosed(ws: seq<World>, es: seq<Event>, i: nat, j: nat)
    requires Run(ws, es) && i <= j < |ws|
    requires ws[i].stopped && !ws[i].slot.ready
    ensures ws[j].stopped && !ws[j].slot.ready
  {
    if i < j {
      StoppedStaysClosed(ws, es, i, j - 1);
      var w, e := ws[j - 1], es[j - 1];
      assert Enabled(w, e) && ws[j] == Next(w, e);
      StoppedStep(w, e);
    }
  }

  lemma StoppedStep(w: World, e: Event)
    requires Enabled(w, e) && w.stopped && !w.slot.ready
    ensures Next(w, e).stopped && !Next(w, e).slot.ready
  {
  }

  // ---------------------------------------------------------------- a takeover can inherit ready

  const CLOCK := Clock("c", 0, 0)
  const FIRST := Head(Binding("run", 1), CLOCK, Ready, "")
  const UNBOUND := World(SlotState(None, Head(Binding("", 0), CLOCK, Paused, ""), false, false, "", false, 0), map[], map[], Nobody, false)
  const BOUND := World(SlotState(Some(Env(1, 0)), FIRST, false, false, "", false, 1), map[1 := Bound(FIRST)], map[], Nobody, false)

  lemma RunGrows(ws: seq<World>, es: seq<Event>, e: Event) returns (states: seq<World>, events: seq<Event>)
    requires Run(ws, es) && Enabled(ws[|es|], e)
    ensures events == es + [e] && states == ws + [Next(ws[|es|], e)] && Run(states, events)
  {
    events, states := es + [e], ws + [Next(ws[|es|], e)];
  }

  lemma FirstBind() returns (ws: seq<World>, es: seq<Event>)
    ensures Run(ws, es) && ws[|es|] == BOUND && MarkReady(2) !in es
  {
    ws, es := [UNBOUND], [];
    ws, es := RunGrows(ws, es, BindClose(1));
    var admit := BindAdmit(1, BindRequest("run", 0), NotFound, true);
    ws, es := RunGrows(ws, es, admit);
    ws, es := RunGrows(ws, es, BindCommit(1, FIRST));
  }

  /** Commit does not clear `ready`, and the displaced owner's pending mark can land in the unlocked
      middle of a takeover. Then the world is open under the new owner before that owner's own
      mark-ready. The fence above holds on this run as on every other. */
  lemma TakeoverInheritsReady() returns (ws: seq<World>, es: seq<Event>)
    ensures Run(ws, es)
    ensures ws[|es|].slot.ready && ws[|es|].slot.OwnedBy(2)
    ensures MarkReady(2) !in es
  {
    ws, es := FirstBind();
    ws, es := RunGrows(ws, es, BindClose(2));
    var admit := BindAdmit(2, BindRequest("run", 1), Found(FIRST), true);
    ws, es := RunGrows(ws, es, admit);
    ws, es := RunGrows(ws, es, MarkReady(1));
    assert ws[|es|].slot.ready;
    var commit := BindCommit(2, Head(Binding("run", 2), CLOCK, Ready, ""));
    ws, es := RunGrows(ws, es, commit);
  }

  /** The middle of `conn`'s bind, opened at step `a`: it holds the lifecycle lock from there on. */
  predicate MiddleOf(ws: seq<World>, es: seq<Event>, a: nat, k: nat, conn: nat)
    requires k <= |es| && |ws| == |es| + 1
  {
    && a < k && es[a].BindAdmit? && es[a].conn == conn && !ws[a + 1].slot.ready
    && forall i | a < i <= k :: ws[i].holder == Binder(conn)
  }

  lemma MiddleStep(w: World, e: Event, conn: nat)
    requires Inv(w) && Enabled(w, e) && Next(w, e).holder == Binder(conn)
    ensures w.holder == Binder(conn) || (e.BindAdmit? && e.conn == conn && !Next(w, e).slot.ready)
  {
  }

  lemma {:induction false} FindMiddle(ws: seq<World>, es: seq<Event>, k: nat, conn: nat) returns (a: nat)
    requires Run(ws, es) && k < |ws| && ws[k].holder == Binder(conn)
    ensures MiddleOf(ws, es, a, k, conn)
  {
    var w, e := ws[k - 1], es[k - 1];
    assert Enabled(w, e) && ws[k] == Next(w, e);
    RunKeepsInv(ws, es, k - 1);
    MiddleStep(w, e, conn);
    if w.holder == Binder(conn) {
      a := FindMiddle(ws, es, k - 1, conn);
    } else {
      a := k - 1;
    }
  }

  lemma CommitKeepsReady(ws: seq<World>, es: seq<Event>, k: nat)
    requires Run(ws, es) && k < |es| && es[k].BindCommit?
    ensures ws[k].holder == Binder(es[k].conn) && ws[k + 1].slot.ready == ws[k].slot.ready
  {
    assert Enabled(ws[k], es[k]) && ws[k + 1] == Next(ws[k], es[k]);
  }

  lemma OpenedByAnother(ws: seq<World>, es: seq<Event>, m: nat, conn: nat)
    requires Run(ws, es) && m < |es| && ws[m].holder == Binder(conn) && OpensAt(ws, es, m)
    ensures es[m].MarkReady? && es[m].conn != conn
  {
    RunKeepsInv(ws, es, m);
  }

  /** A commit leaves the world open exactly when, in the unlocked middle of this very bind, another
      connection's mark was let through and nothing closed the world again before the commit. */
  lemma OpenCommitIff(ws: seq<World>, es: seq<Event>, k: nat) returns (a: nat)
    requires Run(ws, es) && k < |es| && es[k].BindCommit?
    ensures a < k && es[a].BindAdmit? && es[a].conn == es[k].conn
    ensures forall i | a < i <= k :: ws[i].holder == Binder(es[k].conn)
    ensures ws[k + 1].slot.ready <==>
              exists m: nat :: a < m < k && OpenSince(ws, es, m, k) && es[m].MarkReady? && es[m].conn != es[k].conn
  {
    CommitKeepsReady(ws, es, k);
    a := FindMiddle(ws, es, k, es[k].conn);
    OpenIffMarked(ws, es, a + 1, k);
    forall m: nat | a + 1 <= m < k && OpenSince(ws, es, m, k) ensures es[m].MarkReady? && es[m].conn != es[k].conn {
      OpenedByAnother(ws, es, m, es[k].conn);
    }
  }

  /** In particular nothing but a racing mark can do it. */
  lemma OpenCommitNeedsARacingMark(ws: seq<World>, es: seq<Event>, k: nat)
    requires Run(ws, es) && k < |es| && es[k].BindCommit? && ws[k + 1].slot.ready
    ensures exists a: nat, m: nat :: a < m < k && es[a].BindAdmit? && es[a].conn == es[k].conn
                                     && es[m].MarkReady? && es[m].conn != es[k].conn
  {
    var a := OpenCommitIff(ws, es, k);
    var m: nat :| a < m < k && OpenSince(ws, es, m, k) && es[m].MarkReady? && es[m].conn != es[k].conn;
  }
}

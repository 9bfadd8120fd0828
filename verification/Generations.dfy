/** Generations of the runtime: publication, replacement with rollback, drain and close, against
    connections that arrive, are admitted, handle messages and finish at any moment.

    `StreamGroup` and `Runtime` have one method per critical section under their own locks. Each is
    proved against a function on values; the functions are the steps of a protocol in which all of
    them interleave, and the theorems are about every run of it. */
module Generations {
  import opened Wrappers

  // ---------------------------------------------------------------- stream groups

  /** Admission and the handlers still at work, by connection. */
  datatype Group = Group(stopped: bool, workers: set<nat>)

  const OpenGroup := Group(false, {})

  function Admitted(g: Group, conn: nat): Group { if g.stopped then g else g.(workers := g.workers + {conn}) }

  class StreamGroup {
    var stopped: bool
    var workers: set<nat>
    var cancelled: set<nat>

    function Abs(): Group
      reads this
    {
      Group(stopped, workers)
    }

    constructor ()
      ensures Abs() == OpenGroup
    {
      stopped, workers, cancelled := false, {}, {};
    }

    /** The critical section of Run: a stopped group admits nobody. */
    method Admit(conn: nat) returns (admitted: bool)
      modifies this
      ensures admitted == !old(stopped) && Abs() == Admitted(old(Abs()), conn) && cancelled == old(cancelled)
    {
      if stopped { return false; }
      workers := workers + {conn};
      return true;
    }

    /** The end of a handler, after its sends. */
    method Finish(conn: nat)
      modifies this
      ensures Abs() == old(Abs()).(workers := old(workers) - {conn}) && cancelled == old(cancelled)
    {
      workers := workers - {conn};
    }

    /** Waiting for the workers: the wait ends when the last handler has finished. */
    method Wait()
      modifies this
      ensures Abs() == Group(old(stopped), {}) && cancelled == old(cancelled)
    {
      while workers != {}
        invariant stopped == old(stopped) && cancelled == old(cancelled)
        decreases |workers|
      {
        var conn :| conn in workers;
        assert |workers - {conn}| < |workers|;
        Finish(conn);
      }
    }

    /** Stop closes admission for good and cancels every handler at work. */
    method Stop()
      modifies this
      ensures Abs() == old(Abs()).(stopped := true) && workers <= cancelled && old(cancelled) <= cancelled
    {
      stopped := true;
      cancelled := cancelled + workers;
    }
  }

  // ---------------------------------------------------------------- the runtime's fields

  datatype Mode = NeedsConfiguration | Reconfiguring | Ready | Blocked

  datatype Snapshot = Snapshot(mode: Mode, ready: bool, game: nat)

  /** Bundles and stream groups are named by numbers. */
  datatype Fields = Fields(streams: nat, bundle: Option<nat>, snapshot: Snapshot, closed: bool, pending: Option<nat>)

  function Failed(s: Snapshot, mode: Mode): Snapshot { s.(mode := mode, ready := false) }

  function Retired(f: Fields): Fields { f.(snapshot := Failed(f.snapshot, Reconfiguring), bundle := None) }

  function Published(f: Fields, bundle: nat, snapshot: Snapshot, streams: nat): Fields {
    f.(bundle := Some(bundle), snapshot := snapshot, streams := streams)
  }

  function ShuttingDown(f: Fields): Fields { f.(closed := true, snapshot := Failed(f.snapshot, Blocked)) }

  /** What preparing a bundle comes to: a new bundle, a failure that left nothing behind, or one whose
      clean-up failed. */
  datatype Preparation = Made | Unmade | Unsafe

  /** How the outside world answers during a replacement: whether the old bundle closes cleanly, what
      preparing the candidate comes to, whether it is committed, whether an aborted candidate is cleaned
      up, and what restoring the old generation comes to. */
  datatype Answers = Answers(closes: bool, preparation: Preparation, candidate: nat, commits: bool, cleaned: bool,
                             restoration: Preparation, restored: nat)

  predicate Drains(last: Option<nat>, a: Answers) { last.None? || a.closes }

  predicate CanCommit(last: Option<nat>, a: Answers) { Drains(last, a) && a.preparation.Made? && a.commits }

  /** The candidate failed without leaving anything behind. */
  predicate CanRecover(last: Option<nat>, a: Answers) {
    Drains(last, a) && (a.preparation.Unmade? || (a.preparation.Made? && !a.commits && a.cleaned))
  }

  predicate CanRestore(last: Option<nat>, a: Answers) { CanRecover(last, a) && last.Some? && a.restoration.Made? }

  predicate CanReopen(last: Option<nat>, a: Answers) { CanRecover(last, a) && last.None? }

  /** Every prepared bundle is a new one. */
  predicate Distinct(last: Option<nat>, a: Answers) {
    a.candidate != a.restored && last != Some(a.candidate) && last != Some(a.restored)
  }

  class Runtime {
    var streams: nat
    var bundle: Option<nat>
    var snapshot: Snapshot
    var closed: bool
    var pendingCleanup: Option<nat>

    function Abs(): Fields
      reads this
    {
      Fields(streams, bundle, snapshot, closed, pendingCleanup)
    }

    /** Connect captures the stream group and the bundle together. */
    method Capture() returns (group: nat, captured: Option<nat>)
      ensures group == streams && captured == bundle
    {
      return streams, bundle;
    }

    method Retire() returns (last: Option<nat>, previous: Snapshot, group: nat)
      modifies this
      ensures last == old(bundle) && previous == old(snapshot) && group == old(streams) && Abs() == Retired(old(Abs()))
    {
      last, previous, group := bundle, snapshot, streams;
      snapshot := snapshot.(mode := Reconfiguring, ready := false);
      bundle := None;
    }

    method Publish(candidate: nat, next: Snapshot, group: nat)
      modifies this
      ensures Abs() == Published(old(Abs()), candidate, next, group)
    {
      bundle, snapshot, streams := Some(candidate), next, group;
    }

    method PublishFailure(base: Snapshot, mode: Mode)
      modifies this
      ensures Abs() == old(Abs()).(snapshot := Failed(base, mode))
    {
      snapshot := base.(mode := mode, ready := false);
    }

    method Reopen(group: nat)
      modifies this
      ensures Abs() == old(Abs()).(streams := group)
    {
      streams := group;
    }

    /** A whole replacement, seen from the holder of the setup lock. `group` is the current stream group and
        `fresh` the name of the next one; the answers of the outside world are given. Whatever they are, it
        ends in one of three ways: the candidate published with its commit done, the previous generation
        restored, or no bundle and not ready. */
    method ReplaceLocked(group: StreamGroup, answers: Answers, next: Snapshot, nextGroup: nat) returns (committed: bool, closing: seq<nat>)
      modifies this, group
      ensures group.stopped && group.workers == {}
      ensures closed == old(closed)
      ensures committed <==> CanCommit(old(bundle), answers)
      ensures committed ==> bundle == Some(answers.candidate) && streams == nextGroup && snapshot == next.(mode := Ready, ready := true)
      ensures !committed && CanRestore(old(bundle), answers) ==>
                bundle == Some(answers.restored) && streams == nextGroup && snapshot == old(snapshot)
      ensures !committed && !CanRestore(old(bundle), answers) ==>
                bundle.None? && snapshot == Failed(old(snapshot), if CanReopen(old(bundle), answers) then NeedsConfiguration else Blocked)
                && streams == if CanReopen(old(bundle), answers) then nextGroup else old(streams)
      ensures old(bundle).Some? ==> old(bundle).value in closing
      ensures pendingCleanup != old(pendingCleanup) ==> pendingCleanup.Some? && pendingCleanup.value in closing && snapshot.mode == Blocked
      ensures bundle.Some? && Distinct(old(bundle), answers) ==> bundle.value !in closing
    {
      var last, previous, _ := Retire();
      closing, committed := [], false;
      group.Stop();
      group.Wait();
      if last.Some? {
        closing := closing + [last.value];
        if !answers.closes {
          PublishFailure(previous, Blocked);
          return;
        }
      }
      var unsafe, ready := answers.preparation.Unsafe?, answers.preparation.Made?;
      if ready && !answers.commits {
        closing, ready, unsafe := closing + [answers.candidate], false, !answers.cleaned;
      }
      if ready {
        Publish(answers.candidate, next.(mode := Ready, ready := true), nextGroup);
        return true, closing;
      }
      if unsafe {
        closing, pendingCleanup := closing + [answers.candidate], Some(answers.candidate);
        PublishFailure(previous, Blocked);
        return;
      }
      if last.None? {
        Reopen(nextGroup);
        PublishFailure(previous, NeedsConfiguration);
        return;
      }
      if !answers.restoration.Made? {
        if answers.restoration.Unsafe? { closing, pendingCleanup := closing + [answers.restored], Some(answers.restored); }
        PublishFailure(previous, Blocked);
        return;
      }
      Publish(answers.restored, previous, nextGroup);
    }

    method BeginClose() returns (first: bool, last: Option<nat>)
      modifies this
      ensures first == !old(closed) && last == old(bundle)
      ensures Abs() == if first then ShuttingDown(old(Abs())) else old(Abs())
    {
      if closed { return false, bundle; }
      closed := true;
      snapshot := snapshot.(ready := false, mode := Blocked);
      return true, bundle;
    }
  }

  // ---------------------------------------------------------------- the protocol

  /** A connection: what it captured, and how far it came. */
  datatype Conn = Captured(group: nat, bundle: Option<nat>) | Running(group: nat, bundle: Option<nat>) | Done

  /** What a replacement remembers of the generation it retires. */
  datatype Job = Job(last: Option<nat>, previous: Snapshot, group: nat, committed: bool)

  /** Where the holder of the setup lock is. */
  datatype Setup =
    | Idle
    | Draining(job: Job)
    | ClosingOld(job: Job)
    | Preparing(job: Job)
    | Committing(job: Job, candidate: nat)
    | Publishing(job: Job, candidate: nat)
    | Recovering(job: Job)
    | Reopened(job: Job)
    | Restoring(job: Job, restored: nat)
    | Configuring
    | Configured(candidate: nat)
    | StoppingAll(last: Option<nat>)
    | DrainingAll(last: Option<nat>)

  datatype Sys = Sys(f: Fields, groups: seq<Group>, closing: set<nat>, conns: map<nat, Conn>,
                     home: map<nat, nat>, made: nat, setup: Setup)

  datatype Event =
    | Connect(c: nat) | Admit(c: nat) | Handle(c: nat) | Finish(c: nat)
    | BeginReplace | Drain | CloseOld(ok: bool) | Prepare(how: Preparation) | CommitReplace(ok: bool, cleaned: bool)
    | PublishReplace(game: nat) | Reopen | GiveUp | Restore(how: Preparation) | PublishRestored
    | BeginConfigure | PrepareConfigured(how: Preparation) | PublishConfigured(game: nat) | FailConfigured(blocked: bool) | Block
    | BeginShutdown | StopAll | CloseAll

  predicate Stopped(s: Sys, g: nat) { g < |s.groups| && s.groups[g].stopped }

  predicate Open(s: Sys, g: nat) { g < |s.groups| && !s.groups[g].stopped }

  /** A group that is stopped and has no worker left. */
  predicate Quiet(s: Sys, g: nat) { Stopped(s, g) && s.groups[g].workers == {} }

  predicate Drained(s: Sys, g: nat) { g < |s.groups| && s.groups[g].workers == {} }

  /** Groups are never forgotten, so every group named in a state exists. */
  predicate Exists(s: Sys, g: nat) { g < |s.groups| }

  predicate Enabled(s: Sys, e: Event) {
    match e
    case Connect(c) => c !in s.conns
    case Admit(c) => c in s.conns && s.conns[c].Captured? && Exists(s, s.conns[c].group)
    case Handle(c) => c in s.conns && s.conns[c].Running?
    case Finish(c) => c in s.conns && s.conns[c].Running? && Exists(s, s.conns[c].group)
    case BeginReplace => s.setup.Idle? && !s.f.closed && s.f.snapshot.mode != Blocked && Exists(s, s.f.streams)
    case Drain => s.setup.Draining? && Drained(s, s.setup.job.group)
    case CloseOld(ok) => s.setup.ClosingOld?
    case Prepare(how) => s.setup.Preparing?
    case CommitReplace(ok, cleaned) => s.setup.Committing?
    case PublishReplace(game) => s.setup.Publishing?
    case Reopen => s.setup.Recovering? && s.setup.job.last.None?
    case GiveUp => s.setup.Reopened?
    case Restore(how) => s.setup.Recovering? && s.setup.job.last.Some?
    case PublishRestored => s.setup.Restoring?
    case BeginConfigure => s.setup.Idle? && !s.f.closed && s.f.snapshot.mode != Blocked && s.f.bundle.None?
    case PrepareConfigured(how) => s.setup.Configuring?
    case PublishConfigured(game) => s.setup.Configured?
    case FailConfigured(blocked) => s.setup.Configuring?
    case Block => s.setup.Idle? && !s.f.snapshot.ready
    case BeginShutdown => s.setup.Idle? && !s.f.closed
    case StopAll => s.setup.StoppingAll? && Exists(s, s.f.streams)
    case CloseAll => s.setup.DrainingAll? && Drained(s, s.f.streams)
  }

  function WithGroup(s: Sys, g: nat, group: Group): Sys
    requires g < |s.groups|
  {
    s.(groups := s.groups[g := group])
  }

  /** A published failure ends the setup operation. */
  function Blocking(s: Sys, base: Snapshot): Sys { s.(f := s.f.(snapshot := Failed(base, Blocked)), setup := Idle) }

  /** A candidate whose clean-up began; if that failed it is kept for later. */
  function Aborted(s: Sys, candidate: nat, cleaned: bool): Sys {
    s.(closing := s.closing + {candidate}, f := if cleaned then s.f else s.f.(pending := Some(candidate)))
  }

  function NewBundle(s: Sys): Sys { s.(made := s.made + 1) }

  /** Preparing for a job: on to the next step, to recovery, or to a blocked runtime. */
  function PreparedFor(s: Sys, job: Job, how: Preparation): Sys {
    match how
    case Made => NewBundle(s).(setup := Committing(job, s.made))
    case Unmade => s.(setup := Recovering(job))
    case Unsafe => Blocking(Aborted(NewBundle(s), s.made, false), job.previous)
  }

  /** Publishing a bundle on a new stream group. */
  function OnNewGroup(s: Sys, bundle: nat, snapshot: Snapshot): Sys {
    s.(f := Published(s.f, bundle, snapshot, |s.groups|), groups := s.groups + [OpenGroup],
       home := s.home[bundle := |s.groups|], setup := Idle)
  }

  function CloseBundle(s: Sys, bundle: Option<nat>): Sys { if bundle.None? then s else s.(closing := s.closing + {bundle.value}) }

  function Next(s: Sys, e: Event): Sys
    requires Enabled(s, e)
  {
    match e
    case Connect(c) => s.(conns := s.conns[c := Captured(s.f.streams, s.f.bundle)])
    case Admit(c) =>
      var g := s.conns[c].group;
      if s.groups[g].stopped then s.(conns := s.conns[c := Done])
      else WithGroup(s, g, Admitted(s.groups[g], c)).(conns := s.conns[c := Running(g, s.conns[c].bundle)])
    case Handle(c) => s
    case Finish(c) =>
      var g := s.conns[c].group;
      WithGroup(s, g, s.groups[g].(workers := s.groups[g].workers - {c})).(conns := s.conns[c := Done])
    case BeginReplace =>
      var job := Job(s.f.bundle, s.f.snapshot, s.f.streams, false);
      WithGroup(s, s.f.streams, s.groups[s.f.streams].(stopped := true)).(f := Retired(s.f), setup := Draining(job))
    case Drain => s.(setup := ClosingOld(s.setup.job))
    case CloseOld(ok) =>
      var closed := CloseBundle(s, s.setup.job.last);
      if ok || s.setup.job.last.None? then closed.(setup := Preparing(s.setup.job)) else Blocking(closed, s.setup.job.previous)
    case Prepare(how) => PreparedFor(s, s.setup.job, how)
    case CommitReplace(ok, cleaned) =>
      if ok then s.(setup := Publishing(s.setup.job.(committed := true), s.setup.candidate))
      else if cleaned then Aborted(s, s.setup.candidate, true).(setup := Recovering(s.setup.job))
      else Blocking(Aborted(s, s.setup.candidate, false), s.setup.job.previous)
    case PublishReplace(game) => OnNewGroup(s, s.setup.candidate, Snapshot(Ready, true, game))
    case Reopen => s.(f := s.f.(streams := |s.groups|), groups := s.groups + [OpenGroup], setup := Reopened(s.setup.job))
    case GiveUp => s.(f := s.f.(snapshot := Failed(s.setup.job.previous, NeedsConfiguration)), setup := Idle)
    case Restore(how) =>
      if how.Made? then NewBundle(s).(setup := Restoring(s.setup.job, s.made))
      else if how.Unsafe? then Blocking(Aborted(NewBundle(s), s.made, false), s.setup.job.previous)
      else Blocking(s, s.setup.job.previous)
    case PublishRestored => OnNewGroup(s, s.setup.restored, s.setup.job.previous)
    case BeginConfigure => s.(setup := Configuring)
    case PrepareConfigured(how) =>
      if how.Made? then NewBundle(s).(setup := Configured(s.made))
      else if how.Unsafe? then Blocking(Aborted(NewBundle(s), s.made, false), s.f.snapshot)
      else s.(f := s.f.(snapshot := Failed(s.f.snapshot, NeedsConfiguration)), setup := Idle)
    case PublishConfigured(game) =>
      s.(f := Published(s.f, s.setup.candidate, Snapshot(Ready, true, game), s.f.streams),
         home := s.home[s.setup.candidate := s.f.streams], setup := Idle)
    case FailConfigured(blocked) =>
      s.(f := s.f.(snapshot := Failed(s.f.snapshot, if blocked then Blocked else NeedsConfiguration)), setup := Idle)
    case Block => s.(f := s.f.(snapshot := Failed(s.f.snapshot, Blocked)))
    case BeginShutdown => s.(f := ShuttingDown(s.f), setup := StoppingAll(s.f.bundle))
    case StopAll => WithGroup(s, s.f.streams, s.groups[s.f.streams].(stopped := true)).(setup := DrainingAll(s.setup.last))
    case CloseAll => CloseBundle(CloseBundle(s, s.setup.last), s.f.pending).(setup := Idle)
  }

  const Start := Sys(Fields(0, None, Snapshot(NeedsConfiguration, false, 0), false, None), [OpenGroup], {}, map[], map[], 0, Idle)

  predicate Possible(s: Sys, events: seq<Event>)
    decreases |events|
  {
    events == [] || (Enabled(s, events[0]) && Possible(Next(s, events[0]), events[1..]))
  }

  function Run(s: Sys, events: seq<Event>): Sys
    requires Possible(s, events)
    decreases |events|
  {
    if events == [] then s else Run(Next(s, events[0]), events[1..])
  }

  // ---------------------------------------------------------------- what every step keeps

  /** A connection belongs to the group its bundle was published on, and runs only as that group's worker. */
  predicate GoodConn(s: Sys, c: nat)
    requires c in s.conns
  {
    match s.conns[c]
    case Captured(g, b) => Exists(s, g) && (b.Some? ==> b.value in s.home && s.home[b.value] == g)
    case Running(g, b) => Exists(s, g) && c in s.groups[g].workers && (b.Some? ==> b.value in s.home && s.home[b.value] == g)
    case Done => true
  }

  ghost predicate GoodConns(s: Sys) { forall c {:trigger GoodConn(s, c)} | c in s.conns :: GoodConn(s, c) }

  /** A bundle whose close began was never published, or its group is quiet for good. */
  predicate GoodBundle(s: Sys, b: nat) {
    && (b in s.home ==> b < s.made && s.home[b] < |s.groups|)
    && (b in s.closing ==> b < s.made && (b in s.home ==> Quiet(s, s.home[b])))
  }

  ghost predicate GoodBundles(s: Sys) { forall b: nat {:trigger GoodBundle(s, b)} :: GoodBundle(s, b) }

  /** The published bundle lives on the current group. */
  predicate AtHome(s: Sys, b: Option<nat>) { b.Some? ==> b.value in s.home && s.home[b.value] == s.f.streams }

  /** A candidate exists, is not published and is not being closed. */
  predicate Unpublished(s: Sys, b: nat) { b < s.made && b !in s.home && b !in s.closing }

  predicate JobQuiet(s: Sys, job: Job) {
    s.f.bundle.None? && s.f.streams == job.group && Quiet(s, job.group) && !s.f.snapshot.ready && !job.committed && AtHome(s, job.last)
  }

  predicate PendingFine(s: Sys) { s.f.pending.Some? ==> s.f.pending.value in s.closing }

  /** What the setup operation in progress has established. */
  predicate GoodSetup(s: Sys) {
    match s.setup
    case Idle => true
    case Draining(job) =>
      s.f.bundle.None? && s.f.streams == job.group && Stopped(s, job.group) && !s.f.snapshot.ready && !job.committed
      && AtHome(s, job.last) && (job.last.Some? ==> job.last.value !in s.closing)
    case ClosingOld(job) => JobQuiet(s, job) && (job.last.Some? ==> job.last.value !in s.closing)
    case Preparing(job) => JobQuiet(s, job)
    case Committing(job, candidate) => JobQuiet(s, job) && Unpublished(s, candidate)
    case Publishing(job, candidate) => JobQuiet(s, job.(committed := false)) && job.committed && Unpublished(s, candidate)
    case Recovering(job) => JobQuiet(s, job)
    case Reopened(job) => s.f.bundle.None? && !s.f.snapshot.ready && !job.committed && Open(s, s.f.streams) && job.last.None?
    case Restoring(job, restored) => JobQuiet(s, job) && Unpublished(s, restored)
    case Configuring => s.f.bundle.None? && !s.f.closed && s.f.snapshot.mode != Blocked
    case Configured(candidate) => s.f.bundle.None? && !s.f.closed && s.f.snapshot.mode != Blocked && Unpublished(s, candidate)
    case StoppingAll(last) => s.f.closed && last == s.f.bundle
    case DrainingAll(last) => s.f.closed && last == s.f.bundle && Stopped(s, s.f.streams)
  }

  /** While the runtime is open, its bundle is not being closed, and readiness means a bundle; outside a
      replacement and unless it is blocked the current group admits connections. */
  predicate GoodFields(s: Sys) {
    && Exists(s, s.f.streams) && AtHome(s, s.f.bundle) && PendingFine(s)
    && (!s.f.closed && s.f.bundle.Some? ==> s.f.bundle.value !in s.closing && Open(s, s.f.streams))
    && (s.f.snapshot.ready ==> s.f.bundle.Some? && !s.f.closed)
    && (!s.f.closed && (s.setup.Idle? || s.setup.Configuring? || s.setup.Configured?) && s.f.snapshot.mode != Blocked ==>
          Open(s, s.f.streams))
    && (s.f.closed ==> s.setup.Idle? || s.setup.StoppingAll? || s.setup.DrainingAll?)
  }

  ghost predicate Good(s: Sys) { GoodFields(s) && GoodSetup(s) && GoodConns(s) && GoodBundles(s) }

  /** Groups only gain members of the world: none disappears, a worker stays, and a quiet one stays quiet. */
  predicate GroupsGrow(s: Sys, t: Sys) {
    && |s.groups| <= |t.groups|
    && forall g | 0 <= g < |s.groups| :: s.groups[g].workers <= t.groups[g].workers && (Quiet(s, g) ==> Quiet(t, g))
  }

  predicate HomesGrow(s: Sys, t: Sys) { forall b | b in s.home :: b in t.home && t.home[b] == s.home[b] }

  lemma ConnsStay(s: Sys, t: Sys)
    requires GoodConns(s) && t.conns == s.conns && GroupsGrow(s, t) && HomesGrow(s, t)
    ensures GoodConns(t)
  {
    forall c | c in t.conns ensures GoodConn(t, c) { assert GoodConn(s, c); }
  }

  /** Bundles newly being closed were never published or live on a quiet group; newly published ones are not
      being closed. */
  lemma BundlesStay(s: Sys, t: Sys)
    requires GoodBundles(s) && GroupsGrow(s, t) && HomesGrow(s, t) && s.made <= t.made
    requires forall b | b in t.closing && b !in s.closing :: b < t.made && (b in t.home ==> Quiet(t, t.home[b]))
    requires forall b | b in t.home && b !in s.home :: b < t.made && Exists(t, t.home[b]) && b !in t.closing
    ensures GoodBundles(t)
  {
    forall b: nat ensures GoodBundle(t, b) { assert GoodBundle(s, b); }
  }

  lemma ConnectKeeps(s: Sys, c: nat)
    requires Good(s) && c !in s.conns
    ensures Good(Next(s, Connect(c)))
  {
    var t := Next(s, Connect(c));
    forall d | d in t.conns ensures GoodConn(t, d) {
      if d != c { assert GoodConn(s, d); }
    }
    BundlesStay(s, t);
  }

  lemma RefusalKeeps(s: Sys, c: nat)
    requires Good(s) && Enabled(s, Admit(c)) && s.groups[s.conns[c].group].stopped
    ensures Good(Next(s, Admit(c)))
  {
    var t := Next(s, Admit(c));
    forall d | d in t.conns ensures GoodConn(t, d) {
      if d != c { assert GoodConn(s, d); }
    }
    BundlesStay(s, t);
  }

  lemma AdmitKeeps(s: Sys, c: nat)
    requires Good(s) && Enabled(s, Admit(c))
    ensures Good(Next(s, Admit(c)))
  {
    if s.groups[s.conns[c].group].stopped {
      RefusalKeeps(s, c);
    } else {
      AdmissionKeeps(s, c);
    }
  }

  lemma AdmissionKeeps(s: Sys, c: nat)
    requires Good(s) && Enabled(s, Admit(c)) && !s.groups[s.conns[c].group].stopped
    ensures Good(Next(s, Admit(c)))
  {
    var t := Next(s, Admit(c));
    assert GoodConn(s, c);
    forall d | d in t.conns ensures GoodConn(t, d) {
      if d != c { assert GoodConn(s, d); }
    }
    BundlesStay(s, t);
  }

  lemma FinishKeeps(s: Sys, c: nat)
    requires Good(s) && Enabled(s, Finish(c))
    ensures Good(Next(s, Finish(c)))
  {
    var t := Next(s, Finish(c));
    assert GoodConn(s, c);
    forall d | d in t.conns ensures GoodConn(t, d) {
      if d != c { assert GoodConn(s, d); }
    }
    forall b: nat ensures GoodBundle(t, b) { assert GoodBundle(s, b); }
  }

  /** A step of the setup side: connections are untouched. */
  lemma SetupKeeps(s: Sys, t: Sys)
    requires Good(s) && t.conns == s.conns && GroupsGrow(s, t) && HomesGrow(s, t) && s.made <= t.made
    requires forall b | b in t.closing && b !in s.closing :: b < t.made && (b in t.home ==> Quiet(t, t.home[b]))
    requires forall b | b in t.home && b !in s.home :: b < t.made && Exists(t, t.home[b]) && b !in t.closing
    requires GoodFields(t) && GoodSetup(t)
    ensures Good(t)
  {
    ConnsStay(s, t);
    BundlesStay(s, t);
  }

  lemma NewIsUnpublished(s: Sys)
    requires GoodBundles(s)
    ensures s.made !in s.home && s.made !in s.closing
  {
    assert GoodBundle(s, s.made);
  }

  lemma ReplaceKeeps(s: Sys, e: Event)
    requires Good(s) && Enabled(s, e)
    requires e.BeginReplace? || e.Drain? || e.CloseOld?
    ensures Good(Next(s, e))
  {
    if e.CloseOld? && s.setup.job.last.Some? { assert GoodBundle(s, s.setup.job.last.value); }
    SetupKeeps(s, Next(s, e));
  }

  lemma CommitKeeps(s: Sys, e: Event)
    requires Good(s) && Enabled(s, e) && (e.CommitReplace? || e.PublishReplace?)
    ensures Good(Next(s, e))
  {
    SetupKeeps(s, Next(s, e));
  }

  lemma PrepareKeeps(s: Sys, how: Preparation)
    requires Good(s) && s.setup.Preparing?
    ensures Good(Next(s, Prepare(how)))
  {
    NewIsUnpublished(s);
    SetupKeeps(s, Next(s, Prepare(how)));
  }

  lemma RestoreKeeps(s: Sys, how: Preparation)
    requires Good(s) && Enabled(s, Restore(how))
    ensures Good(Next(s, Restore(how)))
  {
    NewIsUnpublished(s);
    SetupKeeps(s, Next(s, Restore(how)));
  }

  lemma PrepareConfiguredKeeps(s: Sys, how: Preparation)
    requires Good(s) && s.setup.Configuring?
    ensures Good(Next(s, PrepareConfigured(how)))
  {
    NewIsUnpublished(s);
    SetupKeeps(s, Next(s, PrepareConfigured(how)));
  }

  lemma RecoverKeeps(s: Sys, e: Event)
    requires Good(s) && Enabled(s, e) && (e.Reopen? || e.GiveUp? || e.PublishRestored?)
    ensures Good(Next(s, e))
  {
    SetupKeeps(s, Next(s, e));
  }

  lemma ConfigureKeeps(s: Sys, e: Event)
    requires Good(s) && Enabled(s, e) && (e.BeginConfigure? || e.PublishConfigured? || e.FailConfigured? || e.Block?)
    ensures Good(Next(s, e))
  {
    SetupKeeps(s, Next(s, e));
  }

  lemma ShutdownKeeps(s: Sys, e: Event)
    requires Good(s) && Enabled(s, e) && (e.BeginShutdown? || e.StopAll? || e.CloseAll?)
    ensures Good(Next(s, e))
  {
    if e.CloseAll? && s.f.bundle.Some? { assert GoodBundle(s, s.f.bundle.value); }
    SetupKeeps(s, Next(s, e));
  }

  lemma StepKeepsGood(s: Sys, e: Event)
    requires Good(s) && Enabled(s, e)
    ensures Good(Next(s, e))
  {
    match e
    case Connect(c) => ConnectKeeps(s, c);
    case Admit(c) => AdmitKeeps(s, c);
    case Handle(c) =>
    case Finish(c) => FinishKeeps(s, c);
    case Prepare(how) => PrepareKeeps(s, how);
    case Restore(how) => RestoreKeeps(s, how);
    case PrepareConfigured(how) => PrepareConfiguredKeeps(s, how);
    case Reopen => RecoverKeeps(s, e);
    case GiveUp => RecoverKeeps(s, e);
    case PublishRestored => RecoverKeeps(s, e);
    case BeginConfigure => ConfigureKeeps(s, e);
    case PublishConfigured(game) => ConfigureKeeps(s, e);
    case FailConfigured(blocked) => ConfigureKeeps(s, e);
    case Block => ConfigureKeeps(s, e);
    case BeginShutdown => ShutdownKeeps(s, e);
    case StopAll => ShutdownKeeps(s, e);
    case CloseAll => ShutdownKeeps(s, e);
    case BeginReplace => ReplaceKeeps(s, e);
    case Drain => ReplaceKeeps(s, e);
    case CloseOld(ok) => ReplaceKeeps(s, e);
    case CommitReplace(ok, cleaned) => CommitKeeps(s, e);
    case PublishReplace(game) => CommitKeeps(s, e);
  }

  lemma {:induction false} RunKeepsGood(s: Sys, events: seq<Event>)
    requires Good(s) && Possible(s, events)
    ensures Good(Run(s, events))
    decreases |events|
  {
    if events != [] {
      StepKeepsGood(s, events[0]);
      RunKeepsGood(Next(s, events[0]), events[1..]);
    }
  }

  // ---------------------------------------------------------------- the theorems

  lemma StartIsGood()
    ensures Good(Start)
  {
  }

  /** No handler step ever runs on a bundle whose close has begun. */
  lemma NoHandlerOnAClosingBundle(events: seq<Event>, c: nat)
    requires Possible(Start, events) && Enabled(Run(Start, events), Handle(c))
    ensures var s := Run(Start, events); s.conns[c].bundle.Some? ==> s.conns[c].bundle.value !in s.closing
  {
    StartIsGood();
    RunKeepsGood(Start, events);
    var s := Run(Start, events);
    assert GoodConn(s, c);
    if s.conns[c].bundle.Some? { assert GoodBundle(s, s.conns[c].bundle.value); }
  }

  /** The three ways a replacement ends. */
  predicate CandidatePublished(before: Sys, after: Sys) {
    && before.setup.Publishing? && before.setup.job.committed
    && after.f.bundle == Some(before.setup.candidate) && after.f.snapshot.ready
    && Open(after, after.f.streams) && before.setup.candidate !in after.closing
  }

  predicate PreviousRestored(before: Sys, after: Sys) {
    && before.setup.Restoring? && !before.setup.job.committed
    && after.f.bundle == Some(before.setup.restored) && after.f.snapshot == before.setup.job.previous
    && Open(after, after.f.streams) && before.setup.restored !in after.closing
  }

  predicate NothingPublished(before: Sys, after: Sys) {
    Replacing(before) && !before.setup.Publishing? && !before.setup.job.committed && after.f.bundle.None? && !after.f.snapshot.ready
  }

  predicate Replacing(s: Sys) {
    s.setup.Draining? || s.setup.ClosingOld? || s.setup.Preparing? || s.setup.Committing? || s.setup.Publishing?
    || s.setup.Recovering? || s.setup.Reopened? || s.setup.Restoring?
  }

  /** Every replacement that ends does so in exactly one of the three ways. */
  lemma ReplacementEndsInOneWay(events: seq<Event>, e: Event)
    requires Possible(Start, events) && Enabled(Run(Start, events), e)
    requires Replacing(Run(Start, events)) && Next(Run(Start, events), e).setup.Idle?
    ensures var s := Run(Start, events); var t := Next(s, e);
            var a, b, n := CandidatePublished(s, t), PreviousRestored(s, t), NothingPublished(s, t);
            (a || b || n) && !(a && b) && !(a && n) && !(b && n)
  {
    StartIsGood();
    RunKeepsGood(Start, events);
    StepKeepsGood(Run(Start, events), e);
  }

  /** Outside a replacement, a ready runtime has an open group and a bundle nobody has begun to close. */
  lemma ReadyMeansServing(events: seq<Event>)
    requires Possible(Start, events)
    ensures var s := Run(Start, events);
            s.f.snapshot.ready ==> s.f.bundle.Some? && s.f.bundle.value !in s.closing && Open(s, s.f.streams)
  {
    StartIsGood();
    RunKeepsGood(Start, events);
  }
}

/** The daily token ledger: reservations are charged until settled, and stay charged while the
    outcome is unknown. Each method is one database transaction. */
module QuotaLedger {
  import opened Wrappers
  import opened Numbers

  datatype Status = Pending | Settled | Uncertain | FailedCall

  datatype Row = Row(user: string, period: string, reserved: int, charged: Option<int>, status: Status)
  {
    /** What the row occupies: its charge if it has one, else its reservation. */
    function Occupied(): int { if charged.Some? then charged.value else reserved }
  }

  datatype User = User(enabled: bool, dailyLimit: Option<int>)

  datatype Reply = Accepted | BadInput | BadCredentials | LimitReached | Conflict | NoReservation

  // ---------------------------------------------------------------- sums over the rows, in insertion order

  datatype Entry = Entry(id: string, row: Row)

  predicate Counts(e: Entry, user: Option<string>, period: string) {
    e.row.period == period && (user.Some? ==> e.row.user == user.value)
  }

  function Occupancy(rows: seq<Entry>, user: Option<string>, period: string): int {
    if rows == [] then 0
    else Occupancy(rows[..|rows| - 1], user, period) +
         (if Counts(rows[|rows| - 1], user, period) then rows[|rows| - 1].row.Occupied() else 0)
  }

  function Used(rows: seq<Entry>, user: Option<string>, period: string): int {
    if rows == [] then 0
    else Used(rows[..|rows| - 1], user, period) +
         (var last := rows[|rows| - 1]; if Counts(last, user, period) && last.row.charged.Some? then last.row.charged.value else 0)
  }

  function Unsettled(rows: seq<Entry>, user: Option<string>, period: string): int {
    if rows == [] then 0
    else Unsettled(rows[..|rows| - 1], user, period) +
         (var last := rows[|rows| - 1]; if Counts(last, user, period) && last.row.charged.None? then last.row.reserved else 0)
  }

  lemma {:induction false} UsagePartitionsOccupancy(rows: seq<Entry>, user: Option<string>, period: string)
    ensures Used(rows, user, period) + Unsettled(rows, user, period) == Occupancy(rows, user, period)
  {
    if rows != [] {
      UsagePartitionsOccupancy(rows[..|rows| - 1], user, period);
    }
  }

  /** Replacing one row moves the occupancy by exactly that row's difference. */
  lemma {:induction false} OccupancyOfUpdate(rows: seq<Entry>, k: nat, e: Entry, user: Option<string>, period: string)
    requires k < |rows| && e.row.user == rows[k].row.user && e.row.period == rows[k].row.period
    ensures Occupancy(rows[k := e], user, period) ==
            Occupancy(rows, user, period) +
            (if Counts(e, user, period) then e.row.Occupied() - rows[k].row.Occupied() else 0)
  {
    var n := |rows| - 1;
    if k == n {
      assert rows[k := e][..n] == rows[..n];
    } else {
      assert rows[k := e][..n] == rows[..n][k := e];
      OccupancyOfUpdate(rows[..n], k, e, user, period);
    }
  }

  lemma OccupancyOfAppend(rows: seq<Entry>, e: Entry, user: Option<string>, period: string)
    ensures Occupancy(rows + [e], user, period) ==
            Occupancy(rows, user, period) + (if Counts(e, user, period) then e.row.Occupied() else 0)
  {
    assert (rows + [e])[..|rows|] == rows;
  }

  // ---------------------------------------------------------------- the state and its steps

  datatype Ledger = Ledger(rows: seq<Entry>, users: map<string, User>)
  {
    function LimitOf(user: string, fallback: int): int {
      if user in users && users[user].dailyLimit.Some? then users[user].dailyLimit.value else fallback
    }

    predicate HasId(id: string) { exists k :: 0 <= k < |rows| && rows[k].id == id }
  }

  function Reserved(l: Ledger, user: string, id: string, amount: int, limit: int, globalLimit: int, period: string): (r: (Ledger, Reply))
    ensures r.1 != Accepted ==> r.0 == l
  {
    if amount <= 0 || limit < 0 || globalLimit < 0 then (l, BadInput)
    else if user !in l.users || !l.users[user].enabled then (l, BadCredentials)
    else if amount > l.LimitOf(user, limit) - Occupancy(l.rows, Some(user), period) then (l, LimitReached)
    else if globalLimit > 0 && amount > globalLimit - Occupancy(l.rows, None, period) then (l, LimitReached)
    else if l.HasId(id) then (l, Conflict)
    else (l.(rows := l.rows + [Entry(id, Row(user, period, amount, None, Pending))]), Accepted)
  }

  predicate Settles(e: Entry, user: string, id: string) {
    e.id == id && e.row.user == user && e.row.status == Pending
  }

  predicate CountsFit(charged: int, prompt: Option<int>, completion: Option<int>) {
    && charged >= 0
    && (prompt.Some? ==> 0 <= prompt.value <= charged)
    && (completion.Some? ==> 0 <= completion.value <= charged - (if prompt.Some? then prompt.value else 0))
  }

  /** UPDATE: every row the predicate matches is rewritten. */
  function Rewrite(rows: seq<Entry>, matches: Entry -> bool, change: Row -> Row): (r: seq<Entry>)
    ensures |r| == |rows|
    ensures forall k | 0 <= k < |rows| :: r[k] == if matches(rows[k]) then Entry(rows[k].id, change(rows[k].row)) else rows[k]
  {
    seq(|rows|, k requires 0 <= k < |rows| => if matches(rows[k]) then Entry(rows[k].id, change(rows[k].row)) else rows[k])
  }

  function SettledRows(rows: seq<Entry>, user: string, id: string, charged: int): seq<Entry> {
    Rewrite(rows, (e: Entry) => Settles(e, user, id), (r: Row) => r.(charged := Some(charged), status := Settled))
  }

  function MarkedRows(rows: seq<Entry>, user: string, id: string, status: Status): seq<Entry> {
    Rewrite(rows, (e: Entry) => e.id == id && e.row.user == user && e.row.charged.None?, (r: Row) => r.(status := status))
  }

  function RecoveredRows(rows: seq<Entry>): seq<Entry> {
    Rewrite(rows, (e: Entry) => e.row.status == Pending, (r: Row) => r.(status := Uncertain))
  }

  lemma {:induction false} RecoveryKeepsSums(rows: seq<Entry>, user: Option<string>, period: string)
    ensures Occupancy(RecoveredRows(rows), user, period) == Occupancy(rows, user, period)
    ensures Used(RecoveredRows(rows), user, period) == Used(rows, user, period)
    ensures Unsettled(RecoveredRows(rows), user, period) == Unsettled(rows, user, period)
  {
    if rows != [] {
      var n := |rows| - 1;
      assert RecoveredRows(rows)[..n] == RecoveredRows(rows[..n]);
      RecoveryKeepsSums(rows[..n], user, period);
    }
  }

  /** Recovery after a restart: no reservation is left to settle, and every sum over every user and day
      is what it was. */
  lemma RecoveryKeepsUsage(rows: seq<Entry>)
    ensures forall e, user, id | e in RecoveredRows(rows) :: !Settles(e, user, id)
    ensures forall user: Option<string>, period: string ::
              && Occupancy(RecoveredRows(rows), user, period) == Occupancy(rows, user, period)
              && Used(RecoveredRows(rows), user, period) == Used(rows, user, period)
              && Unsettled(RecoveredRows(rows), user, period) == Unsettled(rows, user, period)
  {
    forall user: Option<string>, period: string
      ensures Occupancy(RecoveredRows(rows), user, period) == Occupancy(rows, user, period)
      ensures Used(RecoveredRows(rows), user, period) == Used(rows, user, period)
      ensures Unsettled(RecoveredRows(rows), user, period) == Unsettled(rows, user, period)
    {
      RecoveryKeepsSums(rows, user, period);
    }
  }

  class Store {
    var rows: seq<Entry>
    var users: map<string, User>

    ghost function State(): Ledger
      reads this
    {
      Ledger(rows, users)
    }

    method SumOccupied(user: Option<string>, period: string) returns (total: int)
      ensures total == Occupancy(rows, user, period)
    {
      total := 0;
      for k := 0 to |rows|
        invariant total == Occupancy(rows[..k], user, period)
      {
        assert rows[..k + 1][..k] == rows[..k];
        if Counts(rows[k], user, period) { total := total + rows[k].row.Occupied(); }
      }
      assert rows[..|rows|] == rows;
    }

    method Reserve(user: string, id: string, amount: int, limit: int, globalLimit: int, period: string) returns (reply: Reply)
      modifies this`rows
      ensures (State(), reply) == Reserved(old(State()), user, id, amount, limit, globalLimit, period)
    {
      if amount <= 0 || limit < 0 || globalLimit < 0 { return BadInput; }
      if user !in users || !users[user].enabled { return BadCredentials; }
      var daily := if users[user].dailyLimit.Some? then users[user].dailyLimit.value else limit;
      var used := SumOccupied(Some(user), period);
      if amount > daily - used { return LimitReached; }
      if globalLimit > 0 {
        var occupied := SumOccupied(None, period);
        if amount > globalLimit - occupied { return LimitReached; }
      }
      if exists k :: 0 <= k < |rows| && rows[k].id == id { return Conflict; }
      rows := rows + [Entry(id, Row(user, period, amount, None, Pending))];
      return Accepted;
    }

    method Settle(user: string, id: string, charged: int, prompt: Option<int>, completion: Option<int>) returns (reply: Reply)
      requires UniqueIds(rows)
      modifies this`rows
      ensures reply == Accepted <==> CountsFit(charged, prompt, completion) && exists e :: e in old(rows) && Settles(e, user, id)
      ensures rows == if reply == Accepted then SettledRows(old(rows), user, id, charged) else old(rows)
    {
      if charged < 0 { return BadInput; }
      var remaining := charged;
      if prompt.Some? {
        if prompt.value < 0 || prompt.value > remaining { return BadInput; }
        remaining := remaining - prompt.value;
      }
      if completion.Some? {
        if completion.value < 0 || completion.value > remaining { return BadInput; }
      }
      if !exists e :: e in rows && Settles(e, user, id) { return NoReservation; }
      rows := SettledRows(rows, user, id, charged);
      return Accepted;
    }

    method MarkCallOutcome(user: string, id: string, status: Status) returns (reply: Reply)
      modifies this`rows
      ensures reply == BadInput <==> status == Pending || status == Settled
      ensures rows == if reply == BadInput then old(rows) else MarkedRows(old(rows), user, id, status)
    {
      if status != Uncertain && status != FailedCall { return BadInput; }
      rows := MarkedRows(rows, user, id, status);
      return Accepted;
    }

    /** Nobody can settle what was pending any more, and nothing that was charged or reserved moves. */
    method RecoverPendingCalls()
      modifies this`rows
      ensures |rows| == |old(rows)|
      ensures forall k | 0 <= k < |rows| ::
                if old(rows)[k].row.status == Pending
                then rows[k] == Entry(old(rows)[k].id, old(rows)[k].row.(status := Uncertain))
                else rows[k] == old(rows)[k]
      ensures forall e, user, id | e in rows :: !Settles(e, user, id)
      ensures forall user: Option<string>, period: string ::
                && Occupancy(rows, user, period) == Occupancy(old(rows), user, period)
                && Used(rows, user, period) == Used(old(rows), user, period)
    {
      RecoveryKeepsUsage(rows);
      rows := RecoveredRows(rows);
    }

    /** Reads what is used and what is pending in one scan; `user` is empty for the whole service. */
    method Usage(user: Option<string>, limit: int, period: string) returns (used: int, pending: int, remaining: int)
      ensures used == Used(rows, user, period) && pending == Unsettled(rows, user, period)
      ensures used + pending == Occupancy(rows, user, period)
      ensures remaining == if limit > used + pending then limit - used - pending else 0
    {
      used, pending := 0, 0;
      for k := 0 to |rows|
        invariant used == Used(rows[..k], user, period) && pending == Unsettled(rows[..k], user, period)
      {
        assert rows[..k + 1][..k] == rows[..k];
        if Counts(rows[k], user, period) {
          if rows[k].row.charged.Some? { used := used + rows[k].row.charged.value; }
          else { pending := pending + rows[k].row.reserved; }
        }
      }
      assert rows[..|rows|] == rows;
      UsagePartitionsOccupancy(rows, user, period);
      remaining := if limit - used - pending > 0 then limit - used - pending else 0;
    }
  }

  // ---------------------------------------------------------------- runs

  datatype Event =
    | DoReserve(user: string, id: string, amount: int, period: string)
    | DoSettle(user: string, id: string, charged: int)
    | DoMark(user: string, id: string, status: Status)
    | DoRecover

  function Step(l: Ledger, e: Event, limit: int, globalLimit: int): Ledger {
    match e
    case DoReserve(user, id, amount, period) => Reserved(l, user, id, amount, limit, globalLimit, period).0
    case DoSettle(user, id, charged) =>
      if charged < 0 then l else l.(rows := SettledRows(l.rows, user, id, charged))
    case DoMark(user, id, status) =>
      if status != Uncertain && status != FailedCall then l else l.(rows := MarkedRows(l.rows, user, id, status))
    case DoRecover => l.(rows := RecoveredRows(l.rows))
  }

  predicate UniqueIds(rows: seq<Entry>) {
    forall i, j | 0 <= i < j < |rows| :: rows[i].id != rows[j].id
  }

  /** A row has a charge exactly when it is settled. */
  predicate RowOk(r: Row) { (r.charged.Some? <==> r.status == Settled) && r.reserved > 0 }

  predicate WellFormed(l: Ledger) {
    UniqueIds(l.rows) && forall k | 0 <= k < |l.rows| :: RowOk(l.rows[k].row)
  }

  ghost predicate WithinLimits(l: Ledger, limit: int, globalLimit: int) {
    && (forall user: string, period: string | user in l.users ::
          Occupancy(l.rows, Some(user), period) <= Max(0, l.LimitOf(user, limit)))
    && (globalLimit > 0 ==> forall period: string :: Occupancy(l.rows, None, period) <= globalLimit)
  }

  /** The settlement of a pending reservation charges no more than it reserved. */
  predicate Fair(l: Ledger, e: Event) {
    e.DoSettle? ==> forall k | 0 <= k < |l.rows| :: Settles(l.rows[k], e.user, e.id) ==> e.charged <= l.rows[k].row.reserved
  }

  /** An update that keeps each row's user and period and lowers no row's standing cannot raise occupancy. */
  lemma {:induction false} OccupancyMonotone(before: seq<Entry>, after: seq<Entry>, user: Option<string>, period: string)
    requires |before| == |after|
    requires forall k | 0 <= k < |before| ::
               after[k].row.user == before[k].row.user && after[k].row.period == before[k].row.period
               && after[k].row.Occupied() <= before[k].row.Occupied()
    ensures Occupancy(after, user, period) <= Occupancy(before, user, period)
  {
    if before != [] {
      OccupancyMonotone(before[..|before| - 1], after[..|after| - 1], user, period);
    }
  }

  lemma StepKeepsWellFormed(l: Ledger, e: Event, limit: int, globalLimit: int)
    requires WellFormed(l)
    ensures WellFormed(Step(l, e, limit, globalLimit)) && Step(l, e, limit, globalLimit).users == l.users
  {
  }

  lemma StepKeepsLimits(l: Ledger, e: Event, limit: int, globalLimit: int)
    requires WellFormed(l) && WithinLimits(l, limit, globalLimit) && Fair(l, e)
    ensures WithinLimits(Step(l, e, limit, globalLimit), limit, globalLimit)
  {
    var after := Step(l, e, limit, globalLimit);
    if e.DoReserve? && after != l {
      var entry := Entry(e.id, Row(e.user, e.period, e.amount, None, Pending));
      assert after.rows == l.rows + [entry];
      forall user: Option<string>, period: string
        ensures Occupancy(after.rows, user, period) ==
                Occupancy(l.rows, user, period) + (if Counts(entry, user, period) then e.amount else 0)
      {
        OccupancyOfAppend(l.rows, entry, user, period);
      }
    } else if after != l {
      forall user: Option<string>, period: string
        ensures Occupancy(after.rows, user, period) <= Occupancy(l.rows, user, period)
      {
        OccupancyMonotone(l.rows, after.rows, user, period);
      }
    }
  }

  predicate Run(ls: seq<Ledger>, es: seq<Event>, limit: int, globalLimit: int) {
    |ls| == |es| + 1 && ls[0].rows == []
    && forall k | 0 <= k < |es| :: ls[k + 1] == Step(ls[k], es[k], limit, globalLimit)
  }

  lemma {:induction false} RunIsWellFormed(ls: seq<Ledger>, es: seq<Event>, limit: int, globalLimit: int, k: nat)
    requires Run(ls, es, limit, globalLimit) && k < |ls|
    ensures WellFormed(ls[k])
  {
    if k > 0 {
      RunIsWellFormed(ls, es, limit, globalLimit, k - 1);
      StepKeepsWellFormed(ls[k - 1], es[k - 1], limit, globalLimit);
    }
  }

  /** With fixed limits and fair settlements, every run keeps each user's and the whole service's
      occupancy of every day within its limit. */
  lemma {:induction false} RunStaysWithinLimits(ls: seq<Ledger>, es: seq<Event>, limit: int, globalLimit: int, k: nat)
    requires Run(ls, es, limit, globalLimit) && k < |ls| && limit >= 0
    requires forall i | 0 <= i < |es| :: Fair(ls[i], es[i])
    ensures WithinLimits(ls[k], limit, globalLimit)
  {
    if k > 0 {
      RunStaysWithinLimits(ls, es, limit, globalLimit, k - 1);
      RunIsWellFormed(ls, es, limit, globalLimit, k - 1);
      StepKeepsLimits(ls[k - 1], es[k - 1], limit, globalLimit);
    }
  }

  /** A row once settled never changes again, so no reservation is settled twice. */
  lemma {:induction false} SettledOnce(ls: seq<Ledger>, es: seq<Event>, limit: int, globalLimit: int, i: nat, j: nat, r: nat)
    requires Run(ls, es, limit, globalLimit) && i <= j < |ls| && r < |ls[i].rows|
    requires ls[i].rows[r].row.status == Settled
    ensures r < |ls[j].rows| && ls[j].rows[r] == ls[i].rows[r]
  {
    if i < j {
      SettledOnce(ls, es, limit, globalLimit, i, j - 1, r);
      RunIsWellFormed(ls, es, limit, globalLimit, j - 1);
    }
  }

  /** Settling a pending reservation keeps a limit exactly when the charge exceeds the reservation
      by no more than the room that was left. */
  lemma SettlementFitsIff(rows: seq<Entry>, k: nat, charged: int, scope: Option<string>, bound: int)
    requires UniqueIds(rows) && k < |rows| && rows[k].row.status == Pending && RowOk(rows[k].row)
    requires scope.Some? ==> scope.value == rows[k].row.user
    ensures var period := rows[k].row.period;
            Occupancy(SettledRows(rows, rows[k].row.user, rows[k].id, charged), scope, period) <= bound
            <==> charged - rows[k].row.reserved <= bound - Occupancy(rows, scope, period)
  {
    var entry := Entry(rows[k].id, rows[k].row.(charged := Some(charged), status := Settled));
    var settled := SettledRows(rows, rows[k].row.user, rows[k].id, charged);
    assert settled == rows[k := entry];
    OccupancyOfUpdate(rows, k, entry, scope, rows[k].row.period);
  }

  /** A run in which a settlement above its reservation carries a user past the daily limit. */
  lemma SettlementCanPassALimit() returns (ls: seq<Ledger>, es: seq<Event>)
    ensures |es| == 2 && Run(ls, es, 10, 0)
    ensures WithinLimits(ls[1], 10, 0) && es[1].DoSettle? && !Fair(ls[1], es[1])
    ensures !WithinLimits(ls[2], 10, 0)
  {
    es := [DoReserve("u", "call", 10, "day"), DoSettle("u", "call", 11)];
    var l0 := Ledger([], map["u" := User(true, None)]);
    var l1 := Step(l0, es[0], 10, 0);
    var l2 := Step(l1, es[1], 10, 0);
    ls := [l0, l1, l2];
    var pending := Entry("call", Row("u", "day", 10, None, Pending));
    assert l1.rows == [pending] && l1.rows[..0] == [];
    assert l2.rows == [Entry("call", Row("u", "day", 10, Some(11), Settled))] && l2.rows[..0] == [];
    assert Settles(l1.rows[0], "u", "call");
    RunStaysWithinLimits([l0, l1], [es[0]], 10, 0, 1);
    assert Occupancy(l2.rows, Some("u"), "day") == 11;
  }
}

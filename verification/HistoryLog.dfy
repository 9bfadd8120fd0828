/** The history log behind both stores: append-only logs per owner, leased snapshots, newest-first
    pages, summary revisions and pruning, as values and steps. */
module HistoryLog {
  import opened Wrappers
  import G = GameTime

  datatype World = World(game: string, world: string)

  datatype Key = Key(world: World, entity: string)

  datatype Source = Source(id: string, sequence: nat, owner: Key, fingerprint: string, bytes: nat, pruned: bool,
                           created: int, times: seq<G.Time>, experience: bool)

  datatype Snapshot = Snapshot(owner: Key, lease: string, watermark: nat, revision: nat)

  type Log = seq<Source>

  // ---------------------------------------------------------------- pages

  predicate Selected(s: Source, watermark: nat, before: nat) { s.sequence <= watermark && (before == 0 || s.sequence < before) }

  /** The selected sources, newest first. */
  function Newest(log: Log, watermark: nat, before: nat): Log {
    if log == [] then []
    else
      var n := |log| - 1;
      (if Selected(log[n], watermark, before) then [log[n]] else []) + Newest(log[..n], watermark, before)
  }

  predicate Ascending(log: Log) { forall i, j | 0 <= i < j < |log| :: log[i].sequence < log[j].sequence }

  predicate Descending(log: Log) { forall i, j | 0 <= i < j < |log| :: log[i].sequence > log[j].sequence }

  datatype Page = Page(sources: Log, nextBefore: nat, more: bool, scanned: nat, bytes: nat, diagnostics: seq<string>)

  predicate Returned(s: Source, limit: int) { !s.pruned && s.bytes <= limit }

  function Note(s: Source): string { if s.pruned then "source_pruned" else "history_source_exceeds_page_bytes" }

  /** What a page returns of the sources it scans. */
  function Kept(list: Log, limit: int): Log {
    if list == [] then []
    else Kept(list[..|list| - 1], limit) + (if Returned(list[|list| - 1], limit) then [list[|list| - 1]] else [])
  }

  /** What a page says of the others. */
  function Notes(list: Log, limit: int): seq<string> {
    if list == [] then []
    else Notes(list[..|list| - 1], limit) + (if Returned(list[|list| - 1], limit) then [] else [Note(list[|list| - 1])])
  }

  function Bytes(list: Log): nat { if list == [] then 0 else Bytes(list[..|list| - 1]) + list[|list| - 1].bytes }

  datatype Limits = Limits(records: int, bytes: int)

  /** The page of a newest-first list: it scans the longest stretch from the front within both limits,
      returns or diagnoses each source of it, and tells where it stopped. */
  predicate PageOf(list: Log, limits: Limits, page: Page) {
    && page.scanned <= |list| && page.scanned <= limits.records
    && var seen := list[..page.scanned];
       && page.sources == Kept(seen, limits.bytes) && page.diagnostics == Notes(seen, limits.bytes)
       && page.bytes == Bytes(page.sources) <= limits.bytes
       && page.nextBefore == (if seen == [] then 0 else seen[|seen| - 1].sequence)
       && (page.more <==> page.scanned < |list|)
       && (page.more ==> page.scanned == limits.records || Overflows(list[page.scanned], page.bytes, limits))
  }

  predicate Overflows(s: Source, used: nat, limits: Limits) { Returned(s, limits.bytes) && used + s.bytes > limits.bytes }

  function UsedBy(list: Log, limit: int, k: nat): nat
    requires k <= |list|
  {
    Bytes(Kept(list[..k], limit))
  }

  lemma UsedStep(list: Log, limit: int, k: nat)
    requires k < |list|
    ensures UsedBy(list, limit, k) <= UsedBy(list, limit, k + 1)
  {
    KeptStep(list, limit, k);
  }

  lemma {:induction false} KeptBytesGrow(list: Log, limit: int, i: nat, j: nat)
    requires i <= j <= |list|
    ensures UsedBy(list, limit, i) <= UsedBy(list, limit, j)
    decreases j
  {
    if i < j {
      KeptBytesGrow(list, limit, i, j - 1);
      UsedStep(list, limit, j - 1);
    }
  }

  lemma KeptStep(list: Log, limit: int, k: nat)
    requires k < |list|
    ensures Kept(list[..k + 1], limit) == Kept(list[..k], limit) + (if Returned(list[k], limit) then [list[k]] else [])
    ensures Notes(list[..k + 1], limit) == Notes(list[..k], limit) + (if Returned(list[k], limit) then [] else [Note(list[k])])
    ensures Bytes(Kept(list[..k + 1], limit)) == Bytes(Kept(list[..k], limit)) + (if Returned(list[k], limit) then list[k].bytes else 0)
  {
    assert list[..k + 1][..k] == list[..k];
    BytesAppend(Kept(list[..k], limit), list[k]);
    assert Kept(list[..k], limit) + [] == Kept(list[..k], limit);
  }

  lemma BytesAppend(list: Log, s: Source)
    ensures Bytes(list + [s]) == Bytes(list) + s.bytes
  {
    assert (list + [s])[..|list|] == list;
  }

  /** There is one page for a list and limits, so any two pagers that meet the contract agree. */
  lemma PageIsUnique(list: Log, limits: Limits, p: Page, q: Page)
    requires PageOf(list, limits, p) && PageOf(list, limits, q)
    ensures p == q
  {
    if p.scanned < q.scanned {
      NotShorter(list, limits, p, q);
    } else if q.scanned < p.scanned {
      NotShorter(list, limits, q, p);
    }
  }

  lemma NotShorter(list: Log, limits: Limits, p: Page, q: Page)
    requires PageOf(list, limits, p) && PageOf(list, limits, q)
    ensures p.scanned >= q.scanned
  {
    if p.scanned < q.scanned {
      KeptStep(list, limits.bytes, p.scanned);
      KeptBytesGrow(list, limits.bytes, p.scanned + 1, q.scanned);
    }
  }

  const NoPage := Page([], 0, false, 0, 0, [])

  function Advance(page: Page, s: Source, limits: Limits): Page {
    var next := page.(scanned := page.scanned + 1, nextBefore := s.sequence);
    if Returned(s, limits.bytes) then next.(sources := page.sources + [s], bytes := page.bytes + s.bytes)
    else next.(diagnostics := page.diagnostics + [Note(s)])
  }

  /** Reads on from the front of a list. */
  function Scan(list: Log, limits: Limits, page: Page): Page
    decreases |list|
  {
    if list == [] then page
    else if page.scanned >= limits.records || Overflows(list[0], page.bytes, limits) then page.(more := true)
    else Scan(list[1..], limits, Advance(page, list[0], limits))
  }

  function PageFor(list: Log, limits: Limits): Page { Scan(list, limits, NoPage) }

  /** The page after scanning the first `k` sources. */
  predicate ScannedUpTo(list: Log, limits: Limits, page: Page, k: nat) {
    && k <= |list| && page.scanned == k <= limits.records && !page.more
    && page.sources == Kept(list[..k], limits.bytes) && page.diagnostics == Notes(list[..k], limits.bytes)
    && page.bytes == Bytes(page.sources) <= limits.bytes
    && page.nextBefore == if k == 0 then 0 else list[k - 1].sequence
  }

  lemma AdvanceScans(list: Log, limits: Limits, page: Page, k: nat)
    requires ScannedUpTo(list, limits, page, k) && k < |list| && k < limits.records && !Overflows(list[k], page.bytes, limits)
    ensures ScannedUpTo(list, limits, Advance(page, list[k], limits), k + 1)
  {
    if Returned(list[k], limits.bytes) { AdvanceReturned(list, limits, page, k); } else { AdvanceNoted(list, limits, page, k); }
  }

  lemma AdvanceReturned(list: Log, limits: Limits, page: Page, k: nat)
    requires ScannedUpTo(list, limits, page, k) && k < |list| && k < limits.records
    requires Returned(list[k], limits.bytes) && page.bytes + list[k].bytes <= limits.bytes
    ensures ScannedUpTo(list, limits, Advance(page, list[k], limits), k + 1)
  {
    KeptStep(list, limits.bytes, k);
    BytesAppend(page.sources, list[k]);
    assert Notes(list[..k], limits.bytes) + [] == Notes(list[..k], limits.bytes);
  }

  lemma AdvanceNoted(list: Log, limits: Limits, page: Page, k: nat)
    requires ScannedUpTo(list, limits, page, k) && k < |list| && k < limits.records && !Returned(list[k], limits.bytes)
    ensures ScannedUpTo(list, limits, Advance(page, list[k], limits), k + 1)
  {
    KeptStep(list, limits.bytes, k);
    assert Kept(list[..k], limits.bytes) + [] == Kept(list[..k], limits.bytes);
  }

  lemma StoppedPage(list: Log, limits: Limits, page: Page, k: nat)
    requires ScannedUpTo(list, limits, page, k)
    requires k < |list| ==> k == limits.records || Overflows(list[k], page.bytes, limits)
    ensures PageOf(list, limits, page.(more := k < |list|))
  {
  }

  lemma {:induction false} ScanMeets(list: Log, limits: Limits, page: Page, k: nat)
    requires ScannedUpTo(list, limits, page, k)
    ensures PageOf(list, limits, Scan(list[k..], limits, page))
    decreases |list| - k
  {
    if k == |list| || k == limits.records || Overflows(list[k], page.bytes, limits) {
      StoppedPage(list, limits, page, k);
    } else {
      AdvanceScans(list, limits, page, k);
      ScanMeets(list, limits, Advance(page, list[k], limits), k + 1);
      assert list[k..][1..] == list[k + 1..];
    }
  }

  /** The contract of a page and reading it off the list are the same thing. */
  lemma PageContract(list: Log, limits: Limits, page: Page)
    requires limits.records >= 0 && limits.bytes >= 0
    ensures PageOf(list, limits, page) <==> page == PageFor(list, limits)
  {
    assert list[0..] == list && list[..0] == [];
    ScanMeets(list, limits, NoPage, 0);
    if PageOf(list, limits, page) { PageIsUnique(list, limits, page, PageFor(list, limits)); }
  }

  /** A page with more behind it made progress. */
  lemma MorePagesProgress(list: Log, limits: Limits, p: Page)
    requires PageOf(list, limits, p) && limits.records > 0 && p.more
    ensures p.scanned > 0
  {
    assert list[..0] == [];
  }

  lemma {:induction false} NewestMembers(log: Log, watermark: nat, before: nat)
    ensures forall s :: s in Newest(log, watermark, before) <==> s in log && Selected(s, watermark, before)
  {
    if log != [] {
      var n := |log| - 1;
      NewestMembers(log[..n], watermark, before);
      forall s ensures s in Newest(log, watermark, before) <==> s in log && Selected(s, watermark, before) {
        assert log == log[..n] + [log[n]];
        assert s in log <==> s in log[..n] || s == log[n];
      }
    }
  }

  lemma DescendsOn(s: Source, rest: Log)
    requires Descending(rest) && forall x | x in rest :: x.sequence < s.sequence
    ensures Descending([s] + rest)
  {
    forall j | 0 <= j < |rest| ensures rest[j].sequence < s.sequence { assert rest[j] in rest; }
  }

  lemma {:induction false} NewestDescends(log: Log, watermark: nat, before: nat)
    requires Ascending(log)
    ensures Descending(Newest(log, watermark, before))
    ensures forall s :: s in Newest(log, watermark, before) <==> s in log && Selected(s, watermark, before)
  {
    NewestMembers(log, watermark, before);
    if log != [] {
      var n := |log| - 1;
      var rest := Newest(log[..n], watermark, before);
      NewestDescends(log[..n], watermark, before);
      forall s | s in rest ensures s.sequence < log[n].sequence {
        var k :| 0 <= k < n && log[..n][k] == s;
      }
      DescendsOn(log[n], rest);
    }
  }

  /** Continuing at the last scanned source gives the rest of the list. */
  lemma {:induction false} ContinueAfter(log: Log, watermark: nat, k: nat)
    requires Ascending(log) && 0 < k <= |Newest(log, watermark, 0)| && forall s | s in log :: s.sequence > 0
    ensures Newest(log, watermark, Newest(log, watermark, 0)[k - 1].sequence) == Newest(log, watermark, 0)[k..]
  {
    var n := |log| - 1;
    var all, rest := Newest(log, watermark, 0), Newest(log[..n], watermark, 0);
    assert log[n] in log;
    if Selected(log[n], watermark, 0) && k == 1 {
      BelowLast(log, watermark);
      assert all == [log[n]] + rest;
    } else if Selected(log[n], watermark, 0) {
      assert all == [log[n]] + rest;
      NewestDescends(log, watermark, 0);
      assert all[0].sequence > all[k - 1].sequence;
      ContinueAfter(log[..n], watermark, k - 1);
    } else {
      ContinueAfter(log[..n], watermark, k);
    }
  }

  lemma BelowLast(log: Log, watermark: nat)
    requires Ascending(log) && log != [] && forall s | s in log :: s.sequence > 0
    ensures Newest(log, watermark, log[|log| - 1].sequence) == Newest(log[..|log| - 1], watermark, 0)
  {
    var n := |log| - 1;
    assert log[n] in log;
    AllBelow(log[..n], watermark, log[n].sequence);
  }

  lemma {:induction false} AllBelow(log: Log, watermark: nat, before: nat)
    requires forall i | 0 <= i < |log| :: log[i].sequence < before
    ensures Newest(log, watermark, before) == Newest(log, watermark, 0)
  {
    if log != [] { AllBelow(log[..|log| - 1], watermark, before); }
  }

  // ---------------------------------------------------------------- states and steps

  datatype State = State(
    logs: map<Key, Log>,
    last: map<World, nat>,
    leases: map<string, Snapshot>,
    summaries: map<Key, nat>,
    revisions: map<World, nat>)

  function LogOf(st: State, owner: Key): Log { if owner in st.logs then st.logs[owner] else [] }

  function LastOf(st: State, world: World): nat { if world in st.last then st.last[world] else 0 }

  function RevisionOf(st: State, owner: Key): nat { if owner in st.summaries then st.summaries[owner] else 0 }

  function WorldRevision(st: State, world: World): nat { if world in st.revisions then st.revisions[world] else 0 }

  function Top(log: Log): nat { if log == [] then 0 else log[|log| - 1].sequence }

  predicate Live(st: State, s: Snapshot) { s.lease in st.leases && st.leases[s.lease] == s }

  /** The owner's source stored under this id. */
  ghost predicate Stored(st: State, id: string, s: Source) { s.id == id && exists owner :: owner in st.logs && s in st.logs[owner] }

  ghost predicate GoodLog(owner: Key, log: Log, last: nat) {
    Ascending(log) && forall s | s in log :: s.owner == owner && 0 < s.sequence <= last
  }

  ghost predicate GoodLogs(st: State) {
    forall owner {:trigger GoodLog(owner, st.logs[owner], LastOf(st, owner.world))} | owner in st.logs ::
      GoodLog(owner, st.logs[owner], LastOf(st, owner.world))
  }

  predicate GoodLease(st: State, lease: string)
    requires lease in st.leases
  {
    st.leases[lease].lease == lease && st.leases[lease].watermark <= LastOf(st, st.leases[lease].owner.world)
  }

  ghost predicate GoodLeases(st: State) {
    forall lease {:trigger GoodLease(st, lease)} | lease in st.leases :: GoodLease(st, lease)
  }

  predicate GoodRevision(st: State, owner: Key) { RevisionOf(st, owner) <= WorldRevision(st, owner.world) }

  ghost predicate GoodRevisions(st: State) { forall owner {:trigger GoodRevision(st, owner)} :: GoodRevision(st, owner) }

  predicate SameId(logs: map<Key, Log>, o1: Key, i: nat, o2: Key, j: nat) {
    o1 in logs && o2 in logs && i < |logs[o1]| && j < |logs[o2]| && logs[o1][i].id == logs[o2][j].id
  }

  /** No id is stored twice, not even under different owners. */
  ghost predicate OnceEach(logs: map<Key, Log>) {
    forall o1: Key, i: nat, o2: Key, j: nat {:trigger SameId(logs, o1, i, o2, j)} | SameId(logs, o1, i, o2, j) :: o1 == o2 && i == j
  }

  ghost predicate Good(st: State) { GoodLogs(st) && GoodLeases(st) && GoodRevisions(st) && OnceEach(st.logs) }

  datatype Batch = Batch(id: string, owner: Key, fingerprint: string, bytes: nat, created: int, times: seq<G.Time>, experience: bool)

  datatype Event =
    | Append(batch: Batch)
    | Begin(owner: Key, lease: string)
    | Release(snapshot: Snapshot)
    | Prune(owner: Key, ids: set<string>)
    | Commit(snapshot: Snapshot, expected: nat)

  function SourceOf(b: Batch, sequence: nat): Source {
    Source(b.id, sequence, b.owner, b.fingerprint, b.bytes, false, b.created, b.times, b.experience)
  }

  function Appended(st: State, b: Batch): State {
    var sequence := LastOf(st, b.owner.world) + 1;
    st.(logs := st.logs[b.owner := LogOf(st, b.owner) + [SourceOf(b, sequence)]], last := st.last[b.owner.world := sequence])
  }

  function Begun(st: State, owner: Key, lease: string): (r: (State, Snapshot)) {
    var snapshot := Snapshot(owner, lease, Top(LogOf(st, owner)), RevisionOf(st, owner));
    (st.(leases := st.leases[lease := snapshot]), snapshot)
  }

  function Released(st: State, s: Snapshot): State { if Live(st, s) then st.(leases := st.leases - {s.lease}) else st }

  function Committed(st: State, owner: Key): State {
    var revision := WorldRevision(st, owner.world) + 1;
    st.(summaries := st.summaries[owner := revision], revisions := st.revisions[owner.world := revision])
  }

  function Mark(log: Log, ids: set<string>): (r: Log)
    ensures |r| == |log|
    ensures forall i | 0 <= i < |log| :: r[i] == if log[i].id in ids then log[i].(pruned := true) else log[i]
  {
    seq(|log|, i requires 0 <= i < |log| => if log[i].id in ids then log[i].(pruned := true) else log[i])
  }

  function Pruned(st: State, owner: Key, ids: set<string>): State {
    if owner in st.logs then st.(logs := st.logs[owner := Mark(st.logs[owner], ids)]) else st
  }

  /** When each event may happen: a lease name is new; a source may be pruned only above the watermark of
      every live lease of its owner; a summary is committed from a live snapshot at the current revision. */
  ghost predicate May(st: State, e: Event) {
    match e
    case Append(b) => true
    case Begin(owner, lease) => lease !in st.leases
    case Release(s) => true
    case Prune(owner, ids) =>
      forall s, lease | s in LogOf(st, owner) && s.id in ids && lease in st.leases && st.leases[lease].owner == owner ::
        s.sequence > st.leases[lease].watermark
    case Commit(s, expected) => Live(st, s) && RevisionOf(st, s.owner) == expected == s.revision
  }

  /** Appending a known batch changes nothing, whether it is the same batch or a conflicting one. */
  function Next(st: State, e: Event): State {
    match e
    case Append(b) => if Known(st, b.id) then st else Appended(st, b)
    case Begin(owner, lease) => Begun(st, owner, lease).0
    case Release(s) => Released(st, s)
    case Prune(owner, ids) => Pruned(st, owner, ids)
    case Commit(s, expected) => Committed(st, s.owner)
  }

  predicate Known(st: State, id: string) { exists owner | owner in st.logs :: HasId(st.logs[owner], id) }

  predicate HasId(log: Log, id: string) { exists s | s in log :: s.id == id }

  // ---------------------------------------------------------------- what every step keeps

  lemma LogIsGood(st: State, owner: Key)
    requires Good(st)
    ensures GoodLog(owner, LogOf(st, owner), LastOf(st, owner.world))
  {
    if owner in st.logs { assert GoodLog(owner, st.logs[owner], LastOf(st, owner.world)); }
  }

  /** Leases and revisions stay within bounds that only grow. */
  lemma BoundsGrow(st: State, next: State)
    requires GoodLeases(st) && next.leases == st.leases && forall w: World :: LastOf(st, w) <= LastOf(next, w)
    ensures GoodLeases(next)
  {
    forall lease | lease in next.leases ensures GoodLease(next, lease) { assert GoodLease(st, lease); }
  }

  lemma RevisionsStay(st: State, next: State)
    requires GoodRevisions(st) && next.summaries == st.summaries && next.revisions == st.revisions
    ensures GoodRevisions(next)
  {
    forall owner ensures GoodRevision(next, owner) { assert GoodRevision(st, owner); }
  }

  lemma LogsStay(st: State, next: State)
    requires GoodLogs(st) && next.logs == st.logs && next.last == st.last
    ensures GoodLogs(next)
  {
    forall owner | owner in next.logs ensures GoodLog(owner, next.logs[owner], LastOf(next, owner.world)) {
      assert GoodLog(owner, st.logs[owner], LastOf(st, owner.world));
    }
  }

  lemma AppendKeepsGood(st: State, b: Batch)
    requires Good(st) && !Known(st, b.id)
    ensures Good(Appended(st, b))
  {
    var next := Appended(st, b);
    var added := SourceOf(b, LastOf(st, b.owner.world) + 1);
    forall owner | owner in next.logs ensures GoodLog(owner, next.logs[owner], LastOf(next, owner.world)) {
      LogIsGood(st, owner);
      if owner == b.owner { GrowLog(owner, LogOf(st, owner), LastOf(st, owner.world), added); }
    }
    BoundsGrow(st, next);
    RevisionsStay(st, next);
    AppendKeepsOnceEach(st, b);
  }

  lemma AppendKeepsOnceEach(st: State, b: Batch)
    requires OnceEach(st.logs) && !Known(st, b.id)
    ensures OnceEach(Appended(st, b).logs)
  {
    var logs: map<Key, Log> := Appended(st, b).logs;
    forall o: Key, i | o in st.logs && 0 <= i < |st.logs[o]| ensures st.logs[o][i].id != b.id {
      if st.logs[o][i].id == b.id { assert HasId(st.logs[o], b.id); }
    }
    forall o1: Key, i: nat, o2: Key, j: nat | SameId(logs, o1, i, o2, j) ensures o1 == o2 && i == j {
      assert SameId(st.logs, o1, i, o2, j) || i == |LogOf(st, b.owner)| || j == |LogOf(st, b.owner)|;
    }
  }

  lemma GrowLog(owner: Key, log: Log, last: nat, s: Source)
    requires GoodLog(owner, log, last) && s.owner == owner && s.sequence == last + 1
    ensures GoodLog(owner, log + [s], last + 1)
  {
    forall i | 0 <= i < |log| ensures log[i].sequence < s.sequence { assert log[i] in log; }
  }

  lemma MarkKeepsGood(owner: Key, log: Log, last: nat, ids: set<string>)
    requires GoodLog(owner, log, last)
    ensures GoodLog(owner, Mark(log, ids), last)
  {
    var marked := Mark(log, ids);
    forall s | s in marked ensures s.owner == owner && 0 < s.sequence <= last {
      var i :| 0 <= i < |log| && marked[i] == s;
      assert log[i] in log;
    }
  }

  lemma PruneKeepsGood(st: State, owner: Key, ids: set<string>)
    requires Good(st)
    ensures Good(Pruned(st, owner, ids))
  {
    var next := Pruned(st, owner, ids);
    if owner in st.logs {
      forall o | o in next.logs ensures GoodLog(o, next.logs[o], LastOf(next, o.world)) {
        LogIsGood(st, o);
        if o == owner { MarkKeepsGood(o, st.logs[o], LastOf(st, o.world), ids); }
      }
      BoundsGrow(st, next);
      RevisionsStay(st, next);
      PruneKeepsIds(st, owner, ids);
    }
  }

  lemma PruneKeepsIds(st: State, owner: Key, ids: set<string>)
    requires OnceEach(st.logs)
    ensures OnceEach(Pruned(st, owner, ids).logs)
  {
    var next := Pruned(st, owner, ids);
    forall o1: Key, i: nat, o2: Key, j: nat | SameId(next.logs, o1, i, o2, j) ensures o1 == o2 && i == j {
      assert SameId(st.logs, o1, i, o2, j);
    }
  }

  lemma BeginKeepsGood(st: State, owner: Key, lease: string)
    requires Good(st) && lease !in st.leases
    ensures Good(Begun(st, owner, lease).0)
  {
    var next := Begun(st, owner, lease).0;
    LogIsGood(st, owner);
    var log := LogOf(st, owner);
    if log != [] { assert log[|log| - 1] in log; }
    forall l | l in next.leases ensures GoodLease(next, l) {
      if l in st.leases { assert GoodLease(st, l); }
    }
    LogsStay(st, next);
    RevisionsStay(st, next);
  }

  lemma ReleaseKeepsGood(st: State, s: Snapshot)
    requires Good(st)
    ensures Good(Released(st, s))
  {
    var next := Released(st, s);
    forall l | l in next.leases ensures GoodLease(next, l) { assert GoodLease(st, l); }
    LogsStay(st, next);
    RevisionsStay(st, next);
  }

  lemma CommitKeepsGood(st: State, owner: Key)
    requires Good(st)
    ensures Good(Committed(st, owner))
  {
    var next := Committed(st, owner);
    LogsStay(st, next);
    BoundsGrow(st, next);
    forall o ensures GoodRevision(next, o) { assert GoodRevision(st, o); }
  }

  lemma StepKeepsGood(st: State, e: Event)
    requires Good(st) && May(st, e)
    ensures Good(Next(st, e))
  {
    match e
    case Append(b) => if !Known(st, b.id) { AppendKeepsGood(st, b); }
    case Begin(owner, lease) => BeginKeepsGood(st, owner, lease);
    case Release(s) => ReleaseKeepsGood(st, s);
    case Prune(owner, ids) => PruneKeepsGood(st, owner, ids);
    case Commit(s, expected) => CommitKeepsGood(st, s.owner);
  }

  // ---------------------------------------------------------------- snapshot isolation

  /** What a snapshot shows: its owner's sources up to its watermark, newest first. */
  function View(st: State, s: Snapshot): Log { Newest(LogOf(st, s.owner), s.watermark, 0) }

  lemma AppendKeepsView(st: State, b: Batch, s: Snapshot)
    requires Good(st) && Live(st, s)
    ensures View(Appended(st, b), s) == View(st, s)
  {
    if b.owner == s.owner {
      assert GoodLease(st, s.lease);
      var log := LogOf(st, b.owner);
      var added := SourceOf(b, LastOf(st, b.owner.world) + 1);
      assert (log + [added])[..|log|] == log;
    }
  }

  lemma {:induction false} MarkAbove(log: Log, ids: set<string>, watermark: nat)
    requires forall s | s in log && s.id in ids :: s.sequence > watermark
    ensures Newest(Mark(log, ids), watermark, 0) == Newest(log, watermark, 0)
  {
    if log != [] {
      var n := |log| - 1;
      assert Mark(log, ids)[..n] == Mark(log[..n], ids);
      MarkAbove(log[..n], ids, watermark);
      assert log[n] in log;
    }
  }

  /** No append, other snapshot, summary or prune changes what a live snapshot shows. */
  lemma StepKeepsView(st: State, e: Event, s: Snapshot)
    requires Good(st) && May(st, e) && Live(st, s) && Live(Next(st, e), s)
    ensures View(Next(st, e), s) == View(st, s)
  {
    match e
    case Append(b) => if !Known(st, b.id) { AppendKeepsView(st, b, s); }
    case Begin(owner, lease) =>
    case Release(r) =>
    case Prune(owner, ids) =>
      if owner == s.owner && owner in st.logs {
        assert forall x | x in LogOf(st, owner) && x.id in ids :: x.sequence > st.leases[s.lease].watermark;
        MarkAbove(st.logs[owner], ids, s.watermark);
      }
    case Commit(r, expected) =>
  }

  /** The events between two reads, each allowed when it happens, with the lease live throughout. */
  ghost predicate Between(st: State, events: seq<Event>, s: Snapshot)
    decreases |events|
  {
    Live(st, s) && (events == [] || (May(st, events[0]) && Between(Next(st, events[0]), events[1..], s)))
  }

  function After(st: State, events: seq<Event>): State
    decreases |events|
  {
    if events == [] then st else After(Next(st, events[0]), events[1..])
  }

  lemma {:induction false} RunKeepsView(st: State, events: seq<Event>, s: Snapshot)
    requires Good(st) && Between(st, events, s)
    ensures Good(After(st, events)) && Live(After(st, events), s) && View(After(st, events), s) == View(st, s)
    decreases |events|
  {
    if events != [] {
      StepKeepsGood(st, events[0]);
      StepKeepsView(st, events[0], s);
      RunKeepsView(Next(st, events[0]), events[1..], s);
    }
  }

  /** Events that are each allowed when they happen; the lease may be released among them. */
  ghost predicate Allowed(st: State, events: seq<Event>)
    decreases |events|
  {
    events == [] || (May(st, events[0]) && Allowed(Next(st, events[0]), events[1..]))
  }

  /** Pruning may have marked some sources; nothing else differs. */
  predicate OnlyPruned(list: Log, later: Log) {
    |later| == |list| && forall i | 0 <= i < |list| :: later[i] == list[i] || later[i] == list[i].(pruned := true)
  }

  lemma {:induction false} MarkOnlyPrunes(log: Log, ids: set<string>, watermark: nat, before: nat)
    ensures OnlyPruned(Newest(log, watermark, before), Newest(Mark(log, ids), watermark, before))
  {
    if log != [] {
      var n := |log| - 1;
      assert Mark(log, ids)[..n] == Mark(log[..n], ids);
      MarkOnlyPrunes(log[..n], ids, watermark, before);
    }
  }

  lemma LaterIsNotSelected(log: Log, s: Source, watermark: nat, before: nat)
    requires s.sequence > watermark
    ensures Newest(log + [s], watermark, before) == Newest(log, watermark, before)
  {
    assert (log + [s])[..|log|] == log;
  }

  lemma StepOnlyPrunes(st: State, e: Event, owner: Key, watermark: nat, before: nat)
    requires Good(st) && May(st, e) && watermark <= LastOf(st, owner.world)
    ensures watermark <= LastOf(Next(st, e), owner.world)
    ensures OnlyPruned(Newest(LogOf(st, owner), watermark, before), Newest(LogOf(Next(st, e), owner), watermark, before))
  {
    match e
    case Append(b) =>
      if !Known(st, b.id) && b.owner == owner { LaterIsNotSelected(LogOf(st, owner), SourceOf(b, LastOf(st, owner.world) + 1), watermark, before); }
    case Begin(_, _) =>
    case Release(_) =>
    case Prune(pruned, ids) => if pruned == owner && owner in st.logs { MarkOnlyPrunes(st.logs[owner], ids, watermark, before); }
    case Commit(_, _) =>
  }

  /** A read that began on a live snapshot and looks at the log later scans the same sources, even when the
      snapshot was released in between; only pruning may have taken their content. */
  lemma {:induction false} LateReadScansTheSame(st: State, events: seq<Event>, owner: Key, watermark: nat, before: nat)
    requires Good(st) && Allowed(st, events) && watermark <= LastOf(st, owner.world)
    ensures OnlyPruned(Newest(LogOf(st, owner), watermark, before), Newest(LogOf(After(st, events), owner), watermark, before))
    decreases |events|
  {
    if events != [] {
      StepKeepsGood(st, events[0]);
      StepOnlyPrunes(st, events[0], owner, watermark, before);
      LateReadScansTheSame(Next(st, events[0]), events[1..], owner, watermark, before);
    }
  }

  /** One read of a traversal: what happened before it, its limits and the page it returned. */
  datatype Read = Read(events: seq<Event>, limits: Limits, page: Page)

  /** The state in which the events before read `i` begin. */
  function StateBefore(st: State, trip: seq<Read>, i: nat): State
    requires i <= |trip|
  {
    if i == 0 then st else After(StateBefore(st, trip, i - 1), trip[i - 1].events)
  }

  /** The cursor of read `i`: zero at first, then where the page before stopped. */
  function CursorOf(trip: seq<Read>, i: nat): nat
    requires i <= |trip|
  {
    if i == 0 then 0 else trip[i - 1].page.nextBefore
  }

  ghost predicate ReadAt(now: State, s: Snapshot, before: nat, read: Read) {
    && read.limits.records > 0 && read.limits.bytes > 0
    && read.page == PageFor(Newest(LogOf(now, s.owner), s.watermark, before), read.limits)
  }

  ghost predicate ReadOf(st: State, s: Snapshot, trip: seq<Read>, i: nat)
    requires i < |trip|
  {
    && ReadAt(After(StateBefore(st, trip, i), trip[i].events), s, CursorOf(trip, i), trip[i])
    && (i + 1 < |trip| ==> trip[i].page.more)
  }

  /** A traversal: each read follows the previous page's cursor while there is more. */
  ghost predicate Traversal(st: State, s: Snapshot, trip: seq<Read>) {
    && (forall i: nat {:trigger Between(StateBefore(st, trip, i), trip[i].events, s)} | i < |trip| ::
          Between(StateBefore(st, trip, i), trip[i].events, s))
    && (forall i: nat {:trigger ReadOf(st, s, trip, i)} | i < |trip| :: ReadOf(st, s, trip, i))
  }

  /** How many sources the first `i` pages scanned. */
  function Scanned(trip: seq<Read>, i: nat): nat
    requires i <= |trip|
  {
    if i == 0 then 0 else Scanned(trip, i - 1) + trip[i - 1].page.scanned
  }

  /** The pages scan a list from its front, one stretch after the other. */
  ghost predicate Tiles(list: Log, trip: seq<Read>) {
    forall i: nat {:trigger PageAt(list, Scanned(trip, i), trip[i])} | i < |trip| :: PageAt(list, Scanned(trip, i), trip[i])
  }

  /** The page of what follows position `from`. */
  ghost predicate PageAt(list: Log, from: nat, read: Read) {
    && from <= |list| && read.limits.records > 0 && read.limits.bytes > 0
    && read.page == PageFor(list[from..], read.limits)
  }

  lemma PageAtMeets(list: Log, from: nat, read: Read)
    requires PageAt(list, from, read)
    ensures from + read.page.scanned <= |list|
    ensures read.page.sources == Kept(list[from..][..read.page.scanned], read.limits.bytes)
    ensures read.page.diagnostics == Notes(list[from..][..read.page.scanned], read.limits.bytes)
    ensures read.page.more <==> from + read.page.scanned < |list|
    ensures read.page.more ==> read.page.scanned > 0 && read.page.nextBefore == list[from + read.page.scanned - 1].sequence
  {
    var rest, k := list[from..], read.page.scanned;
    PageContract(rest, read.limits, read.page);
    if read.page.more {
      MorePagesProgress(rest, read.limits, read.page);
      assert rest[..k][k - 1] == list[from + k - 1];
    }
  }

  /** The cursor that continues at a position of the view. */
  ghost predicate CursorAt(view: Log, from: nat, before: nat) {
    from <= |view| && before == if from == 0 then 0 else view[from - 1].sequence
  }

  /** One read continues the view where the last one stopped. */
  lemma ReadTiles(now: State, s: Snapshot, from: nat, before: nat, read: Read)
    requires Good(now) && Live(now, s) && CursorAt(View(now, s), from, before) && ReadAt(now, s, before, read)
    ensures PageAt(View(now, s), from, read)
    ensures read.page.more ==> read.page.scanned > 0 && CursorAt(View(now, s), from + read.page.scanned, read.page.nextBefore)
  {
    CursorView(now, s, from, before);
    PageAtMeets(View(now, s), from, read);
  }

  ghost predicate Shows(now: State, s: Snapshot, view: Log) { Good(now) && Live(now, s) && View(now, s) == view }

  /** The snapshot shows the same before every read. */
  lemma {:induction false} ViewIsStable(st: State, s: Snapshot, trip: seq<Read>, i: nat)
    requires Good(st) && Live(st, s) && Traversal(st, s, trip) && i <= |trip|
    ensures Shows(StateBefore(st, trip, i), s, View(st, s))
  {
    if i > 0 {
      ViewIsStable(st, s, trip, i - 1);
      assert Between(StateBefore(st, trip, i - 1), trip[i - 1].events, s);
      RunKeepsView(StateBefore(st, trip, i - 1), trip[i - 1].events, s);
    }
  }

  /** The first `i` reads of a traversal, by induction. */
  lemma {:induction false} ReadsTile(st: State, s: Snapshot, trip: seq<Read>, view: Log, i: nat)
    requires Traversal(st, s, trip) && i <= |trip|
    requires forall k: nat {:trigger StateBefore(st, trip, k)} | k <= |trip| :: Shows(StateBefore(st, trip, k), s, view)
    ensures i < |trip| ==> CursorAt(view, Scanned(trip, i), CursorOf(trip, i))
    ensures i > 0 ==> PageAt(view, Scanned(trip, i - 1), trip[i - 1])
  {
    if i > 0 {
      ReadsTile(st, s, trip, view, i - 1);
      assert Shows(StateBefore(st, trip, i), s, view);
      ReadStep(st, s, trip, view, i - 1);
    }
  }

  lemma ReadStep(st: State, s: Snapshot, trip: seq<Read>, view: Log, i: nat)
    requires i < |trip| && ReadOf(st, s, trip, i) && Shows(StateBefore(st, trip, i + 1), s, view)
    requires CursorAt(view, Scanned(trip, i), CursorOf(trip, i))
    ensures PageAt(view, Scanned(trip, i), trip[i])
    ensures i + 1 < |trip| ==> CursorAt(view, Scanned(trip, i + 1), CursorOf(trip, i + 1))
  {
    assert StateBefore(st, trip, i + 1) == After(StateBefore(st, trip, i), trip[i].events);
    ReadTiles(StateBefore(st, trip, i + 1), s, Scanned(trip, i), CursorOf(trip, i), trip[i]);
  }

  /** The list a cursor selects is the rest of the view. */
  lemma CursorView(st: State, s: Snapshot, from: nat, before: nat)
    requires Good(st) && Live(st, s) && CursorAt(View(st, s), from, before)
    ensures Newest(LogOf(st, s.owner), s.watermark, before) == View(st, s)[from..]
  {
    var log := LogOf(st, s.owner);
    if from == 0 {
      assert View(st, s)[0..] == View(st, s);
    } else {
      LogIsGood(st, s.owner);
      ContinueAfter(log, s.watermark, from);
    }
  }

  lemma {:induction false} TilesStayInside(list: Log, trip: seq<Read>, i: nat)
    requires Tiles(list, trip) && i <= |trip|
    ensures Scanned(trip, i) <= |list|
    ensures i > 0 ==> (trip[i - 1].page.more <==> Scanned(trip, i) < |list|)
  {
    if i > 0 {
      TilesStayInside(list, trip, i - 1);
      assert PageAt(list, Scanned(trip, i - 1), trip[i - 1]);
      PageAtMeets(list, Scanned(trip, i - 1), trip[i - 1]);
    }
  }

  /** Following the cursor from zero scans the sources the snapshot showed when it began, newest first and
      each once, whatever happened in between; a page without more behind it was the last. */
  lemma TraversalVisitsEachSourceOnce(st: State, s: Snapshot, trip: seq<Read>)
    requires Good(st) && Live(st, s) && Traversal(st, s, trip) && trip != []
    ensures Tiles(View(st, s), trip)
    ensures Descending(View(st, s))
    ensures forall x :: x in View(st, s) <==> x in LogOf(st, s.owner) && x.sequence <= s.watermark
    ensures !trip[|trip| - 1].page.more <==> Scanned(trip, |trip|) == |View(st, s)|
  {
    TraversalTiles(st, s, trip);
    TilesStayInside(View(st, s), trip, |trip|);
    LogIsGood(st, s.owner);
    NewestDescends(LogOf(st, s.owner), s.watermark, 0);
  }

  lemma TraversalTiles(st: State, s: Snapshot, trip: seq<Read>)
    requires Good(st) && Live(st, s) && Traversal(st, s, trip)
    ensures Tiles(View(st, s), trip)
  {
    var view := View(st, s);
    forall k: nat | k <= |trip| ensures Shows(StateBefore(st, trip, k), s, view) { ViewIsStable(st, s, trip, k); }
    forall i: nat | i < |trip| ensures PageAt(view, Scanned(trip, i), trip[i]) { ReadsTile(st, s, trip, view, i + 1); }
  }

  /** What the first `i` pages return, in order. */
  function AllSources(trip: seq<Read>, i: nat): Log
    requires i <= |trip|
  {
    if i == 0 then [] else AllSources(trip, i - 1) + trip[i - 1].page.sources
  }

  /** With the same byte limit throughout, a traversal returns every available source within that limit of
      what it scanned, and nothing else. */
  lemma {:induction false} TilesReturn(list: Log, trip: seq<Read>, bytes: int, i: nat)
    requires Tiles(list, trip) && i <= |trip| && SameBytes(trip, bytes)
    ensures Scanned(trip, i) <= |list| && AllSources(trip, i) == Kept(list[..Scanned(trip, i)], bytes)
  {
    TilesStayInside(list, trip, i);
    if i > 0 {
      TilesReturn(list, trip, bytes, i - 1);
      ReturnStep(list, trip, bytes, i - 1);
    }
  }

  lemma ReturnStep(list: Log, trip: seq<Read>, bytes: int, i: nat)
    requires Tiles(list, trip) && i < |trip| && SameBytes(trip, bytes) && Scanned(trip, i) <= |list|
    requires AllSources(trip, i) == Kept(list[..Scanned(trip, i)], bytes)
    ensures Scanned(trip, i + 1) <= |list| && AllSources(trip, i + 1) == Kept(list[..Scanned(trip, i + 1)], bytes)
  {
    assert PageAt(list, Scanned(trip, i), trip[i]);
    PageAddsKept(list, Scanned(trip, i), trip[i], bytes);
  }

  predicate SameBytes(trip: seq<Read>, bytes: int) { forall i: nat | i < |trip| :: trip[i].limits.bytes == bytes }

  lemma PageAddsKept(list: Log, from: nat, read: Read, bytes: int)
    requires PageAt(list, from, read) && read.limits.bytes == bytes
    ensures from + read.page.scanned <= |list|
    ensures Kept(list[..from], bytes) + read.page.sources == Kept(list[..from + read.page.scanned], bytes)
  {
    PageAtMeets(list, from, read);
    KeptSlices(list, from, read.page.scanned, bytes);
  }

  lemma KeptSlices(list: Log, from: nat, k: nat, limit: int)
    requires from + k <= |list|
    ensures Kept(list[..from + k], limit) == Kept(list[..from], limit) + Kept(list[from..][..k], limit)
  {
    assert list[..from + k] == list[..from] + list[from..][..k];
    KeptConcat(list[..from], list[from..][..k], limit);
  }

  lemma {:induction false} KeptConcat(a: Log, b: Log, limit: int)
    ensures Kept(a + b, limit) == Kept(a, limit) + Kept(b, limit)
  {
    if b == [] {
      assert a + b == a;
    } else {
      var n := |b| - 1;
      KeptConcat(a, b[..n], limit);
      assert (a + b)[..|a| + n] == a + b[..n];
    }
  }
}

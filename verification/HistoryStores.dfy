/** The two history stores, each refining the same log: the in-memory one over maps, and the one over
    the ordered rows of a world's table. */
module HistoryStores {
  import opened Wrappers
  import opened Numbers
  import opened HistoryLog

  datatype AppendResult = Stored(source: Source) | Conflict

  /** Missing limits default to the store's, and larger ones are cut to them. */
  function Clamped(asked: Limits, store: Limits): Limits {
    Limits(Min(if asked.records <= 0 then store.records else asked.records, store.records),
           Min(if asked.bytes <= 0 then store.bytes else asked.bytes, store.bytes))
  }

  /** Scans one source: it is diagnosed when pruned or too large, and returned otherwise. */
  method TakeSource(p: Page, source: Source, within: Limits) returns (next: Page)
    ensures next == Advance(p, source, within)
  {
    next := p.(scanned := p.scanned + 1, nextBefore := source.sequence);
    if source.pruned {
      next := next.(diagnostics := next.diagnostics + ["source_pruned"]);
      return;
    }
    if source.bytes > within.bytes {
      next := next.(diagnostics := next.diagnostics + ["history_source_exceeds_page_bytes"]);
      return;
    }
    next := next.(sources := next.sources + [source], bytes := next.bytes + source.bytes);
  }

  // ---------------------------------------------------------------- in memory

  function Lookup(sources: map<string, Source>, ids: seq<string>): (log: Log)
    requires forall id | id in ids :: id in sources
    ensures |log| == |ids| && forall i | 0 <= i < |ids| :: log[i] == sources[ids[i]]
  {
    seq(|ids|, i requires 0 <= i < |ids| => sources[ids[i]])
  }

  /** Every listed id has its source, and every source is listed by its owner. */
  ghost predicate ListedIn(sources: map<string, Source>, order: map<Key, seq<string>>) {
    && (forall owner, id | owner in order && id in order[owner] :: id in sources && sources[id].id == id)
    && (forall id | id in sources :: sources[id].id == id && sources[id].owner in order && id in order[sources[id].owner])
  }

  ghost function Logs(sources: map<string, Source>, order: map<Key, seq<string>>): (logs: map<Key, Log>)
    requires ListedIn(sources, order)
    ensures logs.Keys == order.Keys
  {
    map owner | owner in order :: Lookup(sources, order[owner])
  }

  function Currents(summaryOrder: map<Key, seq<nat>>): map<Key, nat> {
    map owner | owner in summaryOrder && summaryOrder[owner] != [] :: summaryOrder[owner][|summaryOrder[owner]| - 1]
  }

  lemma ListedStays(sources: map<string, Source>, order: map<Key, seq<string>>, s: Source)
    requires ListedIn(sources, order) && s.id !in sources
    ensures ListedIn(sources[s.id := s], order[s.owner := (if s.owner in order then order[s.owner] else []) + [s.id]])
  {
    var ids := (if s.owner in order then order[s.owner] else []) + [s.id];
    var sources', order' := sources[s.id := s], order[s.owner := ids];
    forall owner, id | owner in order' && id in order'[owner] ensures id in sources' && sources'[id].id == id {
      if owner in order && id in order[owner] { assert id in sources; }
    }
  }

  lemma AddListed(sources: map<string, Source>, order: map<Key, seq<string>>, s: Source)
    requires ListedIn(sources, order) && s.id !in sources
    ensures var order' := order[s.owner := (if s.owner in order then order[s.owner] else []) + [s.id]];
            && ListedIn(sources[s.id := s], order')
            && Logs(sources[s.id := s], order') ==
               Logs(sources, order)[s.owner := (if s.owner in order then Logs(sources, order)[s.owner] else []) + [s]]
  {
    var ids := (if s.owner in order then order[s.owner] else []) + [s.id];
    var sources', order' := sources[s.id := s], order[s.owner := ids];
    ListedStays(sources, order, s);
    var before, after := Logs(sources, order), Logs(sources', order');
    var expected := before[s.owner := (if s.owner in order then before[s.owner] else []) + [s]];
    forall owner | owner in order' ensures after[owner] == expected[owner] {
      if owner in order { LookupStays(sources, order[owner], s); }
    }
    assert after.Keys == expected.Keys;
  }

  lemma LookupStays(sources: map<string, Source>, ids: seq<string>, s: Source)
    requires (forall id | id in ids :: id in sources) && s.id !in sources
    ensures forall id | id in ids + [s.id] :: id in sources[s.id := s]
    ensures Lookup(sources[s.id := s], ids) == Lookup(sources, ids)
    ensures Lookup(sources[s.id := s], ids + [s.id]) == Lookup(sources, ids) + [s]
  {
    forall k | 0 <= k < |ids| ensures sources[s.id := s][ids[k]] == sources[ids[k]] { assert ids[k] in ids; }
  }

  lemma KnownIffStored(sources: map<string, Source>, order: map<Key, seq<string>>, st: State, id: string)
    requires ListedIn(sources, order) && st.logs == Logs(sources, order)
    ensures Known(st, id) <==> id in sources
  {
    if id in sources {
      var owner := sources[id].owner;
      var i :| 0 <= i < |order[owner]| && order[owner][i] == id;
      assert st.logs[owner][i].id == id;
      assert HasId(st.logs[owner], id);
    }
    if Known(st, id) {
      var owner :| owner in st.logs && HasId(st.logs[owner], id);
      var i :| 0 <= i < |order[owner]| && st.logs[owner][i].id == id;
      assert order[owner][i] in order[owner];
    }
  }

  function WithRevision(summaryOrder: map<Key, seq<nat>>, owner: Key, revision: nat): map<Key, seq<nat>> {
    summaryOrder[owner := (if owner in summaryOrder then summaryOrder[owner] else []) + [revision]]
  }

  lemma AddRevision(summaryOrder: map<Key, seq<nat>>, owner: Key, revision: nat)
    ensures Currents(WithRevision(summaryOrder, owner, revision)) == Currents(summaryOrder)[owner := revision]
  {
  }

  lemma RevisionIsBounded(st: State, owner: Key)
    requires Good(st)
    ensures RevisionOf(st, owner) <= WorldRevision(st, owner.world)
  {
    assert GoodRevision(st, owner);
  }

  ghost function MapState(sources: map<string, Source>, order: map<Key, seq<string>>, sequences: map<World, nat>,
                          leases: map<string, Snapshot>, summaryOrder: map<Key, seq<nat>>, revisions: map<World, nat>): State
    requires ListedIn(sources, order)
  {
    State(Logs(sources, order), sequences, leases, Currents(summaryOrder), revisions)
  }

  function NextSequence(sequences: map<World, nat>, world: World): nat { (if world in sequences then sequences[world] else 0) + 1 }

  function Listing(order: map<Key, seq<string>>, b: Batch): map<Key, seq<string>> {
    order[b.owner := (if b.owner in order then order[b.owner] else []) + [b.id]]
  }

  lemma AppendedSource(sources: map<string, Source>, order: map<Key, seq<string>>, sequences: map<World, nat>,
                       leases: map<string, Snapshot>, summaryOrder: map<Key, seq<nat>>, revisions: map<World, nat>, b: Batch, sequence: nat)
    requires ListedIn(sources, order) && b.id !in sources && sequence == NextSequence(sequences, b.owner.world)
    ensures ListedIn(sources[b.id := SourceOf(b, sequence)], Listing(order, b))
    ensures MapState(sources[b.id := SourceOf(b, sequence)], Listing(order, b), sequences[b.owner.world := sequence], leases, summaryOrder, revisions)
            == Appended(MapState(sources, order, sequences, leases, summaryOrder, revisions), b)
  {
    AddListed(sources, order, SourceOf(b, sequence));
  }

  class MemoryStore {
    const limits: Limits
    var sources: map<string, Source>
    var order: map<Key, seq<string>>
    var sequences: map<World, nat>
    var summaryOrder: map<Key, seq<nat>>
    var revisions: map<World, nat>
    var leases: map<string, Snapshot>

    ghost function Abs(): State
      reads this
      requires ListedIn(sources, order)
    {
      MapState(sources, order, sequences, leases, summaryOrder, revisions)
    }

    ghost predicate Valid()
      reads this
    {
      limits.records > 0 && limits.bytes > 0 && ListedIn(sources, order) && Good(Abs())
    }

    constructor (storeLimits: Limits)
      requires storeLimits.records > 0 && storeLimits.bytes > 0
      ensures Valid() && limits == storeLimits && Abs() == State(map[], map[], map[], map[], map[])
    {
      limits := storeLimits;
      sources, order, sequences, summaryOrder, revisions, leases := map[], map[], map[], map[], map[], map[];
    }

    /** A new batch is appended under the next sequence of its world; a known one is returned as stored,
        or refused when its content differs. */
    method AppendHistory(b: Batch) returns (result: AppendResult)
      requires Valid()
      modifies this
      ensures Valid() && Abs() == Next(old(Abs()), Append(b))
      ensures result == Conflict <==> old(b.id in sources && sources[b.id].fingerprint != b.fingerprint)
      ensures result.Stored? ==> result.source.id == b.id && result.source.fingerprint == b.fingerprint
                                 && b.id in sources && sources[b.id] == result.source
    {
      KnownIffStored(sources, order, Abs(), b.id);
      if b.id in sources {
        if sources[b.id].fingerprint != b.fingerprint { return Conflict; }
        return Stored(sources[b.id]);
      }
      var source := Insert(b);
      return Stored(source);
    }

    method Insert(b: Batch) returns (source: Source)
      requires Valid() && b.id !in sources && !Known(Abs(), b.id)
      modifies this
      ensures Valid() && Abs() == Appended(old(Abs()), b)
      ensures b.id in sources && sources[b.id] == source && source.id == b.id && source.fingerprint == b.fingerprint
    {
      AppendKeepsGood(Abs(), b);
      var sequence := NextSequence(sequences, b.owner.world);
      AppendedSource(sources, order, sequences, leases, summaryOrder, revisions, b, sequence);
      source := SourceOf(b, sequence);
      sequences := sequences[b.owner.world := sequence];
      sources := sources[b.id := source];
      order := Listing(order, b);
    }

    method BeginSnapshot(owner: Key, lease: string) returns (snapshot: Snapshot)
      requires Valid() && lease !in leases
      modifies this
      ensures Valid() && (Abs(), snapshot) == Begun(old(Abs()), owner, lease)
    {
      StepKeepsGood(Abs(), Begin(owner, lease));
      snapshot := Snapshot(owner, lease, 0, 0);
      if owner in order && |order[owner]| > 0 {
        snapshot := snapshot.(watermark := sources[order[owner][|order[owner]| - 1]].sequence);
      }
      if owner in summaryOrder && |summaryOrder[owner]| > 0 { snapshot := snapshot.(revision := summaryOrder[owner][|summaryOrder[owner]| - 1]); }
      leases := leases[lease := snapshot];
    }

    method ReleaseSnapshot(snapshot: Snapshot)
      requires Valid()
      modifies this
      ensures Valid() && Abs() == Released(old(Abs()), snapshot)
    {
      StepKeepsGood(Abs(), Release(snapshot));
      if snapshot.lease in leases && leases[snapshot.lease] == snapshot { leases := leases - {snapshot.lease}; }
    }

    /** Binary search for the first listed source above the watermark or at the cursor. */
    method SearchEnd(ids: seq<string>, ghost log: Log, watermark: nat, before: nat) returns (end: nat)
      requires (forall id | id in ids :: id in sources) && log == Lookup(sources, ids) && Ascending(log)
      ensures SelectedTo(log, watermark, before, end)
    {
      end := 0;
      var high := |ids|;
      while end < high
        invariant end <= high <= |ids|
        invariant forall i | 0 <= i < end :: Selected(log[i], watermark, before)
        invariant forall i | high <= i < |ids| :: !Selected(log[i], watermark, before)
      {
        var middle := end + (high - end) / 2;
        var sequence := sources[ids[middle]].sequence;
        if sequence > watermark || (before != 0 && sequence >= before) {
          high := middle;
        } else {
          end := middle + 1;
        }
      }
    }

    /** The page of a live snapshot; nothing for any other. */
    method ReadSnapshot(snapshot: Snapshot, before: nat, asked: Limits) returns (page: Option<Page>)
      requires Valid()
      ensures page == if Live(Abs(), snapshot)
                      then Some(PageFor(Newest(LogOf(Abs(), snapshot.owner), snapshot.watermark, before), Clamped(asked, limits)))
                      else None
    {
      if !(snapshot.lease in leases && leases[snapshot.lease] == snapshot) { return None; }
      var within := Clamped(asked, limits);
      var ids := if snapshot.owner in order then order[snapshot.owner] else [];
      ghost var log := LogOf(Abs(), snapshot.owner);
      assert log == Lookup(sources, ids);
      LogIsGood(Abs(), snapshot.owner);
      var end := SearchEnd(ids, log, snapshot.watermark, before);
      NewestSelected(log, snapshot.watermark, before, end);
      ghost var list := Newest(log, snapshot.watermark, before);
      var p := ScanBack(ids, end, within, list);
      page := Some(p);
    }

    method ScanBack(ids: seq<string>, end: nat, within: Limits, ghost list: Log) returns (p: Page)
      requires within.records > 0 && within.bytes > 0
      requires end <= |ids| && |list| == end && forall k | 0 <= k < end :: ids[k] in sources && list[end - 1 - k] == sources[ids[k]]
      ensures p == PageFor(list, within)
    {
      var i := end;
      p := NoPage;
      assert list[..0] == [];
      while i > 0
        invariant i <= end && |list| == end && ScannedUpTo(list, within, p, end - i)
      {
        var source := sources[ids[i - 1]];
        assert list[end - 1 - (i - 1)] == source;
        if p.scanned == within.records || (!source.pruned && source.bytes <= within.bytes && p.bytes + source.bytes > within.bytes) {
          StoppedPage(list, within, p, end - i);
          PageContract(list, within, p.(more := true));
          return p.(more := true);
        }
        AdvanceScans(list, within, p, end - i);
        p := TakeSource(p, source, within);
        i := i - 1;
      }
      StoppedPage(list, within, p, end);
      PageContract(list, within, p);
    }

    /** A summary is committed only from a live snapshot that still holds the owner's current revision. */
    method CommitSummary(snapshot: Snapshot, expected: nat, prepared: bool) returns (revision: Option<nat>)
      requires Valid()
      modifies this
      ensures Valid()
      ensures revision.Some? <==>
                Live(old(Abs()), snapshot) && RevisionOf(old(Abs()), snapshot.owner) == expected == snapshot.revision && prepared
      ensures revision.Some? ==> Abs() == Committed(old(Abs()), snapshot.owner) && revision.value == RevisionOf(Abs(), snapshot.owner)
                                 && revision.value > expected
      ensures revision.None? ==> Abs() == old(Abs())
    {
      if !(snapshot.lease in leases && leases[snapshot.lease] == snapshot) { return None; }
      var owner := snapshot.owner;
      var current := if owner in summaryOrder && |summaryOrder[owner]| > 0 then summaryOrder[owner][|summaryOrder[owner]| - 1] else 0;
      if current != expected || current != snapshot.revision { return None; }
      if !prepared { return None; }
      CommitKeepsGood(Abs(), owner);
      RevisionIsBounded(Abs(), owner);
      var next := NextSequence(revisions, owner.world);
      AddRevision(summaryOrder, owner, next);
      revisions := revisions[owner.world := next];
      summaryOrder := WithRevision(summaryOrder, owner, next);
      return Some(next);
    }
  }

  /** The first `end` sources are selected and no other. */
  predicate SelectedTo(log: Log, watermark: nat, before: nat, end: nat) {
    && end <= |log| && (forall i | 0 <= i < end :: Selected(log[i], watermark, before))
    && (forall i | end <= i < |log| :: !Selected(log[i], watermark, before))
  }

  predicate Backwards(list: Log, log: Log) { |list| == |log| && forall j | 0 <= j < |list| :: list[j] == log[|log| - 1 - j] }

  lemma BackwardsGrows(list: Log, log: Log, s: Source)
    requires Backwards(list, log)
    ensures Backwards([s] + list, log + [s])
  {
  }

  /** In an ascending log the selected sources are a prefix, and the newest-first list is it reversed. */
  lemma {:induction false} SelectedPrefix(log: Log, watermark: nat, before: nat, end: nat)
    requires SelectedTo(log, watermark, before, end)
    ensures Backwards(Newest(log, watermark, before), log[..end])
    decreases |log|
  {
    if log != [] {
      var n := |log| - 1;
      if end > n {
        SelectedPrefix(log[..n], watermark, before, n);
        assert log[..n][..n] == log[..n] && log[..end] == log[..n] + [log[n]];
        BackwardsGrows(Newest(log[..n], watermark, before), log[..n], log[n]);
      } else {
        SelectedPrefix(log[..n], watermark, before, end);
        assert log[..n][..end] == log[..end];
      }
    }
  }

  lemma NewestSelected(log: Log, watermark: nat, before: nat, end: nat)
    requires SelectedTo(log, watermark, before, end)
    ensures |Newest(log, watermark, before)| == end
    ensures forall j | 0 <= j < end :: Newest(log, watermark, before)[j] == log[end - 1 - j]
  {
    SelectedPrefix(log, watermark, before, end);
  }

  // ---------------------------------------------------------------- ordered rows

  function RowsOf(rows: Log, owner: Key): Log {
    if rows == [] then []
    else
      var n := |rows| - 1;
      RowsOf(rows[..n], owner) + (if rows[n].owner == owner then [rows[n]] else [])
  }

  /** `... WHERE owner AND sequence <= watermark AND (before = 0 OR sequence < before) ORDER BY sequence DESC`. */
  function Query(rows: Log, owner: Key, watermark: nat, before: nat): Log {
    if rows == [] then []
    else
      var n := |rows| - 1;
      (if rows[n].owner == owner && Selected(rows[n], watermark, before) then [rows[n]] else []) + Query(rows[..n], owner, watermark, before)
  }

  function Take(list: Log, n: nat): Log { if |list| <= n then list else list[..n] }

  lemma {:induction false} QueryIsNewest(rows: Log, owner: Key, watermark: nat, before: nat)
    ensures Query(rows, owner, watermark, before) == Newest(RowsOf(rows, owner), watermark, before)
  {
    if rows != [] {
      var n := |rows| - 1;
      QueryIsNewest(rows[..n], owner, watermark, before);
      var mine := RowsOf(rows[..n], owner);
      assert (mine + [rows[n]])[..|mine|] == mine;
      assert mine + [] == mine;
    }
  }

  ghost function RowLogs(rows: Log): map<Key, Log> { map owner | owner in Owners(rows) :: RowsOf(rows, owner) }

  predicate OfWorld(rows: Log, world: World) { forall s | s in rows :: s.owner.world == world }

  function Owners(rows: Log): set<Key> { set s | s in rows :: s.owner }

  ghost function RowState(rows: Log, world: World, leases: map<string, Snapshot>, summaries: map<Key, nat>, revision: nat): State {
    State(RowLogs(rows), LastRow(rows, world), leases, summaries, if revision == 0 then map[] else map[world := revision])
  }

  function LastRow(rows: Log, world: World): map<World, nat> { if rows == [] then map[] else map[world := Top(rows)] }

  lemma LastRowAppend(rows: Log, world: World, s: Source)
    ensures LastRow(rows + [s], world) == LastRow(rows, world)[world := s.sequence]
    ensures (if world in LastRow(rows, world) then LastRow(rows, world)[world] else 0) == Top(rows)
  {
  }

  predicate HasRow(rows: Log, id: string) { exists s | s in rows :: s.id == id }

  /** The row a new batch becomes, under the next automatic sequence. */
  function NextRow(rows: Log, b: Batch): Source { SourceOf(b, Top(rows) + 1) }

  lemma AppendedRow(rows: Log, world: World, leases: map<string, Snapshot>, summaries: map<Key, nat>, revision: nat, b: Batch)
    requires b.owner.world == world
    ensures RowState(rows + [NextRow(rows, b)], world, leases, summaries, revision) ==
            Appended(RowState(rows, world, leases, summaries, revision), b)
  {
    AppendRow(rows, NextRow(rows, b));
    LastRowAppend(rows, world, NextRow(rows, b));
  }

  ghost predicate GoodRows(rows: Log, world: World, leases: map<string, Snapshot>, summaries: map<Key, nat>, revision: nat) {
    OfWorld(rows, world) && Ascending(rows) && Good(RowState(rows, world, leases, summaries, revision))
  }

  lemma InsertedIsGood(rows: Log, world: World, leases: map<string, Snapshot>, summaries: map<Key, nat>, revision: nat, b: Batch)
    requires b.owner.world == world && GoodRows(rows, world, leases, summaries, revision)
    requires !Known(RowState(rows, world, leases, summaries, revision), b.id)
    ensures GoodRows(rows + [NextRow(rows, b)], world, leases, summaries, revision)
    ensures RowState(rows + [NextRow(rows, b)], world, leases, summaries, revision) ==
            Appended(RowState(rows, world, leases, summaries, revision), b)
  {
    AppendKeepsGood(RowState(rows, world, leases, summaries, revision), b);
    AppendedRow(rows, world, leases, summaries, revision, b);
    AppendRowAscends(rows, NextRow(rows, b), world);
  }

  /** `COALESCE(MAX(sequence), 0)` over an owner's rows. */
  method MaxSequence(rows: Log, owner: Key) returns (sequence: nat)
    requires Ascending(rows)
    ensures sequence == Top(RowsOf(rows, owner))
  {
    sequence := 0;
    assert rows[..0] == [];
    for i := 0 to |rows|
      invariant sequence == Top(RowsOf(rows[..i], owner))
    {
      assert rows[..i + 1][..i] == rows[..i];
      if rows[i].owner == owner {
        RowsBelow(rows, i, owner);
        if rows[i].sequence > sequence { sequence := rows[i].sequence; }
      }
    }
    assert rows[..|rows|] == rows;
  }

  /** The rows of one world's table, in the order of their automatic sequence. */
  class TableStore {
    const limits: Limits
    const world: World
    var rows: Log
    var revision: nat
    var summaries: map<Key, nat>
    var leases: map<string, Snapshot>

    ghost function Abs(): State
      reads this
    {
      RowState(rows, world, leases, summaries, revision)
    }

    ghost predicate Valid()
      reads this
    {
      limits.records > 0 && limits.bytes > 0 && GoodRows(rows, world, leases, summaries, revision)
    }

    constructor (storeLimits: Limits, tableWorld: World)
      requires storeLimits.records > 0 && storeLimits.bytes > 0
      ensures Valid() && limits == storeLimits && world == tableWorld && rows == [] && leases == map[]
      ensures Abs() == State(map[], map[], map[], map[], map[])
    {
      limits, world := storeLimits, tableWorld;
      rows, revision, summaries, leases := [], 0, map[], map[];
    }

    method FindRow(id: string) returns (row: Option<Source>)
      ensures row.Some? ==> row.value in rows && row.value.id == id
      ensures row.None? ==> forall s | s in rows :: s.id != id
    {
      for i := 0 to |rows|
        invariant forall k | 0 <= k < i :: rows[k].id != id
      {
        if rows[i].id == id { return Some(rows[i]); }
      }
      return None;
    }

    method AppendHistory(b: Batch) returns (result: AppendResult)
      requires Valid() && b.owner.world == world
      modifies this
      ensures Valid() && Abs() == Next(old(Abs()), Append(b))
      ensures result == Conflict ==> old(exists s :: s in rows && s.id == b.id && s.fingerprint != b.fingerprint)
      ensures result.Stored? ==> result.source in rows && result.source.id == b.id && result.source.fingerprint == b.fingerprint
      ensures rows == if HasRow(old(rows), b.id) then old(rows) else old(rows) + [NextRow(old(rows), b)]
      ensures leases == old(leases)
    {
      var found := FindRow(b.id);
      if found.Some? {
        RowIsKnown(rows, Abs(), found.value);
        if found.value.fingerprint != b.fingerprint { return Conflict; }
        return Stored(found.value);
      }
      NoRowIsUnknown(rows, Abs(), b.id);
      var source := Insert(b);
      return Stored(source);
    }

    method Insert(b: Batch) returns (source: Source)
      requires Valid() && b.owner.world == world && !Known(Abs(), b.id)
      modifies this
      ensures Valid() && Abs() == Appended(old(Abs()), b)
      ensures source in rows && source.id == b.id && source.fingerprint == b.fingerprint
      ensures rows == old(rows) + [NextRow(old(rows), b)] && leases == old(leases)
    {
      InsertedIsGood(rows, world, leases, summaries, revision, b);
      source := NextRow(rows, b);
      rows := rows + [source];
    }

    method BeginSnapshot(owner: Key, lease: string) returns (snapshot: Snapshot)
      requires Valid() && lease !in leases
      modifies this
      ensures Valid() && (Abs(), snapshot) == Begun(old(Abs()), owner, lease)
    {
      StepKeepsGood(Abs(), Begin(owner, lease));
      var newest := MaxSequence(rows, owner);
      RowsOfOthers(rows, owner);
      snapshot := Snapshot(owner, lease, newest, if owner in summaries then summaries[owner] else 0);
      leases := leases[lease := snapshot];
    }

    method ReleaseSnapshot(snapshot: Snapshot)
      requires Valid()
      modifies this
      ensures Valid() && Abs() == Released(old(Abs()), snapshot)
    {
      StepKeepsGood(Abs(), Release(snapshot));
      if snapshot.lease in leases && leases[snapshot.lease] == snapshot { leases := leases - {snapshot.lease}; }
    }

    /** The page of the rows as they are, whether the lease still lives or not, from at most one header
        more than it may scan. `taken` tells which content was pruned after the headers were read. */
    method QueryPage(snapshot: Snapshot, before: nat, asked: Limits, taken: string -> bool) returns (page: Page)
      requires Valid()
      ensures page == AsRead(PageFor(Newest(LogOf(Abs(), snapshot.owner), snapshot.watermark, before), Clamped(asked, limits)), taken)
    {
      var list := Query(rows, snapshot.owner, snapshot.watermark, before);
      QueryIsNewest(rows, snapshot.owner, snapshot.watermark, before);
      RowsOfOthers(rows, snapshot.owner);
      page := ScanHeaders(list, Clamped(asked, limits), taken);
    }

    /** The same page as the in-memory store's, but for content that was pruned meanwhile. */
    method ReadSnapshot(snapshot: Snapshot, before: nat, asked: Limits, taken: string -> bool) returns (page: Option<Page>)
      requires Valid()
      ensures page == if Live(Abs(), snapshot)
                      then Some(AsRead(PageFor(Newest(LogOf(Abs(), snapshot.owner), snapshot.watermark, before), Clamped(asked, limits)), taken))
                      else None
    {
      if !(snapshot.lease in leases && leases[snapshot.lease] == snapshot) { return None; }
      var p := QueryPage(snapshot, before, asked, taken);
      page := Some(p);
    }
  }

  /** A source as its content is found when it is read after its header. */
  function Content(s: Source, taken: string -> bool): Source { if taken(s.id) then s.(pruned := true) else s }

  function Contents(list: Log, taken: string -> bool): Log { seq(|list|, i requires 0 <= i < |list| => Content(list[i], taken)) }

  /** The page with the content its sources have by then; counts, cursor and diagnostics are the headers'. */
  function AsRead(p: Page, taken: string -> bool): Page { p.(sources := Contents(p.sources, taken)) }

  /** Without a prune in between the page is what the headers promised. */
  lemma NothingTaken(p: Page, taken: string -> bool)
    requires forall s | s in p.sources :: !taken(s.id)
    ensures AsRead(p, taken) == p
  {
    assert Contents(p.sources, taken) == p.sources;
  }

  /** While the lease lives, the content of everything it shows is found as it was. */
  lemma LeaseKeepsContent(st: State, events: seq<Event>, snapshot: Snapshot, s: Source)
    requires Good(st) && Between(st, events, snapshot) && s in View(st, snapshot)
    ensures s in LogOf(After(st, events), snapshot.owner)
  {
    RunKeepsView(st, events, snapshot);
    NewestMembers(LogOf(After(st, events), snapshot.owner), snapshot.watermark, 0);
  }

  lemma AdvanceAsRead(p: Page, h: Source, within: Limits, taken: string -> bool)
    ensures AsRead(Advance(p, h, within), taken) ==
            if Returned(h, within.bytes)
            then AsRead(p, taken).(scanned := p.scanned + 1, nextBefore := h.sequence, bytes := p.bytes + h.bytes,
                                   sources := Contents(p.sources, taken) + [Content(h, taken)])
            else Advance(AsRead(p, taken), h, within)
  {
    assert Contents(p.sources + [h], taken) == Contents(p.sources, taken) + [Content(h, taken)];
  }

  /** Scans one header: it is diagnosed when pruned or too large, and its content is read otherwise. */
  method TakeHeader(p: Page, h: Source, within: Limits, taken: string -> bool, ghost plain: Page) returns (next: Page)
    requires p == AsRead(plain, taken)
    ensures next == AsRead(Advance(plain, h, within), taken)
  {
    AdvanceAsRead(plain, h, within, taken);
    next := p.(scanned := p.scanned + 1, nextBefore := h.sequence);
    if h.pruned {
      next := next.(diagnostics := next.diagnostics + ["source_pruned"]);
      return;
    }
    if h.bytes > within.bytes {
      next := next.(diagnostics := next.diagnostics + ["history_source_exceeds_page_bytes"]);
      return;
    }
    var source := Content(h, taken);
    next := next.(sources := next.sources + [source], bytes := next.bytes + source.bytes);
  }

  method ScanHeaders(list: Log, within: Limits, taken: string -> bool) returns (p: Page)
    requires within.records > 0 && within.bytes > 0
    ensures p == AsRead(PageFor(list, within), taken)
  {
    var headers := Take(list, within.records + 1);
    p := NoPage;
    ghost var plain := NoPage;
    assert list[..0] == [];
    for i := 0 to |headers|
      invariant ScannedUpTo(list, within, plain, i) && p == AsRead(plain, taken)
    {
      var h := headers[i];
      assert list[i] == h;
      if i >= within.records || (!h.pruned && h.bytes <= within.bytes && p.bytes + h.bytes > within.bytes) {
        StoppedPage(list, within, plain, i);
        PageContract(list, within, plain.(more := true));
        return p.(more := true);
      }
      AdvanceScans(list, within, plain, i);
      p := TakeHeader(p, h, within, taken, plain);
      plain := Advance(plain, h, within);
    }
    StoppedPage(list, within, plain, |headers|);
    PageContract(list, within, plain);
  }

  lemma {:induction false} RowsOfMembers(rows: Log, owner: Key)
    ensures forall s :: s in RowsOf(rows, owner) <==> s in rows && s.owner == owner
  {
    if rows != [] {
      var n := |rows| - 1;
      RowsOfMembers(rows[..n], owner);
      forall s ensures s in rows <==> s in rows[..n] || s == rows[n] { assert rows == rows[..n] + [rows[n]]; }
    }
  }

  lemma RowsOfOthers(rows: Log, owner: Key)
    ensures owner !in Owners(rows) ==> RowsOf(rows, owner) == []
  {
    RowsOfMembers(rows, owner);
    if RowsOf(rows, owner) != [] { assert RowsOf(rows, owner)[0] in rows; }
  }

  lemma RowsBelow(rows: Log, i: nat, owner: Key)
    requires Ascending(rows) && i < |rows|
    ensures Top(RowsOf(rows[..i], owner)) < rows[i].sequence || RowsOf(rows[..i], owner) == []
  {
    RowsOfMembers(rows[..i], owner);
    var mine := RowsOf(rows[..i], owner);
    if mine != [] {
      assert mine[|mine| - 1] in rows[..i];
      var k :| 0 <= k < i && rows[..i][k] == mine[|mine| - 1];
      assert rows[k].sequence < rows[i].sequence;
    }
  }

  lemma RowIsKnown(rows: Log, st: State, s: Source)
    requires s in rows && st.logs == RowLogs(rows)
    ensures Known(st, s.id)
  {
    RowsOfMembers(rows, s.owner);
    assert s.owner in Owners(rows);
    assert HasId(st.logs[s.owner], s.id);
  }

  lemma NoRowIsUnknown(rows: Log, st: State, id: string)
    requires (forall s | s in rows :: s.id != id) && st.logs == RowLogs(rows)
    ensures !Known(st, id)
  {
    forall owner | owner in st.logs ensures !HasId(st.logs[owner], id) { RowsOfMembers(rows, owner); }
  }

  lemma AppendRow(rows: Log, s: Source)
    ensures RowLogs(rows + [s]) == RowLogs(rows)[s.owner := (if s.owner in RowLogs(rows) then RowLogs(rows)[s.owner] else []) + [s]]
  {
    var before, after := RowLogs(rows), RowLogs(rows + [s]);
    var expected := before[s.owner := (if s.owner in before then before[s.owner] else []) + [s]];
    assert (rows + [s])[..|rows|] == rows;
    assert Owners(rows + [s]) == Owners(rows) + {s.owner};
    RowsOfOthers(rows, s.owner);
    forall owner | owner in after ensures owner in expected && after[owner] == expected[owner] {
      assert after[owner] == RowsOf(rows, owner) + (if s.owner == owner then [s] else []);
    }
    assert after.Keys == expected.Keys;
  }

  lemma AppendRowAscends(rows: Log, s: Source, world: World)
    requires Ascending(rows) && OfWorld(rows, world) && s.owner.world == world && s.sequence > Top(rows)
    ensures Ascending(rows + [s]) && OfWorld(rows + [s], world)
  {
    forall i | 0 <= i < |rows| ensures rows[i].sequence < s.sequence {
      if i < |rows| - 1 { assert rows[i].sequence < rows[|rows| - 1].sequence; }
    }
  }

  /** On the same log and limits the two stores give the same page, or neither gives one; the table's shows
      as pruned what was taken while it was being read. */
  method PagesAgree(m: MemoryStore, t: TableStore, snapshot: Snapshot, before: nat, asked: Limits, taken: string -> bool)
    returns (ofMemory: Option<Page>, ofTable: Option<Page>)
    requires m.Valid() && t.Valid() && m.Abs() == t.Abs() && m.limits == t.limits
    ensures ofTable == if ofMemory.Some? then Some(AsRead(ofMemory.value, taken)) else None
    ensures (forall id :: !taken(id)) ==> ofMemory == ofTable
    ensures ofMemory.Some? <==> Live(m.Abs(), snapshot)
    ensures ofMemory.Some? ==>
              PageOf(Newest(LogOf(m.Abs(), snapshot.owner), snapshot.watermark, before), Clamped(asked, m.limits), ofMemory.value)
  {
    ofMemory := m.ReadSnapshot(snapshot, before, asked);
    ofTable := t.ReadSnapshot(snapshot, before, asked, taken);
    ghost var list := Newest(LogOf(m.Abs(), snapshot.owner), snapshot.watermark, before);
    PageContract(list, Clamped(asked, m.limits), PageFor(list, Clamped(asked, m.limits)));
    if ofMemory.Some? && forall id :: !taken(id) { NothingTaken(ofMemory.value, taken); }
  }
}

/** Pruning of the history table: which sources lose their content, within which budget, and what the
    caller may rely on in the result.

    What the summary store reads, the sizes of rows in bytes, and failures of the database or of the
    deadline are arbitrary. */
module Prune {
  import opened Wrappers
  import opened Numbers
  import opened HistoryLog
  import G = GameTime
  import S = HistoryStores

  datatype Ref = Ref(sequence: nat, fingerprint: string)

  datatype Checkpoint = Checkpoint(times: seq<G.Time>, refs: map<string, Ref>)

  /** What reading the current summary gave: an error, an unproven coverage, or at most one checkpoint. */
  datatype SummaryRead = SummaryRead(failed: bool, unproven: bool, checkpoint: Option<Checkpoint>, bytes: nat)

  datatype Budget = Budget(sources: int, bytes: int)

  datatype Request = Request(owner: Key, after: int, retentionDays: int, cutoff: int, now: G.Time, keepRecent: int, limits: Budget)

  /** Sizes in bytes of what a query reads of a row: its header with times, its bare header, all of it. */
  datatype Sizes = Sizes(timed: Source -> nat, bare: Source -> nat, whole: Source -> nat)

  datatype Result = Result(processed: int, bytes: int, readSources: int, readBytes: int, ids: seq<string>, nextAfter: int, more: bool)

  const DEFAULT_TAIL := 20000
  const DEFAULT_SCAN := 512

  // ---------------------------------------------------------------- the retained tail

  /** `... WHERE owner AND available ORDER BY sequence DESC`. */
  function Heads(rows: Log, owner: Key): Log {
    if rows == [] then []
    else
      var n := |rows| - 1;
      (if rows[n].owner == owner && !rows[n].pruned then [rows[n]] else []) + Heads(rows[..n], owner)
  }

  predicate Shown(s: Source, now: G.Time) { G.Visible(s.times, now) }

  predicate Unknown(s: Source, now: G.Time) { G.UnknownTime(s.times, now) }

  function VisibleIds(list: Log, now: G.Time): set<string> { set s | s in list && Shown(s, now) :: s.id }

  function Tokens(list: Log, now: G.Time): nat {
    if list == [] then 0
    else Tokens(list[..|list| - 1], now) + (if Shown(list[|list| - 1], now) then list[|list| - 1].bytes / 4 else 0)
  }

  /** The shortest newest-first run of available sources whose visible ones reach the target, or all of
      them; none of its times is unknown, and it holds the visible ones. */
  ghost predicate Tail(heads: Log, now: G.Time, target: int, tail: set<string>) {
    exists k :: 0 <= k <= |heads| && TailOf(heads, now, target, tail, k)
  }

  ghost predicate TailOf(heads: Log, now: G.Time, target: int, tail: set<string>, k: int)
    requires 0 <= k <= |heads|
  {
    && tail == VisibleIds(heads[..k], now)
    && (forall s | s in heads[..k] :: !Unknown(s, now))
    && (k == |heads| || Tokens(heads[..k], now) >= target)
    && (forall j | 0 < j < k :: Tokens(heads[..j], now) < target)
  }

  function TimedBytes(list: Log, sizes: Sizes): nat { if list == [] then 0 else TimedBytes(list[..|list| - 1], sizes) + sizes.timed(list[|list| - 1]) }

  /** How many of the newest available sources it takes for the visible ones to reach the target. */
  function TailLength(heads: Log, now: G.Time, target: int, k: nat): (length: nat)
    requires k <= |heads|
    ensures k <= length <= |heads|
    decreases |heads| - k
  {
    if k == |heads| || Tokens(heads[..k], now) >= target then k else TailLength(heads, now, target, k + 1)
  }

  function MaxHeads(scanRecords: nat): nat { Min(scanRecords, DEFAULT_SCAN) }

  /** The visible sources of that stretch. */
  function TailIds(heads: Log, now: G.Time, target: int): set<string> { VisibleIds(heads[..TailLength(heads, now, target, 0)], now) }

  /** The stretch is within the scan limit, every time in it compares, and nothing fails while it is read. */
  predicate TailFits(heads: Log, now: G.Time, target: int, maxHeads: nat, failing: nat -> bool) {
    TailLength(heads, now, target, 0) <= maxHeads && Comparable(heads, now, TailLength(heads, now, target, 0), failing)
  }

  predicate Comparable(heads: Log, now: G.Time, k: nat, failing: nat -> bool)
    requires k <= |heads|
  {
    forall j: nat | j < k :: !Unknown(heads[j], now) && !failing(j)
  }

  ghost predicate FailsSomewhere(failing: nat -> bool) { exists i: nat :: failing(i) }

  /** A proven tail. */
  ghost predicate ProvenTail(heads: Log, now: G.Time, target: int, maxHeads: nat, failing: nat -> bool, tail: set<string>) {
    Tail(heads, now, target, tail) && TailFits(heads, now, target, maxHeads, failing) && tail == TailIds(heads, now, target)
  }

  /** What reading the heads of the tail costs. */
  function TailBytes(rows: Log, owner: Key, scanRecords: nat, sizes: Sizes): nat {
    TimedBytes(S.Take(Heads(rows, owner), MaxHeads(scanRecords) + 1), sizes)
  }

  /** Reads the retained tail. `failing` tells at which head the deadline or the database fails. */
  method RetentionTail(rows: Log, owner: Key, now: G.Time, keepRecent: int, scanRecords: nat, byteLimit: int, sizes: Sizes, failing: nat -> bool)
    returns (tail: set<string>, size: nat, proven: bool, failed: bool)
    ensures size > 0 ==> size <= byteLimit
    ensures proven <==> TailBytes(rows, owner, scanRecords, sizes) <= byteLimit
                        && TailFits(Heads(rows, owner), now, Target(keepRecent), MaxHeads(scanRecords), failing)
    ensures proven ==> !failed && size == TailBytes(rows, owner, scanRecords, sizes)
                       && ProvenTail(Heads(rows, owner), now, Target(keepRecent), MaxHeads(scanRecords), failing, tail)
    ensures failed ==> FailsSomewhere(failing)
  {
    var all, maxHeads := Heads(rows, owner), MaxHeads(scanRecords);
    size := TimedBytes(S.Take(all, maxHeads + 1), sizes);
    if size > byteLimit { return {}, 0, false, false; }
    tail, proven, failed := ScanTail(all, now, Target(keepRecent), maxHeads, failing);
  }

  method ScanTail(all: Log, now: G.Time, target: int, maxHeads: nat, failing: nat -> bool) returns (tail: set<string>, proven: bool, failed: bool)
    requires target > 0
    ensures proven <==> TailFits(all, now, target, maxHeads, failing)
    ensures proven ==> !failed && ProvenTail(all, now, target, maxHeads, failing, tail)
    ensures failed ==> FailsSomewhere(failing)
  {
    tail := {};
    var tokens: nat := 0;
    var heads := S.Take(all, maxHeads + 1);
    assert all[..0] == [];
    for i := 0 to |heads|
      invariant i <= maxHeads && Scanning(all, now, target, tail, tokens, i, failing)
    {
      var h := heads[i];
      assert h == all[i];
      var visible, unknown := G.HistoryVisibility(h.times, now);
      if failing(i) || i >= maxHeads || unknown {
        StopsShort(all, now, target, maxHeads, tail, tokens, i, failing);
        return {}, false, failing(i);
      }
      ScanStep(all, now, target, tail, tokens, i, failing);
      if !visible { continue; }
      tail, tokens := tail + {h.id}, tokens + h.bytes / 4;
      if tokens >= target {
        ScanReaches(all, now, target, maxHeads, tail, tokens, i + 1, failing);
        return tail, true, false;
      }
    }
    ScanReaches(all, now, target, maxHeads, tail, tokens, |all|, failing);
    return tail, true, false;
  }

  /** What the scan knows after `k` heads. */
  ghost predicate Scanned(heads: Log, now: G.Time, tail: set<string>, tokens: nat, k: nat, failing: nat -> bool) {
    && k <= |heads| && tail == VisibleIds(heads[..k], now) && tokens == Tokens(heads[..k], now)
    && Comparable(heads, now, k, failing)
  }

  /** None of the first `k` stretches reached the target. */
  ghost predicate Short(heads: Log, now: G.Time, target: int, k: nat)
    requires k <= |heads|
  {
    forall j | 0 < j <= k :: Tokens(heads[..j], now) < target
  }

  ghost predicate Scanning(heads: Log, now: G.Time, target: int, tail: set<string>, tokens: nat, k: nat, failing: nat -> bool) {
    Scanned(heads, now, tail, tokens, k, failing) && Short(heads, now, target, k)
  }

  lemma ScanStep(heads: Log, now: G.Time, target: int, tail: set<string>, tokens: nat, k: nat, failing: nat -> bool)
    requires Scanning(heads, now, target, tail, tokens, k, failing) && k < |heads| && !Unknown(heads[k], now) && !failing(k)
    ensures var (seen, sum) := if Shown(heads[k], now) then (tail + {heads[k].id}, tokens + heads[k].bytes / 4) else (tail, tokens);
            && Scanned(heads, now, seen, sum, k + 1, failing)
            && (sum < target ==> Scanning(heads, now, target, seen, sum, k + 1, failing))
    ensures !Shown(heads[k], now) && target > 0 ==> tokens < target
  {
    GrowTail(heads, k, now);
    assert heads[..0] == [];
    if !Shown(heads[k], now) { assert VisibleIds(heads[..k + 1], now) == tail; }
  }

  /** A scan ends with the retained tail. */
  lemma ScanReaches(heads: Log, now: G.Time, target: int, maxHeads: nat, tail: set<string>, tokens: nat, k: nat, failing: nat -> bool)
    requires Scanned(heads, now, tail, tokens, k, failing) && 0 < target && k <= maxHeads
    requires (k > 0 ==> Short(heads, now, target, k - 1)) && (k == |heads| || tokens >= target)
    ensures ProvenTail(heads, now, target, maxHeads, failing, tail)
  {
    LengthFrom(heads, now, target, k);
    assert heads[..|heads|] == heads;
    forall s | s in heads[..k] ensures !Unknown(s, now) {
      var j :| 0 <= j < k && heads[j] == s;
    }
    assert TailOf(heads, now, target, tail, k);
  }

  /** A scan that is cut off has not reached the end of the tail. */
  lemma StopsShort(heads: Log, now: G.Time, target: int, maxHeads: nat, tail: set<string>, tokens: nat, k: nat, failing: nat -> bool)
    requires Scanning(heads, now, target, tail, tokens, k, failing) && k < |heads| && target > 0
    requires failing(k) || k >= maxHeads || Unknown(heads[k], now)
    ensures !TailFits(heads, now, target, maxHeads, failing)
  {
    LengthFrom(heads, now, target, k + 1);
    assert k < TailLength(heads, now, target, 0);
  }

  /** The stretch goes on for as long as the tokens stay below the target. */
  lemma {:induction false} LengthFrom(heads: Log, now: G.Time, target: int, k: nat)
    requires k <= |heads| && target > 0 && (k > 0 ==> Short(heads, now, target, k - 1))
    ensures TailLength(heads, now, target, 0) == TailLength(heads, now, target, k)
  {
    if k > 0 {
      LengthFrom(heads, now, target, k - 1);
      assert heads[..0] == [];
    }
  }

  function Target(keepRecent: int): int { if keepRecent <= 0 then DEFAULT_TAIL else keepRecent }

  lemma GrowTail(heads: Log, i: nat, now: G.Time)
    requires i < |heads|
    ensures VisibleIds(heads[..i + 1], now) == VisibleIds(heads[..i], now) + (if Shown(heads[i], now) then {heads[i].id} else {})
    ensures Tokens(heads[..i + 1], now) == Tokens(heads[..i], now) + (if Shown(heads[i], now) then heads[i].bytes / 4 else 0)
    ensures forall s | s in heads[..i + 1] :: s in heads[..i] || s == heads[i]
  {
    assert heads[..i + 1][..i] == heads[..i];
    assert heads[..i + 1] == heads[..i] + [heads[i]];
  }

  // ---------------------------------------------------------------- candidates

  predicate OldEnough(s: Source, owner: Key, cutoff: int, after: int) {
    s.owner == owner && !s.pruned && s.created < cutoff && s.sequence > after
  }

  /** `... WHERE owner AND available AND created_at < cutoff AND sequence > after ORDER BY sequence`. */
  function Candidates(rows: Log, owner: Key, cutoff: int, after: int): Log {
    if rows == [] then []
    else
      var n := |rows| - 1;
      Candidates(rows[..n], owner, cutoff, after) + (if OldEnough(rows[n], owner, cutoff, after) then [rows[n]] else [])
  }

  lemma {:induction false} CandidatesAscend(rows: Log, owner: Key, cutoff: int, after: int)
    requires Ascending(rows)
    ensures Ascending(Candidates(rows, owner, cutoff, after))
    ensures forall s :: s in Candidates(rows, owner, cutoff, after) <==> s in rows && OldEnough(s, owner, cutoff, after)
  {
    if rows != [] {
      var n := |rows| - 1;
      var rest := Candidates(rows[..n], owner, cutoff, after);
      CandidatesAscend(rows[..n], owner, cutoff, after);
      forall s ensures s in rows <==> s in rows[..n] || s == rows[n] { assert rows == rows[..n] + [rows[n]]; }
      forall i | 0 <= i < |rest| ensures rest[i].sequence < rows[n].sequence {
        assert rest[i] in rest;
        var k :| 0 <= k < n && rows[..n][k] == rest[i];
        assert rows[k].sequence < rows[n].sequence;
      }
    }
  }

  function BareBytes(list: Log, sizes: Sizes): nat { if list == [] then 0 else BareBytes(list[..|list| - 1], sizes) + sizes.bare(list[|list| - 1]) }

  predicate LeasedAt(leases: map<string, Snapshot>, owner: Key, sequence: nat) {
    exists lease | lease in leases :: leases[lease].owner == owner && sequence <= leases[lease].watermark
  }

  /** What decides about a source: the summary's references, the retained tail, the owner's newest
      sequence, the leases and the time. */
  datatype Rules = Rules(refs: map<string, Ref>, tail: set<string>, newest: nat, leases: map<string, Snapshot>, owner: Key, now: G.Time)

  /** Whether a source may be pruned, apart from the byte budget. */
  predicate Prunable(s: Source, rules: Rules) {
    && s.id in rules.refs && s.id !in rules.tail && s.sequence != rules.newest && !LeasedAt(rules.leases, rules.owner, s.sequence)
    && Shown(s, rules.now) && !Unknown(s, rules.now)
  }

  /** Kept without being read: not covered, part of the tail, the newest, or needed by a snapshot. */
  predicate Barred(s: Source, rules: Rules) {
    s.id !in rules.refs || s.id in rules.tail || s.sequence == rules.newest || LeasedAt(rules.leases, rules.owner, s.sequence)
  }

  /** The bytes read once `i` candidates are worked off without an error. */
  function ReadBy(start: int, list: Log, i: nat, rules: Rules, limit: int, sizes: Sizes): int
    requires i <= |list|
  {
    if i == 0 then start
    else
      var used := ReadBy(start, list, i - 1, rules, limit, sizes);
      if Barred(list[i - 1], rules) || sizes.whole(list[i - 1]) > limit - used then used else used + sizes.whole(list[i - 1])
  }

  /** A candidate is read whose content is not the one the summary covers. */
  predicate Conflicts(start: int, list: Log, i: nat, rules: Rules, limit: int, sizes: Sizes)
    requires i < |list|
  {
    && !Barred(list[i], rules) && sizes.whole(list[i]) <= limit - ReadBy(start, list, i, rules, limit, sizes)
    && !Matches(list[i], rules.refs)
  }

  /** The first `done` candidates are worked off without a failure or a conflict. */
  predicate Smooth(start: int, list: Log, done: nat, rules: Rules, limit: int, sizes: Sizes, failing: nat -> bool)
    requires done <= |list|
  {
    forall i: nat | i < done :: !failing(i) && !Conflicts(start, list, i, rules, limit, sizes)
  }

  predicate Matches(s: Source, refs: map<string, Ref>) { s.id in refs && refs[s.id] == Ref(s.sequence, s.fingerprint) }

  // ---------------------------------------------------------------- the result

  /** The test the caller applies to any maintenance result. */
  predicate ValidResult(r: Result, after: int, limits: Budget) {
    if r.processed < 0 || r.bytes < 0 || r.readSources < 0 || r.readBytes < 0
       || r.processed > limits.sources || r.readSources > limits.sources || r.bytes > limits.bytes || r.readBytes > limits.bytes
       || |r.ids| > r.processed || r.nextAfter < 0 then false
    else if r.processed > 0 then r.nextAfter > after
    else !r.more && (r.nextAfter == 0 || r.nextAfter == after)
  }

  /** The counters while candidates are worked off. */
  predicate Counted(r: Result, limits: Budget, done: int) {
    && r.processed == done <= limits.sources && 0 <= r.readSources <= done && |r.ids| <= done
    && 0 <= r.bytes <= r.readBytes <= limits.bytes
  }

  /** Only prunable candidates that the summary names with their own sequence and content were pruned. */
  ghost predicate Allowed(ids: seq<string>, list: Log, done: nat, rules: Rules)
    requires done <= |list|
  {
    forall id | id in ids :: exists k :: 0 <= k < done && list[k].id == id && Prunable(list[k], rules) && Matches(list[k], rules.refs)
  }

  /** A prunable candidate was left only when reading it would not fit what is left of the budget. */
  predicate Thorough(r: Result, list: Log, done: nat, rules: Rules, limits: Budget, sizes: Sizes)
    requires done <= |list|
  {
    forall k | 0 <= k < done && Prunable(list[k], rules) :: list[k].id in r.ids || sizes.whole(list[k]) > limits.bytes - r.readBytes
  }

  predicate Sized(rows: Log, sizes: Sizes) { forall s | s in rows :: sizes.whole(s) >= s.bytes }

  function IdSet(ids: seq<string>): set<string> { set id | id in ids }

  /** The state of the candidate loop. */
  ghost predicate Working(r: Result, start: Result, list: Log, done: nat, rules: Rules, limits: Budget, sizes: Sizes) {
    && done <= |list| && Counted(r, limits, done) && !r.more
    && r.nextAfter == (if done == 0 then start.nextAfter else list[done - 1].sequence)
    && Allowed(r.ids, list, done, rules) && Thorough(r, list, done, rules, limits, sizes)
  }

  function Seen(r: Result, s: Source): Result { r.(processed := r.processed + 1, nextAfter := s.sequence) }

  lemma SkipKeeps(r: Result, start: Result, list: Log, done: nat, rules: Rules, limits: Budget, sizes: Sizes)
    requires Working(r, start, list, done, rules, limits, sizes) && done < |list| && done < limits.sources
    requires Prunable(list[done], rules) ==> sizes.whole(list[done]) > limits.bytes - r.readBytes
    ensures Working(Seen(r, list[done]), start, list, done + 1, rules, limits, sizes)
  {
    AllowedGrows(r.ids, list, done, rules);
  }

  lemma AllowedGrows(ids: seq<string>, list: Log, done: nat, rules: Rules)
    requires done < |list| && Allowed(ids, list, done, rules)
    ensures Allowed(ids, list, done + 1, rules)
  {
  }

  /** Reading a candidate uses its size of the budget; when it is pruned its id and bytes are reported. */
  function Taken(r: Result, s: Source, sizes: Sizes): Result {
    var seen := Seen(r, s);
    seen.(readBytes := r.readBytes + sizes.whole(s), readSources := r.readSources + 1)
  }

  lemma ReadKeeps(r: Result, start: Result, list: Log, done: nat, rules: Rules, limits: Budget, sizes: Sizes)
    requires Working(r, start, list, done, rules, limits, sizes) && done < |list| && done < limits.sources
    requires sizes.whole(list[done]) <= limits.bytes - r.readBytes && !Prunable(list[done], rules)
    ensures Working(Taken(r, list[done], sizes), start, list, done + 1, rules, limits, sizes)
  {
    AllowedGrows(r.ids, list, done, rules);
  }

  lemma PruneKeeps(r: Result, start: Result, list: Log, done: nat, rules: Rules, limits: Budget, sizes: Sizes)
    requires Working(r, start, list, done, rules, limits, sizes) && done < |list| && done < limits.sources
    requires list[done].bytes <= sizes.whole(list[done]) <= limits.bytes - r.readBytes
    requires Prunable(list[done], rules) && Matches(list[done], rules.refs)
    ensures var next := Taken(r, list[done], sizes);
            Working(next.(ids := r.ids + [list[done].id], bytes := r.bytes + list[done].bytes), start, list, done + 1, rules, limits, sizes)
  {
    AllowedGrows(r.ids, list, done, rules);
    var s := list[done];
    forall id | id in r.ids + [s.id]
      ensures exists k :: 0 <= k < done + 1 && list[k].id == id && Prunable(list[k], rules) && Matches(list[k], rules.refs)
    {
      if id == s.id { assert list[done].id == id; } else { assert id in r.ids; }
    }
  }

  lemma MarkMore(rows: Log, ids: seq<string>, id: string)
    ensures Mark(Mark(rows, IdSet(ids)), {id}) == Mark(rows, IdSet(ids + [id]))
  {
    assert IdSet(ids + [id]) == IdSet(ids) + {id};
  }

  ghost predicate Tracked(used: int, start: int, list: Log, i: nat, rules: Rules, limit: int, sizes: Sizes, failing: nat -> bool) {
    i <= |list| && used == ReadBy(start, list, i, rules, limit, sizes) && Smooth(start, list, i, rules, limit, sizes, failing)
  }

  lemma TrackStep(used: int, start: int, list: Log, i: nat, rules: Rules, limit: int, sizes: Sizes, failing: nat -> bool)
    requires Tracked(used, start, list, i, rules, limit, sizes, failing) && i < |list| && !failing(i)
    ensures Barred(list[i], rules) || sizes.whole(list[i]) > limit - used ==> Tracked(used, start, list, i + 1, rules, limit, sizes, failing)
    ensures !Barred(list[i], rules) && sizes.whole(list[i]) <= limit - used && Matches(list[i], rules.refs) ==>
              Tracked(used + sizes.whole(list[i]), start, list, i + 1, rules, limit, sizes, failing)
  {
  }

  lemma TrackEnds(used: int, start: int, list: Log, i: nat, rules: Rules, limits: Budget, sizes: Sizes, failing: nat -> bool)
    requires Tracked(used, start, list, i, rules, limits.bytes, sizes, failing) && i < |list| && i < limits.sources
    requires failing(i) || (!Barred(list[i], rules) && sizes.whole(list[i]) <= limits.bytes - used && !Matches(list[i], rules.refs))
    ensures !Smooth(start, list, Min(|list|, limits.sources), rules, limits.bytes, sizes, failing)
  {
    assert failing(i) || Conflicts(start, list, i, rules, limits.bytes, sizes);
  }

  /** The loop after `i` candidates: what is reported, what the draft holds, and what was read. */
  ghost predicate Going(r: Result, draft: Log, rows: Log, start: Result, list: Log, i: nat, rules: Rules, limits: Budget, sizes: Sizes, failing: nat -> bool) {
    && Working(r, start, list, i, rules, limits, sizes) && draft == Mark(rows, IdSet(r.ids))
    && Tracked(r.readBytes, start.readBytes, list, i, rules, limits.bytes, sizes, failing)
  }

  lemma SkipGoes(r: Result, draft: Log, rows: Log, start: Result, list: Log, i: nat, rules: Rules, limits: Budget, sizes: Sizes, failing: nat -> bool)
    requires Going(r, draft, rows, start, list, i, rules, limits, sizes, failing) && i < |list| && i < limits.sources && !failing(i)
    requires Barred(list[i], rules) || sizes.whole(list[i]) > limits.bytes - r.readBytes
    ensures Going(Seen(r, list[i]), draft, rows, start, list, i + 1, rules, limits, sizes, failing)
  {
    SkipKeeps(r, start, list, i, rules, limits, sizes);
    TrackStep(r.readBytes, start.readBytes, list, i, rules, limits.bytes, sizes, failing);
  }

  predicate Read(r: Result, list: Log, i: nat, rules: Rules, limits: Budget, sizes: Sizes) {
    && i < |list| && i < limits.sources && !Barred(list[i], rules) && list[i].bytes <= sizes.whole(list[i]) <= limits.bytes - r.readBytes
    && Matches(list[i], rules.refs)
  }

  lemma ReadGoes(r: Result, draft: Log, rows: Log, start: Result, list: Log, i: nat, rules: Rules, limits: Budget, sizes: Sizes, failing: nat -> bool)
    requires Going(r, draft, rows, start, list, i, rules, limits, sizes, failing) && Read(r, list, i, rules, limits, sizes) && !failing(i)
    requires !Prunable(list[i], rules)
    ensures Going(Taken(r, list[i], sizes), draft, rows, start, list, i + 1, rules, limits, sizes, failing)
  {
    ReadKeeps(r, start, list, i, rules, limits, sizes);
    TrackStep(r.readBytes, start.readBytes, list, i, rules, limits.bytes, sizes, failing);
  }

  lemma PruneGoes(r: Result, draft: Log, rows: Log, start: Result, list: Log, i: nat, rules: Rules, limits: Budget, sizes: Sizes, failing: nat -> bool)
    requires Going(r, draft, rows, start, list, i, rules, limits, sizes, failing) && Read(r, list, i, rules, limits, sizes) && !failing(i)
    requires Prunable(list[i], rules)
    ensures Going(Taken(r, list[i], sizes).(ids := r.ids + [list[i].id], bytes := r.bytes + list[i].bytes), Mark(draft, {list[i].id}),
                  rows, start, list, i + 1, rules, limits, sizes, failing)
  {
    PruneKeeps(r, start, list, i, rules, limits, sizes);
    MarkMore(rows, r.ids, list[i].id);
    TrackStep(r.readBytes, start.readBytes, list, i, rules, limits.bytes, sizes, failing);
  }

  /** The round breaks off at a failure or a conflict. */
  lemma RoundBreaks(r: Result, draft: Log, rows: Log, start: Result, list: Log, i: nat, rules: Rules, limits: Budget, sizes: Sizes, failing: nat -> bool)
    requires Going(r, draft, rows, start, list, i, rules, limits, sizes, failing) && i < |list| && i < limits.sources
    requires failing(i) || (!Barred(list[i], rules) && sizes.whole(list[i]) <= limits.bytes - r.readBytes && !Matches(list[i], rules.refs))
    ensures !Smooth(start.readBytes, list, Min(|list|, limits.sources), rules, limits.bytes, sizes, failing)
    ensures !r.more && 0 <= r.readBytes <= limits.bytes && 0 <= r.readSources < limits.sources
  {
    TrackEnds(r.readBytes, start.readBytes, list, i, rules, limits, sizes, failing);
  }

  /** Works off one candidate. */
  method WorkOff(r: Result, draft: Log, ghost rows: Log, ghost list: Log, c: Source, i: nat, ghost start: Result,
                 rules: Rules, limits: Budget, sizes: Sizes, failing: nat -> bool)
    returns (next: Result, marked: Log, ok: bool)
    requires i < |list| && i < limits.sources && c == list[i] && c.bytes <= sizes.whole(c)
    requires Going(r, draft, rows, start, list, i, rules, limits, sizes, failing)
    ensures ok ==> Going(next, marked, rows, start, list, i + 1, rules, limits, sizes, failing)
    ensures !ok ==> !Smooth(start.readBytes, list, Min(|list|, limits.sources), rules, limits.bytes, sizes, failing)
    ensures !ok ==> !next.more && 0 <= next.readBytes <= limits.bytes && 0 <= next.readSources <= limits.sources
  {
    next, marked, ok := r, draft, true;
    if failing(i) {
      RoundBreaks(r, draft, rows, start, list, i, rules, limits, sizes, failing);
      return r, draft, false;
    }
    if c.id !in rules.refs || c.id in rules.tail || c.sequence == rules.newest || LeasedAt(rules.leases, rules.owner, c.sequence) {
      SkipGoes(r, draft, rows, start, list, i, rules, limits, sizes, failing);
      return Seen(r, c), draft, true;
    }
    if sizes.whole(c) > limits.bytes - r.readBytes {
      SkipGoes(r, draft, rows, start, list, i, rules, limits, sizes, failing);
      return Seen(r, c), draft, true;
    }
    next := Taken(r, c, sizes);
    if rules.refs[c.id] != Ref(c.sequence, c.fingerprint) {
      RoundBreaks(r, draft, rows, start, list, i, rules, limits, sizes, failing);
      return next, draft, false;
    }
    var visible, unknown := G.HistoryVisibility(c.times, rules.now);
    if !visible || unknown {
      ReadGoes(r, draft, rows, start, list, i, rules, limits, sizes, failing);
      return next, draft, true;
    }
    PruneGoes(r, draft, rows, start, list, i, rules, limits, sizes, failing);
    marked := Mark(draft, {c.id});
    next := next.(ids := r.ids + [c.id], bytes := r.bytes + c.bytes);
  }

  /** Works off the candidates in order. `failing` tells at which of them the database or the deadline
      fails. The draft holds the rows as the open transaction sees them. */
  method PruneCandidates(rows: Log, candidates: Log, start: Result, rules: Rules, limits: Budget, sizes: Sizes, failing: nat -> bool)
    returns (r: Result, draft: Log, ok: bool)
    requires limits.sources > 0 && Sized(candidates, sizes)
    requires Working(start, start, candidates, 0, rules, limits, sizes) && start.ids == []
    ensures ok ==> 0 <= r.processed && Working(r.(more := false), start, candidates, r.processed, rules, limits, sizes)
    ensures ok ==> (r.more <==> |candidates| > limits.sources)
    ensures ok ==> r.processed == if r.more then limits.sources else |candidates|
    ensures ok ==> draft == Mark(rows, IdSet(r.ids))
    ensures !ok ==> !r.more
    ensures ok <==> Smooth(start.readBytes, candidates, Min(|candidates|, limits.sources), rules, limits.bytes, sizes, failing)
    ensures 0 <= r.readBytes <= limits.bytes && 0 <= r.readSources <= limits.sources
  {
    r, draft, ok := start, rows, true;
    var heads := S.Take(candidates, limits.sources + 1);
    assert Mark(rows, IdSet([])) == rows;
    for i := 0 to |heads|
      invariant i <= limits.sources && Going(r, draft, rows, start, candidates, i, rules, limits, sizes, failing)
    {
      if i >= limits.sources {
        r := r.(more := true);
        return;
      }
      assert heads[i] == candidates[i];
      r, draft, ok := WorkOff(r, draft, rows, candidates, heads[i], i, start, rules, limits, sizes, failing);
      if !ok { return; }
    }
  }

  // ---------------------------------------------------------------- the table

  lemma RowIdsAreUnique(st: State, rows: Log, a: Source, b: Source)
    requires Good(st) && st.logs == S.RowLogs(rows) && a in rows && b in rows && a.id == b.id
    ensures a.owner == b.owner
  {
    S.RowsOfMembers(rows, a.owner);
    S.RowsOfMembers(rows, b.owner);
    assert a.owner in S.Owners(rows) && b.owner in S.Owners(rows);
    var i :| 0 <= i < |S.RowsOf(rows, a.owner)| && S.RowsOf(rows, a.owner)[i] == a;
    var j :| 0 <= j < |S.RowsOf(rows, b.owner)| && S.RowsOf(rows, b.owner)[j] == b;
    assert SameId(st.logs, a.owner, i, b.owner, j);
  }

  lemma {:induction false} RowsOfMarked(rows: Log, owner: Key, other: Key, ids: set<string>)
    requires forall s | s in rows && s.id in ids :: s.owner == owner
    ensures S.RowsOf(Mark(rows, ids), other) == if other == owner then Mark(S.RowsOf(rows, other), ids) else S.RowsOf(rows, other)
  {
    if rows != [] {
      var n := |rows| - 1;
      assert Mark(rows, ids)[..n] == Mark(rows[..n], ids);
      assert rows[n] in rows;
      RowsOfMarked(rows[..n], owner, other, ids);
    }
  }

  lemma MarkedOwners(rows: Log, ids: set<string>)
    ensures S.Owners(Mark(rows, ids)) == S.Owners(rows)
  {
    var marked := Mark(rows, ids);
    forall o | o in S.Owners(rows) ensures o in S.Owners(marked) {
      var s :| s in rows && s.owner == o;
      var i :| 0 <= i < |rows| && rows[i] == s;
      assert marked[i] in marked && marked[i].owner == o;
    }
    forall o | o in S.Owners(marked) ensures o in S.Owners(rows) {
      var s :| s in marked && s.owner == o;
      var i :| 0 <= i < |rows| && marked[i] == s;
      assert rows[i] in rows;
    }
  }

  lemma MarkedLogs(rows: Log, owner: Key, ids: set<string>)
    requires forall s | s in rows && s.id in ids :: s.owner == owner
    ensures S.RowLogs(Mark(rows, ids)) ==
            if owner in S.RowLogs(rows) then S.RowLogs(rows)[owner := Mark(S.RowLogs(rows)[owner], ids)] else S.RowLogs(rows)
  {
    var before, after := S.RowLogs(rows), S.RowLogs(Mark(rows, ids));
    MarkedOwners(rows, ids);
    var expected := if owner in before then before[owner := Mark(before[owner], ids)] else before;
    forall o | o in after ensures after[o] == expected[o] { RowsOfMarked(rows, owner, o, ids); }
    assert after.Keys == expected.Keys;
  }

  /** Marking rows of one owner is the pruning step of the log. */
  lemma MarkedRows(rows: Log, world: World, leases: map<string, Snapshot>, summaries: map<Key, nat>, revision: nat, owner: Key, ids: set<string>)
    requires forall s | s in rows && s.id in ids :: s.owner == owner
    ensures S.RowState(Mark(rows, ids), world, leases, summaries, revision) ==
            Pruned(S.RowState(rows, world, leases, summaries, revision), owner, ids)
  {
    MarkedLogs(rows, owner, ids);
  }

  lemma MarkedStaysOrdered(rows: Log, world: World, ids: set<string>)
    requires Ascending(rows) && S.OfWorld(rows, world)
    ensures Ascending(Mark(rows, ids)) && S.OfWorld(Mark(rows, ids), world)
  {
    forall s | s in Mark(rows, ids) ensures s.owner.world == world {
      var i :| 0 <= i < |rows| && Mark(rows, ids)[i] == s;
      assert rows[i] in rows;
    }
  }

  /** Why the committed ids may be pruned while snapshots are live. */
  lemma AllowedMayBePruned(st: State, rows: Log, ids: seq<string>, list: Log, done: nat, rules: Rules)
    requires Good(st) && st.logs == S.RowLogs(rows) && st.leases == rules.leases
    requires done <= |list| && Allowed(ids, list, done, rules) && forall s | s in list :: s in rows && s.owner == rules.owner
    ensures May(st, Prune(rules.owner, IdSet(ids)))
    ensures forall s | s in rows && s.id in IdSet(ids) :: s.owner == rules.owner
  {
    forall s | s in rows && s.id in IdSet(ids) ensures s.owner == rules.owner {
      var k :| 0 <= k < done && list[k].id == s.id && Prunable(list[k], rules) && Matches(list[k], rules.refs);
      assert list[k] in list;
      RowIdsAreUnique(st, rows, s, list[k]);
    }
    S.RowsOfMembers(rows, rules.owner);
    forall s, lease | s in LogOf(st, rules.owner) && s.id in IdSet(ids) && lease in st.leases && st.leases[lease].owner == rules.owner
      ensures s.sequence > st.leases[lease].watermark
    {
      var k :| 0 <= k < done && list[k].id == s.id && Prunable(list[k], rules) && Matches(list[k], rules.refs);
      assert list[k] in list && s in rows;
      SameRow(st, rows, s, list[k]);
    }
  }

  lemma SameRow(st: State, rows: Log, a: Source, b: Source)
    requires Good(st) && st.logs == S.RowLogs(rows) && a in rows && b in rows && a.id == b.id
    ensures a == b
  {
    RowIdsAreUnique(st, rows, a, b);
    S.RowsOfMembers(rows, a.owner);
    assert a.owner in S.Owners(rows);
    var i :| 0 <= i < |S.RowsOf(rows, a.owner)| && S.RowsOf(rows, a.owner)[i] == a;
    var j :| 0 <= j < |S.RowsOf(rows, a.owner)| && S.RowsOf(rows, a.owner)[j] == b;
    assert SameId(st.logs, a.owner, i, a.owner, j);
  }

  // ---------------------------------------------------------------- the operation

  /** Where the database or the deadline fails: before the transaction (unusable time limits fail there
      too), at a head of the tail, when the
      candidates are listed, at a candidate, or when committing. */
  datatype Failures = Failures(begin: bool, head: nat -> bool, listing: bool, at: nat -> bool, commit: bool)

  /** Idle calls wrote nothing and processed nothing; a call that worked had a proven tail. */
  datatype Course = Idle | Worked(tail: set<string>)

  predicate Proven(read: SummaryRead, now: G.Time) {
    && !read.failed && !read.unproven && read.checkpoint.Some?
    && G.Visible(read.checkpoint.value.times, now) && !G.UnknownTime(read.checkpoint.value.times, now)
  }

  function RulesFor(read: SummaryRead, tail: set<string>, rows: Log, leases: map<string, Snapshot>, req: Request): Rules
    requires read.checkpoint.Some?
  {
    Rules(read.checkpoint.value.refs, tail, Top(S.RowsOf(rows, req.owner)), leases, req.owner, req.now)
  }

  /** What a successful call that worked did with the candidates. */
  ghost predicate Work(r: Result, rows: Log, leases: map<string, Snapshot>, read: SummaryRead, tail: set<string>, req: Request, sizes: Sizes) {
    && Proven(read, req.now) && Tail(Heads(rows, req.owner), req.now, Target(req.keepRecent), tail)
    && var list := Candidates(rows, req.owner, req.cutoff, req.after);
       var rules := RulesFor(read, tail, rows, leases, req);
       && 0 <= r.processed <= |list| && r.processed == (if r.more then req.limits.sources else |list|)
       && (r.more <==> |list| > req.limits.sources)
       && r.nextAfter == (if r.processed == 0 then req.after else list[r.processed - 1].sequence)
       && Allowed(r.ids, list, r.processed, rules) && Thorough(r, list, r.processed, rules, req.limits, sizes)
  }

  /** The bytes read before any candidate is: the summary, the heads of the tail and those of the candidates. */
  function ListedBytes(rows: Log, req: Request, read: SummaryRead, sizes: Sizes, scanRecords: nat): int
    requires req.limits.sources > 0
  {
    read.bytes + TailBytes(rows, req.owner, scanRecords, sizes) + CandidateBytes(rows, req, sizes)
  }

  function CandidateBytes(rows: Log, req: Request, sizes: Sizes): nat
    requires req.limits.sources > 0
  {
    BareBytes(S.Take(Candidates(rows, req.owner, req.cutoff, req.after), req.limits.sources + 1), sizes)
  }

  predicate Wanted(req: Request) {
    0 < req.retentionDays <= 106751 && req.after >= 0 && req.limits.sources > 0 && req.limits.bytes > 0
  }

  /** The call gets as far as working off candidates. */
  predicate HeadsFit(rows: Log, req: Request, read: SummaryRead, sizes: Sizes, failures: Failures, scanRecords: nat)
    requires req.limits.sources > 0
  {
    && read.bytes + TailBytes(rows, req.owner, scanRecords, sizes) <= req.limits.bytes
    && TailFits(Heads(rows, req.owner), req.now, Target(req.keepRecent), MaxHeads(scanRecords), failures.head)
    && !failures.listing && ListedBytes(rows, req, read, sizes, scanRecords) <= req.limits.bytes
  }

  predicate Reaches(rows: Log, req: Request, read: SummaryRead, sizes: Sizes, failures: Failures, scanRecords: nat) {
    Wanted(req) && !failures.begin && Proven(read, req.now) && HeadsFit(rows, req, read, sizes, failures, scanRecords)
  }

  /** The candidates of one round are worked off without a failure or a conflict. */
  predicate RoundIsClean(rows: Log, leases: map<string, Snapshot>, req: Request, read: SummaryRead, tail: set<string>, sizes: Sizes, failures: Failures, start: int)
    requires read.checkpoint.Some? && req.limits.sources > 0
  {
    var list := Candidates(rows, req.owner, req.cutoff, req.after);
    Smooth(start, list, Min(|list|, req.limits.sources), RulesFor(read, tail, rows, leases, req), req.limits.bytes, sizes, failures.at)
  }

  predicate Clean(rows: Log, leases: map<string, Snapshot>, req: Request, read: SummaryRead, sizes: Sizes, failures: Failures, scanRecords: nat)
    requires read.checkpoint.Some? && req.limits.sources > 0
  {
    RoundIsClean(rows, leases, req, read, TailIds(Heads(rows, req.owner), req.now, Target(req.keepRecent)), sizes, failures,
                 ListedBytes(rows, req, read, sizes, scanRecords))
  }

  /** What the caller's test refuses: the commit fails after a full round of candidates with more behind it. */
  predicate FullRoundLost(rows: Log, leases: map<string, Snapshot>, req: Request, read: SummaryRead, sizes: Sizes, failures: Failures, scanRecords: nat) {
    && Reaches(rows, req, read, sizes, failures, scanRecords) && failures.commit
    && |Candidates(rows, req.owner, req.cutoff, req.after)| > req.limits.sources
    && Clean(rows, leases, req, read, sizes, failures, scanRecords)
  }

  ghost predicate NothingFails(failures: Failures) {
    !failures.begin && !failures.listing && !failures.commit && !FailsSomewhere(failures.head) && !FailsSomewhere(failures.at)
  }

  /** Without one of these a call cannot fail: a request out of range, a failure outside, or a summary
      that covers other content than is stored. */
  ghost predicate Troubled(rows: Log, leases: map<string, Snapshot>, req: Request, read: SummaryRead, sizes: Sizes, failures: Failures, scanRecords: nat) {
    || !Wanted(req) || read.failed || !NothingFails(failures)
    || (Reaches(rows, req, read, sizes, failures, scanRecords) && !Clean(rows, leases, req, read, sizes, failures, scanRecords))
  }

  const DEFAULT_SOURCES := 16
  const DEFAULT_BYTES := 0x80_0000

  /** A zero limit stands for the default; a negative one is refused. */
  function WithDefaults(limits: Budget): Budget {
    Budget(if limits.sources == 0 then DEFAULT_SOURCES else limits.sources, if limits.bytes == 0 then DEFAULT_BYTES else limits.bytes)
  }

  function Filled(req: Request): Request { req.(limits := WithDefaults(req.limits)) }

  /** Prunes what the rules and the budget allow, in one transaction. */
  method PruneHistory(t: S.TableStore, req: Request, read: SummaryRead, sizes: Sizes, failures: Failures, scanRecords: nat)
    returns (r: Result, error: bool, ghost course: Course)
    requires t.Valid() && Sized(t.rows, sizes) && read.bytes <= Max(0, WithDefaults(req.limits).bytes)
    modifies t`rows
    ensures t.Valid()
    ensures t.Abs() == Pruned(old(t.Abs()), req.owner, IdSet(r.ids)) && May(old(t.Abs()), Prune(req.owner, IdSet(r.ids)))
    ensures error ==> t.rows == old(t.rows) && r.processed == 0 && r.bytes == 0 && r.ids == [] && r.nextAfter == req.after
    ensures course.Idle? ==> r.ids == [] && r.processed == 0 && r.nextAfter == req.after
    ensures !error && course.Worked? ==> Work(r, old(t.rows), t.leases, read, course.tail, Filled(req), sizes)
    ensures error ==> req.retentionDays != 0 && Troubled(old(t.rows), t.leases, Filled(req), read, sizes, failures, scanRecords)
    ensures Reaches(old(t.rows), Filled(req), read, sizes, failures, scanRecords) ==>
              (error <==> failures.commit || !Clean(old(t.rows), t.leases, Filled(req), read, sizes, failures, scanRecords))
    ensures error && r.more <==> FullRoundLost(old(t.rows), t.leases, Filled(req), read, sizes, failures, scanRecords)
    ensures req.after >= 0 && req.limits.sources >= 0 && req.limits.bytes >= 0 ==>
              (ValidResult(r, req.after, WithDefaults(req.limits))
               <==> !FullRoundLost(old(t.rows), t.leases, Filled(req), read, sizes, failures, scanRecords))
    ensures req.retentionDays != 0 && (req.after < 0 || req.limits.sources < 0 || req.limits.bytes < 0) ==> error
  {
    r, error, course := PruneWithin(t, Filled(req), read, sizes, failures, scanRecords);
  }

  /** Prunes what the rules and the budget allow, in one transaction, within the limits as they are. */
  method PruneWithin(t: S.TableStore, req: Request, read: SummaryRead, sizes: Sizes, failures: Failures, scanRecords: nat)
    returns (r: Result, error: bool, ghost course: Course)
    requires t.Valid() && Sized(t.rows, sizes) && read.bytes <= (if req.limits.bytes > 0 then req.limits.bytes else 0)
    modifies t`rows
    ensures t.Valid()
    ensures t.Abs() == Pruned(old(t.Abs()), req.owner, IdSet(r.ids)) && May(old(t.Abs()), Prune(req.owner, IdSet(r.ids)))
    ensures error ==> t.rows == old(t.rows) && r.processed == 0 && r.bytes == 0 && r.ids == [] && r.nextAfter == req.after
    ensures course.Idle? ==> r.ids == [] && r.processed == 0 && r.nextAfter == req.after
    ensures !error && course.Worked? ==> Work(r, old(t.rows), t.leases, read, course.tail, req, sizes)
    ensures error ==> req.retentionDays != 0 && Troubled(old(t.rows), t.leases, req, read, sizes, failures, scanRecords)
    ensures Reaches(old(t.rows), req, read, sizes, failures, scanRecords) ==>
              (error <==> failures.commit || !Clean(old(t.rows), t.leases, req, read, sizes, failures, scanRecords))
    ensures error && r.more <==> FullRoundLost(old(t.rows), t.leases, req, read, sizes, failures, scanRecords)
    ensures req.after >= 0 && req.limits.sources > 0 && req.limits.bytes > 0 ==>
              (ValidResult(r, req.after, req.limits) <==> !FullRoundLost(old(t.rows), t.leases, req, read, sizes, failures, scanRecords))
    ensures req.retentionDays != 0 && (req.after < 0 || req.limits.sources <= 0 || req.limits.bytes <= 0) ==> error
  {
    course := Idle;
    NothingMarked(t.rows, t.world, t.leases, t.summaries, t.revision, req.owner);
    assert IdSet([]) == {};
    var reached, tail, candidates;
    reached, r, error, tail, candidates := Prepare(t.rows, req, read, sizes, failures, scanRecords);
    if !reached { return; }
    r, error, course := Finish(t, req, read, sizes, failures, tail, candidates, r);
  }

  /** A result that only says what was read. */
  predicate Blank(r: Result, req: Request) {
    r == Result(0, 0, 0, r.readBytes, [], req.after, false) && (req.limits.bytes > 0 ==> 0 <= r.readBytes <= req.limits.bytes)
  }

  /** Everything before the candidates are worked off. */
  method Prepare(rows: Log, req: Request, read: SummaryRead, sizes: Sizes, failures: Failures, scanRecords: nat)
    returns (reached: bool, r: Result, error: bool, tail: set<string>, candidates: Log)
    requires read.bytes <= (if req.limits.bytes > 0 then req.limits.bytes else 0)
    ensures reached <==> Reaches(rows, req, read, sizes, failures, scanRecords)
    ensures Blank(r, req)
    ensures reached ==> !error && r.readBytes == ListedBytes(rows, req, read, sizes, scanRecords)
                        && candidates == Candidates(rows, req.owner, req.cutoff, req.after)
                        && ProvenTail(Heads(rows, req.owner), req.now, Target(req.keepRecent), MaxHeads(scanRecords), failures.head, tail)
    ensures req.retentionDays != 0 && (req.after < 0 || req.limits.sources <= 0 || req.limits.bytes <= 0) ==> error
    ensures error ==> req.retentionDays != 0 && (!Wanted(req) || read.failed || !NothingFails(failures))
  {
    reached, tail, candidates := false, {}, [];
    r, error := Result(0, 0, 0, 0, [], req.after, false), false;
    if req.retentionDays == 0 { return; }
    error := true;
    if req.retentionDays < 0 || req.retentionDays > 106751 || req.after < 0 { return; }
    if req.limits.sources <= 0 || req.limits.bytes <= 0 || failures.begin { return; }
    r := r.(readBytes := read.bytes);
    if read.failed { return; }
    error := false;
    if read.unproven || read.checkpoint.None? { return; }
    var visible, unknown := G.HistoryVisibility(read.checkpoint.value.times, req.now);
    if !visible || unknown { return; }
    reached, r, error, tail, candidates := ReadHeads(rows, req, read, sizes, failures, scanRecords, r);
  }

  /** The retained tail and the list of candidates, within the byte limit. */
  method ReadHeads(rows: Log, req: Request, read: SummaryRead, sizes: Sizes, failures: Failures, scanRecords: nat, start: Result)
    returns (reached: bool, r: Result, error: bool, tail: set<string>, candidates: Log)
    requires req.limits.sources > 0 && start == Result(0, 0, 0, read.bytes, [], req.after, false) && read.bytes <= req.limits.bytes
    ensures reached <==> HeadsFit(rows, req, read, sizes, failures, scanRecords)
    ensures Blank(r, req)
    ensures error ==> !NothingFails(failures)
    ensures reached ==> !error && r.readBytes == ListedBytes(rows, req, read, sizes, scanRecords)
                        && candidates == Candidates(rows, req.owner, req.cutoff, req.after)
                        && ProvenTail(Heads(rows, req.owner), req.now, Target(req.keepRecent), MaxHeads(scanRecords), failures.head, tail)
  {
    r, reached, candidates := start, false, [];
    var size, proven;
    tail, size, proven, error :=
      RetentionTail(rows, req.owner, req.now, req.keepRecent, scanRecords, req.limits.bytes - r.readBytes, sizes, failures.head);
    r := r.(readBytes := r.readBytes + size);
    if error || !proven { return; }
    error := failures.listing;
    if error { return; }
    candidates := Candidates(rows, req.owner, req.cutoff, req.after);
    var header := CandidateBytes(rows, req, sizes);
    if header > req.limits.bytes - r.readBytes { return; }
    r := r.(readBytes := r.readBytes + header);
    reached := true;
  }

  method Finish(t: S.TableStore, req: Request, read: SummaryRead, sizes: Sizes, failures: Failures, tail: set<string>, candidates: Log, start: Result)
    returns (r: Result, error: bool, ghost course: Course)
    requires t.Valid() && Sized(t.rows, sizes) && req.after >= 0 && req.limits.sources > 0
    requires candidates == Candidates(t.rows, req.owner, req.cutoff, req.after) && Proven(read, req.now)
    requires Tail(Heads(t.rows, req.owner), req.now, Target(req.keepRecent), tail)
    requires start == Result(0, 0, 0, start.readBytes, [], req.after, false) && 0 <= start.readBytes <= req.limits.bytes
    modifies t`rows
    ensures t.Valid()
    ensures t.Abs() == Pruned(old(t.Abs()), req.owner, IdSet(r.ids)) && May(old(t.Abs()), Prune(req.owner, IdSet(r.ids)))
    ensures error ==> t.rows == old(t.rows) && r.processed == 0 && r.bytes == 0 && r.ids == [] && r.nextAfter == req.after
    ensures course.Worked? && (!error ==> Work(r, old(t.rows), t.leases, read, course.tail, req, sizes))
    ensures error <==> failures.commit || !RoundIsClean(old(t.rows), t.leases, req, read, tail, sizes, failures, start.readBytes)
    ensures error && r.more <==> failures.commit && |candidates| > req.limits.sources
                                 && RoundIsClean(old(t.rows), t.leases, req, read, tail, sizes, failures, start.readBytes)
    ensures ValidResult(r, req.after, req.limits) <==> !(error && r.more)
  {
    course := Worked(tail);
    var newest := S.MaxSequence(t.rows, req.owner);
    var rules := Rules(read.checkpoint.value.refs, tail, newest, t.leases, req.owner, req.now);
    CandidatesAscend(t.rows, req.owner, req.cutoff, req.after);
    var draft, ok;
    r, draft, ok := PruneCandidates(t.rows, candidates, start, rules, req.limits, sizes, failures.at);
    if !ok || failures.commit {
      NothingMarked(t.rows, t.world, t.leases, t.summaries, t.revision, req.owner);
      r := r.(processed := 0, bytes := 0, ids := [], nextAfter := req.after);
      return r, true, course;
    }
    WorkIsDone(r, start, t.rows, t.leases, read, tail, req, sizes);
    error := false;
    Commit(t, req.owner, rules, r, candidates, draft);
  }

  /** What the candidate loop leaves is the promised work, and passes the caller's test. */
  lemma WorkIsDone(r: Result, start: Result, rows: Log, leases: map<string, Snapshot>, read: SummaryRead, tail: set<string>, req: Request, sizes: Sizes)
    requires Proven(read, req.now) && Tail(Heads(rows, req.owner), req.now, Target(req.keepRecent), tail)
    requires Ascending(rows) && start.nextAfter == req.after >= 0 && req.limits.sources > 0 && 0 <= r.processed
    requires var list := Candidates(rows, req.owner, req.cutoff, req.after);
             && Working(r.(more := false), start, list, r.processed, RulesFor(read, tail, rows, leases, req), req.limits, sizes)
             && r.processed == (if r.more then req.limits.sources else |list|) && (r.more <==> |list| > req.limits.sources)
    ensures Work(r, rows, leases, read, tail, req, sizes) && ValidResult(r, req.after, req.limits)
  {
    var list := Candidates(rows, req.owner, req.cutoff, req.after);
    CandidatesAscend(rows, req.owner, req.cutoff, req.after);
    if r.processed > 0 { assert list[r.processed - 1] in list; }
  }

  method Commit(t: S.TableStore, owner: Key, rules: Rules, r: Result, candidates: Log, draft: Log)
    requires t.Valid() && 0 <= r.processed <= |candidates| && Allowed(r.ids, candidates, r.processed, rules)
    requires rules.leases == t.leases && rules.owner == owner && (forall s | s in candidates :: s in t.rows && s.owner == owner)
    requires draft == Mark(t.rows, IdSet(r.ids))
    modifies t`rows
    ensures t.Valid() && t.rows == draft
    ensures t.Abs() == Pruned(old(t.Abs()), owner, IdSet(r.ids)) && May(old(t.Abs()), Prune(owner, IdSet(r.ids)))
  {
    AllowedMayBePruned(t.Abs(), t.rows, r.ids, candidates, r.processed, rules);
    MarkedRows(t.rows, t.world, t.leases, t.summaries, t.revision, owner, IdSet(r.ids));
    MarkedStaysOrdered(t.rows, t.world, IdSet(r.ids));
    PruneKeepsGood(t.Abs(), owner, IdSet(r.ids));
    t.rows := draft;
  }

  lemma NothingMarked(rows: Log, world: World, leases: map<string, Snapshot>, summaries: map<Key, nat>, revision: nat, owner: Key)
    ensures var st := S.RowState(rows, world, leases, summaries, revision);
            Pruned(st, owner, IdSet([])) == st && May(st, Prune(owner, IdSet([])))
  {
    assert Mark(rows, {}) == rows && IdSet([]) == {};
    MarkedRows(rows, world, leases, summaries, revision, owner, {});
  }

  /** Newer visible sources of the owner reach the target on their own. */
  ghost predicate Superseded(s: Source, heads: Log, now: G.Time, target: int) {
    exists k :: 0 <= k <= |heads| && Tokens(heads[..k], now) >= target && forall x | x in heads[..k] :: x.sequence > s.sequence
  }

  lemma {:induction false} HeadsDescend(rows: Log, owner: Key)
    requires Ascending(rows)
    ensures Descending(Heads(rows, owner))
    ensures forall s :: s in Heads(rows, owner) <==> s in rows && s.owner == owner && !s.pruned
  {
    if rows != [] {
      var n := |rows| - 1;
      var rest := Heads(rows[..n], owner);
      HeadsDescend(rows[..n], owner);
      forall s ensures s in rows <==> s in rows[..n] || s == rows[n] { assert rows == rows[..n] + [rows[n]]; }
      forall s | s in rest ensures s.sequence < rows[n].sequence {
        var k :| 0 <= k < n && rows[..n][k] == s;
        assert rows[k].sequence < rows[n].sequence;
      }
      DescendsOn(rows[n], rest);
    }
  }

  lemma ShownInTail(heads: Log, now: G.Time, i: nat, k: nat)
    requires i < |heads| && k <= |heads| && Shown(heads[i], now)
    ensures i < k ==> heads[i].id in VisibleIds(heads[..k], now)
  {
    if i < k { assert heads[..k][i] == heads[i]; }
  }

  lemma NewerThan(heads: Log, i: nat, k: nat)
    requires Descending(heads) && k <= i < |heads|
    ensures forall x | x in heads[..k] :: x.sequence > heads[i].sequence
  {
  }

  /** An available, visible source outside a proven tail has newer ones that reach the target. */
  lemma TailIsEnough(rows: Log, s: Source, owner: Key, now: G.Time, target: int, tail: set<string>)
    requires Ascending(rows) && Tail(Heads(rows, owner), now, target, tail)
    requires s in rows && s.owner == owner && !s.pruned && Shown(s, now) && s.id !in tail
    ensures Superseded(s, Heads(rows, owner), now, target)
  {
    var heads := Heads(rows, owner);
    HeadsDescend(rows, owner);
    var k :| 0 <= k <= |heads| && TailOf(heads, now, target, tail, k);
    var i :| 0 <= i < |heads| && heads[i] == s;
    ShownInTail(heads, now, i, k);
    assert heads[..|heads|] == heads;
    NewerThan(heads, i, k);
  }

  /** What is true of every source a successful call pruned. */
  ghost predicate Safe(s: Source, refs: map<string, Ref>, tail: set<string>, rows: Log, leases: map<string, Snapshot>, req: Request) {
    && s in rows && s.owner == req.owner && !s.pruned && s.created < req.cutoff && s.sequence > req.after
    && s.id in refs && refs[s.id] == Ref(s.sequence, s.fingerprint)
    && s.sequence != Top(S.RowsOf(rows, req.owner)) && s.id !in tail
    && Superseded(s, Heads(rows, req.owner), req.now, Target(req.keepRecent))
    && forall lease | lease in leases && leases[lease].owner == req.owner :: leases[lease].watermark < s.sequence
  }

  lemma PrunedAreSafe(r: Result, rows: Log, leases: map<string, Snapshot>, read: SummaryRead, tail: set<string>, req: Request, sizes: Sizes)
    requires Ascending(rows) && Work(r, rows, leases, read, tail, req, sizes)
    ensures forall id | id in r.ids :: exists s: Source :: s.id == id && Safe(s, read.checkpoint.value.refs, tail, rows, leases, req)
  {
    var list := Candidates(rows, req.owner, req.cutoff, req.after);
    var rules := RulesFor(read, tail, rows, leases, req);
    CandidatesAscend(rows, req.owner, req.cutoff, req.after);
    forall id | id in r.ids ensures exists s: Source :: s.id == id && Safe(s, read.checkpoint.value.refs, tail, rows, leases, req) {
      var k :| 0 <= k < r.processed && list[k].id == id && Prunable(list[k], rules) && Matches(list[k], rules.refs);
      assert list[k] in list;
      TailIsEnough(rows, list[k], req.owner, req.now, Target(req.keepRecent), tail);
      assert Safe(list[k], read.checkpoint.value.refs, tail, rows, leases, req);
    }
  }

  const SOMEONE := Key(World("game", "world"), "entity")
  const MORNING: G.Time := Some(G.Snapshot(1, 1, 1, 0, 0, 0, G.Undeclared))
  const OLDER := Batch("older", SOMEONE, "a", 4, 0, [MORNING], false)
  const NEWER := Batch("newer", SOMEONE, "b", 4, 0, [MORNING], false)
  const LOST := Request(SOMEONE, 0, 30, 1, MORNING, 1, Budget(1, 100))
  const NOTHING_COVERED := SummaryRead(false, false, Some(Checkpoint([MORNING], map[])), 0)
  const SMALL := Sizes(_ => 8, _ => 16, (s: Source) => s.bytes + 50)
  const NO_COMMIT := Failures(false, _ => false, false, _ => false, true)

  lemma TwoHeads(a: Source, b: Source)
    requires !a.pruned && !b.pruned && a.owner == b.owner == SOMEONE
    ensures Heads([a, b], SOMEONE) == [b, a] && TimedBytes([b, a], SMALL) == 16
  {
    assert [a, b][..1] == [a] && [b, a][..1] == [b] && [a][..0] == [] && [b][..0] == [];
    assert Heads([], SOMEONE) == [];
    assert Heads([a], SOMEONE) == [a];
    assert TimedBytes([b], SMALL) == 8;
  }

  lemma TwoCandidates(a: Source, b: Source)
    requires OldEnough(a, SOMEONE, 1, 0) && OldEnough(b, SOMEONE, 1, 0)
    ensures Candidates([a, b], SOMEONE, 1, 0) == [a, b] && BareBytes([a, b], SMALL) == 32
  {
    assert [a, b][..1] == [a] && [a][..0] == [];
    assert Candidates([], SOMEONE, 1, 0) == [];
    assert Candidates([a], SOMEONE, 1, 0) == [a];
    assert BareBytes([a], SMALL) == 16;
  }

  lemma NewestIsEnough(a: Source, b: Source)
    requires b.times == [MORNING] && b.bytes == 4
    ensures TailLength([b, a], MORNING, 1, 0) == 1 && !Unknown(b, MORNING)
  {
    assert [b, a][..1] == [b] && [b][..0] == [] && [b, a][..0] == [];
    assert MORNING in b.times;
    assert Tokens([], MORNING) == 0;
    assert Tokens([b], MORNING) == 1;
  }

  lemma RoundIsLost(rows: Log)
    requires rows == [SourceOf(OLDER, 1), SourceOf(NEWER, 2)]
    ensures FullRoundLost(rows, map[], LOST, NOTHING_COVERED, SMALL, NO_COMMIT, 10)
  {
    TwoHeads(rows[0], rows[1]);
    TwoCandidates(rows[0], rows[1]);
    NewestIsEnough(rows[0], rows[1]);
  }

  lemma FirstRow(rows: Log)
    requires rows == [S.NextRow([], OLDER)]
    ensures rows == [SourceOf(OLDER, 1)] && !S.HasRow(rows, NEWER.id) && S.NextRow(rows, NEWER) == SourceOf(NEWER, 2)
  {
  }

  method OneBatch() returns (t: S.TableStore)
    ensures t.Valid() && fresh(t) && t.world == SOMEONE.world && t.leases == map[] && t.rows == [S.NextRow([], OLDER)]
  {
    t := new S.TableStore(Limits(10, 100), SOMEONE.world);
    assert !S.HasRow(t.rows, OLDER.id);
    var _ := t.AppendHistory(OLDER);
  }

  method TwoBatches() returns (t: S.TableStore)
    ensures t.Valid() && fresh(t) && t.leases == map[] && t.rows == [SourceOf(OLDER, 1), SourceOf(NEWER, 2)]
  {
    t := OneBatch();
    FirstRow(t.rows);
    var _ := t.AppendHistory(NEWER);
  }

  /** A table and a request whose result the caller's test refuses: of two sources one may be worked off
      per call, the summary covers neither, and the commit fails. */
  method LostRoundExists() returns (r: Result, error: bool)
    ensures error && r.more && !ValidResult(r, LOST.after, LOST.limits)
  {
    var t := TwoBatches();
    RoundIsLost(t.rows);
    ghost var course;
    r, error, course := PruneHistory(t, LOST, NOTHING_COVERED, SMALL, NO_COMMIT, 10);
  }

  // ---------------------------------------------------------------- the caller

  datatype Progress = Progress(rebuildAfter: int, pruneAfter: int)

  function Spent(r: Result): Budget { Budget(Max(r.processed, r.readSources), Max(r.bytes, r.readBytes)) }

  function Cursor(r: Result): int { if r.more then r.nextAfter else 0 }

  /** A cursor moves strictly forward or starts over. */
  predicate Advances(before: int, after: int) { after == 0 || after > before }

  function Left(limits: Budget, rebuild: Result): Budget {
    Budget(limits.sources - Spent(rebuild).sources, limits.bytes - Spent(rebuild).bytes)
  }

  /** The rebuild was accepted and left something of the budget for a prune that is switched on. */
  predicate Due(progress: Progress, limits: Budget, rebuild: Result, rebuildFailed: bool, cancelled: bool, req: Request) {
    && !rebuildFailed && ValidResult(rebuild, progress.rebuildAfter, limits) && req.retentionDays != 0 && !cancelled
    && Left(limits, rebuild).sources > 0 && Left(limits, rebuild).bytes > 0 && G.SharedBasis([req.now]) != G.Unknown
  }

  /** One maintenance run: the index rebuild came first, and pruning gets what it left of the budget.
      `seen` is the accepted result of the prune. */
  method MaintainHistory(t: S.TableStore, progress: Progress, limits: Budget, rebuild: Result, rebuildFailed: bool, cancelled: bool,
                         req: Request, read: int -> SummaryRead, sizes: Sizes, failures: Failures, scanRecords: nat)
    returns (next: Progress, ghost spent: Budget, ghost seen: Option<Result>)
    requires t.Valid() && Sized(t.rows, sizes) && forall n: int :: n > 0 ==> read(n).bytes <= n
    requires progress.rebuildAfter >= 0 && progress.pruneAfter >= 0
    modifies t`rows
    ensures t.Valid()
    ensures var pruned := if seen.Some? then IdSet(seen.value.ids) else {};
            t.Abs() == Pruned(old(t.Abs()), req.owner, pruned) && May(old(t.Abs()), Prune(req.owner, pruned))
    ensures next.rebuildAfter >= 0 && next.pruneAfter >= 0
    ensures if !rebuildFailed && ValidResult(rebuild, progress.rebuildAfter, limits)
            then Advances(progress.rebuildAfter, next.rebuildAfter) && spent.sources <= limits.sources && spent.bytes <= limits.bytes
            else next.rebuildAfter == progress.rebuildAfter && seen.None?
    ensures if seen.Some? then Advances(progress.pruneAfter, next.pruneAfter) && next.pruneAfter == Cursor(seen.value)
                               && ValidResult(seen.value, progress.pruneAfter, Left(limits, rebuild))
            else next.pruneAfter == progress.pruneAfter
    ensures seen.Some? ==> Due(progress, limits, rebuild, rebuildFailed, cancelled, req)
    ensures Due(progress, limits, rebuild, rebuildFailed, cancelled, req) && seen.None? ==>
              Troubled(old(t.rows), t.leases, req.(after := progress.pruneAfter, limits := Left(limits, rebuild)), read(Left(limits, rebuild).bytes), sizes, failures, scanRecords)
  {
    next, spent, seen := progress, Budget(0, 0), None;
    NothingMarked(t.rows, t.world, t.leases, t.summaries, t.revision, req.owner);
    assert IdSet([]) == {};
    if rebuildFailed || !ValidResult(rebuild, progress.rebuildAfter, limits) { return; }
    next := next.(rebuildAfter := Cursor(rebuild));
    spent := Spent(rebuild);
    var left := Left(limits, rebuild);
    if req.retentionDays == 0 || cancelled || left.sources <= 0 || left.bytes <= 0 { return; }
    if G.SharedBasis([req.now]) == G.Unknown { return; }
    var r, error;
    ghost var course;
    r, error, course := PruneHistory(t, req.(after := progress.pruneAfter, limits := left), read(left.bytes), sizes, failures, scanRecords);
    if error || !ValidResult(r, progress.pruneAfter, left) { return; }
    seen := Some(r);
    spent := Budget(spent.sources + Spent(r).sources, spent.bytes + Spent(r).bytes);
    next := next.(pruneAfter := Cursor(r));
  }
}

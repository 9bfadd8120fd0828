/** Preparing an owner's history for a turn: reading the whole snapshot page by page within scan limits,
    leaving out what the summary covers, and compacting the oldest part into a new summary.

    The store's answers, the time limit, the token estimate, the text model and the summary store are
    arbitrary; what a store that keeps the page contract adds is stated separately. */
module PreparedHistory {
  import opened Wrappers
  import opened Numbers
  import opened Sorting
  import opened HistoryLog
  import G = GameTime
  import S = HistoryStores
  import E = Experiences

  datatype Answer = Answer(failed: bool, sources: Log, nextBefore: int, more: bool, scanned: int, bytes: int, diagnostics: seq<string>)

  /** What the store answers to a cursor and limits at each call. */
  type Store = (int, Limits, nat) -> Answer

  datatype Scan = Scan(pageRecords: int, pageBytes: int, scanRecords: int, scanBytes: int)

  datatype Reading = Reading(collected: Log, seen: set<string>, scanned: int, bytes: int, future: nat, unknown: nat, incomplete: bool)

  predicate Visible(s: Source, now: G.Time) { G.Visible(s.times, now) }

  /** Whose history is read, up to where, and when. */
  datatype Scope = Scope(owner: Key, watermark: nat, now: G.Time)

  // ---------------------------------------------------------------- one page

  predicate Acceptable(s: Source, scope: Scope, before: int) {
    s.owner == scope.owner && 0 < s.sequence <= scope.watermark && s.id != "" && !s.pruned && (before == 0 || s.sequence < before)
  }

  /** An experience is told elsewhere. */
  predicate Experience(s: Source) { !s.pruned && s.experience }

  /** What is collected is owned, at or below the watermark, visible, no experience, and never twice. */
  ghost predicate Collected(r: Reading, scope: Scope) {
    && (forall s | s in r.collected :: Acceptable(s, scope, 0) && Visible(s, scope.now) && !Experience(s) && s.id in r.seen)
    && (forall i, j | 0 <= i < j < |r.collected| :: r.collected[i].id != r.collected[j].id)
  }

  /** Diagnostics that make the scan incomplete. */
  predicate Incomplete(diagnostics: seq<string>) {
    "history_source_exceeds_page_bytes" in diagnostics || "history_source_invalid" in diagnostics || "history_scan_incomplete" in diagnostics
  }

  function TakeSource(r: Reading, s: Source, scope: Scope, before: int): Reading {
    if Experience(s) then r
    else if !Acceptable(s, scope, before) then r.(incomplete := true)
    else if s.id in r.seen then r
    else
      var next := r.(seen := r.seen + {s.id}, unknown := r.unknown + (if G.UnknownTime(s.times, scope.now) then 1 else 0));
      if Visible(s, scope.now) then next.(collected := r.collected + [s]) else next.(future := r.future + 1)
  }

  function TakeSources(r: Reading, list: Log, scope: Scope, before: int): Reading {
    if list == [] then r
    else TakeSource(TakeSources(r, list[..|list| - 1], scope, before), list[|list| - 1], scope, before)
  }

  lemma {:induction false} TakeSourcesKeeps(r: Reading, list: Log, scope: Scope, before: int)
    requires Collected(r, scope)
    ensures var next := TakeSources(r, list, scope, before);
            && Collected(next, scope) && next.scanned == r.scanned && next.bytes == r.bytes
            && (r.incomplete ==> next.incomplete)
  {
    if list != [] { TakeSourcesKeeps(r, list[..|list| - 1], scope, before); }
  }

  method ReadPage(r: Reading, answer: Answer, scope: Scope, before: int) returns (next: Reading)
    ensures next == TakeSources(r, answer.sources, scope, before)
  {
    next := r;
    assert answer.sources[..0] == [];
    for i := 0 to |answer.sources|
      invariant next == TakeSources(r, answer.sources[..i], scope, before)
    {
      var s := answer.sources[i];
      assert answer.sources[..i + 1][..i] == answer.sources[..i];
      if !s.pruned && s.experience { continue; }
      if s.owner != scope.owner || s.sequence <= 0 || s.sequence > scope.watermark || s.id == "" || s.pruned || (before != 0 && s.sequence >= before) {
        next := next.(incomplete := true);
        continue;
      }
      if s.id in next.seen { continue; }
      next := next.(seen := next.seen + {s.id});
      var visible, unknown := G.HistoryVisibility(s.times, scope.now);
      if unknown { next := next.(unknown := next.unknown + 1); }
      if !visible {
        next := next.(future := next.future + 1);
        continue;
      }
      next := next.(collected := next.collected + [s]);
    }
    assert answer.sources[..|answer.sources|] == answer.sources;
  }

  // ---------------------------------------------------------------- all pages

  const NothingRead := Reading([], {}, 0, 0, 0, 0, false)

  predicate WithinScan(r: Reading, scan: Scan) {
    && 0 <= r.scanned <= (if scan.scanRecords > 0 then scan.scanRecords else 0)
    && 0 <= r.bytes <= (if scan.scanBytes > 0 then scan.scanBytes else 0)
  }

  function PageLimits(r: Reading, scan: Scan): Limits {
    Limits(Min(scan.pageRecords, scan.scanRecords - r.scanned), Min(scan.pageBytes, scan.scanBytes - r.bytes))
  }

  predicate ValidPage(a: Answer, limits: Limits) { |a.sources| <= a.scanned <= limits.records && 0 <= a.bytes <= limits.bytes }

  predicate ValidCursor(a: Answer, watermark: nat, before: int) {
    a.scanned > 0 && 0 < a.nextBefore <= watermark && (before == 0 || a.nextBefore < before)
  }

  function Flagged(r: Reading): Reading { r.(incomplete := true) }

  /** The reading when a page's own counts and diagnostics are taken in. */
  function Opened(r: Reading, a: Answer): Reading {
    r.(incomplete := r.incomplete || Incomplete(a.diagnostics), scanned := r.scanned + a.scanned, bytes := r.bytes + a.bytes)
  }

  /** One turn of the loop: what was read after it, and the cursor to go on with if there is one. */
  method ReadNext(r: Reading, store: Store, call: nat, scan: Scan, scope: Scope, before: int, ghost log: Log, ghost contract: bool)
    returns (next: Reading, cursor: Option<int>)
    requires WithinScan(r, scan) && Collected(r, scope) && (contract ==> Contract(store, log, scope) && Progress(r, log, scope, before))
    ensures WithinScan(next, scan) && Collected(next, scope)
    ensures cursor.Some? ==> r.scanned < next.scanned
    ensures contract && cursor.Some? ==> Progress(next, log, scope, cursor.value)
    ensures contract && cursor.None? ==> Exact(next, log, scope)
  {
    var limits := PageLimits(r, scan);
    if contract { ProgressIsExact(r, log, scope, before); }
    if limits.records <= 0 || limits.bytes <= 0 { return Flagged(r), None; }
    var a := store(before, limits, call);
    if a.failed || !ValidPage(a, limits) { return Flagged(r), None; }
    var start := Opened(r, a);
    TakeSourcesKeeps(start, a.sources, scope, before);
    next := ReadPage(start, a, scope, before);
    if contract {
      assert Keeps(store(before, limits, call), log, scope, before, limits);
      PageMakesProgress(r, log, scope, before, limits, a);
    }
    if !a.more { return next, None; }
    if !ValidCursor(a, scope.watermark, before) { return Flagged(next), None; }
    cursor := Some(a.nextBefore);
  }

  /** Reads pages until there is no more, a limit is reached, or the store or the clock fails. It always
      ends, whatever the store answers. */
  method ReadAll(store: Store, expired: nat -> bool, scan: Scan, scope: Scope, ghost log: Log) returns (r: Reading)
    ensures WithinScan(r, scan) && Collected(r, scope)
    ensures Contract(store, log, scope) ==> Exact(r, log, scope)
  {
    r := NothingRead;
    var before, call: nat := 0, 0;
    ghost var contract := Contract(store, log, scope);
    if contract { StartProgress(log, scope); }
    while true
      invariant WithinScan(r, scan) && Collected(r, scope)
      invariant contract ==> Contract(store, log, scope) && Progress(r, log, scope, before)
      decreases (if scan.scanRecords > 0 then scan.scanRecords else 0) - r.scanned
    {
      if expired(call) {
        if contract { ProgressIsExact(r, log, scope, before); }
        return Flagged(r);
      }
      var cursor;
      r, cursor := ReadNext(r, store, call, scan, scope, before, log, contract);
      if cursor.None? { return; }
      before, call := cursor.value, call + 1;
    }
  }

  // ---------------------------------------------------------------- a store that keeps the page contract

  function AnswerOf(p: Page): Answer { Answer(false, p.sources, p.nextBefore, p.more, p.scanned, p.bytes, p.diagnostics) }

  /** The limits a store may use when asked for these: its own may be tighter. */
  predicate Tighter(own: Limits, limits: Limits) { 0 < own.records <= limits.records && 0 < own.bytes <= limits.bytes }

  ghost predicate Keeps(a: Answer, log: Log, scope: Scope, before: nat, limits: Limits) {
    a.failed || exists own :: Tighter(own, limits) && a == AnswerOf(PageFor(Newest(log, scope.watermark, before), own))
  }

  /** A history store keeps the contract for a live snapshot, whatever limits it was built with. */
  method StoreKeeps(m: S.MemoryStore, snapshot: Snapshot, before: nat, limits: Limits, now: G.Time) returns (a: Answer)
    requires m.Valid() && Live(m.Abs(), snapshot) && limits.records > 0 && limits.bytes > 0
    ensures !a.failed && Keeps(a, LogOf(m.Abs(), snapshot.owner), Scope(snapshot.owner, snapshot.watermark, now), before, limits)
  {
    var page := m.ReadSnapshot(snapshot, before, limits);
    a := AnswerOf(page.value);
    assert Tighter(S.Clamped(limits, m.limits), limits);
  }

  /** Every answer is a failure or the page of the snapshot's log. */
  ghost predicate Contract(store: Store, log: Log, scope: Scope) {
    && GoodFor(log, scope.owner)
    && forall before: nat, limits: Limits, call: nat {:trigger store(before, limits, call)} | limits.records > 0 && limits.bytes > 0 ::
         Keeps(store(before, limits, call), log, scope, before, limits)
  }

  ghost predicate GoodFor(log: Log, owner: Key) {
    && Ascending(log) && (forall s | s in log :: s.owner == owner && s.sequence > 0 && s.id != "")
    && forall i, j | 0 <= i < j < |log| :: log[i].id != log[j].id
  }

  /** What should be collected of a list. */
  predicate Wanted(s: Source, now: G.Time) { !s.pruned && !s.experience && Visible(s, now) }

  function View(log: Log, scope: Scope): Log { Newest(log, scope.watermark, 0) }

  /** After scanning a stretch of the view: the cursor stands behind it, what is collected comes from it,
      and unless something was flagged nothing wanted of it is missing. */
  ghost predicate Progress(r: Reading, log: Log, scope: Scope, before: int) {
    && CursorBehind(View(log, scope), r.scanned, before)
    && Gathered(r, View(log, scope), r.scanned, scope.now)
  }

  ghost predicate Gathered(r: Reading, view: Log, k: int, now: G.Time) {
    && 0 <= k <= |view|
    && (forall s | s in r.collected :: s in view[..k])
    && (forall id | id in r.seen :: HasId(view[..k], id))
    && (!r.incomplete ==> forall s | s in view[..k] && Wanted(s, now) :: s in r.collected)
  }

  /** A scan that is not flagged incomplete collected everything wanted of the snapshot, and nothing else. */
  ghost predicate Exact(r: Reading, log: Log, scope: Scope) {
    && (forall s | s in r.collected :: s in log && s.sequence <= scope.watermark)
    && (!r.incomplete ==> forall s | s in log && s.sequence <= scope.watermark && Wanted(s, scope.now) :: s in r.collected)
  }

  lemma StartProgress(log: Log, scope: Scope)
    ensures Progress(NothingRead, log, scope, 0)
  {
    assert View(log, scope)[..0] == [];
  }

  lemma ProgressIsExact(r: Reading, log: Log, scope: Scope, before: int)
    requires GoodFor(log, scope.owner) && Progress(r, log, scope, before)
    ensures Exact(Flagged(r), log, scope)
  {
    GatheredIsExact(r, log, scope, r.scanned);
  }

  lemma GatheredIsExact(r: Reading, log: Log, scope: Scope, k: int)
    requires GoodFor(log, scope.owner) && Gathered(r, View(log, scope), k, scope.now)
    ensures Exact(Flagged(r), log, scope) && (k == |View(log, scope)| ==> Exact(r, log, scope))
  {
    var view := View(log, scope);
    NewestDescends(log, scope.watermark, 0);
    assert view[..|view|] == view;
    forall s | s in r.collected ensures s in log && s.sequence <= scope.watermark {
      assert s in view[..k];
      assert s in view;
    }
  }

  lemma {:induction false} TooLargeIsNoted(list: Log, limit: int, s: Source)
    requires s in list && !s.pruned && s.bytes > limit
    ensures "history_source_exceeds_page_bytes" in Notes(list, limit)
  {
    var n := |list| - 1;
    if s == list[n] {
      assert Notes(list, limit)[|Notes(list, limit)| - 1] == Note(s);
    } else {
      assert list == list[..n] + [list[n]];
      TooLargeIsNoted(list[..n], limit, s);
    }
  }

  /** The view of a good log: ids are unique and every source is acceptable. */
  ghost predicate GoodView(view: Log, scope: Scope) {
    && (forall s | s in view :: s.owner == scope.owner && 0 < s.sequence <= scope.watermark && s.id != "")
    && Descending(view) && forall i, j | 0 <= i < j < |view| :: view[i].id != view[j].id
  }

  lemma ViewIsGood(log: Log, scope: Scope)
    requires GoodFor(log, scope.owner)
    ensures GoodView(View(log, scope), scope)
  {
    var view := View(log, scope);
    NewestDescends(log, scope.watermark, 0);
    forall i, j | 0 <= i < j < |view| ensures view[i].id != view[j].id {
      assert view[i] in view && view[j] in view && view[i].sequence > view[j].sequence;
      var a :| 0 <= a < |log| && log[a] == view[i];
      var b :| 0 <= b < |log| && log[b] == view[j];
      assert a != b;
    }
  }

  lemma NewInView(r: Reading, view: Log, k: nat, scope: Scope)
    requires GoodView(view, scope) && k < |view| && Gathered(r, view, k, scope.now)
    ensures view[k].id !in r.seen
  {
    forall t | t in view[..k] ensures t.id != view[k].id {
      var i :| 0 <= i < k && view[..k][i] == t;
      assert view[i].id != view[k].id;
    }
    assert !HasId(view[..k], view[k].id);
  }

  lemma LongerHasId(view: Log, k: nat, id: string)
    requires k < |view|
    ensures HasId(view[..k + 1], id) <==> HasId(view[..k], id) || view[k].id == id
  {
    assert view[..k + 1] == view[..k] + [view[k]];
    if HasId(view[..k], id) {
      var t :| t in view[..k] && t.id == id;
      assert t in view[..k + 1];
    }
    if view[k].id == id { assert view[k] in view[..k + 1]; }
  }

  predicate Readable(s: Source, r: Reading, limit: int, before: int) {
    (before == 0 || s.sequence < before) && (r.incomplete || s.pruned || s.bytes <= limit)
  }

  function TakeIfReturned(r: Reading, s: Source, limit: int, scope: Scope, before: int): Reading {
    if Returned(s, limit) then TakeSource(r, s, scope, before) else r
  }

  /** One source of the view. */
  lemma SourceGathers(r: Reading, view: Log, k: nat, limit: int, scope: Scope, before: int)
    requires GoodView(view, scope) && k < |view| && Gathered(r, view, k, scope.now) && Readable(view[k], r, limit, before)
    ensures Gathered(TakeIfReturned(r, view[k], limit, scope, before), view, k + 1, scope.now)
    ensures r.incomplete ==> TakeIfReturned(r, view[k], limit, scope, before).incomplete
  {
    var s := view[k];
    assert s in view && view[..k + 1] == view[..k] + [s];
    assert forall x :: x in view[..k + 1] <==> x in view[..k] || x == s;
    NewInView(r, view, k, scope);
    forall id | id in r.seen || id == s.id ensures HasId(view[..k + 1], id) { LongerHasId(view, k, id); }
  }

  /** A stretch of the view, source by source. */
  function TakeStretch(r: Reading, view: Log, k: nat, j: nat, limit: int, scope: Scope, before: int): Reading
    requires k + j <= |view|
  {
    if j == 0 then r
    else TakeIfReturned(TakeStretch(r, view, k, j - 1, limit, scope, before), view[k + j - 1], limit, scope, before)
  }

  lemma ReadableStays(s: Source, r: Reading, next: Reading, limit: int, before: int)
    requires Readable(s, r, limit, before) && (r.incomplete ==> next.incomplete)
    ensures Readable(s, next, limit, before)
  {
  }

  predicate AllReadable(view: Log, k: nat, j: nat, r: Reading, limit: int, before: int)
    requires k + j <= |view|
  {
    forall i | k <= i < k + j :: Readable(view[i], r, limit, before)
  }

  lemma {:induction false} StretchGathers(r: Reading, view: Log, k: nat, j: nat, limit: int, scope: Scope, before: int)
    requires GoodView(view, scope) && k + j <= |view| && Gathered(r, view, k, scope.now)
    requires AllReadable(view, k, j, r, limit, before)
    ensures Gathered(TakeStretch(r, view, k, j, limit, scope, before), view, k + j, scope.now)
    ensures r.incomplete ==> TakeStretch(r, view, k, j, limit, scope, before).incomplete
    decreases j
  {
    if j > 0 {
      StretchGathers(r, view, k, j - 1, limit, scope, before);
      var taken := TakeStretch(r, view, k, j - 1, limit, scope, before);
      ReadableStays(view[k + j - 1], r, taken, limit, before);
      SourceGathers(taken, view, k + j - 1, limit, scope, before);
    }
  }

  lemma TakeKeptStep(r: Reading, rest: Log, j: nat, limit: int, scope: Scope, before: int)
    requires j < |rest|
    ensures TakeSources(r, Kept(rest[..j + 1], limit), scope, before) ==
            TakeIfReturned(TakeSources(r, Kept(rest[..j], limit), scope, before), rest[j], limit, scope, before)
  {
    KeptStep(rest, limit, j);
    TakeSourcesAppend(r, Kept(rest[..j], limit), rest[j], scope, before);
    assert Kept(rest[..j], limit) + [] == Kept(rest[..j], limit);
  }

  lemma TakeSourcesAppend(r: Reading, list: Log, s: Source, scope: Scope, before: int)
    ensures TakeSources(r, list + [s], scope, before) == TakeSource(TakeSources(r, list, scope, before), s, scope, before)
  {
    assert (list + [s])[..|list|] == list;
  }

  lemma {:induction false} StretchIsKept(r: Reading, view: Log, k: nat, j: nat, limit: int, scope: Scope, before: int)
    requires k + j <= |view|
    ensures TakeSources(r, Kept(view[k..][..j], limit), scope, before) == TakeStretch(r, view, k, j, limit, scope, before)
    decreases j
  {
    if j == 0 {
      assert view[k..][..0] == [];
    } else {
      StretchIsKept(r, view, k, j - 1, limit, scope, before);
      TakeKeptStep(r, view[k..], j - 1, limit, scope, before);
      assert view[k..][j - 1] == view[k + j - 1];
    }
  }

  lemma CursorRest(log: Log, scope: Scope, k: nat, before: nat)
    requires GoodFor(log, scope.owner) && k <= |View(log, scope)|
    requires before == if k == 0 then 0 else View(log, scope)[k - 1].sequence
    ensures Newest(log, scope.watermark, before) == View(log, scope)[k..]
  {
    if k > 0 { ContinueAfter(log, scope.watermark, k); } else { assert View(log, scope)[0..] == View(log, scope); }
  }

  /** Everything on the page is readable: below the cursor, and none too large unless that was noted. */
  lemma PageIsReadable(view: Log, k: nat, n: nat, limit: int, scope: Scope, before: int, start: Reading)
    requires GoodView(view, scope) && k + n <= |view| && before == if k == 0 then 0 else view[k - 1].sequence
    requires Incomplete(Notes(view[k..][..n], limit)) ==> start.incomplete
    ensures AllReadable(view, k, n, start, limit, before)
  {
    forall i | k <= i < k + n ensures Readable(view[i], start, limit, before) {
      if k > 0 { assert view[k - 1].sequence > view[i].sequence; }
      assert view[k..][..n][i - k] == view[i];
      if !view[i].pruned && view[i].bytes > limit { TooLargeIsNoted(view[k..][..n], limit, view[i]); }
    }
  }

  /** An answer that covers the view from position `k` on. */
  predicate CoversFrom(view: Log, k: int, a: Answer, limit: int) {
    && 0 <= k && 0 <= a.scanned && k + a.scanned <= |view|
    && a.sources == Kept(view[k..][..a.scanned], limit) && a.diagnostics == Notes(view[k..][..a.scanned], limit)
    && (a.more <==> k + a.scanned < |view|)
    && (a.more ==> a.scanned > 0 && a.nextBefore == view[k + a.scanned - 1].sequence)
  }

  predicate CursorBehind(view: Log, k: int, before: int) {
    0 <= k <= |view| && before == if k == 0 then 0 else view[k - 1].sequence
  }

  lemma AnswerCovers(log: Log, scope: Scope, k: nat, before: nat, limits: Limits, a: Answer) returns (own: Limits)
    requires GoodFor(log, scope.owner) && limits.records > 0 && limits.bytes > 0 && !a.failed && Keeps(a, log, scope, before, limits)
    requires CursorBehind(View(log, scope), k, before)
    ensures CoversFrom(View(log, scope), k, a, own.bytes)
  {
    CursorRest(log, scope, k, before);
    own :| Tighter(own, limits) && a == AnswerOf(PageFor(Newest(log, scope.watermark, before), own));
    PageAtMeets(View(log, scope), k, Read([], own, PageFor(View(log, scope)[k..], own)));
  }

  /** What the answer returns is taken in whole. */
  lemma AnswerGathers(r: Reading, view: Log, k: nat, scope: Scope, before: int, limit: int, a: Answer)
    requires GoodView(view, scope) && CursorBehind(view, k, before) && CoversFrom(view, k, a, limit)
    requires Gathered(r, view, k, scope.now) && (Incomplete(a.diagnostics) ==> r.incomplete)
    ensures Gathered(TakeSources(r, a.sources, scope, before), view, k + a.scanned, scope.now)
  {
    PageIsReadable(view, k, a.scanned, limit, scope, before, r);
    StretchGathers(r, view, k, a.scanned, limit, scope, before);
    StretchIsKept(r, view, k, a.scanned, limit, scope, before);
  }

  /** The reading after the page, still in terms of the view. */
  lemma PageGathers(r: Reading, view: Log, scope: Scope, before: int, limit: int, a: Answer)
    requires GoodView(view, scope) && CursorBehind(view, r.scanned, before) && CoversFrom(view, r.scanned, a, limit)
    requires Gathered(r, view, r.scanned, scope.now)
    ensures var next := TakeSources(Opened(r, a), a.sources, scope, before);
            next.scanned == r.scanned + a.scanned && Gathered(next, view, next.scanned, scope.now)
  {
    AnswerGathers(Opened(r, a), view, r.scanned, scope, before, limit, a);
    CountsStay(Opened(r, a), a.sources, scope, before);
  }

  lemma PageConcludes(next: Reading, log: Log, scope: Scope, k: int, a: Answer, limit: int)
    requires GoodFor(log, scope.owner) && CoversFrom(View(log, scope), k, a, limit)
    requires next.scanned == k + a.scanned && Gathered(next, View(log, scope), next.scanned, scope.now)
    ensures a.more ==> Progress(next, log, scope, a.nextBefore)
    ensures Exact(Flagged(next), log, scope) && (!a.more ==> Exact(next, log, scope))
  {
    GatheredIsExact(next, log, scope, next.scanned);
  }

  /** One contract page continues the view. */
  lemma PageMakesProgress(r: Reading, log: Log, scope: Scope, before: int, limits: Limits, a: Answer)
    requires GoodFor(log, scope.owner) && limits.records > 0 && limits.bytes > 0
    requires Progress(r, log, scope, before) && !a.failed && Keeps(a, log, scope, before, limits)
    ensures var next := TakeSources(Opened(r, a), a.sources, scope, before);
            && (a.more ==> Progress(next, log, scope, a.nextBefore))
            && Exact(Flagged(next), log, scope) && (!a.more ==> Exact(next, log, scope))
  {
    ViewIsGood(log, scope);
    var own := AnswerCovers(log, scope, r.scanned, before, limits, a);
    PageGathers(r, View(log, scope), scope, before, own.bytes, a);
    PageConcludes(TakeSources(Opened(r, a), a.sources, scope, before), log, scope, r.scanned, a, own.bytes);
  }

  lemma {:induction false} CountsStay(r: Reading, list: Log, scope: Scope, before: int)
    ensures TakeSources(r, list, scope, before).scanned == r.scanned && TakeSources(r, list, scope, before).bytes == r.bytes
  {
    if list != [] { CountsStay(r, list[..|list| - 1], scope, before); }
  }

  // ---------------------------------------------------------------- the prepared input

  predicate BySequence(x: Source, y: Source) { x.sequence <= y.sequence }

  function Ids(list: Log): set<string> { set s | s in list :: s.id }

  function Uncovered(list: Log, covered: set<string>): Log {
    if list == [] then []
    else Uncovered(list[..|list| - 1], covered) + (if list[|list| - 1].id in covered then [] else [list[|list| - 1]])
  }

  predicate UniqueIds(list: Log) { Pairwise(DifferentIds, list) }

  predicate DifferentIds(x: Source, y: Source) { x.id != y.id }

  lemma {:induction false} UncoveredMembers(list: Log, covered: set<string>)
    ensures forall s :: s in Uncovered(list, covered) <==> s in list && s.id !in covered
  {
    if list != [] {
      var n := |list| - 1;
      UncoveredMembers(list[..n], covered);
      assert list == list[..n] + [list[n]];
    }
  }

  lemma {:induction false} UncoveredPairs(list: Log, covered: set<string>, rel: Order<Source>)
    requires Pairwise(rel, list)
    ensures Pairwise(rel, Uncovered(list, covered))
  {
    if list != [] {
      var n := |list| - 1;
      var rest := Uncovered(list[..n], covered);
      UncoveredPairs(list[..n], covered, rel);
      UncoveredMembers(list[..n], covered);
      forall i | 0 <= i < |rest| ensures rel(rest[i], list[n]) {
        assert rest[i] in list[..n];
        var k :| 0 <= k < n && list[..n][k] == rest[i];
        assert list[k] == rest[i];
      }
    }
  }

  lemma UncoveredIs(list: Log, covered: set<string>)
    ensures forall s :: s in Uncovered(list, covered) <==> s in list && s.id !in covered
    ensures UniqueIds(list) ==> UniqueIds(Uncovered(list, covered))
    ensures Sorted(BySequence, list) ==> Sorted(BySequence, Uncovered(list, covered))
    ensures Ascending(list) ==> Ascending(Uncovered(list, covered))
  {
    UncoveredMembers(list, covered);
    if UniqueIds(list) { UncoveredPairs(list, covered, DifferentIds); }
    if Sorted(BySequence, list) { UncoveredPairs(list, covered, BySequence); }
    if Ascending(list) {
      var earlier: Order<Source> := (x: Source, y: Source) => x.sequence < y.sequence;
      assert Pairwise(earlier, list);
      UncoveredPairs(list, covered, earlier);
      assert forall i, j | 0 <= i < j < |Uncovered(list, covered)| :: earlier(Uncovered(list, covered)[i], Uncovered(list, covered)[j]);
    }
  }

  /** The sources handed to the turn: owned, at or below the watermark, visible, no experiences, not
      covered by the summary, in order and each once. */
  ghost predicate Prepared(sources: Log, scope: Scope, covered: set<string>) {
    && (forall s | s in sources :: Acceptable(s, scope, 0) && Visible(s, scope.now) && !Experience(s) && s.id !in covered)
    && UniqueIds(sources) && Sorted(BySequence, sources)
  }

  /** Nothing of the snapshot is missing without a reason. */
  ghost predicate Accounted(sources: Log, log: Log, scope: Scope, covered: set<string>) {
    forall s | s in log && s.sequence <= scope.watermark && !s.pruned && !s.experience ::
      s in sources || s.id in covered || !Visible(s, scope.now)
  }

  lemma StrictOrder(list: Log, log: Log)
    requires Sorted(BySequence, list) && UniqueIds(list) && Ascending(log) && forall s | s in list :: s in log
    ensures Ascending(list)
  {
    forall i, j | 0 <= i < j < |list| ensures list[i].sequence < list[j].sequence {
      assert BySequence(list[i], list[j]) && DifferentIds(list[i], list[j]);
      assert list[i] in log && list[j] in log;
      var a :| 0 <= a < |log| && log[a] == list[i];
      var b :| 0 <= b < |log| && log[b] == list[j];
      assert a != b;
    }
  }

  lemma SortCollected(collected: Log) returns (sorted: Log)
    requires forall i, j | 0 <= i < j < |collected| :: collected[i].id != collected[j].id
    ensures sorted == StableSort(BySequence, collected)
    ensures Sorted(BySequence, sorted) && UniqueIds(sorted) && forall s :: s in sorted <==> s in collected
  {
    sorted := StableSort(BySequence, collected);
    StableSortSorts(BySequence, collected);
    SortKeepsPairwise(BySequence, DifferentIds, collected);
    forall s ensures s in sorted <==> s in collected { assert s in multiset(sorted) <==> s in multiset(collected); }
  }

  /** What the experience store offers, and what its sources and the instruction for them cost. */
  datatype Recent = Recent(view: Option<E.View>, answer: Option<seq<E.Source>>, authority: nat, cost: E.Cost)

  /** What is told of recent experiences under the budget, and what it leaves for the history. */
  ghost predicate Shared(units: seq<E.Unit>, left: int, maxTokens: int, scope: Scope, recent: Recent) {
    && (recent.view.None? || recent.answer.None? ==> units == [])
    && (recent.view.Some? && recent.answer.Some? ==>
          E.Told(units, StableSort(E.InOrder, recent.answer.value),
                 E.Rules(scope.owner, scope.watermark, recent.view.value,
                         Min(Min(E.MAX_TOKENS, Max(0, maxTokens - recent.authority)), E.MAX_TOKENS), recent.cost)))
    && (units == [] ==> left == maxTokens)
    && (units != [] && recent.cost(units) > 0 ==> left == maxTokens - recent.cost(units) - recent.authority && left >= 0)
    && (maxTokens >= 0 ==> 0 <= left <= maxTokens)
  }

  method ReadPreparedHistory(store: Store, expired: nat -> bool, scan: Scan, scope: Scope, covered: set<string>,
                             maxTokens: int, recent: Recent, ghost log: Log)
    returns (sources: Log, r: Reading, coveredCount: nat, units: seq<E.Unit>, left: int)
    ensures Shared(units, left, maxTokens, scope, recent)
    ensures WithinScan(r, scan) && Prepared(sources, scope, covered)
    ensures |sources| + coveredCount == |r.collected|
    ensures Contract(store, log, scope) ==> Ascending(sources) && forall s | s in sources :: s in log
    ensures Contract(store, log, scope) && !r.incomplete ==> Accounted(sources, log, scope, covered)
  {
    units, left := E.ReadExperiences(scope.owner, scope.watermark, recent.view, recent.answer, maxTokens, recent.authority, recent.cost);
    r := ReadAll(store, expired, scan, scope, log);
    ghost var check := SortCollected(r.collected);
    var sorted := StableSort(BySequence, r.collected);
    sources := Uncovered(sorted, covered);
    UncoveredIs(sorted, covered);
    UncoveredLength(sorted, covered);
    coveredCount := |sorted| - |sources|;
    if Contract(store, log, scope) { StrictOrder(sorted, log); }
  }

  lemma {:induction false} UncoveredLength(list: Log, covered: set<string>)
    ensures |Uncovered(list, covered)| <= |list|
  {
    if list != [] { UncoveredLength(list[..|list| - 1], covered); }
  }

  // ---------------------------------------------------------------- compaction

  datatype Summary = Summary(id: string, refs: seq<string>)

  function Coverage(summary: Option<Summary>): set<string> { if summary.None? then {} else set id | id in summary.value.refs }

  function Count(summary: Option<Summary>): nat { if summary.None? then 0 else |summary.value.refs| }

  datatype Config = Config(enabled: bool, maxTokens: int, keepRecent: int, maxSummaryTokens: int, summarySources: nat, available: bool)

  function TailTarget(c: Config): int
    requires c.maxTokens > 0
  {
    var t := Min(c.keepRecent, c.maxTokens / 10 * 7 + c.maxTokens % 10 * 7 / 10 - c.maxSummaryTokens);
    if t > 0 then t else 0
  }

  /** Where the tail that stays begins: the longest newest run within its target, and at least the newest source. */
  ghost predicate TailFrom(sources: Log, cost: Log -> nat, target: int, start: nat) {
    && start < |sources| && (start > 0 ==> cost(sources[start - 1..]) > target)
    && forall k: nat | start <= k < |sources| - 1 :: cost(sources[k..]) <= target
  }

  /** The tail stays: the longest newest run within its target, and at least the newest source. */
  method TailStart(sources: Log, cost: Log -> nat, target: int) returns (start: nat)
    requires sources != []
    ensures TailFrom(sources, cost, target, start)
  {
    start := |sources| - 1;
    while start > 0
      invariant start < |sources|
      invariant forall k: nat | start <= k < |sources| - 1 :: cost(sources[k..]) <= target
    {
      if cost(sources[start - 1..]) > target { return; }
      start := start - 1;
    }
  }

  /** The request takes candidates in order until the coverage limit or the input limit; None when a
      candidate cannot be encoded. */
  method SelectForRequest(candidates: Log, remaining: int, fits: Log -> Option<bool>) returns (n: Option<nat>)
    ensures n.Some? ==> n.value <= |candidates| && (n.value <= remaining || n.value == 0)
    ensures n.Some? ==> forall k: nat | 0 < k <= n.value :: fits(candidates[..k]) == Some(true)
    ensures n.Some? ==> n.value == |candidates| || n.value >= remaining || fits(candidates[..n.value + 1]) == Some(false)
  {
    var taken: nat := 0;
    while taken < |candidates| && taken < remaining
      invariant taken <= |candidates| && (taken <= remaining || taken == 0)
      invariant forall k: nat | 0 < k <= taken :: fits(candidates[..k]) == Some(true)
    {
      var answer := fits(candidates[..taken + 1]);
      if answer.None? { return None; }
      if !answer.value { break; }
      taken := taken + 1;
    }
    return Some(taken);
  }

  datatype Outcome = Unchanged | Compacted(n: nat)

  /** The summary store's answer to a commit of a prefix: none when it was refused or failed. */
  type Commit = Log -> Option<Summary>

  /** A committed summary covers what its parent covered and what it was given. */
  ghost predicate Cumulative(commit: Commit, parent: Option<Summary>) {
    forall list: Log | commit(list).Some? :: Coverage(commit(list)) == Coverage(parent) + Ids(list)
  }

  method Compact(sources: Log, summary: Option<Summary>, c: Config, total: nat, cooling: bool, failedWatermark: int, lease: bool,
                 cost: Log -> nat, fits: Log -> Option<bool>, generated: bool, commit: Commit)
    returns (after: Log, next: Option<Summary>, outcome: Outcome)
    requires UniqueIds(sources) && (forall s | s in sources :: s.id !in Coverage(summary)) && Cumulative(commit, summary)
    ensures outcome.Unchanged? ==> after == sources && next == summary
    ensures outcome.Compacted? ==>
              && 0 < outcome.n < |sources| && after == sources[outcome.n..]
              && next == commit(sources[..outcome.n]) && Count(summary) + outcome.n <= c.summarySources
    ensures outcome.Compacted? ==>
              c.enabled && c.maxTokens > 0 && lease && total >= c.maxTokens - c.maxTokens / 10 && !cooling
              && sources[|sources| - 1].sequence > failedWatermark
    ensures outcome.Compacted? ==> exists start: nat :: TailFrom(sources, cost, TailTarget(c), start) && outcome.n <= start
    ensures outcome.Compacted? ==> forall k: nat | 0 < k <= outcome.n :: fits(sources[..k]) == Some(true)
    ensures Coverage(next) + Ids(after) == Coverage(summary) + Ids(sources)
  {
    after, next, outcome := sources, summary, Unchanged;
    if !c.enabled || c.maxTokens <= 0 || !lease || total < c.maxTokens - c.maxTokens / 10 || cooling { return; }
    if |sources| < 2 || sources[|sources| - 1].sequence <= failedWatermark || !c.available { return; }
    if Count(summary) >= c.summarySources { return; }
    var start := TailStart(sources, cost, TailTarget(c));
    if start == 0 { return; }
    var n := SelectForRequest(sources[..start], c.summarySources - Count(summary), fits);
    if n.None? || n.value == 0 || !generated { return; }
    var chosen := sources[..start][..n.value];
    assert chosen == sources[..n.value];
    forall k: nat | 0 < k <= n.value ensures fits(sources[..k]) == Some(true) { assert sources[..start][..k] == sources[..k]; }
    var checkpoint := commit(chosen);
    if checkpoint.None? { return; }
    next := checkpoint;
    after := Uncovered(sources, Coverage(next));
    outcome := Compacted(n.value);
    PrefixIsCovered(sources, n.value, Coverage(next), Coverage(summary));
    SplitIds(sources, n.value);
  }

  lemma SplitIds(list: Log, n: nat)
    requires n <= |list|
    ensures Ids(list) == Ids(list[..n]) + Ids(list[n..])
  {
    assert list == list[..n] + list[n..];
  }

  /** Covering a prefix of unique sources leaves exactly the rest. */
  lemma PrefixIsCovered(list: Log, n: nat, covered: set<string>, before: set<string>)
    requires UniqueIds(list) && n <= |list| && covered == before + Ids(list[..n]) && forall s | s in list :: s.id !in before
    ensures Uncovered(list, covered) == list[n..]
  {
    forall i | 0 <= i < |list| ensures list[i].id in covered <==> i < n {
      assert list[i] in list;
      if i < n { assert list[..n][i] == list[i]; }
      if list[i].id in covered {
        var s :| s in list[..n] && s.id == list[i].id;
        var k :| 0 <= k < n && list[..n][k] == s;
        assert k < i ==> DifferentIds(list[k], list[i]);
        assert i < k ==> DifferentIds(list[i], list[k]);
      }
    }
    RestUncovered(list, n, |list|, covered);
    assert list[..|list|] == list && list[n..|list|] == list[n..];
  }

  lemma UncoveredStep(list: Log, m: nat, covered: set<string>)
    requires m < |list|
    ensures list[m].id in covered ==> Uncovered(list[..m + 1], covered) == Uncovered(list[..m], covered)
    ensures list[m].id !in covered ==> Uncovered(list[..m + 1], covered) == Uncovered(list[..m], covered) + [list[m]]
  {
    assert list[..m + 1][..m] == list[..m];
  }

  lemma SliceGrows(list: Log, n: nat, m: nat)
    requires n <= m < |list|
    ensures list[n..m + 1] == list[n..m] + [list[m]]
  {
  }

  lemma {:induction false} RestUncovered(list: Log, n: nat, m: nat, covered: set<string>)
    requires m <= |list| && forall i | 0 <= i < |list| :: list[i].id in covered <==> i < n
    ensures n <= m ==> Uncovered(list[..m], covered) == list[n..m]
    ensures m <= n ==> Uncovered(list[..m], covered) == []
    decreases m
  {
    if m > 0 {
      RestUncovered(list, n, m - 1, covered);
      UncoveredStep(list, m - 1, covered);
      if n < m { SliceGrows(list, n, m - 1); }
    }
  }
}

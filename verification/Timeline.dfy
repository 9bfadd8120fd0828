/** Selection and ordering of remembered turns on one timeline. */
module Timeline {
  import opened Wrappers
  import opened Sorting
  import G = GameTime

  datatype Record = Record(id: string, time: G.Time, sequence: nat, created: int)

  // ---------------------------------------------------------------- orders

  function CompareText(a: string, b: string): int {
    if a == "" && b == "" then 0
    else if a == "" then -1
    else if b == "" then 1
    else if a[0] != b[0] then G.CompareInts(a[0] as int, b[0] as int)
    else CompareText(a[1..], b[1..])
  }

  lemma {:induction false} TextOrder(a: string, b: string, c: string)
    ensures CompareText(a, a) == 0 && CompareText(a, b) == -CompareText(b, a)
    ensures CompareText(a, b) <= 0 && CompareText(b, c) <= 0 ==> CompareText(a, c) <= 0
    ensures CompareText(a, b) == 0 ==> a == b
    decreases |a| + |b| + |c|
  {
    if a != "" && b != "" && c != "" {
      TextOrder(a[1..], b[1..], c[1..]);
      assert a == [a[0]] + a[1..] && b == [b[0]] + b[1..];
    } else if a != "" && b != "" {
      TextOrder(a[1..], b[1..], "");
      assert a == [a[0]] + a[1..] && b == [b[0]] + b[1..];
    } else if a != "" {
      TextOrder(a[1..], "", "");
    }
  }

  predicate CreatedLeq(x: Record, y: Record) {
    x.created < y.created || (x.created == y.created && CompareText(x.id, y.id) <= 0)
  }

  predicate SequenceLeq(x: Record, y: Record) {
    x.sequence < y.sequence || (x.sequence == y.sequence && CreatedLeq(x, y))
  }

  predicate TimeLeq(basis: G.Basis, x: Record, y: Record) {
    var c := G.Compare(basis, x.time, y.time);
    c < 0 || (c == 0 && CreatedLeq(x, y))
  }

  /** Whether a time's whole group carries sequences. */
  predicate Complete(basis: G.Basis, all: multiset<Record>, x: Record) {
    forall r | r in all :: G.Compare(basis, r.time, x.time) == 0 ==> r.sequence != 0
  }

  /** The order the timeline promises: by time; within one time by sequence when the whole group
      has one, and by creation and identifier otherwise. */
  predicate Precedes(basis: G.Basis, all: multiset<Record>, x: Record, y: Record) {
    var c := G.Compare(basis, x.time, y.time);
    c < 0 || (c == 0 && if basis != G.Unknown && Complete(basis, all, x) then SequenceLeq(x, y) else CreatedLeq(x, y))
  }

  lemma CreatedTotal(s: seq<Record>)
    ensures TotalOn(CreatedLeq, s) && TotalOn(SequenceLeq, s)
  {
    forall x: Record, y: Record, z: Record
      ensures CreatedLeq(x, y) || CreatedLeq(y, x)
      ensures CreatedLeq(x, y) && CreatedLeq(y, z) ==> CreatedLeq(x, z)
    {
      TextOrder(x.id, y.id, z.id);
    }
  }

  lemma TimeTotal(basis: G.Basis, s: seq<Record>)
    requires basis == G.Unknown || forall x | x in s :: x.time.Some?
    ensures TotalOn((x, y) => TimeLeq(basis, x, y), s)
  {
    CreatedTotal(s);
    if basis != G.Unknown {
      forall x, y, z | x in s && y in s && z in s
        ensures TimeLeq(basis, x, y) || TimeLeq(basis, y, x)
        ensures TimeLeq(basis, x, y) && TimeLeq(basis, y, z) ==> TimeLeq(basis, x, z)
      {
        G.CompareIsTotalPreorder(basis, x.time, y.time, z.time);
        G.CompareIsTotalPreorder(basis, z.time, y.time, x.time);
      }
    }
  }

  // ---------------------------------------------------------------- selection

  predicate Future(r: Record, current: G.Time) { G.Later(r.time, current) }

  function Present(records: seq<Record>, current: G.Time): seq<Record> {
    if records == [] then []
    else
      var n := |records| - 1;
      Present(records[..n], current) + (if Future(records[n], current) then [] else [records[n]])
  }

  function Times(records: seq<Record>): seq<G.Time> { seq(|records|, k requires 0 <= k < |records| => records[k].time) }

  ghost predicate OnTimeline(basis: G.Basis, s: seq<Record>) {
    forall i, j | 0 <= i < j < |s| :: Precedes(basis, multiset(s), s[i], s[j])
  }

  /** Between the two sorts: everything is in time order, groups before `start` are final, the rest
      is still in creation order, and a time never straddles `start`. */
  ghost predicate Halfway(basis: G.Basis, s: seq<Record>, start: nat) {
    && start <= |s|
    && (forall i, j | 0 <= i < j < start :: Precedes(basis, multiset(s), s[i], s[j]))
    && (forall i, j | start <= i < j < |s| :: TimeLeq(basis, s[i], s[j]))
    && (forall i, j | 0 <= i < start <= j < |s| :: G.Compare(basis, s[i].time, s[j].time) < 0)
  }

  /** The first sort, by time in the shared basis and then by creation. */
  method SortByTime(basis: G.Basis, records: seq<Record>) returns (sorted: seq<Record>)
    requires basis == G.SharedBasis(Times(records))
    ensures multiset(sorted) == multiset(records) && Sorted((x, y) => TimeLeq(basis, x, y), sorted)
    ensures basis != G.Unknown ==> forall x | x in sorted :: x.time.Some?
  {
    if basis != G.Unknown {
      G.KnownBasisMeansPresent(Times(records));
      forall x | x in records ensures x.time.Some? {
        var k :| 0 <= k < |records| && records[k] == x;
        assert Times(records)[k] in Times(records);
      }
    }
    TimeTotal(basis, records);
    StableSortSorts((x, y) => TimeLeq(basis, x, y), records);
    sorted := StableSort((x, y) => TimeLeq(basis, x, y), records);
    forall x | x in sorted ensures x in records { assert x in multiset(records); }
  }

  method SelectTimeline(records: seq<Record>, current: G.Time) returns (selected: seq<Record>)
    ensures multiset(selected) == multiset(Present(records, current))
    ensures OnTimeline(G.SharedBasis(Times(Present(records, current))), selected)
  {
    selected := [];
    assert records[..0] == [];
    for k := 0 to |records|
      invariant selected == Present(records[..k], current)
    {
      assert records[..k + 1][..k] == records[..k];
      if !Future(records[k], current) { selected := selected + [records[k]]; }
    }
    assert records[..|records|] == records;
    ghost var present := selected;
    var basis := G.ComputeSharedBasis(Times(selected));
    selected := SortByTime(basis, selected);
    if basis == G.Unknown { return; }
    var start := 0;
    while start < |selected|
      invariant Halfway(basis, selected, start)
      invariant multiset(selected) == multiset(present)
      invariant forall x | x in selected :: x.time.Some?
      decreases |selected| - start
    {
      selected, start := SortGroup(basis, selected, start);
    }
  }

  /** Finds the group starting at `start` and sorts it by sequence if all of it has one. */
  method SortGroup(basis: G.Basis, before: seq<Record>, start: nat) returns (after: seq<Record>, end: nat)
    requires basis != G.Unknown && start < |before| && Halfway(basis, before, start)
    requires forall x | x in before :: x.time.Some?
    ensures multiset(after) == multiset(before) && |after| == |before| && start < end
    ensures Halfway(basis, after, end)
    ensures forall x | x in after :: x.time.Some?
  {
    var complete;
    end, complete := FindGroup(basis, before, start);
    after := before;
    if complete { after := SortRange(before, start, end); }
    GroupDone(basis, before, after, start, end, complete);
  }

  method FindGroup(basis: G.Basis, s: seq<Record>, start: nat) returns (end: nat, complete: bool)
    requires start < |s| && s[start].time.Some?
    ensures start < end <= |s|
    ensures forall k | start <= k < end :: G.Compare(basis, s[start].time, s[k].time) == 0
    ensures end < |s| ==> G.Compare(basis, s[start].time, s[end].time) != 0
    ensures complete <==> forall k | start <= k < end :: s[k].sequence != 0
  {
    end, complete := start + 1, s[start].sequence != 0;
    G.CompareIsTotalPreorder(basis, s[start].time, s[start].time, s[start].time);
    while end < |s| && G.Compare(basis, s[start].time, s[end].time) == 0
      invariant start < end <= |s|
      invariant forall k | start <= k < end :: G.Compare(basis, s[start].time, s[k].time) == 0
      invariant complete <==> forall k | start <= k < end :: s[k].sequence != 0
    {
      complete := complete && s[end].sequence != 0;
      end := end + 1;
    }
  }

  method SortRange(before: seq<Record>, start: nat, end: nat) returns (after: seq<Record>)
    requires start < end <= |before|
    ensures |after| == |before| && multiset(after) == multiset(before)
    ensures after[..start] == before[..start] && after[end..] == before[end..]
    ensures multiset(after[start..end]) == multiset(before[start..end]) && Sorted(SequenceLeq, after[start..end])
  {
    var group := before[start..end];
    CreatedTotal(group);
    StableSortSorts(SequenceLeq, group);
    var sorted := StableSort(SequenceLeq, group);
    after := before[..start] + sorted + before[end..];
    assert after[start..end] == sorted;
    assert before == before[..start] + group + before[end..];
  }

  /** The records of a group: equal to its first in time; everything later is strictly later. */
  lemma GroupBounds(basis: G.Basis, s: seq<Record>, start: nat, end: nat)
    requires basis != G.Unknown && start < end <= |s| && Halfway(basis, s, start)
    requires forall x | x in s :: x.time.Some?
    requires forall k | start <= k < end :: G.Compare(basis, s[start].time, s[k].time) == 0
    requires end < |s| ==> G.Compare(basis, s[start].time, s[end].time) != 0
    ensures forall k | end <= k < |s| :: G.Compare(basis, s[start].time, s[k].time) < 0
    ensures forall k | 0 <= k < start :: G.Compare(basis, s[k].time, s[start].time) < 0
  {
    forall k | end <= k < |s| ensures G.Compare(basis, s[start].time, s[k].time) < 0 {
      assert TimeLeq(basis, s[start], s[end]);
      if k > end {
        assert TimeLeq(basis, s[end], s[k]);
        G.CompareIsTotalPreorder(basis, s[start].time, s[end].time, s[k].time);
      }
    }
  }

  lemma GroupDone(basis: G.Basis, before: seq<Record>, after: seq<Record>, start: nat, end: nat, complete: bool)
    requires basis != G.Unknown && start < end <= |before| && Halfway(basis, before, start)
    requires forall x | x in before :: x.time.Some?
    requires forall k | start <= k < end :: G.Compare(basis, before[start].time, before[k].time) == 0
    requires end < |before| ==> G.Compare(basis, before[start].time, before[end].time) != 0
    requires complete <==> forall k | start <= k < end :: before[k].sequence != 0
    requires |after| == |before| && multiset(after) == multiset(before)
    requires after[..start] == before[..start] && after[end..] == before[end..]
    requires if complete then multiset(after[start..end]) == multiset(before[start..end]) && Sorted(SequenceLeq, after[start..end])
             else after == before
    ensures Halfway(basis, after, end)
    ensures forall x | x in after :: x.time.Some?
  {
    GroupBounds(basis, before, start, end);
    forall x | x in after ensures x.time.Some? {
      assert x in multiset(before);
    }
    AroundPivot(basis, before, after, start, end);
    GroupIsComplete(basis, before, start, end, complete);
    forall i, j | 0 <= i < j < end ensures Precedes(basis, multiset(after), after[i], after[j]) {
      if start <= i {
        InGroup(basis, before, after, start, end, complete, i, j);
      } else if j < start {
        assert after[i] == before[i] && after[j] == before[j];
      } else {
        G.CompareIsTotalPreorder(basis, after[i].time, before[start].time, after[j].time);
      }
    }
    forall i, j | 0 <= i < end <= j < |after| ensures G.Compare(basis, after[i].time, after[j].time) < 0 {
      G.CompareIsTotalPreorder(basis, after[i].time, before[start].time, after[j].time);
    }
    forall i, j | end <= i < j < |after| ensures TimeLeq(basis, after[i], after[j]) {
      assert after[i] == before[i] && after[j] == before[j];
    }
  }

  lemma AroundPivot(basis: G.Basis, before: seq<Record>, after: seq<Record>, start: nat, end: nat)
    requires start < end <= |before| == |after|
    requires forall x | x in before :: x.time.Some?
    requires after[..start] == before[..start] && after[end..] == before[end..]
    requires multiset(after[start..end]) == multiset(before[start..end])
    requires forall k | start <= k < end :: G.Compare(basis, before[start].time, before[k].time) == 0
    requires forall k | end <= k < |before| :: G.Compare(basis, before[start].time, before[k].time) < 0
    requires forall k | 0 <= k < start :: G.Compare(basis, before[k].time, before[start].time) < 0
    ensures forall k | 0 <= k < start :: after[k] == before[k] && G.Compare(basis, after[k].time, before[start].time) < 0
    ensures forall k | start <= k < end ::
              G.Compare(basis, after[k].time, before[start].time) == 0 && G.Compare(basis, before[start].time, after[k].time) == 0
    ensures forall k | end <= k < |after| :: after[k] == before[k] && G.Compare(basis, before[start].time, after[k].time) < 0
  {
    forall k | 0 <= k < |after|
      ensures k < start || end <= k ==> after[k] == before[k]
      ensures start <= k < end ==>
                G.Compare(basis, after[k].time, before[start].time) == 0 && G.Compare(basis, before[start].time, after[k].time) == 0
    {
      Position(before, after, start, end, k);
      if start <= k < end {
        var j :| start <= j < end && before[j] == after[k];
        G.CompareIsTotalPreorder(basis, before[start].time, before[j].time, before[start].time);
      }
    }
  }

  lemma InGroup(basis: G.Basis, before: seq<Record>, after: seq<Record>, start: nat, end: nat, complete: bool, i: nat, j: nat)
    requires basis != G.Unknown && start <= i < j < end <= |before| == |after| && multiset(after) == multiset(before)
    requires forall x | x in before :: x.time.Some?
    requires forall k | start <= k < end ::
               G.Compare(basis, after[k].time, before[start].time) == 0 && G.Compare(basis, before[start].time, after[k].time) == 0
    requires complete <==> Complete(basis, multiset(before), before[start])
    requires if complete then Sorted(SequenceLeq, after[start..end]) else TimeLeq(basis, after[i], after[j])
    ensures Precedes(basis, multiset(after), after[i], after[j])
  {
    assert forall x | x in multiset(before) :: x in before;
    assert after[i] in multiset(after) && after[j] in multiset(after);
    G.CompareIsTotalPreorder(basis, after[i].time, before[start].time, after[j].time);
    G.CompareIsTotalPreorder(basis, after[j].time, before[start].time, after[i].time);
    SameGroup(basis, multiset(before), before[start], after[i]);
    if complete {
      assert after[i] == after[start..end][i - start] && after[j] == after[start..end][j - start];
    }
  }

  /** Where the record at `k` of the rewritten list comes from. */
  lemma Position(before: seq<Record>, after: seq<Record>, start: nat, end: nat, k: nat)
    requires start < end <= |before| == |after| && k < |after|
    requires after[..start] == before[..start] && after[end..] == before[end..]
    requires multiset(after[start..end]) == multiset(before[start..end])
    ensures k < start ==> after[k] == before[k]
    ensures end <= k ==> after[k] == before[k]
    ensures start <= k < end ==> exists j :: start <= j < end && before[j] == after[k]
  {
    if k < start {
      assert after[k] == after[..start][k];
    } else if end <= k {
      assert after[k] == after[end..][k - end];
    } else {
      assert after[start..end][k - start] in multiset(before[start..end]);
      var j :| 0 <= j < end - start && before[start..end][j] == after[k];
      assert before[start + j] == after[k];
    }
  }

  /** A group found by scanning is the whole group: nothing outside it has its time. */
  lemma GroupIsComplete(basis: G.Basis, s: seq<Record>, start: nat, end: nat, complete: bool)
    requires basis != G.Unknown && start < end <= |s| && Halfway(basis, s, start)
    requires forall x | x in s :: x.time.Some?
    requires forall k | start <= k < end :: G.Compare(basis, s[start].time, s[k].time) == 0
    requires end < |s| ==> G.Compare(basis, s[start].time, s[end].time) != 0
    requires complete <==> forall k | start <= k < end :: s[k].sequence != 0
    ensures complete <==> Complete(basis, multiset(s), s[start])
  {
    GroupBounds(basis, s, start, end);
    forall k | 0 <= k < |s|
      ensures G.Compare(basis, s[k].time, s[start].time) == 0 <==> start <= k < end
    {
      G.CompareIsTotalPreorder(basis, s[start].time, s[k].time, s[start].time);
    }
    if complete {
      forall r | r in multiset(s) && G.Compare(basis, r.time, s[start].time) == 0 ensures r.sequence != 0 {
        var k :| 0 <= k < |s| && s[k] == r;
      }
    } else {
      var k :| start <= k < end && s[k].sequence == 0;
      assert s[k] in multiset(s);
    }
  }

  /** Completeness is a property of the time, not of the record. */
  lemma SameGroup(basis: G.Basis, all: multiset<Record>, x: Record, y: Record)
    requires x.time.Some? && y.time.Some? && forall r | r in all :: r.time.Some?
    requires G.Compare(basis, x.time, y.time) == 0 && G.Compare(basis, y.time, x.time) == 0
    ensures Complete(basis, all, x) <==> Complete(basis, all, y)
  {
    forall r | r in all
      ensures G.Compare(basis, r.time, x.time) == 0 <==> G.Compare(basis, r.time, y.time) == 0
    {
      G.CompareIsTotalPreorder(basis, r.time, x.time, y.time);
      G.CompareIsTotalPreorder(basis, y.time, x.time, r.time);
      G.CompareIsTotalPreorder(basis, r.time, y.time, x.time);
      G.CompareIsTotalPreorder(basis, x.time, y.time, r.time);
    }
  }
}

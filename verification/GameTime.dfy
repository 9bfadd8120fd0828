/** Game times with optional fields, and the comparison basis a set of them shares. */
module GameTime {
  import opened Wrappers

  datatype Field = Year | Season | Day | Hour | Minute | Tick

  /** Which fields a snapshot declares: none at all (the first format), a set of them, or a mask
      with bits outside the six. */
  datatype Presence = Undeclared | Declared(fields: set<Field>) | Foreign

  datatype Snapshot = Snapshot(year: int, season: int, day: int, hour: int, minute: int, tick: int, presence: Presence)

  type Time = Option<Snapshot>

  const CALENDAR: set<Field> := {Year, Season, Day, Hour, Minute}

  datatype Basis = Unknown | Calendar | CalendarWithTick | TickOnly

  function PresentFields(t: Time): set<Field> {
    if t.None? then {}
    else match t.value.presence
         case Foreign => {}
         case Declared(fields) => fields
         case Undeclared =>
           if t.value.year == 0 && t.value.season == 0 && t.value.day == 0
              && t.value.hour == 0 && t.value.minute == 0 && t.value.tick == 0
           then {} else CALENDAR + {Tick}
  }

  predicate HasCalendar(t: Time) { CALENDAR <= PresentFields(t) }

  predicate HasTick(t: Time) { Tick in PresentFields(t) }

  predicate HasOnlyTick(t: Time) { PresentFields(t) == {Tick} }

  /** One basis for a whole set of times: the finest one all of them support. */
  function SharedBasis(values: seq<Time>): (basis: Basis)
  {
    if values == [] then Unknown
    else if forall t | t in values :: HasCalendar(t) then
      if forall t | t in values :: HasTick(t) then CalendarWithTick else Calendar
    else if forall t | t in values :: HasOnlyTick(t) then TickOnly
    else Unknown
  }

  method ComputeSharedBasis(values: seq<Time>) returns (basis: Basis)
    ensures basis == SharedBasis(values)
  {
    if values == [] { return Unknown; }
    var calendar, withTick, tickOnly := true, true, true;
    for k := 0 to |values|
      invariant calendar <==> forall t | t in values[..k] :: HasCalendar(t)
      invariant withTick <==> forall t | t in values[..k] :: HasTick(t)
      invariant tickOnly <==> forall t | t in values[..k] :: HasOnlyTick(t)
    {
      assert values[..k + 1] == values[..k] + [values[k]];
      calendar := calendar && HasCalendar(values[k]);
      withTick := withTick && HasTick(values[k]);
      tickOnly := tickOnly && HasOnlyTick(values[k]);
    }
    assert values[..|values|] == values;
    if calendar { return if withTick then CalendarWithTick else Calendar; }
    if tickOnly { return TickOnly; }
    return Unknown;
  }

  function CompareInts(a: int, b: int): int { if a < b then -1 else if a > b then 1 else 0 }

  function CompareLists(a: seq<int>, b: seq<int>): int
    requires |a| == |b|
  {
    if a == [] then 0
    else if a[0] != b[0] then CompareInts(a[0], b[0])
    else CompareLists(a[1..], b[1..])
  }

  /** The numbers a basis compares, most significant first. */
  function Key(basis: Basis, s: Snapshot): (key: seq<int>)
    ensures |key| == match basis case Unknown => 0 case TickOnly => 1 case Calendar => 5 case CalendarWithTick => 6
  {
    match basis
    case Unknown => []
    case TickOnly => [s.tick]
    case Calendar => [s.year, s.season, s.day, s.hour, s.minute]
    case CalendarWithTick => [s.year, s.season, s.day, s.hour, s.minute, s.tick]
  }

  function Compare(basis: Basis, left: Time, right: Time): int {
    if basis.Unknown? || left.None? || right.None? then 0
    else
      var l, r := left.value, right.value;
      var calendar := if basis.TickOnly? then 0 else CompareCalendar(l, r);
      if calendar != 0 then calendar
      else if basis.Calendar? then 0
      else CompareInts(l.tick, r.tick)
  }

  lemma CompareCons(a: int, b: int, x: seq<int>, y: seq<int>)
    requires |x| == |y|
    ensures CompareLists([a] + x, [b] + y) == if a != b then CompareInts(a, b) else CompareLists(x, y)
  {
    assert ([a] + x)[1..] == x && ([b] + y)[1..] == y;
  }

  function CompareDate(l: Snapshot, r: Snapshot): int {
    if l.year != r.year then CompareInts(l.year, r.year)
    else if l.season != r.season then CompareInts(l.season, r.season)
    else CompareInts(l.day, r.day)
  }

  function CompareClock(l: Snapshot, r: Snapshot): int {
    if l.hour != r.hour then CompareInts(l.hour, r.hour) else CompareInts(l.minute, r.minute)
  }

  function CompareCalendar(l: Snapshot, r: Snapshot): int {
    if CompareDate(l, r) != 0 then CompareDate(l, r) else CompareClock(l, r)
  }

  lemma ThreeInFront(a: int, b: int, c: int, rest: seq<int>)
    ensures [a, b, c] + rest == [a] + ([b] + ([c] + rest))
  {
  }

  lemma DateIsLexicographic(l: Snapshot, r: Snapshot, x: seq<int>, y: seq<int>)
    requires |x| == |y|
    ensures CompareLists([l.year, l.season, l.day] + x, [r.year, r.season, r.day] + y) ==
            if CompareDate(l, r) != 0 then CompareDate(l, r) else CompareLists(x, y)
  {
    CompareCons(l.day, r.day, x, y);
    CompareCons(l.season, r.season, [l.day] + x, [r.day] + y);
    CompareCons(l.year, r.year, [l.season] + ([l.day] + x), [r.season] + ([r.day] + y));
    ThreeInFront(l.year, l.season, l.day, x);
    ThreeInFront(r.year, r.season, r.day, y);
  }

  lemma ClockIsLexicographic(l: Snapshot, r: Snapshot, x: seq<int>, y: seq<int>)
    requires |x| == |y|
    ensures CompareLists([l.hour, l.minute] + x, [r.hour, r.minute] + y) ==
            if CompareClock(l, r) != 0 then CompareClock(l, r) else CompareLists(x, y)
  {
    CompareCons(l.minute, r.minute, x, y);
    CompareCons(l.hour, r.hour, [l.minute] + x, [r.minute] + y);
    assert [l.hour, l.minute] + x == [l.hour] + ([l.minute] + x);
    assert [r.hour, r.minute] + y == [r.hour] + ([r.minute] + y);
  }

  /** Comparison is lexicographic comparison of the basis's keys. */
  lemma CompareIsLexicographic(basis: Basis, l: Snapshot, r: Snapshot)
    ensures Compare(basis, Some(l), Some(r)) == CompareLists(Key(basis, l), Key(basis, r))
  {
    var x, y := if basis.Calendar? then [] else [l.tick], if basis.Calendar? then [] else [r.tick];
    CompareCons(l.tick, r.tick, [], []);
    assert [l.tick] + [] == [l.tick] && [r.tick] + [] == [r.tick];
    if basis.Calendar? || basis.CalendarWithTick? {
      ClockIsLexicographic(l, r, x, y);
      DateIsLexicographic(l, r, [l.hour, l.minute] + x, [r.hour, r.minute] + y);
      assert Key(basis, l) == [l.year, l.season, l.day] + ([l.hour, l.minute] + x);
      assert Key(basis, r) == [r.year, r.season, r.day] + ([r.hour, r.minute] + y);
    }
  }

  lemma {:induction false} ListOrder(a: seq<int>, b: seq<int>, c: seq<int>)
    requires |a| == |b| == |c|
    ensures CompareLists(a, a) == 0 && CompareLists(a, b) == -CompareLists(b, a)
    ensures CompareLists(a, b) == 0 <==> a == b
    ensures CompareLists(a, b) <= 0 && CompareLists(b, c) <= 0 ==> CompareLists(a, c) <= 0
    ensures CompareLists(a, b) < 0 && CompareLists(b, c) <= 0 ==> CompareLists(a, c) < 0
    ensures CompareLists(a, b) <= 0 && CompareLists(b, c) < 0 ==> CompareLists(a, c) < 0
  {
    if a != [] {
      ListOrder(a[1..], b[1..], c[1..]);
      assert a == [a[0]] + a[1..] && b == [b[0]] + b[1..];
    }
  }

  /** Total preorder on present times: reflexive, total through antisymmetry of sign, transitive. */
  lemma CompareIsTotalPreorder(basis: Basis, a: Time, b: Time, c: Time)
    requires a.Some? && b.Some? && c.Some?
    ensures Compare(basis, a, a) == 0 && Compare(basis, a, b) == -Compare(basis, b, a)
    ensures Compare(basis, a, b) <= 0 && Compare(basis, b, c) <= 0 ==> Compare(basis, a, c) <= 0
    ensures Compare(basis, a, b) < 0 && Compare(basis, b, c) <= 0 ==> Compare(basis, a, c) < 0
    ensures Compare(basis, a, b) <= 0 && Compare(basis, b, c) < 0 ==> Compare(basis, a, c) < 0
  {
    CompareIsLexicographic(basis, a.value, a.value);
    CompareIsLexicographic(basis, a.value, b.value);
    CompareIsLexicographic(basis, b.value, a.value);
    CompareIsLexicographic(basis, b.value, c.value);
    CompareIsLexicographic(basis, a.value, c.value);
    ListOrder(Key(basis, a.value), Key(basis, b.value), Key(basis, c.value));
    ListOrder(Key(basis, b.value), Key(basis, a.value), Key(basis, b.value));
  }

  /** A set with a known basis has no absent time, so the preorder covers all of it. */
  lemma KnownBasisMeansPresent(values: seq<Time>)
    requires SharedBasis(values) != Unknown
    ensures forall t | t in values :: t.Some?
  {
    assert values[0] in values;
    forall t | t in values ensures t.Some? {
      assert HasCalendar(t) || HasOnlyTick(t);
      assert Year in CALENDAR;
      assert Year in PresentFields(t) || Tick in PresentFields(t);
    }
  }

  /** With absent times admitted, transitivity holds exactly for the unknown basis. */
  lemma AbsentTimesBreakTheOrder(basis: Basis)
    ensures basis == Unknown <==>
              forall a: Time, b: Time, c: Time ::
                Compare(basis, a, b) <= 0 && Compare(basis, b, c) <= 0 ==> Compare(basis, a, c) <= 0
  {
    var late := Some(Snapshot(1, 0, 0, 0, 0, 1, Undeclared));
    var early := Some(Snapshot(0, 0, 0, 0, 0, 0, Undeclared));
    if basis != Unknown {
      assert Compare(basis, late, None) <= 0 && Compare(basis, None, early) <= 0 && Compare(basis, late, early) > 0;
    }
  }

  // ---------------------------------------------------------------- visibility

  /** A source is hidden by any of its times known to be later than now; it is unknown when any of
      them cannot be compared with now. */
  predicate Later(t: Time, current: Time) { Compare(SharedBasis([t, current]), t, current) > 0 }

  predicate Incomparable(t: Time, current: Time) { SharedBasis([t, current]) == Unknown }

  function Visible(times: seq<Time>, current: Time): bool { forall t | t in times :: !Later(t, current) }

  function UnknownTime(times: seq<Time>, current: Time): bool { times == [] || exists t | t in times :: Incomparable(t, current) }

  method HistoryVisibility(times: seq<Time>, current: Time) returns (visible: bool, unknown: bool)
    ensures visible == Visible(times, current) && unknown == UnknownTime(times, current)
  {
    visible, unknown := true, false;
    if times == [] { return true, true; }
    for k := 0 to |times|
      invariant visible <==> forall t | t in times[..k] :: !Later(t, current)
      invariant unknown <==> exists t | t in times[..k] :: Incomparable(t, current)
    {
      assert times[..k + 1] == times[..k] + [times[k]];
      assert forall t :: t in times[..k + 1] <==> t in times[..k] || t == times[k];
      var basis := ComputeSharedBasis([times[k], current]);
      assert Later(times[k], current) <==> Compare(basis, times[k], current) > 0;
      assert Incomparable(times[k], current) <==> basis == Unknown;
      unknown := unknown || basis == Unknown;
      if Compare(basis, times[k], current) > 0 { visible := false; }
    }
    assert times[..|times|] == times;
  }
}

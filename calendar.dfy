/**
 * Day arithmetic of src/context/AppContext.jsx: the inclusive day span of the selected
 * date range (`calculateDaysBetween`) and the sorted list of days that hold rentals.
 * Instants are milliseconds since the epoch; a day is numbered by floor division.
 */
module Calendar {
  import opened Wrappers
  import opened Ledger

  const MsPerDay := 1000 * 60 * 60 * 24

  function Abs(x: int): nat {
    if x < 0 then -x else x
  }

  /**
   * `calculateDaysBetween`: 0 when an endpoint is unset, otherwise ceil(|end - start| / one day) + 1.
   * The second ensures is the meaning of the ceiling: n - 1 is the least number of whole days
   * that covers the gap.
   */
  function DaysBetween(range: DateRange): (n: nat)
    ensures range.startDate.None? || range.endDate.None? ==> n == 0
    ensures range.startDate.Some? && range.endDate.Some? ==>
      var gap := Abs(range.endDate.value - range.startDate.value);
      n >= 1 && (n - 2) * MsPerDay < gap <= (n - 1) * MsPerDay
  {
    if range.startDate.None? || range.endDate.None? then 0
    else
      var gap := Abs(range.endDate.value - range.startDate.value);
      (gap + MsPerDay - 1) / MsPerDay + 1
  }

  /** The span does not depend on which endpoint comes first. */
  lemma DaysBetweenSymmetric(a: Option<int>, b: Option<int>)
    ensures DaysBetween(DateRange(a, b)) == DaysBetween(DateRange(b, a))
  {
  }

  /** A range whose endpoints coincide spans one day. */
  lemma DaysBetweenSameInstant(t: int)
    ensures DaysBetween(DateRange(Some(t), Some(t))) == 1
  {
  }

  /** Two midnights d days apart span d + 1 days, and an unset endpoint spans none. */
  lemma DaysBetweenWholeDays(start: int, d: nat, other: Option<int>)
    ensures DaysBetween(DateRange(Some(start), Some(start + d * MsPerDay))) == d + 1
    ensures DaysBetween(DateRange(None, other)) == 0 && DaysBetween(DateRange(other, None)) == 0
  {
  }

  /** The calendar day (`yyyy-MM-dd` in the local zone) of an instant, for a zone `utcOffset` ms ahead of UTC. */
  function DayOf(instant: int, utcOffset: int): (d: int)
    ensures d * MsPerDay <= instant + utcOffset < (d + 1) * MsPerDay
  {
    (instant + utcOffset) / MsPerDay
  }

  /** The days on which the records with a `createdAt` were created. */
  ghost function DaySet(docs: seq<Record>, utcOffset: int): set<int> {
    set r | r in docs && r.createdAt.Some? :: DayOf(r.createdAt.value, utcOffset)
  }

  predicate StrictlyIncreasing(s: seq<int>) {
    forall i, j :: 0 <= i < j < |s| ==> s[i] < s[j]
  }

  /** Every non-empty finite set of days has a least element. */
  lemma {:induction false} HasMinimum(days: set<int>)
    requires days != {}
    ensures exists m :: m in days && forall d :: d in days ==> m <= d
    decreases |days|
  {
    assert (forall d :: d !in days) ==> days == {};
    var x :| x in days;
    if days != {x} {
      var rest := days - {x};
      assert days == rest + {x};
      HasMinimum(rest);
      var m :| m in rest && forall d :: d in rest ==> m <= d;
      var least := if x < m then x else m;
      assert least in days && forall d :: d in days ==> least <= d;
    }
  }

  /** `Array.from(dates).sort()`: the days of a set in ascending order, each once. */
  method SortDays(days: set<int>) returns (sorted: seq<int>)
    ensures StrictlyIncreasing(sorted)
    ensures forall d :: d in sorted <==> d in days
  {
    sorted := [];
    var rest := days;
    while rest != {}
      invariant rest <= days
      invariant forall d :: d in sorted <==> d in days && d !in rest
      invariant StrictlyIncreasing(sorted)
      invariant forall x, y :: x in sorted && y in rest ==> x < y
      decreases |rest|
    {
      HasMinimum(rest);
      var m :| m in rest && forall d :: d in rest ==> m <= d;
      assert forall i :: 0 <= i < |sorted| ==> sorted[i] in sorted;
      sorted := sorted + [m];
      rest := rest - {m};
    }
  }

  /**
   * The unique-dates listener: collect the day of every record that has a `createdAt`
   * into a set, then list the set in ascending order.
   */
  method UniqueDates(docs: seq<Record>, utcOffset: int) returns (dates: seq<int>)
    ensures StrictlyIncreasing(dates)
    ensures forall d :: d in dates <==> d in DaySet(docs, utcOffset)
  {
    var days: set<int> := {};
    for i := 0 to |docs|
      invariant days == DaySet(docs[..i], utcOffset)
    {
      assert docs[..i + 1] == docs[..i] + [docs[i]];
      if docs[i].createdAt.Some? {
        days := days + {DayOf(docs[i].createdAt.value, utcOffset)};
      }
    }
    assert docs[..|docs|] == docs;
    dates := SortDays(days);
  }

  /** Every record that has a `createdAt` has its day listed, and a strictly increasing list has no repeats. */
  lemma UniqueDatesCover(docs: seq<Record>, utcOffset: int, dates: seq<int>, r: Record)
    requires StrictlyIncreasing(dates) && (forall d :: d in dates <==> d in DaySet(docs, utcOffset))
    requires r in docs && r.createdAt.Some?
    ensures DayOf(r.createdAt.value, utcOffset) in dates
    ensures forall i, j :: 0 <= i < |dates| && 0 <= j < |dates| && i != j ==> dates[i] != dates[j]
  {
    assert DayOf(r.createdAt.value, utcOffset) in DaySet(docs, utcOffset);
    forall i, j | 0 <= i < |dates| && 0 <= j < |dates| && i != j ensures dates[i] != dates[j] {
      if i < j { assert dates[i] < dates[j]; } else { assert dates[j] < dates[i]; }
    }
  }
}

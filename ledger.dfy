/**
 * The rental records of the daily ledger (src/context/AppContext.jsx) and the pure
 * list operations that the ledger's mutations perform on them: the paid-revenue fold,
 * lookup by id, removal by id and merging a patch into the records with an id.
 */
module Ledger {
  import opened Wrappers

  /** Status labels; the source stores the status as a free string. */
  const Paid := "paid"
  const Pending := "pending"

  /** A date range as the date pickers hold it: either endpoint may be unset (null). Instants are milliseconds. */
  datatype DateRange = DateRange(startDate: Option<int>, endDate: Option<int>)

  /** One rental record (a `rental_info` document together with its id). */
  datatype Record = Record(
    id: string,
    name: string,
    amount: int,
    status: string,
    hours: int,
    dateRange: Option<DateRange>,
    createdAt: Option<int>,
    userId: string,
    hasWarning: bool,
    phone: Option<string>)

  /** What the rental form hands to `addCustomer`. */
  datatype Payload = Payload(name: string, amount: int, hours: int, status: string, dateRange: Option<DateRange>)

  /** The keys a caller of `updateCustomer` may set; an absent key is `None`. */
  datatype Patch = Patch(
    name: Option<string>,
    amount: Option<int>,
    status: Option<string>,
    hours: Option<int>,
    phone: Option<string>)

  /** What a record contributes to the day's revenue. */
  function PaidAmount(r: Record): int {
    if r.status == Paid then r.amount else 0
  }

  /** The day's revenue: the sum of `amount` over the records whose status is paid. */
  ghost function PaidSum(s: seq<Record>): int {
    if s == [] then 0 else PaidAmount(s[0]) + PaidSum(s[1..])
  }

  predicate HasId(s: seq<Record>, id: string) {
    exists i :: 0 <= i < |s| && s[i].id == id
  }

  /** Store-assigned document ids are distinct. */
  ghost predicate UniqueIds(s: seq<Record>) {
    forall i, j :: 0 <= i < |s| && 0 <= j < |s| && s[i].id == s[j].id ==> i == j
  }

  /** Lookup by id in `updateCustomer` and `deleteCustomer`: the first record carrying the id, if any. */
  function Find(s: seq<Record>, id: string): (r: Option<Record>)
    ensures r.None? <==> !HasId(s, id)
    ensures r.Some? ==> r.value.id == id && r.value in s
    ensures r.Some? ==> exists i :: 0 <= i < |s| && s[i] == r.value && forall j :: 0 <= j < i ==> s[j].id != id
  {
    if s == [] then None
    else if s[0].id == id then Some(s[0])
    else
      var r := Find(s[1..], id);
      assert HasId(s, id) ==> HasId(s[1..], id) by {
        if HasId(s, id) {
          var i :| 0 <= i < |s| && s[i].id == id;
          assert s[1..][i - 1].id == id;
        }
      }
      assert r.Some? ==> exists i :: 0 <= i < |s| && s[i] == r.value && forall j :: 0 <= j < i ==> s[j].id != id by {
        if r.Some? {
          var k :| 0 <= k < |s[1..]| && s[1..][k] == r.value && forall j :: 0 <= j < k ==> s[1..][j].id != id;
          assert s[k + 1] == r.value;
          assert forall j :: 0 <= j < k + 1 ==> s[j].id != id by {
            forall j | 0 <= j < k + 1 ensures s[j].id != id {
              if j > 0 { assert s[j] == s[1..][j - 1]; }
            }
          }
        }
      }
      r
  }

  /** The list `deleteCustomer` keeps: every record whose id differs, in order. */
  function Remove(s: seq<Record>, id: string): (r: seq<Record>)
    ensures forall x :: x in r <==> x in s && x.id != id
    ensures |r| <= |s|
    ensures !HasId(s, id) ==> r == s
  {
    if s == [] then []
    else
      assert !HasId(s, id) ==> !HasId(s[1..], id) by {
        if HasId(s[1..], id) {
          var i :| 0 <= i < |s[1..]| && s[1..][i].id == id;
          assert s[i + 1].id == id;
        }
      }
      if s[0].id == id then Remove(s[1..], id) else [s[0]] + Remove(s[1..], id)
  }

  /** Spreading a patch over a record: every key present in the patch overrides the record's value. */
  function Merge(r: Record, p: Patch): (m: Record)
    ensures m.id == r.id && m.createdAt == r.createdAt && m.userId == r.userId && m.dateRange == r.dateRange
    ensures m.hasWarning == r.hasWarning
    ensures m.name == (if p.name.Some? then p.name.value else r.name)
    ensures m.amount == (if p.amount.Some? then p.amount.value else r.amount)
    ensures m.status == (if p.status.Some? then p.status.value else r.status)
    ensures m.hours == (if p.hours.Some? then p.hours.value else r.hours)
    ensures m.phone == (if p.phone.Some? then p.phone else r.phone)
  {
    r.(name := p.name.GetOr(r.name),
       amount := p.amount.GetOr(r.amount),
       status := p.status.GetOr(r.status),
       hours := p.hours.GetOr(r.hours),
       phone := if p.phone.Some? then p.phone else r.phone)
  }

  /** The list `updateCustomer` writes back: the patch merged into every record with the id, the rest as they were. */
  function ApplyPatch(s: seq<Record>, id: string, p: Patch): (r: seq<Record>)
    ensures |r| == |s|
    ensures forall i :: 0 <= i < |s| ==> r[i] == if s[i].id == id then Merge(s[i], p) else s[i]
  {
    if s == [] then []
    else [if s[0].id == id then Merge(s[0], p) else s[0]] + ApplyPatch(s[1..], id, p)
  }

  /** A patch that makes `updateCustomer` adjust the revenue: its status is paid or pending. */
  predicate IsStatusPatch(p: Patch) {
    p.status == Some(Paid) || p.status == Some(Pending)
  }

  /**
   * The amount `updateCustomer` adds back after a status patch: when the new status is paid, the
   * patch amount if it is truthy, else the record's amount, so an absent OR ZERO patch amount falls back.
   */
  function NewPaidAmount(rec: Record, p: Patch): (a: int)
    ensures p.status != Some(Paid) ==> a == 0
    ensures p.status == Some(Paid) && p.amount != Some(0) ==> a == PaidAmount(Merge(rec, p))
    ensures p.status == Some(Paid) && p.amount == Some(0) ==> a == rec.amount
  {
    if p.status == Some(Paid) then
      (if p.amount.Some? && p.amount.value != 0 then p.amount.value else rec.amount)
    else 0
  }

  /**
   * The patches for which `updateCustomer`'s revenue change is exact: a status patch, unless it
   * sets status paid with amount 0, and a patch that touches neither status nor amount.
   */
  predicate KeepsRevenue(p: Patch) {
    (IsStatusPatch(p) && (p.status == Some(Pending) || p.amount != Some(0))) ||
    (p.status.None? && p.amount.None?)
  }

  /**
   * The change `updateCustomer` applies to `totalRevenue`: nothing unless the patch sets status
   * paid or pending; for the patches of `KeepsRevenue` it is the record's change of paid amount.
   */
  function RevenueDelta(rec: Record, p: Patch): (d: int)
    ensures !IsStatusPatch(p) ==> d == 0
    ensures KeepsRevenue(p) ==> d == PaidAmount(Merge(rec, p)) - PaidAmount(rec)
  {
    if IsStatusPatch(p) then NewPaidAmount(rec, p) - PaidAmount(rec) else 0
  }

  /** The status toggle of the list view: paid becomes pending, anything else becomes paid. */
  function TogglePatch(r: Record): (p: Patch)
    ensures IsStatusPatch(p) && KeepsRevenue(p)
    ensures Merge(r, p) == r.(status := if r.status == Paid then Pending else Paid)
    ensures (Merge(r, p).status == Paid) <==> r.status != Paid
  {
    Patch(None, None, Some(if r.status == Paid then Pending else Paid), None, None)
  }

  // ---------------------------------------------------------------------------
  // The revenue fold

  lemma {:induction false} PaidSumAppend(s: seq<Record>, x: Record)
    ensures PaidSum(s + [x]) == PaidSum(s) + PaidAmount(x)
  {
    if s != [] {
      assert (s + [x])[1..] == s[1..] + [x];
      PaidSumAppend(s[1..], x);
    }
  }

  /** Records that are not paid contribute nothing: a day without paid records has zero revenue. */
  lemma {:induction false} PaidSumWithoutPaid(s: seq<Record>)
    requires forall r :: r in s ==> r.status != Paid
    ensures PaidSum(s) == 0
  {
    if s != [] {
      assert s[0] in s;
      PaidSumWithoutPaid(s[1..]);
    }
  }

  lemma UniqueIdsTail(s: seq<Record>)
    requires s != [] && UniqueIds(s)
    ensures UniqueIds(s[1..])
    ensures forall x :: x in s[1..] ==> x.id != s[0].id
  {
    forall i, j | 0 <= i < |s[1..]| && 0 <= j < |s[1..]| && s[1..][i].id == s[1..][j].id
      ensures i == j
    {
      assert s[i + 1].id == s[j + 1].id;
    }
    forall x | x in s[1..] ensures x.id != s[0].id {
      var k :| 0 <= k < |s[1..]| && s[1..][k] == x;
      assert s[k + 1] == x;
    }
  }

  /** Removing the one record with an id lowers the paid sum by exactly what that record contributed. */
  lemma {:induction false} PaidSumRemove(s: seq<Record>, id: string, r: Record)
    requires UniqueIds(s) && r in s && r.id == id
    ensures PaidSum(Remove(s, id)) == PaidSum(s) - PaidAmount(r)
    ensures |Remove(s, id)| == |s| - 1
  {
    UniqueIdsTail(s);
    if s[0].id == id {
      assert r !in s[1..];
      assert s == [s[0]] + s[1..];
      assert forall i :: 0 <= i < |s[1..]| ==> s[1..][i] in s[1..];
    } else {
      assert r in s[1..];
      PaidSumRemove(s[1..], id, r);
    }
  }

  lemma {:induction false} RemoveKeepsUniqueIds(s: seq<Record>, id: string)
    requires UniqueIds(s)
    ensures UniqueIds(Remove(s, id))
  {
    if s != [] {
      UniqueIdsTail(s);
      RemoveKeepsUniqueIds(s[1..], id);
      if s[0].id != id {
        var t := Remove(s[1..], id);
        assert forall k :: 0 <= k < |t| ==> t[k] in t;
        assert forall k :: 0 <= k < |t| ==> t[k].id != s[0].id;
        assert UniqueIds([s[0]] + t);
      }
    }
  }

  /** A patch for an id no record carries changes nothing. */
  lemma ApplyPatchMissing(s: seq<Record>, id: string, p: Patch)
    requires forall x :: x in s ==> x.id != id
    ensures ApplyPatch(s, id, p) == s
  {
    assert forall i :: 0 <= i < |s| ==> s[i] in s;
  }

  /** Merging a patch into the one record with an id changes the paid sum by that record's change alone. */
  lemma {:induction false} PaidSumPatch(s: seq<Record>, id: string, p: Patch, r: Record)
    requires UniqueIds(s) && r in s && r.id == id
    ensures PaidSum(ApplyPatch(s, id, p)) == PaidSum(s) - PaidAmount(r) + PaidAmount(Merge(r, p))
  {
    UniqueIdsTail(s);
    var t := ApplyPatch(s, id, p);
    assert t[1..] == ApplyPatch(s[1..], id, p);
    if s[0].id == id {
      ApplyPatchMissing(s[1..], id, p);
      assert r == s[0] by {
        assert r !in s[1..];
        assert s == [s[0]] + s[1..];
      }
    } else {
      assert r in s[1..];
      PaidSumPatch(s[1..], id, p, r);
    }
  }

  lemma ApplyPatchKeepsUniqueIds(s: seq<Record>, id: string, p: Patch)
    requires UniqueIds(s)
    ensures UniqueIds(ApplyPatch(s, id, p))
  {
    var t := ApplyPatch(s, id, p);
    forall i, j | 0 <= i < |t| && 0 <= j < |t| && t[i].id == t[j].id ensures i == j {
      assert s[i].id == t[i].id && s[j].id == t[j].id;
    }
  }

  /**
   * After `updateCustomer`, a revenue that equalled the paid sum still equals it exactly when the
   * applied delta is the updated record's change of paid amount; `KeepsRevenue` patches are such.
   */
  lemma UpdateKeepsRevenue(s: seq<Record>, revenue: int, id: string, p: Patch, r: Record)
    requires revenue == PaidSum(s) && UniqueIds(s)
    requires Find(s, id) == Some(r)
    ensures revenue + RevenueDelta(r, p) == PaidSum(ApplyPatch(s, id, p)) <==>
            RevenueDelta(r, p) == PaidAmount(Merge(r, p)) - PaidAmount(r)
    ensures KeepsRevenue(p) ==> revenue + RevenueDelta(r, p) == PaidSum(ApplyPatch(s, id, p))
  {
    PaidSumPatch(s, id, p, r);
  }

  /** Toggling a record's status moves its amount into or out of the paid sum. */
  lemma ToggleMovesAmount(s: seq<Record>, id: string, r: Record)
    requires UniqueIds(s) && Find(s, id) == Some(r)
    ensures PaidSum(ApplyPatch(s, id, TogglePatch(r))) == PaidSum(s) + (if r.status == Paid then -r.amount else r.amount)
    ensures RevenueDelta(r, TogglePatch(r)) == (if r.status == Paid then -r.amount else r.amount)
  {
    PaidSumPatch(s, id, TogglePatch(r), r);
  }

  /** Removing an id that only the first record carries drops exactly that record. */
  lemma RemoveHead(s: seq<Record>, id: string)
    requires s != [] && s[0].id == id
    requires forall x :: x in s[1..] ==> x.id != id
    ensures Remove(s, id) == s[1..]
  {
    var t := s[1..];
    forall i | 0 <= i < |t| ensures t[i].id != id {
      assert t[i] in t;
    }
  }

  /** Cutting position k out of a non-empty list, for k > 0, keeps the head in front. */
  lemma CutAfterHead(s: seq<Record>, k: nat)
    requires 0 < k < |s|
    ensures s[..k] + s[k + 1..] == [s[0]] + (s[1..][..k - 1] + s[1..][k..])
  {
    assert s[..k] == [s[0]] + s[1..][..k - 1];
    assert s[k + 1..] == s[1..][k..];
  }

  /** With distinct ids, removing the record at position k keeps every other record in its order. */
  lemma {:induction false} RemoveAt(s: seq<Record>, id: string, k: nat)
    requires UniqueIds(s) && k < |s| && s[k].id == id
    ensures Remove(s, id) == s[..k] + s[k + 1..]
  {
    UniqueIdsTail(s);
    if k == 0 {
      RemoveHead(s, id);
    } else {
      assert s[0].id != s[k].id;
      RemoveAt(s[1..], id, k - 1);
      CutAfterHead(s, k);
    }
  }

  /** The record every later counterexample starts from: a rental of 100 with the given status. */
  function Sample(status: string): Record {
    Record("a", "Asha", 100, status, 2, None, Some(0), "u", false, None)
  }

  /** A paid patch carrying amount 0 adds the OLD amount to the revenue while the record now holds 0. */
  lemma ZeroAmountPatchBreaksRevenue()
    ensures var p := Patch(None, Some(0), Some(Paid), None, None);
      PaidSum([Sample(Pending)]) + RevenueDelta(Sample(Pending), p) == 100 &&
      PaidSum(ApplyPatch([Sample(Pending)], "a", p)) == 0
  {
    var p := Patch(None, Some(0), Some(Paid), None, None);
    assert ApplyPatch([Sample(Pending)], "a", p) == [Merge(Sample(Pending), p)];
  }

  /** A patch without a status leaves the revenue alone even when it changes a paid record's amount. */
  lemma StatuslessPatchBreaksRevenue()
    ensures var p := Patch(None, Some(40), None, None, None);
      RevenueDelta(Sample(Paid), p) == 0 &&
      PaidSum([Sample(Paid)]) == 100 &&
      PaidSum(ApplyPatch([Sample(Paid)], "a", p)) == 40
  {
    var p := Patch(None, Some(40), None, None, None);
    assert ApplyPatch([Sample(Paid)], "a", p) == [Merge(Sample(Paid), p)];
  }

  /** A status other than paid or pending is ignored by the revenue, yet it takes a paid record out of the paid sum. */
  lemma OtherStatusPatchBreaksRevenue()
    ensures var p := Patch(None, None, Some("cancelled"), None, None);
      !IsStatusPatch(p) && RevenueDelta(Sample(Paid), p) == 0 &&
      PaidSum([Sample(Paid)]) == 100 &&
      PaidSum(ApplyPatch([Sample(Paid)], "a", p)) == 0
  {
    var p := Patch(None, None, Some("cancelled"), None, None);
    assert ApplyPatch([Sample(Paid)], "a", p) == [Merge(Sample(Paid), p)];
  }

  /**
   * When the rentals listener has already delivered a new paid record before `addCustomer`
   * appends it, the list holds the record twice and the total counts its amount twice.
   */
  lemma EchoedAddDuplicates()
    ensures var s := [Sample(Paid)] + [Sample(Paid)];
      PaidSum([Sample(Paid)]) + PaidAmount(Sample(Paid)) == PaidSum(s) == 200 && !UniqueIds(s)
  {
    var s := [Sample(Paid)] + [Sample(Paid)];
    assert s[0].id == s[1].id;
  }

  /**
   * When the rentals listener has already delivered the list without a deleted paid record, and
   * with the total recomputed, `deleteCustomer` still finds the record in the list it captured and
   * takes its amount off the total a second time.
   */
  lemma EchoedDeleteUndercounts()
    ensures var s := [Sample(Paid)];
      var pushed := Remove(s, "a");
      Find(s, "a") == Some(Sample(Paid)) && Remove(pushed, "a") == pushed &&
      PaidSum(pushed) == 0 && PaidSum(pushed) - PaidAmount(Find(s, "a").value) == -100
  {
  }

  /**
   * When the rentals listener has already delivered a toggled record, now paid, with the total
   * recomputed, `updateCustomer` adds the toggle's delta on top, so the amount is counted twice.
   */
  lemma EchoedToggleDoubleCounts()
    ensures var p := TogglePatch(Sample(Pending));
      var pushed := ApplyPatch([Sample(Pending)], "a", p);
      ApplyPatch(pushed, "a", p) == pushed && PaidSum(pushed) == 100 &&
      PaidSum(pushed) + RevenueDelta(Sample(Pending), p) == 200
  {
    var p := TogglePatch(Sample(Pending));
    assert ApplyPatch([Sample(Pending)], "a", p) == [Merge(Sample(Pending), p)];
    assert ApplyPatch([Merge(Sample(Pending), p)], "a", p) == [Merge(Merge(Sample(Pending), p), p)];
  }
}

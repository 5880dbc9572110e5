/**
 * The shared state of src/context/AppContext.jsx: the day's rental records (`customers`),
 * the running `totalRevenue`, the signed-in user, the calendar toggle and date range, and the
 * list of days that hold rentals. Each Firestore call is a parameter saying how it came out.
 */
module AppContext {
  import opened Wrappers
  import opened Ledger
  import Calendar

  datatype LedgerError =
    | NotSignedIn    // `addCustomer` without a current user
    | BadDate        // a date-range endpoint that `Timestamp.fromDate` cannot convert
    | NotFound       // no record carries the id
    | StoreFailure   // the Firestore write (or, for an update, the profile lookup) failed

  /** The snapshot listener's `reduce`: add up `amount` over the paid records, left to right. */
  method SumPaid(docs: seq<Record>) returns (total: int)
    ensures total == PaidSum(docs)
  {
    total := 0;
    for i := 0 to |docs|
      invariant total == PaidSum(docs[..i])
    {
      PaidSumAppend(docs[..i], docs[i]);
      assert docs[..i + 1] == docs[..i] + [docs[i]];
      total := if docs[i].status == Paid then total + docs[i].amount else total;
    }
    assert docs[..|docs|] == docs;
  }

  /** The record `addCustomer` appends: the payload plus the new id, the user, the time and the warning flag. */
  function NewRecord(data: Payload, id: string, uid: string, now: int, hasWarning: bool): (r: Record)
    ensures r.id == id && r.userId == uid && r.createdAt == Some(now) && r.hasWarning == hasWarning
    ensures r.name == data.name && r.amount == data.amount && r.status == data.status &&
            r.hours == data.hours && r.dateRange == data.dateRange && r.phone.None?
    ensures PaidAmount(r) == (if data.status == Paid then data.amount else 0)
  {
    Record(id, data.name, data.amount, data.status, data.hours, data.dateRange, Some(now), uid, hasWarning, None)
  }

  /** `Timestamp.fromDate` accepts the payload's date range: there is none, or both endpoints are set. */
  function RangeConvertible(data: Payload): (ok: bool)
    ensures ok <==> data.dateRange.None? || Calendar.DaysBetween(data.dateRange.value) >= 1
  {
    data.dateRange.None? || (data.dateRange.value.startDate.Some? && data.dateRange.value.endDate.Some?)
  }

  /** An update also queries and updates `user_info` when the patch carries a non-empty name or phone. */
  predicate TouchesProfile(p: Patch) {
    (p.name.Some? && p.name.value != "") || (p.phone.Some? && p.phone.value != "")
  }

  class Store {
    var customers: seq<Record>
    var totalRevenue: int
    var currentUser: Option<string>
    var useCalendar: bool
    var dateRange: DateRange
    var uniqueDates: seq<int>

    /** The running total agrees with the records. */
    ghost predicate RevenueConsistent()
      reads this
    {
      totalRevenue == PaidSum(customers)
    }

    ghost predicate Valid()
      reads this
    {
      RevenueConsistent() && UniqueIds(customers)
    }

    /** The provider's initial state; both date pickers start at the current instant. */
    constructor (now: int)
      ensures customers == [] && totalRevenue == 0 && currentUser == None
      ensures !useCalendar && dateRange == DateRange(Some(now), Some(now)) && uniqueDates == []
      ensures Valid()
    {
      customers := [];
      totalRevenue := 0;
      currentUser := None;
      useCalendar := false;
      dateRange := DateRange(Some(now), Some(now));
      uniqueDates := [];
    }

    /** The auth listener records the new identity (a uid, or none after sign-out). */
    method OnAuthStateChanged(user: Option<string>)
      modifies this`currentUser
      ensures currentUser == user
    {
      currentUser := user;
    }

    /**
     * The listeners re-run when the user or the date changes; without a user they clear the
     * records, the total and the dates list (with a user they only re-subscribe, which is remote).
     */
    method OnSessionChange()
      modifies this`customers, this`totalRevenue, this`uniqueDates
      ensures old(currentUser).None? ==> customers == [] && totalRevenue == 0 && uniqueDates == [] && Valid()
      ensures old(currentUser).Some? ==>
        customers == old(customers) && totalRevenue == old(totalRevenue) && uniqueDates == old(uniqueDates)
    {
      if currentUser.None? {
        customers := [];
        totalRevenue := 0;
        uniqueDates := [];
      }
    }

    /** A push of the day's query result replaces the records and recomputes the total from scratch. */
    method OnRentalsSnapshot(docs: seq<Record>)
      modifies this`customers, this`totalRevenue
      ensures customers == docs && RevenueConsistent()
      ensures UniqueIds(docs) ==> Valid()
    {
      customers := docs;
      totalRevenue := SumPaid(docs);
    }

    /** A push of all the user's rentals replaces the sorted list of days that hold data. */
    method OnDatesSnapshot(docs: seq<Record>, utcOffset: int)
      modifies this`uniqueDates
      ensures Calendar.StrictlyIncreasing(uniqueDates)
      ensures forall d :: d in uniqueDates <==> d in Calendar.DaySet(docs, utcOffset)
    {
      uniqueDates := Calendar.UniqueDates(docs, utcOffset);
    }

    /**
     * `addCustomer`. `stored` is the outcome of `addDoc`: the new document id, or `None` when the
     * write fails. On success the record is appended and, if paid, its amount is added to the total.
     */
    method AddCustomer(data: Payload, now: int, hasWarning: bool, stored: Option<string>)
      returns (result: Result<string, LedgerError>)
      modifies this`customers, this`totalRevenue
      ensures currentUser.None? ==> result == Failure(NotSignedIn)
      ensures currentUser.Some? && !RangeConvertible(data) ==> result == Failure(BadDate)
      ensures currentUser.Some? && RangeConvertible(data) && stored.None? ==> result == Failure(StoreFailure)
      ensures result.Failure? ==> customers == old(customers) && totalRevenue == old(totalRevenue)
      ensures result.Success? <==> currentUser.Some? && RangeConvertible(data) && stored.Some?
      ensures result.Success? ==>
        result.value == stored.value &&
        customers == old(customers) + [NewRecord(data, stored.value, currentUser.value, now, hasWarning)] &&
        totalRevenue == old(totalRevenue) + (if data.status == Paid then data.amount else 0)
      ensures old(RevenueConsistent()) ==> RevenueConsistent()
      ensures old(Valid()) && (result.Success? ==> !HasId(old(customers), stored.value)) ==> Valid()
    {
      if currentUser.None? {
        return Failure(NotSignedIn);
      }
      if !RangeConvertible(data) {
        return Failure(BadDate);
      }
      if stored.None? {
        return Failure(StoreFailure);
      }
      var rec := NewRecord(data, stored.value, currentUser.value, now, hasWarning);
      PaidSumAppend(customers, rec);
      ghost var before := customers;
      customers := customers + [rec];
      if rec.status == Paid {
        totalRevenue := totalRevenue + rec.amount;
      }
      assert UniqueIds(before) && !HasId(before, rec.id) ==> UniqueIds(customers) by {
        if UniqueIds(before) && !HasId(before, rec.id) {
          assert forall k :: 0 <= k < |before| ==> customers[k] == before[k];
        }
      }
      result := Success(stored.value);
    }

    /**
     * `updateCustomer`. `writeOk` is the outcome of the `rental_info` update and `profileOk` that
     * of the `user_info` lookup and update, which runs only when the patch touches the profile and
     * whose failure fails the whole call. On success the patch is merged into the records with the
     * id and a status patch moves the revenue by `RevenueDelta`; any other patch leaves it alone.
     */
    method UpdateCustomer(id: string, patch: Patch, writeOk: bool, profileOk: bool)
      returns (result: Result<(), LedgerError>)
      modifies this`customers, this`totalRevenue
      ensures !HasId(old(customers), id) ==> result == Failure(NotFound)
      ensures HasId(old(customers), id) && !(writeOk && (TouchesProfile(patch) ==> profileOk)) ==>
        result == Failure(StoreFailure)
      ensures result.Failure? ==> customers == old(customers) && totalRevenue == old(totalRevenue)
      ensures result.Success? <==> HasId(old(customers), id) && writeOk && (TouchesProfile(patch) ==> profileOk)
      ensures result.Success? ==>
        customers == ApplyPatch(old(customers), id, patch) &&
        totalRevenue == old(totalRevenue) + RevenueDelta(Find(old(customers), id).value, patch)
      ensures result.Success? && !IsStatusPatch(patch) ==> totalRevenue == old(totalRevenue)
      ensures old(Valid()) && result.Success? ==>
        var r := Find(old(customers), id).value;
        Valid() <==> RevenueDelta(r, patch) == PaidAmount(Merge(r, patch)) - PaidAmount(r)
      ensures old(Valid()) && KeepsRevenue(patch) ==> Valid()
    {
      var found := Find(customers, id);
      if found.None? {
        return Failure(NotFound);
      }
      if !writeOk || (TouchesProfile(patch) && !profileOk) {
        return Failure(StoreFailure);
      }
      var customer := found.value;
      ghost var before := customers;
      customers := ApplyPatch(customers, id, patch);
      if patch.status == Some(Paid) || patch.status == Some(Pending) {
        var oldAmount := if customer.status == Paid then customer.amount else 0;
        var newAmount := NewPaidAmount(customer, patch);
        totalRevenue := totalRevenue - oldAmount + newAmount;
      }
      if old(Valid()) {
        UpdateKeepsRevenue(before, old(totalRevenue), id, patch, customer);
        ApplyPatchKeepsUniqueIds(before, id, patch);
      }
      result := Success(());
    }

    /**
     * `deleteCustomer`. `deleteOk` is the outcome of the `rental_info` delete; the best-effort
     * `user_info` delete that follows cannot fail the call. On success the records with the id are
     * removed and, if the found record was paid, its amount is taken off the total.
     */
    method DeleteCustomer(id: string, deleteOk: bool) returns (result: Result<(), LedgerError>)
      modifies this`customers, this`totalRevenue
      ensures !HasId(old(customers), id) ==> result == Failure(NotFound)
      ensures HasId(old(customers), id) && !deleteOk ==> result == Failure(StoreFailure)
      ensures result.Failure? ==> customers == old(customers) && totalRevenue == old(totalRevenue)
      ensures result.Success? <==> HasId(old(customers), id) && deleteOk
      ensures result.Success? ==>
        customers == Remove(old(customers), id) &&
        totalRevenue == old(totalRevenue) - PaidAmount(Find(old(customers), id).value)
      ensures old(Valid()) && result.Success? ==> Valid() && |customers| == |old(customers)| - 1
    {
      var found := Find(customers, id);
      if found.None? {
        return Failure(NotFound);
      }
      if !deleteOk {
        return Failure(StoreFailure);
      }
      var customer := found.value;
      ghost var before := customers;
      customers := Remove(customers, id);
      if customer.status == Paid {
        totalRevenue := totalRevenue - customer.amount;
      }
      if old(Valid()) {
        PaidSumRemove(before, id, customer);
        RemoveKeepsUniqueIds(before, id);
      }
      result := Success(());
    }
  }

  /** Add a pending rental of 100, mark it paid, then delete it: the total goes 0, 100, 0. */
  method PaidThenDeleted(uid: string, now: int)
  {
    var store := new Store(now);
    store.OnAuthStateChanged(Some(uid));
    var a := Payload("Asha", 100, 2, Pending, None);
    var added := store.AddCustomer(a, now, false, Some("A"));
    assert added == Success("A") && store.totalRevenue == 0;
    var rec := store.customers[0];
    var toggled := store.UpdateCustomer("A", TogglePatch(rec), true, true);
    assert Find([rec], "A") == Some(rec);
    assert toggled.Success? && store.totalRevenue == 100;
    var missing := store.UpdateCustomer("B", TogglePatch(rec), true, true);
    assert !HasId(store.customers, "B");
    assert missing == Failure(NotFound) && store.totalRevenue == 100;
    var deleted := store.DeleteCustomer("A", true);
    assert deleted.Success? && store.totalRevenue == 0 && store.customers == [];
  }
}

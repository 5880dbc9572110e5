/**
 * The "Add New Rental" dialog of src/components/customer/CustomerModal.jsx: its form fields,
 * the field-by-field validator, the payload it hands to `addCustomer` and the reset after success.
 * Field values are the raw text of the inputs.
 */
module RentalForm {
  import opened Wrappers
  import opened Ledger
  import Calendar
  import AppContext

  const NameRequired := "Name is required"
  const AmountRequired := "Amount is required"
  const AmountNotPositive := "Amount must be a positive number"
  const DatesRequired := "Both start and end dates are required"
  const EndBeforeStart := "End date cannot be before start date"
  const HoursRequired := "Hours are required"
  const HoursNotPositive := "Hours must be a positive number"

  datatype FormData = FormData(name: string, amount: string, hours: string, status: string)

  datatype FormField = NameField | AmountField | HoursField | StatusField

  datatype DateEnd = StartDate | EndDate

  /** The form the dialog opens with and returns to after a successful submit. */
  const EmptyForm := FormData("", "", "", Pending)

  function Key(f: FormField): string {
    match f
    case NameField => "name"
    case AmountField => "amount"
    case HoursField => "hours"
    case StatusField => "status"
  }

  /** The characters `String.prototype.trim` removes (the ASCII ones and the no-break space). */
  predicate IsWhitespace(c: char) {
    c == ' ' || c == '\t' || c == '\n' || c == '\r' || c == '\U{000B}' || c == '\U{000C}' || c == '\U{00A0}'
  }

  /** The name check: the text is empty once surrounding whitespace is trimmed. */
  predicate IsBlank(s: string) {
    forall i :: 0 <= i < |s| ==> IsWhitespace(s[i])
  }

  predicate IsDigit(c: char) {
    '0' <= c <= '9'
  }

  function DigitsValue(s: string): (v: nat)
    requires forall i :: 0 <= i < |s| ==> IsDigit(s[i])
  {
    if s == [] then 0
    else
      var last := s[|s| - 1];
      assert IsDigit(last);
      DigitsValue(s[..|s| - 1]) * 10 + (last as int - '0' as int)
  }

  predicate AllDigits(s: string) {
    s != [] && forall i :: 0 <= i < |s| ==> IsDigit(s[i])
  }

  /** The numeric reading of a field: an optional sign followed by decimal digits; anything else is NaN (`None`). */
  function ParseNumber(s: string): (r: Option<int>)
    ensures r.Some? ==> s != ""
    ensures AllDigits(s) ==> r == Some(DigitsValue(s))
    ensures r.Some? && r.value < 0 ==> s[0] == '-'
  {
    if AllDigits(s) then Some(DigitsValue(s))
    else if |s| > 1 && s[0] == '-' && AllDigits(s[1..]) then Some(-(DigitsValue(s[1..]) as int))
    else if |s| > 1 && s[0] == '+' && AllDigits(s[1..]) then Some(DigitsValue(s[1..]))
    else None
  }

  /** A sign in front of digits: `-` negates their reading and `+` keeps it. */
  lemma ParseNumberSigned(t: string)
    requires AllDigits(t)
    ensures ParseNumber("-" + t) == Some(-ParseNumber(t).value)
    ensures ParseNumber("+" + t) == ParseNumber(t)
  {
    assert ("-" + t)[1..] == t && ("+" + t)[1..] == t;
    assert !IsDigit(("-" + t)[0]) && !IsDigit(("+" + t)[0]);
  }

  /** The amount and hours check: the text reads as a number, and that number is greater than zero. */
  predicate IsPositiveNumber(s: string) {
    ParseNumber(s).Some? && ParseNumber(s).value > 0
  }

  /** The date check of calendar mode: both endpoints set and the end not before the start. */
  predicate DatesOk(range: DateRange) {
    range.startDate.Some? && range.endDate.Some? && !(range.endDate.value < range.startDate.value)
  }

  /** What a submittable form is, field by field. */
  predicate IsValidForm(form: FormData, useCalendar: bool, range: DateRange) {
    !IsBlank(form.name) && IsPositiveNumber(form.amount) &&
    if useCalendar then DatesOk(range) else IsPositiveNumber(form.hours)
  }

  /**
   * `errors` is what `validateForm` reports for the form: one key per failing field with its
   * message, no other key, and hours or dates looked at only in their own mode.
   */
  ghost predicate Reports(errors: map<string, string>, form: FormData, useCalendar: bool, range: DateRange) {
    errors.Keys <= {"name", "amount", "dates", "hours"} &&
    ("name" in errors <==> IsBlank(form.name)) &&
    ("name" in errors ==> errors["name"] == NameRequired) &&
    ("amount" in errors <==> !IsPositiveNumber(form.amount)) &&
    ("amount" in errors ==> errors["amount"] == if form.amount == "" then AmountRequired else AmountNotPositive) &&
    ("dates" in errors <==> useCalendar && !DatesOk(range)) &&
    ("dates" in errors ==>
       errors["dates"] == (if range.startDate.None? || range.endDate.None? then DatesRequired else EndBeforeStart)) &&
    ("hours" in errors <==> !useCalendar && !IsPositiveNumber(form.hours)) &&
    ("hours" in errors ==> errors["hours"] == if form.hours == "" then HoursRequired else HoursNotPositive)
  }

  /** The body of `validateForm`: fill `newErrors` field by field. The form is valid exactly when no key was set. */
  method CollectErrors(form: FormData, useCalendar: bool, range: DateRange) returns (newErrors: map<string, string>)
    ensures Reports(newErrors, form, useCalendar, range)
    ensures |newErrors| == 0 <==> IsValidForm(form, useCalendar, range)
  {
    newErrors := map[];
    if IsBlank(form.name) {
      newErrors := newErrors["name" := NameRequired];
    }
    if form.amount == "" {
      newErrors := newErrors["amount" := AmountRequired];
    } else if !IsPositiveNumber(form.amount) {
      newErrors := newErrors["amount" := AmountNotPositive];
    }
    if useCalendar {
      if range.startDate.None? || range.endDate.None? {
        newErrors := newErrors["dates" := DatesRequired];
      } else if range.endDate.value < range.startDate.value {
        newErrors := newErrors["dates" := EndBeforeStart];
      }
    } else {
      if form.hours == "" {
        newErrors := newErrors["hours" := HoursRequired];
      } else if !IsPositiveNumber(form.hours) {
        newErrors := newErrors["hours" := HoursNotPositive];
      }
    }
    if IsValidForm(form, useCalendar, range) {
      assert newErrors == map[];
    } else {
      assert "name" in newErrors || "amount" in newErrors || "dates" in newErrors || "hours" in newErrors;
    }
  }

  /** Two error maps that both report the same form are the same map: the report is determined by the form. */
  lemma ReportsIsUnique(e1: map<string, string>, e2: map<string, string>, form: FormData, useCalendar: bool, range: DateRange)
    requires Reports(e1, form, useCalendar, range) && Reports(e2, form, useCalendar, range)
    ensures e1 == e2
  {
    assert e1.Keys == e2.Keys;
  }

  /** In calendar mode the hours text is never looked at; in hours mode the date range is never looked at. */
  lemma ModesIgnoreOtherField(form: FormData, range: DateRange, hours: string, other: DateRange)
    ensures IsValidForm(form, true, range) == IsValidForm(form.(hours := hours), true, range)
    ensures IsValidForm(form, false, range) == IsValidForm(form, false, other)
  {
  }

  /** A calendar range whose endpoints are the same instant passes the date check. */
  lemma SameDayRangeAccepted(t: int)
    ensures DatesOk(DateRange(Some(t), Some(t)))
  {
  }

  /**
   * The data `handleSubmit` sends once the form is valid: the parsed amount, the inclusive day
   * span as hours in calendar mode (the parsed hours otherwise), and the range only in calendar mode.
   */
  function BuildPayload(form: FormData, useCalendar: bool, range: DateRange): (p: Payload)
    requires IsValidForm(form, useCalendar, range)
    ensures p.name == form.name && p.status == form.status
    ensures ParseNumber(form.amount) == Some(p.amount) && p.amount > 0
    ensures useCalendar ==> p.dateRange == Some(range) && p.hours == Calendar.DaysBetween(range) && p.hours >= 1
    ensures !useCalendar ==> p.dateRange.None? && ParseNumber(form.hours) == Some(p.hours) && p.hours > 0
    ensures AppContext.RangeConvertible(p)
  {
    Payload(
      form.name,
      ParseNumber(form.amount).value,
      if useCalendar then Calendar.DaysBetween(range) else ParseNumber(form.hours).value,
      form.status,
      if useCalendar then Some(range) else None)
  }

  /** The form with one field replaced by the text typed into it. */
  function WithField(form: FormData, field: FormField, value: string): FormData {
    match field
    case NameField => form.(name := value)
    case AmountField => form.(amount := value)
    case HoursField => form.(hours := value)
    case StatusField => form.(status := value)
  }

  class CustomerModal {
    var formData: FormData
    var errors: map<string, string>

    constructor ()
      ensures formData == EmptyForm && errors == map[]
    {
      formData := EmptyForm;
      errors := map[];
    }

    /** `handleChange`: store the new text and blank out (but keep) a non-empty error for that field. */
    method HandleChange(field: FormField, value: string)
      modifies this
      ensures formData == WithField(old(formData), field, value)
      ensures errors == if Key(field) in old(errors) && old(errors)[Key(field)] != ""
                        then old(errors)[Key(field) := ""] else old(errors)
    {
      formData := WithField(formData, field, value);
      var k := Key(field);
      if k in errors && errors[k] != "" {
        errors := errors[k := ""];
      }
    }

    /** `handleDateChange`: replace one endpoint of the shared date range. */
    method HandleDateChange(store: AppContext.Store, which: DateEnd, newDate: Option<int>)
      modifies store`dateRange
      ensures store.dateRange == match which
        case StartDate => old(store.dateRange).(startDate := newDate)
        case EndDate => old(store.dateRange).(endDate := newDate)
    {
      match which
      case StartDate => store.dateRange := store.dateRange.(startDate := newDate);
      case EndDate => store.dateRange := store.dateRange.(endDate := newDate);
    }

    /** `validateForm`: replace `errors` with the report for the current form and say whether it is empty. */
    method ValidateForm(useCalendar: bool, range: DateRange) returns (valid: bool)
      modifies this`errors
      ensures Reports(errors, formData, useCalendar, range)
      ensures valid <==> IsValidForm(formData, useCalendar, range)
      ensures valid <==> |errors| == 0
    {
      var newErrors := CollectErrors(formData, useCalendar, range);
      errors := newErrors;
      valid := |newErrors| == 0;
    }

    /**
     * `handleSubmit`. An invalid form stops before `addCustomer` and leaves the form and the store
     * as they were. A valid one sends `BuildPayload`; on success the form is reset, on failure kept.
     * `now`, `hasWarning` and `stored` are passed through to `addCustomer`.
     */
    method HandleSubmit(store: AppContext.Store, now: int, hasWarning: bool, stored: Option<string>)
      returns (sent: Option<Result<string, AppContext.LedgerError>>)
      modifies this, store`customers, store`totalRevenue
      ensures Reports(errors, old(formData), store.useCalendar, store.dateRange)
      ensures sent.None? <==> !IsValidForm(old(formData), store.useCalendar, store.dateRange)
      ensures sent.None? ==>
        formData == old(formData) && store.customers == old(store.customers) && store.totalRevenue == old(store.totalRevenue)
      ensures sent.Some? ==>
        var p := BuildPayload(old(formData), store.useCalendar, store.dateRange);
        (sent.value.Success? <==> store.currentUser.Some? && stored.Some?) &&
        (sent.value.Success? ==>
           store.customers == old(store.customers) + [AppContext.NewRecord(p, stored.value, store.currentUser.value, now, hasWarning)] &&
           store.totalRevenue == old(store.totalRevenue) + (if p.status == Paid then p.amount else 0) &&
           formData == EmptyForm) &&
        (sent.value.Failure? ==>
           store.customers == old(store.customers) && store.totalRevenue == old(store.totalRevenue) &&
           formData == old(formData))
      ensures old(store.RevenueConsistent()) ==> store.RevenueConsistent()
    {
      var valid := ValidateForm(store.useCalendar, store.dateRange);
      if !valid {
        return None;
      }
      var payload := BuildPayload(formData, store.useCalendar, store.dateRange);
      var result := store.AddCustomer(payload, now, hasWarning, stored);
      if result.Success? {
        formData := EmptyForm;
      }
      sent := Some(result);
    }
  }
}

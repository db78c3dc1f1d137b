/**
 * The client form controller of the RSVP page (app/page.tsx): per-day guest counts,
 * guest entries, error flags, step cursor and submitted flag, changed by the page's
 * event handlers, plus the page-wide submission state.
 *
 * The page keeps five records keyed by day (`counts`, `currentStep`, `formData`,
 * `errors`, `submitted`); here each day's slots are the fields of one `DayForm`
 * object, and a React setter that copies a list and replaces one slot is an
 * assignment to that field.
 */
module FormController {
  import opened Wrappers
  import opened Text
  import opened Entries
  import opened Validation
  import opened Phone

  /** Most guests a day accepts (app/page.tsx line 610). */
  const MaxGuests := 5

  /** The count effect's resize of one list (app/page.tsx lines 100-126 and 131-155):
      grow with blanks or cut to `n` entries; with `n` = 0 the list is left alone. */
  function Resized<T>(xs: seq<T>, n: int, blank: T): (r: seq<T>)
    ensures n >= 1 ==> |r| == n
    ensures n >= 1 ==> forall k :: 0 <= k < n && k < |xs| ==> r[k] == xs[k]
    ensures forall k :: |xs| <= k < |r| ==> r[k] == blank
    ensures n <= 0 ==> r == xs
  {
    if |xs| < n then xs + seq(n - |xs|, _ => blank)
    else if |xs| > n && n > 0 then xs[..n]
    else xs
  }

  /** Resizing to the same count twice is resizing once. */
  lemma ResizedIdempotent<T>(xs: seq<T>, n: int, blank: T)
    ensures Resized(Resized(xs, n, blank), n, blank) == Resized(xs, n, blank)
  {
  }

  /** One day's part of the page state. */
  class DayForm {
    var count: int
    var step: int
    var forms: seq<GuestEntry>
    var errors: seq<Flags>
    var submitted: bool

    /** What every handler keeps: the count in range, one flag record per entry, and a
        cursor that names an entry. */
    ghost predicate Valid()
      reads this
    {
      0 <= count <= MaxGuests && 1 <= |forms| == |errors| && 0 <= step < |forms|
    }

    /** What holds once the count effect has run after a count change: with at least one
        guest there is one entry per guest, and the cursor is within [0, count-1]. */
    ghost predicate Settled()
      reads this
    {
      Valid() && (count >= 1 ==> |forms| == count) && step <= Max(0, count - 1)
    }

    /** The cursor has only left the primary contact's step through a passing validation
        of that step: the primary entry is then known to satisfy the primary rule. */
    ghost predicate PrimaryVetted()
      reads this
    {
      Valid() && (step > 0 ==> StepValid(forms[0], 0))
    }

    /** The initial state of every day (app/page.tsx lines 23-72). */
    constructor ()
      ensures Settled() && PrimaryVetted()
      ensures count == 0 && step == 0 && forms == [EmptyEntry] && errors == [NoFlags] && !submitted
    {
      count, step := 0, 0;
      forms, errors := [EmptyEntry], [NoFlags];
      submitted := false;
    }

    /** `increment`: one more guest, at most five. */
    method Increment()
      requires Valid()
      modifies this`count
      ensures Valid() && (old(PrimaryVetted()) ==> PrimaryVetted())
      ensures count == Min(old(count) + 1, MaxGuests)
    {
      count := Min(count + 1, MaxGuests);
    }

    /** `decrement`: one guest fewer, at least zero. */
    method Decrement()
      requires Valid()
      modifies this`count
      ensures Valid() && (old(PrimaryVetted()) ==> PrimaryVetted())
      ensures count == Max(old(count) - 1, 0)
    {
      count := Max(count - 1, 0);
    }

    /** The effect that runs after every count change (app/page.tsx lines 96-170). */
    method SyncToCount()
      requires Valid()
      modifies this`forms, this`errors, this`step
      ensures Settled() && (old(PrimaryVetted()) ==> PrimaryVetted())
      ensures forms == Resized(old(forms), count, EmptyEntry)
      ensures errors == Resized(old(errors), count, NoFlags)
      ensures step == if count <= old(step) then Max(0, count - 1) else old(step)
    {
      forms := Resized(forms, count, EmptyEntry);
      errors := Resized(errors, count, NoFlags);
      if count <= step {
        step := Max(0, count - 1);
      }
    }

    /** `handleInputChange(day, ix, field, value)` (app/page.tsx lines 173-257). The phone
        field stores its formatted form; the prefix remnants reset it and return before
        the flag is cleared. An entry index out of range changes nothing. */
    method HandleInputChange(ix: int, field: Field, value: string)
      requires Valid()
      modifies this`forms, this`errors
      ensures Valid()
      ensures var v := if field == Phone then StoredPhone(value) else value;
        forms == if 0 <= ix < |old(forms)| then old(forms)[ix := old(forms)[ix].With(field, v)] else old(forms)
      ensures errors ==
        if 0 <= ix < |old(errors)| && !(field == Phone && IsPrefixRemnant(value))
        then old(errors)[ix := old(errors)[ix].With(field, false)]
        else old(errors)
      ensures old(PrimaryVetted()) && (ix != 0 || step == 0) ==> PrimaryVetted()
    {
      if field == Phone {
        if IsPrefixRemnant(value) {
          if 0 <= ix < |forms| {
            forms := forms[ix := forms[ix].(phone := "")];
          }
          return;
        }
        var digits := PhoneDigits(value);
        var formatted := FormatPhoneNumber(digits);
        if 0 <= ix < |forms| {
          forms := forms[ix := forms[ix].(phone := formatted)];
        }
      } else {
        if 0 <= ix < |forms| {
          forms := forms[ix := forms[ix].With(field, value)];
        }
      }
      if 0 <= ix < |errors| && errors[ix].Get(field) {
        errors := errors[ix := errors[ix].With(field, false)];
      }
    }

    /** `validateStep(day, ix)`: raise the flag of every failing field, keep the flags
        already raised, and report whether the step passes. */
    method ValidateStep(ix: int) returns (isValid: bool)
      requires Valid() && 0 <= ix < |forms|
      modifies this`errors
      ensures Valid()
      ensures isValid == StepValid(forms[ix], ix)
      ensures errors == old(errors)[ix := Raise(old(errors)[ix], Failing(forms[ix], ix))]
      ensures isValid ==> errors == old(errors)
      ensures old(PrimaryVetted()) ==> PrimaryVetted()
      ensures ix == step && isValid && old(PrimaryVetted()) ==> StepValid(forms[0], 0)
    {
      var currentForm := forms[ix];
      var newErrors := errors[ix];
      ghost var failing := Failing(currentForm, ix);
      isValid := true;
      if ix == 0 {
        if IsEmpty(currentForm.name) {
          newErrors := newErrors.(name := true);
          isValid := false;
        }
        if IsEmpty(currentForm.email) {
          newErrors := newErrors.(email := true);
          isValid := false;
        } else if !IsEmail(currentForm.email) {
          newErrors := newErrors.(email := true);
          isValid := false;
        }
        if IsEmpty(currentForm.phone) {
          newErrors := newErrors.(phone := true);
          isValid := false;
        }
        if IsEmpty(currentForm.about) {
          newErrors := newErrors.(about := true);
          isValid := false;
        }
      } else {
        if IsEmpty(currentForm.name) {
          newErrors := newErrors.(name := true);
          isValid := false;
        }
        if IsEmpty(currentForm.about) {
          newErrors := newErrors.(about := true);
          isValid := false;
        }
      }
      assert isValid == !(failing.name || failing.email || failing.phone || failing.about);
      errors := errors[ix := newErrors];
    }

    /** `nextStep`: advance only when the current step validates. The button that calls it
        is shown only while the day has guests (app/page.tsx line 685). */
    method NextStep() returns (passed: bool)
      requires Settled() && count >= 1
      modifies this`errors, this`step
      ensures Settled() && (old(PrimaryVetted()) ==> PrimaryVetted())
      ensures passed == StepValid(forms[old(step)], old(step))
      ensures errors == old(errors)[old(step) := Raise(old(errors)[old(step)], Failing(forms[old(step)], old(step)))]
      ensures step == if passed then Min(old(step) + 1, count - 1) else old(step)
    {
      passed := ValidateStep(step);
      if passed {
        step := Min(step + 1, count - 1);
      }
    }

    /** `prevStep`: back one step, never below the primary contact's. */
    method PrevStep()
      requires Valid()
      modifies this`step
      ensures Valid()
      ensures old(Settled()) ==> Settled()
      ensures old(PrimaryVetted()) ==> PrimaryVetted()
      ensures step == Max(old(step) - 1, 0)
    {
      step := Max(step - 1, 0);
    }
  }

  /** What the page's `fetch` to the relay comes back with. */
  datatype FetchOutcome =
    | Responded(ok: bool, error: string)   // the relay answered; `error` is its body's error text, "" when absent
    | Threw(message: Option<string>)       // the request or the JSON decoding threw; None when the value thrown is not an Error

  const SubmitFailedText := "Failed to submit RSVP"
  const SubmitFallbackText := "An error occurred while submitting your RSVP. Please try again."

  /** The banner text a failed submission leaves (app/page.tsx lines 361-378); None on success. */
  function SubmissionErrorText(o: FetchOutcome): (r: Option<string>)
    ensures r == None <==> o.Responded? && o.ok
    ensures o.Responded? && !o.ok ==> r == Some(if o.error == "" then SubmitFailedText else o.error)
    ensures o.Threw? && o.message.Some? ==> r == o.message
    ensures o == Threw(None) ==> r == Some(SubmitFallbackText)
  {
    match o
    case Responded(ok, error) => if ok then None else Some(if error == "" then SubmitFailedText else error)
    case Threw(message) => Some(if message.Some? then message.value else SubmitFallbackText)
  }

  /** The order in which the success screen looks at the days (app/page.tsx lines 649-655). */
  function Rank(d: Day): nat {
    match d
    case Thursday => 0
    case Friday => 1
    case Saturday => 2
  }

  /** The whole page component's state. */
  class Page {
    const thursday: DayForm
    const friday: DayForm
    const saturday: DayForm
    var isSubmitting: bool
    var submissionError: string

    function Of(d: Day): DayForm {
      match d
      case Thursday => thursday
      case Friday => friday
      case Saturday => saturday
    }

    ghost predicate Valid()
      reads this, thursday, friday, saturday
    {
      && thursday != friday && friday != saturday && thursday != saturday
      && thursday.Valid() && friday.Valid() && saturday.Valid()
    }

    constructor ()
      ensures Valid() && fresh(thursday) && fresh(friday) && fresh(saturday)
      ensures forall d :: Of(d).Settled() && Of(d).PrimaryVetted() && Of(d).count == 0 && !Of(d).submitted
      ensures forall d :: Of(d).step == 0 && Of(d).forms == [EmptyEntry] && Of(d).errors == [NoFlags]
      ensures !isSubmitting && submissionError == ""
    {
      thursday := new DayForm();
      friday := new DayForm();
      saturday := new DayForm();
      isSubmitting := false;
      submissionError := "";
    }

    /** Which success screen is shown: the first day, in the order thursday, friday,
        saturday, whose submission went through; None shows the form. */
    function SuccessScreen(): (r: Option<Day>)
      reads this, thursday, friday, saturday
      ensures r == None <==> forall d :: !Of(d).submitted
      ensures r.Some? ==> Of(r.value).submitted && forall d :: Rank(d) < Rank(r.value) ==> !Of(d).submitted
    {
      if thursday.submitted then assert Of(Thursday).submitted; Some(Thursday)
      else if friday.submitted then assert Of(Friday).submitted; Some(Friday)
      else if saturday.submitted then assert Of(Saturday).submitted; Some(Saturday)
      else None
    }

    /** `handleSubmit(day)` up to the request: validate the day's current step and, when it
        passes, send the day's entries and mark the page as submitting. */
    method BeginSubmit(d: Day) returns (sent: bool, payload: seq<GuestEntry>)
      requires Valid()
      modifies this`isSubmitting, Of(d)`errors
      ensures Valid()
      ensures sent == StepValid(Of(d).forms[Of(d).step], Of(d).step)
      ensures Of(d).errors == old(Of(d).errors)[Of(d).step := Raise(old(Of(d).errors)[Of(d).step], Failing(Of(d).forms[Of(d).step], Of(d).step))]
      ensures isSubmitting == (sent || old(isSubmitting))
      ensures sent ==> payload == Of(d).forms
      ensures sent && old(Of(d).PrimaryVetted()) ==> |payload| >= 1 && StepValid(payload[0], 0)
      ensures old(Of(d).PrimaryVetted()) ==> Of(d).PrimaryVetted()
      ensures Of(d).forms == old(Of(d).forms) && Of(d).step == old(Of(d).step) && Of(d).submitted == old(Of(d).submitted)
    {
      var day := Of(d);
      assert d != Thursday ==> thursday != day;
      assert d != Friday ==> friday != day;
      assert d != Saturday ==> saturday != day;
      sent := day.ValidateStep(day.step);
      payload := [];
      if sent {
        isSubmitting := true;
        payload := day.forms;
      }
    }

    /** `handleSubmit(day)` after the request: the day is submitted on success, otherwise
        the banner shows the error; the page is no longer submitting either way. */
    method FinishSubmit(d: Day, outcome: FetchOutcome)
      requires Valid()
      modifies this`isSubmitting, this`submissionError, Of(d)`submitted
      ensures Valid()
      ensures !isSubmitting
      ensures Of(d).forms == old(Of(d).forms) && Of(d).step == old(Of(d).step) && Of(d).errors == old(Of(d).errors)
      ensures Of(d).submitted == (SubmissionErrorText(outcome) == None || old(Of(d).submitted))
      ensures submissionError == match SubmissionErrorText(outcome)
                                 case None => old(submissionError)
                                 case Some(text) => text
    {
      var text := SubmissionErrorText(outcome);
      if text == None {
        Of(d).submitted := true;
      } else {
        submissionError := text.value;
      }
      isSubmitting := false;
    }

    /** The whole of `handleSubmit(day)`, with the relay's answer given as `outcome`. */
    method HandleSubmit(d: Day, outcome: FetchOutcome) returns (sent: bool, payload: seq<GuestEntry>)
      requires Valid()
      modifies this`isSubmitting, this`submissionError, Of(d)`errors, Of(d)`submitted
      ensures Valid()
      ensures sent == StepValid(Of(d).forms[Of(d).step], Of(d).step)
      ensures Of(d).errors == old(Of(d).errors)[Of(d).step := Raise(old(Of(d).errors)[Of(d).step], Failing(Of(d).forms[Of(d).step], Of(d).step))]
      ensures sent ==> payload == Of(d).forms && !isSubmitting
      ensures Of(d).submitted == ((sent && SubmissionErrorText(outcome) == None) || old(Of(d).submitted))
      ensures !sent ==> isSubmitting == old(isSubmitting) && submissionError == old(submissionError)
      ensures sent && SubmissionErrorText(outcome) == None ==> submissionError == old(submissionError)
      ensures sent && SubmissionErrorText(outcome).Some? ==> submissionError == SubmissionErrorText(outcome).value
    {
      var day := Of(d);
      assert d != Thursday ==> thursday != day;
      assert d != Friday ==> friday != day;
      assert d != Saturday ==> saturday != day;
      sent, payload := BeginSubmit(d);
      if sent {
        FinishSubmit(d, outcome);
      }
    }

    /** The day's main button (app/page.tsx lines 794-805): disabled while submitting; it
        advances while a later step exists and otherwise submits. */
    method PrimaryButton(d: Day, outcome: FetchOutcome) returns (sent: bool)
      requires Valid() && Of(d).Settled() && Of(d).count >= 1
      modifies this`isSubmitting, this`submissionError, Of(d)`errors, Of(d)`submitted, Of(d)`step
      ensures Valid() && Of(d).Settled()
      ensures old(isSubmitting) ==> !sent && Of(d).step == old(Of(d).step) && Of(d).errors == old(Of(d).errors)
      ensures sent ==> !old(isSubmitting) && old(Of(d).step) == Of(d).count - 1
      ensures old(Of(d).PrimaryVetted()) ==> Of(d).PrimaryVetted()
    {
      sent := false;
      if isSubmitting {
        return;
      }
      var day := Of(d);
      if day.step < day.count - 1 {
        var _ := day.NextStep();
      } else {
        ghost var was := day.step;
        var payload;
        sent, payload := HandleSubmit(d, outcome);
        assert day.step == was;
      }
    }

    /** The banner's dismiss button (app/page.tsx line 972): only the message changes. */
    method DismissError()
      requires Valid()
      modifies this`submissionError
      ensures Valid() && submissionError == ""
      ensures forall d :: Of(d).forms == old(Of(d).forms) && Of(d).errors == old(Of(d).errors)
    {
      submissionError := "";
    }
  }
}

/**
 * The modal that edits a pending payment: it pre-fills its form from the
 * movement it was opened with and, on save, closes with the form's value only
 * when the form is valid.
 */
module EditPendingPayment {
  import opened Wrappers
  import opened Dates
  import opened Movements

  /** The value of a pending-payment form: amount (`None` when the control is
      empty), description, category and the due date as the date picker's text.
      The add form of the pending-payments page has the same four controls. */
  datatype PendingForm = PendingForm(amount: Option<int>, description: string, category: string, dueDate: string)

  /** Every control empty, as built and as left by `reset()`. */
  const EmptyPendingForm := PendingForm(None, "", "", "")

  /** The validators: amount required and at least 0.01, the three texts required. */
  predicate PendingFormValid(f: PendingForm) {
    f.amount.Some? && f.amount.value >= 1 && f.description != "" && f.category != "" && f.dueDate != ""
  }

  /** The value `ngOnInit` patches in, or `None` when `convertToISOString` throws
      (an Invalid Date, a number or text it cannot turn into one). */
  function Prefill(cal: Calendar, m: Movement): (r: Option<PendingForm>)
    ensures r.Some? <==> ConvertToIsoString(cal, m.dueDate).Some?
    ensures r.Some? ==> r.value.amount == Some(m.amount) && r.value.description == m.description
                        && r.value.category == m.category && r.value.dueDate == ConvertToIsoString(cal, m.dueDate).value
    ensures r.Some? ==> (PendingFormValid(r.value) <==>
                         m.amount >= 1 && m.description != "" && m.category != "" && r.value.dueDate != "")
  {
    match ConvertToIsoString(cal, m.dueDate)
    case Some(iso) => Some(PendingForm(Some(m.amount), m.description, m.category, iso))
    case None => None
  }

  /** A payment without a due date opens with an empty date, so the form cannot be
      saved until one is picked. */
  lemma NoDueDateBlocksSave(cal: Calendar, m: Movement)
    requires m.dueDate.None?
    ensures Prefill(cal, m).Some? && !PendingFormValid(Prefill(cal, m).value)
  {
  }

  /** How the modal closes: it stays open, or it is dismissed with the form's value
      (`None` for `cancel`, which passes no data). */
  datatype Dismissal = StaysOpen | Dismissed(data: Option<PendingForm>)

  class EditPendingPaymentComponent {
    /** The `@Input` movement; `None` when the opener passed none. */
    var movement: Option<Movement>
    var form: PendingForm

    constructor (movement: Option<Movement>)
      ensures this.movement == movement && form == EmptyPendingForm
    {
      this.movement := movement;
      form := EmptyPendingForm;
    }

    /** `ngOnInit`: patches the form from the movement; when the due date cannot be
        converted the call throws before `patchValue` and the form stays empty. */
    method NgOnInit(cal: Calendar)
      modifies this`form
      ensures movement.Some? && Prefill(cal, movement.value).Some? ==> form == Prefill(cal, movement.value).value
      ensures movement.None? || Prefill(cal, movement.value).None? ==> form == old(form)
    {
      if movement.Some? {
        var patch := Prefill(cal, movement.value);
        if patch.Some? {
          form := patch.value;
        }
      }
    }

    /** `save`: closes with the form's value exactly when the form is valid, so the
        opener only ever receives valid data. */
    method Save() returns (d: Dismissal)
      ensures d.Dismissed? <==> PendingFormValid(form)
      ensures d.Dismissed? ==> d.data == Some(form) && PendingFormValid(d.data.value)
    {
      if PendingFormValid(form) {
        d := Dismissed(Some(form));
      } else {
        d := StaysOpen;
      }
    }

    /** `cancel`: closes without data. */
    method Cancel() returns (d: Dismissal)
      ensures d.Dismissed? && d.data.None?
    {
      d := Dismissed(None);
    }
  }
}

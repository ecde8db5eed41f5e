/**
 * The pending-payments page: the list of the user's payments still `pendiente`,
 * the add form, and the mark-as-paid, delete and edit actions.
 */
module PendingPayments {
  import opened Wrappers
  import opened Dates
  import opened Movements
  import opened MovementsService
  import opened FirestoreOrder
  import opened EditPendingPayment

  /** The record `addPagoPendiente` builds from a valid form; `now` stands for
      `new Date()`. */
  function NuevoPago(cal: Calendar, f: PendingForm, userId: string, now: int): (m: Movement)
    requires PendingFormValid(f)
    ensures IsPendingFor(userId, m) && m.id.None?
    ensures m.amount == f.amount.value && m.description == f.description && m.category == f.category
    ensures m.date == NativeDate(Valid(now)) && m.dueDate == Some(NativeDate(cal.parseText(f.dueDate)))
  {
    Movement(None, f.amount.value, f.description, f.category, PagoPendiente,
             NativeDate(Valid(now)), Some(Pendiente), Some(NativeDate(cal.parseText(f.dueDate))), userId)
  }

  /** The service's add-time defaults change nothing on the page's record: it is
      already `pendiente`, and a `Date` object, even an invalid one, is truthy. */
  lemma NuevoPagoNeedsNoDefaults(cal: Calendar, f: PendingForm, userId: string, now: int)
    requires PendingFormValid(f)
    ensures WithPendingDefaults(NuevoPago(cal, f, userId, now)) == NuevoPago(cal, f, userId, now)
  {
  }

  /** `{ ...pago, ...data }`: the modal's four values over the payment; the due date
      becomes the picker's text. */
  function EditMerge(pago: Movement, f: PendingForm): (r: Movement)
    requires f.amount.Some?
    ensures r.id == pago.id && r.kind == pago.kind && r.status == pago.status && r.date == pago.date && r.userId == pago.userId
    ensures r.amount == f.amount.value && r.description == f.description && r.category == f.category
    ensures r.dueDate == Some(Raw(Text(f.dueDate)))
  {
    pago.(amount := f.amount.value, description := f.description, category := f.category, dueDate := Some(Raw(Text(f.dueDate))))
  }

  /** Editing a listed payment keeps it in its owner's pending list and stores the
      new due date as text. */
  lemma EditKeepsPaymentPending(doc: Movement, pago: Movement, f: PendingForm, u: string)
    requires IsPendingFor(u, doc) && pago.kind == PagoPendiente && pago.status != Some(Hecho) && f.amount.Some?
    ensures IsPendingFor(u, Apply(doc, UpdateData(EditMerge(pago, f))))
    ensures Apply(doc, UpdateData(EditMerge(pago, f))).dueDate == Some(Raw(Text(f.dueDate)))
    ensures Apply(doc, UpdateData(EditMerge(pago, f))).amount == f.amount.value
  {
    assert pago.status.GetOr(Pendiente) == Pendiente by {
      if pago.status.Some? {
        assert pago.status.value != Hecho;
      }
    }
  }

  /** Opening the modal and saving without touching anything writes the payment
      back with only its due date changed: from whatever it was to the ISO text. */
  lemma UnchangedEditOnlyRewritesDueDate(cal: Calendar, m: Movement, iso: string)
    requires m.amount >= 1 && m.description != "" && m.category != ""
    requires ConvertToIsoString(cal, m.dueDate) == Some(iso) && iso != ""
    ensures Prefill(cal, m) == Some(PendingForm(Some(m.amount), m.description, m.category, iso))
    ensures PendingFormValid(Prefill(cal, m).value)
    ensures EditMerge(m, Prefill(cal, m).value) == m.(dueDate := Some(Raw(Text(iso))))
  {
  }

  /** Once edited, a payment's due date is stored as text, and the pending list
      shows it after every payment whose due date is still stored as a date, even
      a later one: the query orders by type before it orders by value. */
  lemma EditedPaymentListedAfterDatedOnes(store: MovementStore, u: string, dated: string, edited: string, ms: int, text: string)
    requires dated in store.PendingIds(u) && edited in store.PendingIds(u)
    requires store.docs[dated].dueDate == Some(NativeDate(Valid(ms)))
    requires store.docs[edited].dueDate == Some(Raw(Text(text)))
    ensures var r := store.PendingQuery(u);
      && dated in r && edited in r
      && forall i, j :: 0 <= i < |r| && 0 <= j < |r| && r[i] == dated && r[j] == edited ==> i < j
  {
    var r := store.PendingQuery(u);
    var keys := store.PendingKeys(u);
    assert keys[dated] == TimestampValue(ms) && keys[edited] == StringValue(text);
    TimestampsBeforeStrings(ms, text);
    assert RowLess(keys, dated, edited);
  }

  class PendingPaymentsPage {
    var userId: string
    var addForm: PendingForm
    /** The owner `pagosPendientes$` was last built for; `None` before the first. */
    var listedFor: Option<string>
    const store: MovementStore

    constructor (store: MovementStore)
      ensures this.store == store && userId == "" && addForm == EmptyPendingForm && listedFor.None?
    {
      this.store := store;
      userId := "";
      addForm := EmptyPendingForm;
      listedFor := None;
    }

    /** The ids the page lists, in order: the result of the pending-payments
        query, which leaves out a payment without a stored due date. */
    ghost function Listed(): (ids: seq<string>)
      reads this, store
      requires listedFor.Some?
      ensures forall k :: k in ids <==> k in store.docs && IsPendingFor(listedFor.value, store.docs[k])
                                          && DueKey(store.docs[k].dueDate).Some?
      ensures forall i, j :: 0 <= i < j < |ids| ==> ids[i] != ids[j]
      ensures forall i, j :: 0 <= i < j < |ids| ==> !RowLess(store.PendingKeys(listedFor.value), ids[j], ids[i])
    {
      store.PendingQuery(listedFor.value)
    }

    /** `ngOnInit` with the signed-in user's id, if any. */
    method NgOnInit(user: Option<string>)
      modifies this`userId, this`listedFor
      ensures user.Some? ==> userId == user.value && listedFor == user
      ensures user.None? ==> userId == old(userId) && listedFor == old(listedFor)
    {
      if user.Some? {
        userId := user.value;
        CargarPagosPendientes();
      }
    }

    /** `cargarPagosPendientes`. */
    method CargarPagosPendientes()
      modifies this`listedFor
      ensures listedFor == Some(userId)
    {
      listedFor := Some(userId);
    }

    /** `addPagoPendiente`: with a valid form, stores a new pending payment under the
        store's fresh id, empties the form and reloads the list, which then holds
        the new id unless its due date text does not parse; with an invalid form
        nothing happens. */
    method AddPagoPendiente(cal: Calendar, newId: string, now: int) returns (added: Option<Movement>)
      requires newId != "" && newId !in store.docs
      modifies this`addForm, this`listedFor, store
      ensures userId == old(userId)
      ensures added.Some? <==> PendingFormValid(old(addForm))
      ensures added.Some? ==> added.value == NuevoPago(cal, old(addForm), userId, now)
                              && store.docs == old(store.docs)[newId := added.value]
                              && addForm == EmptyPendingForm && listedFor == Some(userId)
                              && newId in store.PendingIds(userId)
                              && (cal.parseText(old(addForm).dueDate).Valid? ==> newId in Listed())
      ensures added.None? ==> store.docs == old(store.docs) && addForm == old(addForm) && listedFor == old(listedFor)
    {
      if !PendingFormValid(addForm) {
        return None;
      }
      var pago := NuevoPago(cal, addForm, userId, now);
      NuevoPagoNeedsNoDefaults(cal, addForm, userId, now);
      var written := store.AddMovement(pago, newId);
      added := Some(written);
      addForm := EmptyPendingForm;
      CargarPagosPendientes();
    }

    /** `marcarComoHecho` after the confirmation alert: the payment becomes a paid
        expense and leaves the list. When the id is empty or the document is
        missing the update rejects and the list is not reloaded. */
    method MarcarComoHecho(id: string, now: int, confirmed: bool) returns (ok: bool)
      modifies this`listedFor, store
      ensures ok <==> confirmed && id != "" && id in old(store.docs)
      ensures ok ==> store.docs == old(store.docs)[id := old(store.docs)[id].(status := Some(Hecho), kind := Expense, date := NativeDate(Valid(now)))]
                     && listedFor == Some(userId) && id !in Listed()
      ensures !ok ==> store.docs == old(store.docs) && listedFor == old(listedFor)
    {
      ok := false;
      if confirmed {
        ok := store.MarcarPagoComoHecho(id, now);
        if ok {
          CargarPagosPendientes();
        }
      }
    }

    /** `eliminarPago` after the confirmation alert. With the empty id the delete
        throws and the list is not reloaded. */
    method EliminarPago(id: string, confirmed: bool) returns (ok: bool)
      modifies this`listedFor, store
      ensures ok <==> confirmed && id != ""
      ensures ok ==> store.docs == old(store.docs) - {id} && listedFor == Some(userId) && id !in Listed()
      ensures !ok ==> store.docs == old(store.docs) && listedFor == old(listedFor)
    {
      ok := false;
      if confirmed {
        ok := store.DeleteMovement(id);
        if ok {
          CargarPagosPendientes();
        }
      }
    }

    /** `editarPago` with what the modal was dismissed with: `None` after `cancel`,
        otherwise the saved form, which `save` only passes when valid. The merged
        record goes to `updateMovement`; `sent` is it. */
    method EditarPago(pago: Movement, data: Option<PendingForm>) returns (sent: Option<Movement>)
      requires data.Some? ==> PendingFormValid(data.value)
      modifies this`listedFor, store
      ensures sent.Some? <==> data.Some?
      ensures sent.Some? ==> sent.value == EditMerge(pago, data.value)
      ensures sent.Some? && DocKey(pago.id) != "" && DocKey(pago.id) in old(store.docs) ==>
        store.docs == old(store.docs)[DocKey(pago.id) := Apply(old(store.docs)[DocKey(pago.id)], UpdateData(sent.value))]
        && listedFor == Some(userId)
      ensures sent.None? || DocKey(pago.id) == "" || DocKey(pago.id) !in old(store.docs) ==> store.docs == old(store.docs) && listedFor == old(listedFor)
    {
      sent := None;
      if data.Some? {
        var updated := EditMerge(pago, data.value);
        sent := Some(updated);
        var ok := store.UpdateMovement(updated);
        if ok {
          CargarPagosPendientes();
        }
      }
    }
  }
}

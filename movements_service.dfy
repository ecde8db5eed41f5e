/**
 * The store operations of the movements service over the `movements`
 * collection: add with pending-payment defaults, field-selective update,
 * delete, and the one-way "mark as paid" transition. The collection is a map
 * from document id to stored movement; `updateDoc` merges the written fields
 * into the stored document and fails when there is no such document.
 */
module MovementsService {
  import opened Wrappers
  import opened Dates
  import opened Movements
  import opened FirestoreOrder

  /** `movement.dueDate || movement.date`: the due date unless it is absent or falsy. */
  function DueDateOrDate(m: Movement): (d: DateValue)
    ensures m.dueDate.Some? && Truthy(m.dueDate.value) ==> d == m.dueDate.value
    ensures !(m.dueDate.Some? && Truthy(m.dueDate.value)) ==> d == m.date
  {
    if m.dueDate.Some? && Truthy(m.dueDate.value) then m.dueDate.value else m.date
  }

  /** The record `addMovement` writes after defaulting its argument in place. */
  function WithPendingDefaults(m: Movement): (r: Movement)
    ensures r.kind == PagoPendiente ==> r.status == Some(Pendiente) && r.dueDate.Some?
    ensures m.kind != PagoPendiente ==> r == m
    ensures r.(status := m.status, dueDate := m.dueDate) == m
  {
    if m.kind == PagoPendiente then
      m.(status := Some(Pendiente), dueDate := Some(DueDateOrDate(m)))
    else m
  }

  /** A pending payment is always stored as `pendiente`, even when the caller asked
      for `hecho`; its due date is kept when given and falls back to its date. */
  lemma AddAlwaysStoresPendiente(m: Movement)
    requires m.kind == PagoPendiente
    ensures WithPendingDefaults(m).status == Some(Pendiente)
    ensures WithPendingDefaults(m).dueDate == Some(DueDateOrDate(m))
    ensures m.status == Some(Hecho) ==> WithPendingDefaults(m) != m
  {
  }

  /** Defaulting twice is defaulting once. */
  lemma DefaultsIdempotent(m: Movement)
    ensures WithPendingDefaults(WithPendingDefaults(m)) == WithPendingDefaults(m)
  {
  }

  /** The fields an `updateDoc` call writes; `None` means the key is not in the
      update object. `dueDate` is written even when it is `undefined`. */
  datatype Patch = Patch(
    amount: Option<int>,
    description: Option<string>,
    category: Option<string>,
    kind: Option<MovementType>,
    date: Option<DateValue>,
    status: Option<Status>,
    dueDate: Option<Option<DateValue>>)

  /** `updateDoc` merge: every written field replaces the stored one; every other
      field, the owner and the id among them, stays. */
  function Apply(doc: Movement, p: Patch): (r: Movement)
    ensures r.id == doc.id && r.userId == doc.userId
    ensures r.amount == p.amount.GetOr(doc.amount)
    ensures r.description == p.description.GetOr(doc.description)
    ensures r.category == p.category.GetOr(doc.category)
    ensures r.kind == p.kind.GetOr(doc.kind)
    ensures r.date == p.date.GetOr(doc.date)
    ensures r.status == (if p.status.Some? then p.status else doc.status)
    ensures r.dueDate == p.dueDate.GetOr(doc.dueDate)
  {
    Movement(
      doc.id,
      p.amount.GetOr(doc.amount),
      p.description.GetOr(doc.description),
      p.category.GetOr(doc.category),
      p.kind.GetOr(doc.kind),
      p.date.GetOr(doc.date),
      if p.status.Some? then p.status else doc.status,
      p.dueDate.GetOr(doc.dueDate),
      doc.userId)
  }

  /** The update object `updateMovement` builds: always amount, description,
      category, type and date; status (defaulting to `pendiente`) and due date only
      for a pending payment; never the owner. */
  function UpdateData(m: Movement): (p: Patch)
    ensures p.amount.Some? && p.description.Some? && p.category.Some? && p.kind.Some? && p.date.Some?
    ensures p.status.Some? <==> m.kind == PagoPendiente
    ensures p.dueDate.Some? <==> m.kind == PagoPendiente
  {
    var base := Patch(Some(m.amount), Some(m.description), Some(m.category), Some(m.kind), Some(m.date), None, None);
    if m.kind == PagoPendiente then
      base.(status := Some(m.status.GetOr(Pendiente)), dueDate := Some(m.dueDate))
    else base
  }

  /** After an update the stored document carries the five edited fields, keeps its
      owner and id, and for income and expense keeps its old status and due date. */
  lemma UpdateWritesEditedFields(doc: Movement, m: Movement)
    ensures var r := Apply(doc, UpdateData(m));
      && r.amount == m.amount && r.description == m.description && r.category == m.category
      && r.kind == m.kind && r.date == m.date
      && r.userId == doc.userId && r.id == doc.id
      && (m.kind == PagoPendiente ==> r.status == Some(m.status.GetOr(Pendiente)) && r.dueDate == m.dueDate)
      && (m.kind != PagoPendiente ==> r.status == doc.status && r.dueDate == doc.dueDate)
  {
  }

  /** The update object of `marcarPagoComoHecho`, with `now` for `new Date()`. */
  function MarkPaidPatch(now: int): (p: Patch)
    ensures p.status == Some(Hecho) && p.kind == Some(Expense) && p.date == Some(NativeDate(Valid(now)))
    ensures p.amount.None? && p.description.None? && p.category.None? && p.dueDate.None?
  {
    Patch(None, None, None, Some(Expense), Some(NativeDate(Valid(now))), Some(Hecho), None)
  }

  /** Marking as paid changes exactly status, type and date; the record then fails
      the pending query and its amount counts as an expense. */
  lemma MarkPaidChangesExactlyThreeFields(doc: Movement, now: int, userId: string)
    ensures Apply(doc, MarkPaidPatch(now)) == doc.(status := Some(Hecho), kind := Expense, date := NativeDate(Valid(now)))
    ensures !IsPendingFor(userId, Apply(doc, MarkPaidPatch(now)))
    ensures Contribution(Apply(doc, MarkPaidPatch(now)), Expense) == doc.amount
  {
  }

  /** The document path `movements/${id}`: a missing id is spelled `undefined`.
      With the empty id the path names the collection itself, and building the
      document reference throws before anything is written. */
  function DocKey(id: Option<string>): (k: string)
    ensures id.Some? ==> k == id.value
    ensures k == "" <==> id == Some("")
  {
    id.GetOr("undefined")
  }

  /** The `movements` collection. */
  class MovementStore {
    var docs: map<string, Movement>

    constructor ()
      ensures docs == map[]
    {
      docs := map[];
    }

    /** The ids the pending-payments query of `userId` matches. */
    function PendingIds(userId: string): (ids: set<string>)
      reads this
      ensures forall k :: k in ids <==> k in docs && IsPendingFor(userId, docs[k])
    {
      set k | k in docs && IsPendingFor(userId, docs[k])
    }

    /** The value each document matched by the pending-payments query of `userId`
        is ordered by: its due date. A matched document without one is not in the
        ordered result. */
    function PendingKeys(userId: string): (keys: map<string, OrderKey>)
      reads this
      ensures forall k :: k in keys <==> k in PendingIds(userId) && DueKey(docs[k].dueDate).Some?
      ensures forall k :: k in keys ==> keys[k] == DueKey(docs[k].dueDate).value
    {
      map k | k in docs && IsPendingFor(userId, docs[k]) && DueKey(docs[k].dueDate).Some? :: DueKey(docs[k].dueDate).value
    }

    /** `getPagosPendientes(userId)`: the ids of the user's payments still
        `pendiente`, ordered by due date ascending, each once. */
    ghost function PendingQuery(userId: string): (ids: seq<string>)
      reads this
      ensures forall k :: k in ids <==> k in PendingKeys(userId)
      ensures forall i, j :: 0 <= i < j < |ids| ==> ids[i] != ids[j]
      ensures forall i, j :: 0 <= i < j < |ids| ==> !RowLess(PendingKeys(userId), ids[j], ids[i])
    {
      QueryOrder(PendingKeys(userId), PendingKeys(userId).Keys)
    }

    /** A document as the queries return it: with its id in the `id` field. */
    function Fetched(key: string): (m: Movement)
      reads this
      requires key in docs
      ensures m.id == Some(key) && m.(id := docs[key].id) == docs[key]
    {
      docs[key].(id := Some(key))
    }

    /** `addMovement`: defaults the argument in place (returned here as `written`)
        and adds it under the fresh id the store chose. */
    method AddMovement(m: Movement, newId: string) returns (written: Movement)
      requires newId != "" && newId !in docs
      modifies this
      ensures written == WithPendingDefaults(m)
      ensures docs == old(docs)[newId := written]
    {
      written := m;
      if written.kind == PagoPendiente {
        written := written.(status := Some(Pendiente));
        written := written.(dueDate := Some(DueDateOrDate(written)));
      }
      docs := docs[newId := written];
    }

    /** `deleteMovement`: deleting a missing document is not an error; the empty
        id throws and deletes nothing. */
    method DeleteMovement(id: string) returns (ok: bool)
      modifies this
      ensures ok <==> id != ""
      ensures ok ==> docs == old(docs) - {id} && forall u :: PendingIds(u) == old(PendingIds(u)) - {id}
      ensures !ok ==> docs == old(docs)
    {
      ok := id != "";
      if ok {
        docs := docs - {id};
      }
    }

    /** `updateMovement`: merges `UpdateData(m)` into the document named by `m.id`;
        fails, changing nothing, when the id is empty or there is no such document. */
    method UpdateMovement(m: Movement) returns (ok: bool)
      modifies this
      ensures ok <==> DocKey(m.id) != "" && DocKey(m.id) in old(docs)
      ensures ok ==> docs == old(docs)[DocKey(m.id) := Apply(old(docs)[DocKey(m.id)], UpdateData(m))]
      ensures !ok ==> docs == old(docs)
    {
      var key := DocKey(m.id);
      ok := key != "" && key in docs;
      if ok {
        docs := docs[key := Apply(docs[key], UpdateData(m))];
      }
    }

    /** `marcarPagoComoHecho`: the one-way transition to a paid expense dated `now`.
        Nothing else in the collection changes, and the document leaves every
        owner's pending query. It fails, changing nothing, when the id is empty or
        there is no such document. */
    method MarcarPagoComoHecho(id: string, now: int) returns (ok: bool)
      modifies this
      ensures ok <==> id != "" && id in old(docs)
      ensures ok ==> docs == old(docs)[id := old(docs)[id].(status := Some(Hecho), kind := Expense, date := NativeDate(Valid(now)))]
      ensures ok ==> forall u :: PendingIds(u) == old(PendingIds(u)) - {id}
      ensures !ok ==> docs == old(docs)
    {
      ok := id != "" && id in docs;
      if ok {
        MarkPaidChangesExactlyThreeFields(docs[id], now, "");
        docs := docs[id := Apply(docs[id], MarkPaidPatch(now))];
        forall u
          ensures PendingIds(u) == old(PendingIds(u)) - {id}
        {
          MarkPaidChangesExactlyThreeFields(old(docs)[id], now, u);
        }
      }
    }
  }
}

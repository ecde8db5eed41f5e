/**
 * The transactions page: the type/category filter over the loaded list, the
 * newest-first sort of each emitted list, the category display names, the
 * list's track-by key, and the add, edit and delete handlers.
 */
module Transactions {
  import opened Wrappers
  import opened Text
  import opened Dates
  import opened Movements
  import opened MovementsService

  // ---------------------------------------------------------------- filter

  /** The filter form's value. A `null` left by `reset()` and `''` both mean "any",
      so both are the empty string here. */
  datatype Filters = Filters(kind: string, category: string)

  /** The filter predicate: each non-empty filter must equal the movement's field. */
  predicate MatchesFilters(f: Filters, m: Movement): (b: bool)
    ensures f.kind == "" && f.category == "" ==> b
    ensures b && f.category != "" ==> m.category == f.category
    ensures b && f.kind != "" ==> TypeName(m.kind) == f.kind
  {
    (f.kind == "" || TypeName(m.kind) == f.kind) && (f.category == "" || m.category == f.category)
  }

  /** `movements.filter(...)`: the matching movements, in their order. */
  function FilterMovements(ms: seq<Movement>, f: Filters): (r: seq<Movement>)
    ensures |r| <= |ms|
    ensures forall m :: m in r <==> m in ms && MatchesFilters(f, m)
  {
    if ms == [] then []
    else
      var init := FilterMovements(ms[..|ms| - 1], f);
      assert forall m :: m in ms <==> m in ms[..|ms| - 1] || m == ms[|ms| - 1] by {
        assert ms == ms[..|ms| - 1] + [ms[|ms| - 1]];
      }
      if MatchesFilters(f, ms[|ms| - 1]) then init + [ms[|ms| - 1]] else init
  }

  /** `a` is `b` with some elements left out, the rest in the same order. */
  predicate IsSubsequence(a: seq<Movement>, b: seq<Movement>)
    decreases |b|
  {
    if b == [] then a == []
    else (a != [] && a[|a| - 1] == b[|b| - 1] && IsSubsequence(a[..|a| - 1], b[..|b| - 1]))
         || IsSubsequence(a, b[..|b| - 1])
  }

  /** The shown list keeps the loaded order. */
  lemma {:induction false} FilterIsSubsequence(ms: seq<Movement>, f: Filters)
    ensures IsSubsequence(FilterMovements(ms, f), ms)
  {
    if ms != [] {
      var init := ms[..|ms| - 1];
      FilterIsSubsequence(init, f);
      var r := FilterMovements(ms, f);
      if MatchesFilters(f, ms[|ms| - 1]) {
        assert r[..|r| - 1] == FilterMovements(init, f);
      }
    }
  }

  /** With both filters empty the list is shown as it is. */
  lemma {:induction false} EmptyFiltersKeepAll(ms: seq<Movement>)
    ensures FilterMovements(ms, Filters("", "")) == ms
  {
    if ms != [] {
      EmptyFiltersKeepAll(ms[..|ms| - 1]);
      assert ms[..|ms| - 1] + [ms[|ms| - 1]] == ms;
    }
  }

  /** Filtering the filtered list again changes nothing. */
  lemma {:induction false} FilterIdempotent(ms: seq<Movement>, f: Filters)
    ensures FilterMovements(FilterMovements(ms, f), f) == FilterMovements(ms, f)
  {
    if ms != [] {
      var init := ms[..|ms| - 1];
      FilterIdempotent(init, f);
      var r := FilterMovements(init, f);
      if MatchesFilters(f, ms[|ms| - 1]) {
        assert (r + [ms[|ms| - 1]])[..|r|] == r;
      }
    }
  }

  // ---------------------------------------------------------------- sort

  /** `parseDate(m.date)`, whose `getTime()` the comparator subtracts. */
  function TimeOf(cal: Calendar, m: Movement): JsDate {
    ParseDate(cal, m.date)
  }

  /** The comparator `(a, b) => dateB.getTime() - dateA.getTime()` puts `a` before
      `b` exactly when it is negative: when `a` is strictly later. With an Invalid
      Date the difference is NaN and neither goes first. */
  predicate Later(cal: Calendar, a: Movement, b: Movement) {
    TimeOf(cal, a).Valid? && TimeOf(cal, b).Valid? && TimeOf(cal, a).ms > TimeOf(cal, b).ms
  }

  /** Every date normalises to a valid time. */
  predicate AllDated(cal: Calendar, s: seq<Movement>) {
    forall i :: 0 <= i < |s| ==> TimeOf(cal, s[i]).Valid?
  }

  /** No movement is later than one before it. */
  predicate NewestFirst(cal: Calendar, s: seq<Movement>) {
    forall i, j :: 0 <= i < j < |s| ==> !Later(cal, s[j], s[i])
  }

  /** `movements.sort(...)` in place, as a stable insertion sort: the result is a
      permutation of the list and, when every date is valid, newest first. (With an
      Invalid Date the comparator is not an order and no order is promised.) */
  method SortNewestFirst(cal: Calendar, a: array<Movement>)
    modifies a
    ensures multiset(a[..]) == multiset(old(a[..]))
    ensures AllDated(cal, old(a[..])) ==> NewestFirst(cal, a[..])
  {
    ghost var dated := AllDated(cal, a[..]);
    var i := 0;
    while i < a.Length
      invariant 0 <= i <= a.Length
      invariant multiset(a[..]) == multiset(old(a[..]))
      invariant dated ==> AllDated(cal, a[..]) && NewestFirst(cal, a[..i])
    {
      InsertNewestFirst(cal, a, i);
      i := i + 1;
    }
    assert a[..a.Length] == a[..];
  }

  /** One pass of the insertion sort: moves `a[i]` left past every strictly
      earlier movement, so a newest-first prefix grows by one. */
  method InsertNewestFirst(cal: Calendar, a: array<Movement>, i: int)
    requires 0 <= i < a.Length
    modifies a
    ensures multiset(a[..]) == multiset(old(a[..]))
    ensures old(AllDated(cal, a[..]) && NewestFirst(cal, a[..i])) ==>
              AllDated(cal, a[..]) && NewestFirst(cal, a[..i + 1])
  {
    ghost var dated := AllDated(cal, a[..]) && NewestFirst(cal, a[..i]);
    if dated {
      StartInserting(cal, a[..], i);
    }
    var j := i;
    while j > 0 && Later(cal, a[j], a[j - 1])
      invariant 0 <= j <= i
      invariant multiset(a[..]) == multiset(old(a[..]))
      invariant dated ==> Inserting(cal, a[..], i, j)
    {
      ghost var s := a[..];
      a[j], a[j - 1] := a[j - 1], a[j];
      assert a[..] == s[j - 1 := s[j]][j := s[j - 1]];
      if dated {
        SwapKeepsInserting(cal, s, i, j);
      }
      j := j - 1;
    }
    if dated {
      DoneInserting(cal, a[..], i, j);
    }
  }

  /** Halfway through inserting `s[j]` into the newest-first prefix `s[..i]`: every
      date is valid, the prefix without position `j` is newest first, and `s[j]` is
      later than everything it has passed. */
  predicate Inserting(cal: Calendar, s: seq<Movement>, i: int, j: int) {
    && 0 <= j <= i < |s|
    && AllDated(cal, s)
    && (forall p, q :: 0 <= p < q <= i && p != j && q != j ==> !Later(cal, s[q], s[p]))
    && (forall q :: j < q <= i ==> Later(cal, s[j], s[q]))
    && (forall p, q :: 0 <= p < j < q <= i ==> !Later(cal, s[q], s[p]))
  }

  lemma StartInserting(cal: Calendar, s: seq<Movement>, i: int)
    requires 0 <= i < |s| && AllDated(cal, s) && NewestFirst(cal, s[..i])
    ensures Inserting(cal, s, i, i)
  {
    forall p, q | 0 <= p < q <= i && p != i && q != i
      ensures !Later(cal, s[q], s[p])
    {
      assert s[..i][p] == s[p] && s[..i][q] == s[q];
    }
  }

  lemma SwapKeepsInserting(cal: Calendar, s: seq<Movement>, i: int, j: int)
    requires Inserting(cal, s, i, j) && j > 0 && Later(cal, s[j], s[j - 1])
    ensures Inserting(cal, s[j - 1 := s[j]][j := s[j - 1]], i, j - 1)
  {
    var t := s[j - 1 := s[j]][j := s[j - 1]];
    assert forall k :: 0 <= k < |t| ==> t[k] == (if k == j - 1 then s[j] else if k == j then s[j - 1] else s[k]);
  }

  lemma DoneInserting(cal: Calendar, s: seq<Movement>, i: int, j: int)
    requires Inserting(cal, s, i, j) && (j == 0 || !Later(cal, s[j], s[j - 1]))
    ensures AllDated(cal, s) && NewestFirst(cal, s[..i + 1])
  {
    forall p, q | 0 <= p < q <= i
      ensures !Later(cal, s[q], s[p])
    {
      if q == j && p < j - 1 {
        assert !Later(cal, s[j - 1], s[p]);
      }
    }
    assert forall k :: 0 <= k <= i ==> s[..i + 1][k] == s[k];
  }

  // ---------------------------------------------------------------- display

  /** The category display names. */
  const CategoryNames: map<string, string> := map[
    "comida" := "🍔 Comida",
    "transporte" := "🚗 Transporte",
    "salud" := "🩺 Salud",
    "educacion" := "📚 Educación",
    "entretenimiento" := "🎮 Entretenimiento",
    "compras" := "🛒 Compras",
    "otros" := "📦 Otros"]

  /** `getCategoryName`: the display name of one of the seven known keys, any other
      key as it is; so the shown text differs from the key exactly for known keys. */
  function GetCategoryName(c: string): (r: string)
    ensures c in CategoryNames ==> r == CategoryNames[c]
    ensures r != c <==> c in CategoryNames
  {
    if c in CategoryNames then CategoryNames[c] else c
  }

  /** The key `trackByMovement` gives Angular. */
  datatype TrackKey = ById(id: string) | ByIndex(index: int)

  /** `movement.id || index`: the id unless it is absent or empty. */
  function TrackByMovement(index: nat, m: Movement): (k: TrackKey)
    ensures k.ById? <==> m.id.Some? && m.id.value != ""
    ensures k.ById? ==> k.id == m.id.value
    ensures k.ByIndex? ==> k.index == index
  {
    if m.id.Some? && m.id.value != "" then ById(m.id.value) else ByIndex(index)
  }

  /** Two rows get the same track-by key exactly when they carry the same
      non-empty id, or when neither has one and they sit at the same index. */
  lemma TrackKeysCollideIff(i: nat, m: Movement, j: nat, n: Movement)
    ensures TrackByMovement(i, m) == TrackByMovement(j, n) <==>
      (m.id.Some? && m.id.value != "" && m.id == n.id)
      || (!(m.id.Some? && m.id.value != "") && !(n.id.Some? && n.id.value != "") && i == j)
  {
  }

  /** A list whose non-empty ids are distinct gives every row its own key, so
      `ngFor` can tell the rows apart. */
  lemma {:induction false} TrackKeysDistinct(ms: seq<Movement>)
    requires forall i, j :: 0 <= i < j < |ms| && ms[i].id.Some? && ms[i].id.value != "" ==> ms[i].id != ms[j].id
    ensures forall i, j :: 0 <= i < j < |ms| ==> TrackByMovement(i, ms[i]) != TrackByMovement(j, ms[j])
  {
    forall i, j | 0 <= i < j < |ms|
      ensures TrackByMovement(i, ms[i]) != TrackByMovement(j, ms[j])
    {
      TrackKeysCollideIff(i, ms[i], j, ms[j]);
    }
  }

  // ---------------------------------------------------------------- edit

  /** The alert inputs: the amount (`None` for an empty text) and the description. */
  datatype AlertData = AlertData(amount: Option<int>, description: string)

  /** The save handler of the edit alert: `None` is "Datos inválidos" (empty amount,
      empty description, or no id); otherwise only amount and the trimmed
      description are replaced. */
  function EditedMovement(m: Movement, data: AlertData): (r: Option<Movement>)
    ensures r.Some? <==> data.amount.Some? && data.description != "" && m.id.Some? && m.id.value != ""
    ensures r.Some? ==> r.value == m.(amount := data.amount.value, description := Trim(data.description))
  {
    if data.amount.Some? && data.description != "" && m.id.Some? && m.id.value != "" then
      Some(m.(amount := data.amount.value, description := Trim(data.description)))
    else None
  }

  /** The edit keeps id, category, type, date and owner, and the update it sends
      rewrites the stored amount and description and leaves the owner alone. */
  lemma EditKeepsIdentity(m: Movement, data: AlertData, doc: Movement)
    requires EditedMovement(m, data).Some?
    ensures var e := EditedMovement(m, data).value;
      && e.id == m.id && e.category == m.category && e.kind == m.kind && e.date == m.date && e.userId == m.userId
      && Apply(doc, UpdateData(e)).amount == data.amount.value
      && Apply(doc, UpdateData(e)).description == Trim(data.description)
      && Apply(doc, UpdateData(e)).userId == doc.userId
  {
  }

  /** The guard looks at the untrimmed text, so a description of blanks is accepted
      and stored empty. */
  lemma BlankDescriptionAccepted(m: Movement)
    requires m.id == Some("a")
    ensures EditedMovement(m, AlertData(Some(100), " ")).Some?
    ensures EditedMovement(m, AlertData(Some(100), " ")).value.description == ""
  {
    assert Trim(" ") == "";
  }

  // ---------------------------------------------------------------- add

  /** The add form's value; `amount` is `None` when empty. */
  datatype AddForm = AddForm(amount: Option<int>, description: string, category: string, kind: Option<MovementType>, date: string)

  /** The add form's validators: amount required and at least 0.01, description
      required with at least 3 characters, category, type and date required. */
  predicate AddFormValid(f: AddForm) {
    && f.amount.Some? && f.amount.value >= 1
    && f.description != "" && |f.description| >= 3
    && f.category != ""
    && f.kind.Some?
    && f.date != ""
  }

  /** The record `addMovement` builds: the trimmed description, the chosen type,
      the parsed date and the current user. */
  function NewTransaction(cal: Calendar, f: AddForm, userId: string): (m: Movement)
    requires AddFormValid(f)
    ensures m.id.None? && m.status.None? && m.dueDate.None?
    ensures m.amount == f.amount.value && m.description == Trim(f.description) && m.category == f.category
    ensures m.kind == f.kind.value && m.userId == userId
    ensures m.date == NativeDate(cal.parseText(f.date))
  {
    Movement(None, f.amount.value, Trim(f.description), f.category, f.kind.value,
             NativeDate(cal.parseText(f.date)), None, None, userId)
  }

  /** `addForm.reset({type: 'expense', date: now})`. */
  function ResetAddForm(nowIso: string): (f: AddForm)
    ensures f.kind == Some(Expense) && f.date == nowIso
    ensures !AddFormValid(f)
  {
    AddForm(None, "", "", Some(Expense), nowIso)
  }

  class TransactionsPage {
    var currentUserId: Option<string>
    /** Whether `loadMovements` has subscribed to the user's movements. */
    var subscribed: bool
    /** The last list pushed into `movementsSubject`. */
    var movements: seq<Movement>
    var filters: Filters
    var addForm: AddForm
    const store: MovementStore

    constructor (store: MovementStore, nowIso: string)
      ensures this.store == store
      ensures currentUserId.None? && !subscribed && movements == [] && filters == Filters("", "")
      ensures addForm == AddForm(None, "", "", Some(Expense), nowIso)
    {
      this.store := store;
      currentUserId := None;
      subscribed := false;
      movements := [];
      filters := Filters("", "");
      addForm := AddForm(None, "", "", Some(Expense), nowIso);
    }

    /** `!this.currentUserId` is false. */
    predicate HasUser()
      reads this
    {
      currentUserId.Some? && currentUserId.value != ""
    }

    /** The list the template shows. */
    function FilteredMovements(): (r: seq<Movement>)
      reads this
      ensures forall m :: m in r <==> m in movements && MatchesFilters(filters, m)
    {
      FilterMovements(movements, filters)
    }

    /** `loadCurrentUser` with the signed-in user's id, if any. */
    method LoadCurrentUser(user: Option<string>)
      modifies this
      ensures currentUserId == (if user.Some? then user else old(currentUserId))
      ensures subscribed == (old(subscribed) || (user.Some? && HasUser()))
      ensures movements == old(movements) && filters == old(filters) && addForm == old(addForm)
    {
      if user.Some? {
        currentUserId := user;
        LoadMovements();
      }
    }

    /** `loadMovements`: subscribes only when there is a user. */
    method LoadMovements()
      modifies this`subscribed
      ensures subscribed == (old(subscribed) || HasUser())
    {
      if !HasUser() {
        return;
      }
      subscribed := true;
    }

    /** The subscription's `next`: sorts the emitted array in place and pushes it. */
    method OnMovements(cal: Calendar, snapshot: array<Movement>)
      requires subscribed
      modifies this`movements, snapshot
      ensures movements == snapshot[..]
      ensures multiset(movements) == multiset(old(snapshot[..]))
      ensures AllDated(cal, old(snapshot[..])) ==> NewestFirst(cal, movements)
    {
      SortNewestFirst(cal, snapshot);
      movements := snapshot[..];
    }

    /** The filter form's `valueChanges`. */
    method OnFilterChange(f: Filters)
      modifies this`filters
      ensures filters == f
    {
      filters := f;
    }

    /** `clearFilters`: the reset form shows everything again. */
    method ClearFilters()
      modifies this`filters
      ensures filters == Filters("", "") && FilteredMovements() == movements
    {
      filters := Filters("", "");
      EmptyFiltersKeepAll(movements);
    }

    /** `addMovement`: with a valid form and a user, stores the new record under the
        store's fresh id and resets the form; otherwise nothing changes. */
    method AddMovement(cal: Calendar, newId: string, nowIso: string) returns (added: Option<Movement>)
      requires newId != "" && newId !in store.docs
      modifies this`addForm, store
      ensures currentUserId == old(currentUserId)
      ensures added.Some? <==> AddFormValid(old(addForm)) && HasUser()
      ensures added.Some? ==> added.value == WithPendingDefaults(NewTransaction(cal, old(addForm), currentUserId.value))
                              && store.docs == old(store.docs)[newId := added.value]
                              && addForm == ResetAddForm(nowIso)
      ensures added.None? ==> store.docs == old(store.docs) && addForm == old(addForm)
    {
      if AddFormValid(addForm) && HasUser() {
        var movement := NewTransaction(cal, addForm, currentUserId.value);
        var written := store.AddMovement(movement, newId);
        added := Some(written);
        addForm := ResetAddForm(nowIso);
      } else {
        added := None;
      }
    }

    /** `editMovement`: `data` is `None` when the alert is cancelled. A valid edit is
        sent to `updateMovement`; `sent` is what was sent. */
    method EditMovement(m: Movement, data: Option<AlertData>) returns (sent: Option<Movement>)
      modifies store
      ensures sent == (if data.Some? then EditedMovement(m, data.value) else None)
      ensures sent.Some? && DocKey(m.id) in old(store.docs) ==>
        store.docs == old(store.docs)[DocKey(m.id) := Apply(old(store.docs)[DocKey(m.id)], UpdateData(sent.value))]
      ensures sent.None? || DocKey(m.id) !in old(store.docs) ==> store.docs == old(store.docs)
    {
      sent := None;
      if data.Some? {
        sent := EditedMovement(m, data.value);
        if sent.Some? {
          var _ := store.UpdateMovement(sent.value);
        }
      }
    }

    /** `deleteMovement`: nothing without an id; the confirmation alert decides. */
    method DeleteMovement(id: Option<string>, confirmed: bool)
      modifies store
      ensures id.Some? && id.value != "" && confirmed ==> store.docs == old(store.docs) - {id.value}
      ensures !(id.Some? && id.value != "" && confirmed) ==> store.docs == old(store.docs)
    {
      if id.None? || id.value == "" {
        return;
      }
      if confirmed {
        var _ := store.DeleteMovement(id.value);
      }
    }
  }
}

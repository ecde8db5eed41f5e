/**
 * The ledger entry of the finance app, as the movements service declares it,
 * and the type totals that the service summary and the dashboard both compute
 * with a `filter` on the type followed by a `reduce` over the amounts.
 */
module Movements {
  import opened Wrappers
  import opened Dates

  /** The `type` field: `'income'`, `'expense'` or `'pago_pendiente'`. */
  datatype MovementType = Income | Expense | PagoPendiente

  /** The optional `status` field of a pending payment: `'pendiente'` or `'hecho'`. */
  datatype Status = Pendiente | Hecho

  /** A movement as stored. Amounts are whole cents. `id` is absent before the
      store assigns one; `status` and `dueDate` are optional. */
  datatype Movement = Movement(
    id: Option<string>,
    amount: int,
    description: string,
    category: string,
    kind: MovementType,
    date: DateValue,
    status: Option<Status>,
    dueDate: Option<DateValue>,
    userId: string)

  /** The string the source stores in the `type` field. */
  function TypeName(t: MovementType): (s: string)
    ensures s != ""
  {
    match t
    case Income => "income"
    case Expense => "expense"
    case PagoPendiente => "pago_pendiente"
  }

  lemma TypeNameInjective(t: MovementType, u: MovementType)
    ensures TypeName(t) == TypeName(u) <==> t == u
  {
  }

  /** The where clauses of the pending-payments query: the owner, type
      `pago_pendiente` and status `pendiente`. */
  predicate IsPendingFor(userId: string, m: Movement) {
    m.userId == userId && m.kind == PagoPendiente && m.status == Some(Pendiente)
  }

  /** What one movement adds to the total of type `t`. */
  function Contribution(m: Movement, t: MovementType): int {
    if m.kind == t then m.amount else 0
  }

  /** `movements.filter(m => m.type === t).reduce((sum, m) => sum + m.amount, 0)`:
      a left fold, so the last movement is added last. */
  function SumOfType(ms: seq<Movement>, t: MovementType): int
  {
    if ms == [] then 0 else SumOfType(ms[..|ms| - 1], t) + Contribution(ms[|ms| - 1], t)
  }

  /** The total of a concatenation is the sum of the totals. */
  lemma {:induction false} SumOfTypeAppend(a: seq<Movement>, b: seq<Movement>, t: MovementType)
    ensures SumOfType(a + b, t) == SumOfType(a, t) + SumOfType(b, t)
  {
    if b == [] {
      assert a + b == a;
    } else {
      assert (a + b)[..|a + b| - 1] == a + b[..|b| - 1];
      SumOfTypeAppend(a, b[..|b| - 1], t);
    }
  }

  /** Taking one movement out of the list takes exactly its contribution out of the total. */
  lemma {:induction false} SumOfTypeRemove(s: seq<Movement>, i: nat, t: MovementType)
    requires i < |s|
    ensures SumOfType(s, t) == SumOfType(s[..i] + s[i + 1..], t) + Contribution(s[i], t)
  {
    if i == |s| - 1 {
      assert s[..i] + s[i + 1..] == s[..|s| - 1];
    } else {
      var init := s[..|s| - 1];
      SumOfTypeRemove(init, i, t);
      var rest := s[..i] + s[i + 1..];
      assert rest[..|rest| - 1] == init[..i] + init[i + 1..];
      assert rest[|rest| - 1] == s[|s| - 1];
    }
  }

  /** Removing the element at `j` removes one occurrence of it from the multiset. */
  lemma MultisetRemove(s: seq<Movement>, j: nat)
    requires j < |s|
    ensures multiset(s[..j] + s[j + 1..]) == multiset(s) - multiset{s[j]}
  {
    assert s == s[..j] + [s[j]] + s[j + 1..];
  }

  /** The totals do not depend on the order of the movements. */
  lemma {:induction false} SumOfTypePermutation(a: seq<Movement>, b: seq<Movement>, t: MovementType)
    requires multiset(a) == multiset(b)
    ensures SumOfType(a, t) == SumOfType(b, t)
    decreases |a|
  {
    if a == [] {
      assert |b| == |multiset(b)| == 0;
    } else {
      var n := |a| - 1;
      var x := a[n];
      assert x in multiset(b);
      var j :| 0 <= j < |b| && b[j] == x;
      var rest := b[..j] + b[j + 1..];
      MultisetRemove(a, n);
      assert a[..n] + a[n + 1..] == a[..n];
      MultisetRemove(b, j);
      assert multiset(a[..n]) == multiset(rest);
      SumOfTypePermutation(a[..n], rest, t);
      SumOfTypeRemove(b, j, t);
      assert SumOfType(a, t) == SumOfType(a[..n], t) + Contribution(x, t);
    }
  }

  /** Pending payments count in neither the income nor the expense total:
      removing them all leaves both totals as they were. */
  lemma {:induction false} PendingCountsInNeitherTotal(ms: seq<Movement>, t: MovementType)
    requires t != PagoPendiente
    ensures SumOfType(ms, t) == SumOfType(WithoutPending(ms), t)
    ensures SumOfType(WithoutPending(ms), PagoPendiente) == 0
  {
    if ms != [] {
      PendingCountsInNeitherTotal(ms[..|ms| - 1], t);
    }
  }

  /** The movements whose type is not `pago_pendiente`, in order. */
  function WithoutPending(ms: seq<Movement>): (r: seq<Movement>)
    ensures forall m :: m in r <==> m in ms && m.kind != PagoPendiente
  {
    if ms == [] then []
    else
      var init := WithoutPending(ms[..|ms| - 1]);
      if ms[|ms| - 1].kind == PagoPendiente then init else init + [ms[|ms| - 1]]
  }
}

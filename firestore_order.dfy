/**
 * The order in which Firestore returns the documents of a query sorted
 * ascending on one field. Values of different types compare by type first
 * (null, numbers, timestamps, strings, maps); values of one type compare by
 * value; strings compare by code point, which for Unicode scalar values is the
 * byte order of their UTF-8 encoding. Documents whose values tie are ordered by
 * document id. A document without the field is not in the result at all.
 */
module FirestoreOrder {
  import opened Wrappers
  import opened Dates

  /** A stored field value, reduced to what ordering needs. A `{ seconds }`
      object is a map with one numeric entry, so maps compare by that number. */
  datatype OrderKey =
    | NullValue
    | NumberValue(n: int)
    | TimestampValue(ms: int)
    | StringValue(s: string)
    | MapValue(seconds: int)

  /** The position of a value's type in the cross-type order. */
  function TypeRank(k: OrderKey): (r: nat)
    ensures r <= 4
  {
    match k
    case NullValue => 0
    case NumberValue(_) => 1
    case TimestampValue(_) => 2
    case StringValue(_) => 3
    case MapValue(_) => 4
  }

  /** Code-point lexicographic order: a proper prefix comes first. */
  predicate StringLess(a: string, b: string) {
    if b == [] then false
    else if a == [] then true
    else if a[0] != b[0] then a[0] < b[0]
    else StringLess(a[1..], b[1..])
  }

  lemma {:induction false} StringLessIrreflexive(a: string)
    ensures !StringLess(a, a)
  {
    if a != [] {
      StringLessIrreflexive(a[1..]);
    }
  }

  lemma {:induction false} StringLessTransitive(a: string, b: string, c: string)
    requires StringLess(a, b) && StringLess(b, c)
    ensures StringLess(a, c)
  {
    if a != [] && a[0] == b[0] && b[0] == c[0] {
      StringLessTransitive(a[1..], b[1..], c[1..]);
    }
  }

  lemma {:induction false} StringLessTotal(a: string, b: string)
    ensures a == b || StringLess(a, b) || StringLess(b, a)
  {
    if a != [] && b != [] && a[0] == b[0] {
      StringLessTotal(a[1..], b[1..]);
      if a[1..] == b[1..] {
        assert a == [a[0]] + a[1..] && b == [b[0]] + b[1..];
      }
    }
  }

  /** Firestore's ascending order on field values. */
  predicate KeyLess(a: OrderKey, b: OrderKey) {
    match (a, b)
    case (NumberValue(x), NumberValue(y)) => x < y
    case (TimestampValue(x), TimestampValue(y)) => x < y
    case (StringValue(x), StringValue(y)) => StringLess(x, y)
    case (MapValue(x), MapValue(y)) => x < y
    case _ => TypeRank(a) < TypeRank(b)
  }

  /** Every timestamp sorts before every string, whatever the date and the text. */
  lemma TimestampsBeforeStrings(ms: int, s: string)
    ensures KeyLess(TimestampValue(ms), StringValue(s))
    ensures !KeyLess(StringValue(s), TimestampValue(ms))
  {
  }

  lemma KeyLessIrreflexive(a: OrderKey)
    ensures !KeyLess(a, a)
  {
    if a.StringValue? {
      StringLessIrreflexive(a.s);
    }
  }

  lemma KeyLessTransitive(a: OrderKey, b: OrderKey, c: OrderKey)
    requires KeyLess(a, b) && KeyLess(b, c)
    ensures KeyLess(a, c)
  {
    if a.StringValue? && b.StringValue? && c.StringValue? {
      StringLessTransitive(a.s, b.s, c.s);
    }
  }

  lemma KeyLessTotal(a: OrderKey, b: OrderKey)
    ensures a == b || KeyLess(a, b) || KeyLess(b, a)
  {
    if a.StringValue? && b.StringValue? {
      StringLessTotal(a.s, b.s);
    }
  }

  /** The order of two documents in the result: by their field values, and by
      document id when the values tie. */
  predicate RowLess(keys: map<string, OrderKey>, a: string, b: string)
    requires a in keys && b in keys
  {
    KeyLess(keys[a], keys[b]) || (keys[a] == keys[b] && StringLess(a, b))
  }

  lemma RowLessIrreflexive(keys: map<string, OrderKey>, a: string)
    requires a in keys
    ensures !RowLess(keys, a, a)
  {
    KeyLessIrreflexive(keys[a]);
    StringLessIrreflexive(a);
  }

  lemma RowLessTransitive(keys: map<string, OrderKey>, a: string, b: string, c: string)
    requires a in keys && b in keys && c in keys
    requires RowLess(keys, a, b) && RowLess(keys, b, c)
    ensures RowLess(keys, a, c)
  {
    if KeyLess(keys[a], keys[b]) && KeyLess(keys[b], keys[c]) {
      KeyLessTransitive(keys[a], keys[b], keys[c]);
    } else if !KeyLess(keys[a], keys[b]) && !KeyLess(keys[b], keys[c]) {
      StringLessTransitive(a, b, c);
    }
  }

  /** Two different documents are never tied. */
  lemma RowLessTotal(keys: map<string, OrderKey>, a: string, b: string)
    requires a in keys && b in keys && a != b
    ensures RowLess(keys, a, b) || RowLess(keys, b, a)
  {
    KeyLessTotal(keys[a], keys[b]);
    StringLessTotal(a, b);
  }

  /** A non-empty set of documents has one that no other sorts before. */
  lemma {:induction false} FirstOf(keys: map<string, OrderKey>, ids: set<string>) returns (m: string)
    requires ids <= keys.Keys && ids != {}
    ensures m in ids && forall x :: x in ids ==> !RowLess(keys, x, m)
    decreases ids
  {
    var y :| y in ids;
    RowLessIrreflexive(keys, y);
    var rest := ids - {y};
    if rest == {} {
      assert ids == {y};
      return y;
    }
    var first := FirstOf(keys, rest);
    if !RowLess(keys, y, first) {
      return first;
    }
    forall x | x in rest
      ensures !RowLess(keys, x, y)
    {
      if RowLess(keys, x, y) {
        RowLessTransitive(keys, x, y, first);
      }
    }
    return y;
  }

  lemma FirstExists(keys: map<string, OrderKey>, ids: set<string>)
    requires ids <= keys.Keys && ids != {}
    ensures exists m :: m in ids && forall x :: x in ids ==> !RowLess(keys, x, m)
  {
    var m := FirstOf(keys, ids);
  }

  /** The ids of a query's result in the order Firestore returns them: each
      document once, none sorting before an earlier one. */
  ghost function QueryOrder(keys: map<string, OrderKey>, ids: set<string>): (r: seq<string>)
    requires ids <= keys.Keys
    ensures forall k :: k in r <==> k in ids
    ensures |r| == |ids|
    ensures forall i, j :: 0 <= i < j < |r| ==> r[i] != r[j]
    ensures forall i, j :: 0 <= i < j < |r| ==> !RowLess(keys, r[j], r[i])
    decreases ids
  {
    if ids == {} then []
    else
      FirstExists(keys, ids);
      var m :| m in ids && forall x :: x in ids ==> !RowLess(keys, x, m);
      [m] + QueryOrder(keys, ids - {m})
  }

  /** Since no two documents tie, the result is strictly ascending. */
  lemma QueryOrderAscending(keys: map<string, OrderKey>, ids: set<string>)
    requires ids <= keys.Keys
    ensures var r := QueryOrder(keys, ids);
      forall i, j :: 0 <= i < j < |r| ==> r[i] != r[j] && RowLess(keys, r[i], r[j])
  {
    var r := QueryOrder(keys, ids);
    forall i, j | 0 <= i < j < |r|
      ensures r[i] != r[j] && RowLess(keys, r[i], r[j])
    {
      RowLessTotal(keys, r[i], r[j]);
    }
  }

  /** In any query result every document whose value is a timestamp comes before
      every document whose value is a string. */
  lemma TimestampsListedBeforeStrings(keys: map<string, OrderKey>, ids: set<string>)
    requires ids <= keys.Keys
    ensures var r := QueryOrder(keys, ids);
      forall i, j :: 0 <= i < |r| && 0 <= j < |r| && keys[r[i]].TimestampValue? && keys[r[j]].StringValue? ==> i < j
  {
  }

  /** The value a due date is stored as, or `None` when the query leaves the
      document out: an absent or `undefined` due date, and an Invalid Date, whose
      stored form is not modelled. A `Date` and a `Timestamp` are stored as a
      timestamp, a `{ seconds }` object as a map, text as a string. */
  function DueKey(d: Option<DateValue>): (k: Option<OrderKey>)
    ensures d.Some? && d.value.NativeDate? && d.value.date.Valid? ==> k == Some(TimestampValue(d.value.date.ms))
    ensures d.Some? && d.value.Raw? && d.value.raw.Text? ==> k == Some(StringValue(d.value.raw.s))
    ensures d.None? ==> k.None?
  {
    match d
    case None => None
    case Some(NativeDate(Valid(ms))) => Some(TimestampValue(ms))
    case Some(NativeDate(InvalidDate)) => None
    case Some(Wrapper(ms)) => Some(TimestampValue(ms))
    case Some(Seconds(n)) => Some(MapValue(n))
    case Some(Raw(Text(s))) => Some(StringValue(s))
    case Some(Raw(Number(n))) => Some(NumberValue(n))
    case Some(Raw(Null)) => Some(NullValue)
    case Some(Raw(Undefined)) => None
  }
}

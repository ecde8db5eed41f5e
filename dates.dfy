/**
 * The shapes a movement's `date` or `dueDate` can have once read back from the
 * document store, and the four hand-written ways the pages and the service turn
 * such a value into a `Date`. Each copy checks the shapes in its own order, so
 * each is its own function here, and the lemmas at the end say where they agree
 * and where they do not.
 */
module Dates {
  import opened Wrappers

  /** A calendar month as `Date.prototype.getMonth` returns it: 0 is January. */
  type Month = m: int | 0 <= m < 12

  /** A JavaScript `Date` object: a time in milliseconds since the epoch, or an
      Invalid Date (time value NaN). */
  datatype JsDate = Valid(ms: int) | InvalidDate

  /** The largest time value a `Date` can hold: 100 000 000 days either side of
      the epoch, in milliseconds. */
  const MaxTime: int := 8_640_000_000_000_000

  /** `TimeClip`: a time value outside the `Date` range gives an Invalid Date. */
  function TimeClip(t: int): (d: JsDate)
    ensures d.Valid? <==> -MaxTime <= t <= MaxTime
    ensures d.Valid? ==> d.ms == t
  {
    if -MaxTime <= t <= MaxTime then Valid(t) else InvalidDate
  }

  /** A primitive stored where a date was expected. */
  datatype RawValue = Text(s: string) | Number(n: int) | Null | Undefined

  datatype DateValue =
    | NativeDate(date: JsDate)   // an instance of `Date`
    | Wrapper(millis: int)       // a store timestamp: has a `toDate()` method
    | Seconds(seconds: int)      // a plain object with a `seconds` field and no `toDate`
    | Raw(raw: RawValue)

  /** What the runtime supplies and this model leaves uninterpreted: parsing of
      `new Date(string)`, the local-time `getMonth()` and `toISOString()`. */
  datatype Calendar = Calendar(parseText: string -> JsDate, monthOf: int -> Month, iso: int -> string)

  /** JavaScript truthiness of the value: objects are truthy, `''`, `0`, `null`
      and `undefined` are not. */
  predicate Truthy(v: DateValue) {
    match v
    case Raw(Text(s)) => s != ""
    case Raw(Number(n)) => n != 0
    case Raw(Null) => false
    case Raw(Undefined) => false
    case _ => true
  }

  /** `new Date(v)` for a value that is not a `Date` nor a timestamp: a number is a
      time value, a string is parsed, `null` is the epoch, `undefined` and a plain
      object give an Invalid Date. */
  function NewDate(cal: Calendar, v: DateValue): (d: JsDate)
    requires v.Seconds? || v.Raw?
    ensures v.Seconds? || v == Raw(Undefined) ==> d == InvalidDate
    ensures v == Raw(Null) ==> d == Valid(0)
    ensures v.Raw? && v.raw.Number? ==> (d.Valid? <==> -MaxTime <= v.raw.n <= MaxTime)
    ensures v.Raw? && v.raw.Number? && d.Valid? ==> d.ms == v.raw.n
    ensures v.Raw? && v.raw.Text? ==> d == cal.parseText(v.raw.s)
  {
    match v
    case Seconds(_) => InvalidDate
    case Raw(Number(n)) => TimeClip(n)
    case Raw(Text(s)) => cal.parseText(s)
    case Raw(Null) => Valid(0)
    case Raw(Undefined) => InvalidDate
  }

  /** `getMonth()`: no month for an Invalid Date (NaN). */
  function MonthOf(cal: Calendar, d: JsDate): (r: Option<Month>)
    ensures r.Some? <==> d.Valid?
  {
    match d
    case Valid(ms) => Some(cal.monthOf(ms))
    case InvalidDate => None
  }

  /** `toISOString()`: `None` is the RangeError it throws on an Invalid Date. */
  function IsoString(cal: Calendar, d: JsDate): (r: Option<string>)
    ensures r.Some? <==> d.Valid?
  {
    match d
    case Valid(ms) => Some(cal.iso(ms))
    case InvalidDate => None
  }

  /** `parseDate` of the transactions page: a Date as is, then `toDate()`, then a
      truthy `seconds` read as seconds since the epoch, then `new Date(v)`. */
  function ParseDate(cal: Calendar, v: DateValue): (d: JsDate)
    ensures v.NativeDate? ==> d == v.date
    ensures v.Wrapper? ==> d == TimeClip(v.millis)
    ensures v.Seconds? && v.seconds != 0 ==> d == TimeClip(v.seconds * 1000)
    ensures v.Seconds? && v.seconds == 0 ==> d == InvalidDate
    ensures v.Raw? ==> d == NewDate(cal, v)
  {
    match v
    case NativeDate(d) => d
    case Wrapper(ms) => TimeClip(ms)
    case Seconds(n) => if n != 0 then TimeClip(n * 1000) else NewDate(cal, v)
    case Raw(_) => NewDate(cal, v)
  }

  /** `convertirFecha` of the pending-payments page: `toDate()` first, then a Date
      as is, then `new Date(v)`; it never reads `seconds`. */
  function ConvertirFecha(cal: Calendar, v: DateValue): (d: JsDate)
    ensures v.Wrapper? ==> d == TimeClip(v.millis)
    ensures v.NativeDate? ==> d == v.date
    ensures v.Seconds? ==> d == InvalidDate
    ensures v.Raw? ==> d == NewDate(cal, v)
  {
    if v.Wrapper? then TimeClip(v.millis)
    else if v.NativeDate? then v.date
    else NewDate(cal, v)
  }

  /** The month dispatch of the summary in the movements service: a Date, then a
      value passing `isTimestamp`, then `new Date(v)`. */
  function SummaryDate(cal: Calendar, v: DateValue): (d: JsDate)
    ensures v.NativeDate? ==> d == v.date
    ensures v.Wrapper? ==> d == TimeClip(v.millis)
    ensures v.Seconds? ==> d == InvalidDate
    ensures v.Raw? ==> d == NewDate(cal, v)
  {
    if v.NativeDate? then v.date
    else if IsTimestamp(v) then TimeClip(v.millis)
    else NewDate(cal, v)
  }

  /** `isTimestamp`: a truthy value whose `toDate` is a function. Every timestamp
      is an object, hence truthy, so the truthiness test never decides. */
  predicate IsTimestamp(v: DateValue): (b: bool)
    ensures b <==> v.Wrapper?
  {
    Truthy(v) && v.Wrapper?
  }

  /** The dashboard's inline dispatch: a Date, then `toDate()`, then
      `new Date(v.seconds * 1000)`. Reading `toDate` of `null` or `undefined`
      throws a TypeError, the `None` here; a string or a number has no `seconds`,
      so it gives an Invalid Date. */
  function ChartDate(v: DateValue): (r: Option<JsDate>)
    ensures r.None? <==> v == Raw(Null) || v == Raw(Undefined)
  {
    match v
    case NativeDate(d) => Some(d)
    case Wrapper(ms) => Some(TimeClip(ms))
    case Seconds(n) => Some(TimeClip(n * 1000))
    case Raw(Text(_)) => Some(InvalidDate)
    case Raw(Number(_)) => Some(InvalidDate)
    case Raw(Null) => None
    case Raw(Undefined) => None
  }

  /** `convertToISOString` of the edit dialog: `''` for an absent or falsy value,
      else the ISO text of a Date, of `toDate()`, or of `new Date(v)`. `None` is
      the RangeError `toISOString` throws on an Invalid Date. */
  function ConvertToIsoString(cal: Calendar, v: Option<DateValue>): (r: Option<string>)
    ensures v.None? || !Truthy(v.value) ==> r == Some("")
    ensures v.Some? && v.value.NativeDate? ==> r == IsoString(cal, v.value.date)
    ensures v.Some? && v.value.Wrapper? ==> r == IsoString(cal, TimeClip(v.value.millis))
    ensures v.Some? && Truthy(v.value) && (v.value.Seconds? || v.value.Raw?) ==> r == IsoString(cal, NewDate(cal, v.value))
  {
    if v.None? || !Truthy(v.value) then Some("")
    else match v.value
      case NativeDate(d) => IsoString(cal, d)
      case Wrapper(ms) => IsoString(cal, TimeClip(ms))
      case _ => IsoString(cal, NewDate(cal, v.value))
  }

  /** All four dispatches agree on the two shapes the store and the pages normally
      produce: a `Date` and a timestamp. */
  lemma DispatchesAgreeOnDatesAndTimestamps(cal: Calendar, v: DateValue)
    requires v.NativeDate? || v.Wrapper?
    ensures ConvertirFecha(cal, v) == ParseDate(cal, v) == SummaryDate(cal, v)
    ensures ChartDate(v) == Some(ParseDate(cal, v))
  {
  }

  /** The pending-payments copy and the service copy give the same date on every input. */
  lemma ConvertirFechaIsSummaryDate(cal: Calendar, v: DateValue)
    ensures ConvertirFecha(cal, v) == SummaryDate(cal, v)
  {
  }

  /** The transactions copy differs from the pending-payments copy exactly on a
      `seconds` object with non-zero seconds in the `Date` range, which only the
      former reads. */
  lemma ParseDateDiffersOnlyOnSeconds(cal: Calendar, v: DateValue)
    ensures ParseDate(cal, v) != ConvertirFecha(cal, v) <==>
      v.Seconds? && v.seconds != 0 && -MaxTime <= v.seconds * 1000 <= MaxTime
  {
  }

  /** `seconds = 0` is falsy, so the transactions copy hands the object to
      `new Date` and gets an Invalid Date, while the dashboard reads it as the epoch. */
  lemma ZeroSecondsFallsThrough(cal: Calendar)
    ensures ParseDate(cal, Seconds(0)) == InvalidDate
    ensures ChartDate(Seconds(0)) == Some(Valid(0))
  {
  }

  /** The dashboard copy departs from the transactions copy on zero seconds and on
      every raw primitive except a string that does not parse and a number out of
      the `Date` range, which are Invalid Dates anyway: it reads no strings or
      numbers and throws on `null` and `undefined`. */
  lemma ChartDateDiffersFromParseDate(cal: Calendar, v: DateValue)
    ensures ChartDate(v) != Some(ParseDate(cal, v)) <==>
      v == Seconds(0) || (v.Raw? && (v.raw.Text? ==> cal.parseText(v.raw.s).Valid?)
                                 && (v.raw.Number? ==> -MaxTime <= v.raw.n <= MaxTime))
  {
  }
}

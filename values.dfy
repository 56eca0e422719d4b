/** The property values of a wrapped model object, and the reads the rule sets make of them. */
module Values {
  import opened Outcomes

  /** A calendar date with the time of day in ticks; ordered like System.DateTime. */
  datatype DateTime = DateTime(year: int, month: int, day: int, timeOfDay: nat)

  predicate Before(a: DateTime, b: DateTime) {
    || a.year < b.year
    || (a.year == b.year && a.month < b.month)
    || (a.year == b.year && a.month == b.month && a.day < b.day)
    || (a.year == b.year && a.month == b.month && a.day == b.day && a.timeOfDay < b.timeOfDay)
  }

  /** A boxed property value; Equals on these is value equality, as object.Equals is for
      the boxed ints, bools, strings and dates. Obj is a reference to a nested model object,
      List a model list. */
  datatype Value =
    | Null
    | Int(i: int)
    | Bool(b: bool)
    | Str(s: string)
    | Date(d: DateTime)
    | Obj(id: nat)
    | List(items: seq<Value>)

  /** A model object, seen through reflection: its public properties by name. */
  type Model = map<string, Value>

  function Lookup(model: Model, name: string): Value {
    if name in model then model[name] else Null
  }

  /** GetValue<int>: a null value reads as default(int). */
  function IntOf(v: Value): int {
    if v.Int? then v.i else 0
  }

  /** GetValue<bool>: a null value reads as default(bool). */
  function BoolOf(v: Value): bool {
    v.Bool? && v.b
  }

  /** GetValue<string>: null stays null. */
  function StringOf(v: Value): Option<string> {
    if v.Str? then Some(v.s) else None
  }

  /** GetValue<DateTime?>: null stays null. */
  function DateOf(v: Value): Option<DateTime> {
    if v.Date? then Some(v.d) else None
  }

  /** char.IsWhiteSpace: the Unicode space separators, line and paragraph separators,
      and the control characters U+0009 to U+000D and U+0085. */
  predicate IsWhiteSpace(c: char) {
    || ('\U{0009}' <= c <= '\U{000D}')
    || c == '\U{0020}' || c == '\U{0085}' || c == '\U{00A0}' || c == '\U{1680}'
    || ('\U{2000}' <= c <= '\U{200A}')
    || c == '\U{2028}' || c == '\U{2029}' || c == '\U{202F}' || c == '\U{205F}' || c == '\U{3000}'
  }

  /** string.IsNullOrWhiteSpace */
  predicate IsNullOrWhiteSpace(s: Option<string>) {
    s.None? || forall i :: 0 <= i < |s.value| ==> IsWhiteSpace(s.value[i])
  }
}

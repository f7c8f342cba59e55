/**
 * The Mongoose path options the two schemas use, as data, and what they do:
 * on assignment a String path runs its `trim` setter and an undefined value
 * takes the path's `default`; on validation `required`, `maxlength`, `enum`,
 * `min` and `max` are checked.
 * Only `required` fails on an undefined value; the other checks pass it.
 */
module SchemaRules {
  import opened Wrappers
  import opened JsString

  datatype StringRule = StringRule(
    required: bool,
    trim: bool,
    maxLength: Option<nat>,
    allowed: Option<set<string>>,
    default: Option<string>)

  datatype NumberRule = NumberRule(required: bool, min: int, max: int)

  /** The value a String path holds after `v` is assigned to it. Mongoose
      also runs the setter on a default; the defaults of these schemas are
      already trimmed, so the model takes them as declared. */
  function CastString(rule: StringRule, v: Option<string>): (r: Option<string>)
    ensures v.None? ==> r == rule.default
    ensures v.Some? ==> r.Some? && (if rule.trim then Trimmed(r.value) else r == v)
    ensures v.Some? && rule.trim ==> r == Some(Trim(v.value))
  {
    match v
    case None => rule.default
    case Some(s) => Some(if rule.trim then Trim(s) else s)
  }

  /** A String path's validators. A required String fails on the empty string
      too; `maxlength` counts UTF-16 code units, as JavaScript's `length` does. */
  predicate StringValid(rule: StringRule, v: Option<string>) {
    && (rule.required ==> v.Some? && v.value != [])
    && (v.Some? && rule.maxLength.Some? ==> Utf16Length(v.value) <= rule.maxLength.value)
    && (v.Some? && rule.allowed.Some? ==> v.value in rule.allowed.value)
  }

  /** A Number path's validators; both bounds are inclusive. */
  predicate NumberValid(rule: NumberRule, v: Option<int>) {
    match v
    case None => !rule.required
    case Some(n) => rule.min <= n <= rule.max
  }
}

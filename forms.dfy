/** The parts of the form framework the customer form relies on, reduced to values:
    a form control's state, the identifiers of the validators attached to it, and the
    error keys it reports. */
module Forms {

  datatype Option<T> = None | Some(value: T)

  /** The keys of a validation error object (`{ [key: string]: boolean }`), in the
      order the object enumerates them; a valid control has none. */
  type ErrorKeys = seq<string>

  const RequiredKey := "required"
  const EmailKey := "email"
  const MatchKey := "match"
  const RangeKey := "range"

  /** The validators a control can carry. Only their identity is modelled: the
      framework's own validators and the shared NumberValidators.range are library code. */
  datatype Validator =
    | Required
    | Email
    | MinLength(minLength: nat)
    | MaxLength(maxLength: nat)
    | NumberRange(lo: int, hi: int)  // NumberValidators.range, library code
    | RatingRangeRule(min: int, max: int) // the demo component's own ratingRange(min, max)

  /** The value in the optional rating field: empty, a number, or text that is not a number. */
  datatype RatingValue = Null | Num(n: int) | NonNumeric

  /** A form control: its value, whether the user has changed or visited it,
      its validator list and the error keys its last validation produced. */
  datatype Control<V> = Control(
    value: V,
    pristine: bool,
    touched: bool,
    validators: seq<Validator>,
    errors: ErrorKeys)
  {
    /** The framework defines `dirty` as the negation of `pristine`. */
    predicate Dirty() { !pristine }
  }

  /** A control as the form builder creates it: the given value and validators,
      not yet changed or visited by the user. */
  function NewControl<V>(value: V, validators: seq<Validator>): (c: Control<V>)
    ensures c.value == value && c.validators == validators
    ensures c.pristine && !c.touched && !c.Dirty()
  {
    Control(value, true, false, validators, [])
  }
}

/**
 * The collaborators of the validation API: the `Validation.Error` type, the
 * `Validator` and `ValidationSuite` rules and the `Validated` wrapper.
 * They are declared in other files of the repository; this module gives them
 * the shape and the behaviour that the API relies on.
 */
module Validation {
  import opened Wrappers

  /** What a failed validation carries: the rejected value, or the marker of an absent optional. */
  datatype Subject<T> = Value(value: T) | Absent

  /** `Validation.Error`: its one case, `FailedValidation`, is the only failure the core raises. */
  datatype ValidationError<T> = FailedValidation(subject: Subject<T>)

  /**
   * A `Validator` instance whose `InputType` is `T`. Whatever configuration it
   * holds is captured by its `validate` function, which answers yes or no and
   * cannot throw.
   */
  datatype Validator<!T> = Validator(validate: T -> bool)

  /**
   * A `ValidationSuite` metatype (`S.Type`) whose `InputType` is `T`: its
   * type-level `validate`, reachable without an instance.
   */
  datatype SuiteType<!T> = SuiteType(validate: T -> bool)

  /** The rule a `Validated` value was checked against: a validator instance or a suite. */
  datatype Rule<!T> = ByValidator(validator: Validator<T>) | BySuite(suite: SuiteType<T>) {

    /** The rule's verdict on `x`. */
    predicate Accepts(x: T) {
      match this
      case ByValidator(v) => v.validate(x)
      case BySuite(s) => s.validate(x)
    }
  }

  /** `Validated<Rule>`: a value together with the rule it was checked against. */
  datatype Validated<!T> = Validated(value: T, rule: Rule<T>)

  /** The invariant of `Validated`: the held value satisfies the rule it carries. */
  predicate Admitted<T>(w: Validated<T>) {
    w.rule.Accepts(w.value)
  }

  /**
   * The `Validated` initializer, `Validated<Rule>(value, by: rule)`. Its
   * definition is not part of this model; the contract below is the behaviour
   * assumed of it: it admits `value` exactly when the rule accepts it, holds
   * `value` itself, and otherwise fails with `FailedValidation(value)`.
   */
  function NewValidated<T>(value: T, rule: Rule<T>): (r: Result<Validated<T>, ValidationError<T>>)
    ensures r.Success? <==> rule.Accepts(value)
    ensures r.Success? ==> r.value.value == value && r.value.rule == rule && Admitted(r.value)
    ensures r.Failure? ==> r.error == FailedValidation(Value(value))
  {
    if rule.Accepts(value) then Success(Validated(value, rule))
    else Failure(FailedValidation(Value(value)))
  }
}

/**
 * The validation API of `Validatable` values and of optionals of them: the
 * assertion form `tested(by:)`, the query form `passes` and the capture form
 * `validated(by:)`, each taking an inline tester, a `Validator` instance or a
 * `ValidationSuite` metatype.
 *
 * A tester that may throw is a function `T -> Result<bool, E>`; a `Failure`
 * from it is the error it throws. What the `tested` entry points throw is a
 * `Thrown<T, E>`: either the core's own `FailedValidation`, or the tester's
 * error passed through unchanged. The `validated` entry points fail only
 * with a `ValidationError<T>`, as the `Validated` initializer does.
 */
module Validatable {
  import opened Wrappers
  import opened Validation

  /** An error leaving a throwing entry point. */
  datatype Thrown<T, E> = Failed(failure: ValidationError<T>) | Rethrown(cause: E)

  /** A non-throwing rule seen as a tester: `validator.validate` passed where a throwing closure is expected. */
  function Lift<T, E>(validate: T -> bool): (tester: T -> Result<bool, E>) {
    x => Success(validate(x))
  }

  /** The error a rejection of `x` raises. */
  function Rejection<T, E>(x: T): (e: Thrown<T, E>) {
    Failed(FailedValidation(Value(x)))
  }

  /** The error a rejection of an absent optional raises. */
  function AbsentRejection<T, E>(): (e: Thrown<T, E>) {
    Failed(FailedValidation(Absent))
  }

  // ---------------------------------------------------------------------------
  // Testing: the assertion form
  // ---------------------------------------------------------------------------

  /** `x.tested(by: tester)`: `x` unchanged when the tester says yes. */
  function Tested<T, E>(x: T, tester: T -> Result<bool, E>): (r: Result<T, Thrown<T, E>>)
    ensures r.Success? <==> tester(x) == Success(true)
    ensures r.Success? ==> r.value == x
    ensures tester(x) == Success(false) ==> r == Failure(Rejection(x))
    ensures tester(x).Failure? ==> r == Failure(Rethrown(tester(x).error))
  {
    match tester(x)
    case Failure(e) => Failure(Rethrown(e))
    case Success(accepted) => if accepted then Success(x) else Failure(Rejection(x))
  }

  /** `x.tested(by: validator)`: the closure form applied to `validator.validate`. */
  function TestedByValidator<T, E>(x: T, validator: Validator<T>): (r: Result<T, Thrown<T, E>>)
    ensures r.Success? <==> validator.validate(x)
    ensures r.Success? ==> r.value == x
    ensures r.Failure? ==> r.error == Rejection(x)
  {
    Tested(x, Lift(validator.validate))
  }

  /** `x.tested(by: Suite.self)`: the closure form applied to the metatype's `validate`. */
  function TestedBySuite<T, E>(x: T, suite: SuiteType<T>): (r: Result<T, Thrown<T, E>>)
    ensures r.Success? <==> suite.validate(x)
    ensures r.Success? ==> r.value == x
    ensures r.Failure? ==> r.error == Rejection(x)
  {
    Tested(x, Lift(suite.validate))
  }

  /** `optional.tested(by: tester)`: absence is rejected without consulting the tester. */
  function OptionalTested<T, E>(o: Option<T>, tester: T -> Result<bool, E>): (r: Result<T, Thrown<T, E>>)
    ensures o.None? ==> r == Failure(AbsentRejection())
    ensures o.Some? ==> r == Tested(o.value, tester)
    ensures r.Success? <==> o.Some? && tester(o.value) == Success(true)
    ensures r.Success? ==> o == Some(r.value)
  {
    match o
    case None => Failure(AbsentRejection())
    case Some(value) => Tested(value, tester)
  }

  /** `optional.tested(by: validator)`. */
  function OptionalTestedByValidator<T, E>(o: Option<T>, validator: Validator<T>): (r: Result<T, Thrown<T, E>>)
    ensures r.Success? <==> o.Some? && validator.validate(o.value)
    ensures r.Success? ==> o == Some(r.value)
    ensures r.Failure? ==> r.error == if o.Some? then Rejection(o.value) else AbsentRejection()
    ensures o.Some? ==> r == TestedByValidator(o.value, validator)
  {
    OptionalTested(o, Lift(validator.validate))
  }

  /** `optional.tested(by: Suite.self)`. */
  function OptionalTestedBySuite<T, E>(o: Option<T>, suite: SuiteType<T>): (r: Result<T, Thrown<T, E>>)
    ensures r.Success? <==> o.Some? && suite.validate(o.value)
    ensures r.Success? ==> o == Some(r.value)
    ensures r.Failure? ==> r.error == if o.Some? then Rejection(o.value) else AbsentRejection()
    ensures o.Some? ==> r == TestedBySuite(o.value, suite)
  {
    OptionalTested(o, Lift(suite.validate))
  }

  // ---------------------------------------------------------------------------
  // Passing: the query form
  // ---------------------------------------------------------------------------

  /** `x.passes(tester)`: the tester's verdict, with no error channel. */
  function Passes<T>(x: T, tester: T -> bool): (r: bool)
    ensures r <==> tester(x)
  {
    tester(x)
  }

  /** `x.passes(validator)`. */
  function PassesValidator<T>(x: T, validator: Validator<T>): (r: bool)
    ensures r <==> validator.validate(x)
  {
    Passes(x, validator.validate)
  }

  /** `x.passes(Suite.self)`. */
  function PassesSuite<T>(x: T, suite: SuiteType<T>): (r: bool)
    ensures r <==> suite.validate(x)
  {
    Passes(x, suite.validate)
  }

  /** `optional.passes(tester)`: false on absence, whatever the tester would say. */
  function OptionalPasses<T>(o: Option<T>, tester: T -> bool): (r: bool)
    ensures o.None? ==> !r
    ensures o.Some? ==> r == Passes(o.value, tester)
    ensures r ==> o.Some? && tester(o.value)
  {
    match o
    case None => false
    case Some(value) => Passes(value, tester)
  }

  /** `optional.passes(validator)`. */
  function OptionalPassesValidator<T>(o: Option<T>, validator: Validator<T>): (r: bool)
    ensures r <==> o.Some? && validator.validate(o.value)
    ensures o.Some? ==> r == PassesValidator(o.value, validator)
  {
    OptionalPasses(o, validator.validate)
  }

  /** `optional.passes(by: Suite.self)`. */
  function OptionalPassesSuite<T>(o: Option<T>, suite: SuiteType<T>): (r: bool)
    ensures r <==> o.Some? && suite.validate(o.value)
    ensures o.Some? ==> r == PassesSuite(o.value, suite)
  {
    OptionalPasses(o, suite.validate)
  }

  // ---------------------------------------------------------------------------
  // Validation: the capture form
  // ---------------------------------------------------------------------------

  /** `x.validated(by: validator)`: a `Validated` holding `x`, checked against `validator`. */
  function ValidatedByValidator<T>(x: T, validator: Validator<T>): (r: Result<Validated<T>, ValidationError<T>>)
    ensures r.Success? <==> validator.validate(x)
    ensures r.Success? ==> r.value == Validated(x, ByValidator(validator)) && Admitted(r.value)
    ensures r.Failure? ==> r.error == FailedValidation(Value(x))
  {
    NewValidated(x, ByValidator(validator))
  }

  /**
   * `x.validated(by: type)` for a suite `S`: the wrapper is built with `S.self`,
   * the statically chosen suite `suite`; the metatype passed as `type` is not used.
   */
  function ValidatedBySuite<T>(x: T, suite: SuiteType<T>, argument: SuiteType<T>): (r: Result<Validated<T>, ValidationError<T>>)
    ensures r.Success? <==> suite.validate(x)
    ensures r.Success? ==> r.value == Validated(x, BySuite(suite)) && Admitted(r.value)
    ensures r.Failure? ==> r.error == FailedValidation(Value(x))
  {
    NewValidated(x, BySuite(suite))
  }

  /** `optional.validated(by: validator)`: absence fails before the rule is consulted. */
  function OptionalValidatedByValidator<T>(o: Option<T>, validator: Validator<T>): (r: Result<Validated<T>, ValidationError<T>>)
    ensures o.None? ==> r == Failure(FailedValidation(Absent))
    ensures o.Some? ==> r == ValidatedByValidator(o.value, validator)
    ensures r.Success? <==> o.Some? && validator.validate(o.value)
    ensures r.Success? ==> o == Some(r.value.value) && Admitted(r.value)
  {
    match o
    case None => Failure(FailedValidation(Absent))
    case Some(value) => NewValidated(value, ByValidator(validator))
  }

  /** `optional.validated(by: type)` for a suite `S`: built with `S.self`, ignoring `type`. */
  function OptionalValidatedBySuite<T>(o: Option<T>, suite: SuiteType<T>, argument: SuiteType<T>): (r: Result<Validated<T>, ValidationError<T>>)
    ensures o.None? ==> r == Failure(FailedValidation(Absent))
    ensures o.Some? ==> r == ValidatedBySuite(o.value, suite, argument)
    ensures r.Success? <==> o.Some? && suite.validate(o.value)
    ensures r.Success? ==> o == Some(r.value.value) && Admitted(r.value)
  {
    match o
    case None => Failure(FailedValidation(Absent))
    case Some(value) => NewValidated(value, BySuite(suite))
  }

  // ---------------------------------------------------------------------------
  // Properties relating several calls
  // ---------------------------------------------------------------------------

  /** The query form answers yes exactly when the assertion form on the same tester returns the value. */
  lemma PassesAgreesWithTested<T, E>(x: T, tester: T -> bool)
    ensures Passes(x, tester) <==> Tested<T, E>(x, Lift(tester)).Success?
    ensures Passes(x, tester) ==> Tested<T, E>(x, Lift(tester)) == Success(x)
    ensures !Passes(x, tester) ==> Tested<T, E>(x, Lift(tester)) == Failure(Rejection(x))
  {
  }

  /** The three forms agree on an optional checked against a validator, and on what they deliver. */
  lemma OptionalFormsAgree<T, E>(o: Option<T>, validator: Validator<T>)
    ensures OptionalPassesValidator(o, validator) <==> OptionalTestedByValidator<T, E>(o, validator).Success?
    ensures OptionalPassesValidator(o, validator) <==> OptionalValidatedByValidator(o, validator).Success?
    ensures OptionalPassesValidator(o, validator) ==>
      OptionalTestedByValidator<T, E>(o, validator).value == OptionalValidatedByValidator(o, validator).value.value
    ensures !OptionalPassesValidator(o, validator) ==>
      OptionalTestedByValidator<T, E>(o, validator).error == Failed(OptionalValidatedByValidator(o, validator).error)
  {
  }

  /** The suite overload of `validated` depends only on the static suite, never on the metatype argument. */
  lemma ValidatedBySuiteIgnoresArgument<T>(x: T, suite: SuiteType<T>, a: SuiteType<T>, b: SuiteType<T>)
    ensures ValidatedBySuite(x, suite, a) == ValidatedBySuite(x, suite, b)
    ensures OptionalValidatedBySuite(Some(x), suite, a) == OptionalValidatedBySuite(Some(x), suite, b)
  {
  }

  /**
   * `x.tested(by: t0).tested(by: t1)...`: because `tested` returns its value
   * unchanged, a chain of calls passes `x` along and stops at the first tester
   * that does not say yes.
   */
  function TestedInTurn<T, E>(x: T, testers: seq<T -> Result<bool, E>>): (r: Result<T, Thrown<T, E>>)
    ensures r.Success? <==> forall i :: 0 <= i < |testers| ==> testers[i](x) == Success(true)
    ensures r.Success? ==> r.value == x
    ensures r.Failure? && r.error.Failed? ==> r.error == Rejection(x)
    ensures r.Failure? && r.error.Rethrown? ==>
      exists i :: 0 <= i < |testers| && testers[i](x) == Failure(r.error.cause)
    ensures r.Failure? ==>
      exists k :: 0 <= k < |testers| && testers[k](x) != Success(true) && r == Tested(x, testers[k]) &&
        forall j :: 0 <= j < k ==> testers[j](x) == Success(true)
    decreases |testers|
  {
    if |testers| == 0 then Success(x)
    else
      match Tested(x, testers[0])
      case Failure(e) => Failure(e)
      case Success(y) => TestedInTurn(y, testers[1..])
  }
}

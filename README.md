# Vapor validation API, modelled in Dafny

This project models the validation API of Vapor's `Validatable` protocol
(`Sources/Vapor/Validation/Validatable.swift`). A caller holds a value, or an
optional of one. It checks that value against a rule in one of three ways:

- `tested(by:)`, the assertion form, returns the value unchanged or throws
  `FailedValidation`;
- `passes`, the query form, returns a `Bool` and never throws;
- `validated(by:)`, the capture form, builds a `Validated` wrapper.

The rule can be an inline closure, a `Validator` instance or a
`ValidationSuite` metatype. An absent optional is always rejected, and the
rule is never consulted for it.

The project has three modules:

- `Wrappers` (`wrappers.dfy`): `Option` stands for Swift's `Optional`, and
  `Result` stands for the outcome of a function that `throws`.
- `Validation` (`validation.dfy`): the collaborators that are declared in
  other files of the repository:
  - `Validation.Error` (`ValidationError`, with its one case `FailedValidation`,
    which carries a `Subject`: the rejected value, or `Absent`);
  - `Validator` and the `ValidationSuite` metatype (`SuiteType`), each reduced
    to its `validate` function;
  - the `Validated` wrapper, with its invariant `Admitted`: the held value
    satisfies the rule the wrapper carries.
  - `NewValidated` stands for the `Validated` initializer. Its definition is
    not part of this model. **Its contract is an assumption.** It succeeds
    with the input as the held value exactly when the rule accepts the input,
    and otherwise it fails with `FailedValidation(input)`.
- `Validatable` (`validatable.dfy`): the sixteen entry points, as generic
  functions, and the lemmas that relate them.
  - A closure that may throw is a function `T -> Result<bool, E>`.
  - `Lift` turns a `validate` that cannot throw into such a tester. This is
    what passing `validator.validate` to the closure overload does.
  - The `tested` entry points fail with a `Thrown<T, E>`. That is either
    `Failed(FailedValidation(..))`, or `Rethrown(e)` when the tester itself
    threw `e`.
  - The `validated` entry points fail only with a `ValidationError<T>`, as the
    assumed contract of the `Validated` initializer gives.

Besides `FailedValidation`, `tested(by:)` with an inline tester rethrows the
tester's own error unchanged (line 30). Only the closure forms can do this.

## Model

| member | source | states |
|---|---|---|
| `Validation.NewValidated` | Sources/Vapor/Validation/Validatable.swift:94 | Assumed initializer contract. It succeeds exactly when the rule accepts the value. On success it holds that same value and rule, and the result satisfies the `Validated` invariant. Otherwise it fails with `FailedValidation(value)`. |
| `Validatable.Tested` | Sources/Vapor/Validation/Validatable.swift:29-32 | Succeeds exactly when the tester returns `true`, and then returns the input unchanged. When the tester returns `false`, it fails with `FailedValidation` carrying the input. When the tester throws, that error propagates unchanged. |
| `Validatable.TestedByValidator` | Sources/Vapor/Validation/Validatable.swift:34-36 | Succeeds exactly when `validator.validate` accepts the input, and then returns the input. Otherwise it fails with `FailedValidation(input)` and never with a rethrown error. |
| `Validatable.TestedBySuite` | Sources/Vapor/Validation/Validatable.swift:38-40 | The same as the validator overload, with the suite metatype's `validate`. |
| `Validatable.OptionalTested` | Sources/Vapor/Validation/Validatable.swift:45-48 | Absent input fails with `FailedValidation(Absent)`, whatever the tester. Present `v` gives exactly `v.tested(by:)`. It succeeds only on a present value the tester accepts, and then returns the unwrapped value. |
| `Validatable.OptionalTestedByValidator` | Sources/Vapor/Validation/Validatable.swift:50-52 | Succeeds exactly when the value is present and the validator accepts it, and then returns the unwrapped value. A rejection carries the unwrapped value, or `Absent`. On a present value it agrees with the non-optional validator overload. |
| `Validatable.OptionalTestedBySuite` | Sources/Vapor/Validation/Validatable.swift:54-56 | The same as the validator overload, with the suite metatype's `validate`. |
| `Validatable.Passes` | Sources/Vapor/Validation/Validatable.swift:62-64 | Returns exactly the tester's verdict on the value, with no error channel. |
| `Validatable.PassesAgreesWithTested` | Sources/Vapor/Validation/Validatable.swift:62-64 | `passes` returns the tester's verdict. It is true exactly when the assertion form with the same tester succeeds. Then the assertion form returns the value. Otherwise the assertion form fails with `FailedValidation(value)`. |
| `Validatable.PassesValidator` | Sources/Vapor/Validation/Validatable.swift:66-68 | Returns exactly the validator's verdict on the input. |
| `Validatable.PassesSuite` | Sources/Vapor/Validation/Validatable.swift:70-72 | Returns exactly the suite metatype's verdict on the input. |
| `Validatable.OptionalPasses` | Sources/Vapor/Validation/Validatable.swift:76-79 | False on absent input, whatever the tester. On present `v` it is `v.passes(tester)`. A true answer implies that a value is present and that the tester accepts it. |
| `Validatable.OptionalPassesValidator` | Sources/Vapor/Validation/Validatable.swift:81-83 | True exactly when the value is present and the validator accepts it. On a present value it agrees with the non-optional overload. |
| `Validatable.OptionalPassesSuite` | Sources/Vapor/Validation/Validatable.swift:85-87 | True exactly when the value is present and the suite accepts it. On a present value it agrees with the non-optional overload. |
| `Validatable.ValidatedByValidator` | Sources/Vapor/Validation/Validatable.swift:93-95 | Succeeds exactly when the validator accepts the input. The wrapper then holds the input itself and that validator, and satisfies the `Validated` invariant. Otherwise it fails with `FailedValidation(input)`. |
| `Validatable.ValidatedBySuite` | Sources/Vapor/Validation/Validatable.swift:96-98 | Succeeds exactly when the static suite `S` accepts the input. The wrapper then holds the input and `S`, and satisfies the invariant. Otherwise it fails with `FailedValidation(input)`. |
| `Validatable.ValidatedBySuiteIgnoresArgument` | Sources/Vapor/Validation/Validatable.swift:96-98 | The suite overloads of `validated`, plain and optional, give the same result whatever metatype is passed as `type`. |
| `Validatable.OptionalValidatedByValidator` | Sources/Vapor/Validation/Validatable.swift:102-105 | Absent input fails with `FailedValidation(Absent)`, whatever the validator. Present `v` gives exactly `v.validated(by:)`. On success the wrapper holds the unwrapped value and satisfies the invariant. |
| `Validatable.OptionalValidatedBySuite` | Sources/Vapor/Validation/Validatable.swift:106-109 | Absent input fails with `FailedValidation(Absent)`. Present `v` gives exactly the suite overload on `v`, built with `S` and not with `type`. On success the wrapper holds the unwrapped value and satisfies the invariant. |
| `Validatable.OptionalFormsAgree` | Sources/Vapor/Validation/Validatable.swift:75-110 | On an optional and a validator, the three forms agree. `passes` is true exactly when `tested` succeeds, and exactly when `validated` succeeds. Then `tested` returns the value that the `Validated` holds. Otherwise `tested` throws the same `FailedValidation` that `validated` throws. |
| `Validatable.TestedInTurn` | Sources/Vapor/Validation/Validatable.swift:29-31 | A chain `x.tested(by: t0).tested(by: t1)...` succeeds exactly when every tester accepts `x`, and then returns `x`. Otherwise the chain stops at the first tester that does not return `true` on `x`: every tester before it accepts `x`, and the chain's failure is exactly that tester's `tested` failure. So a rejection carries the original `x`, and a rethrown error is that tester's own error. |

## Left out

- The conformance list (lines 5-24) only makes types eligible. It has no behaviour. The model is generic in the value type, and floating-point types get no special treatment.
- `Validator`, `ValidationSuite`, `Validation.Error` and the `Validated` initializer are declared in files that are not part of this model. They appear here with the shape the API uses, and the initializer's contract is assumed, as described above.
- Swift's `where` overload resolution and the `@noescape` attribute are compile-time details. Each overload is a separately named function here.
- Swift's `throws` is untyped. The model gives the `tested` entry points the error type `Thrown<T, E>`, generic in the error type `E` of an inline tester. The `validated` entry points fail only with `ValidationError<T>`, as the assumed initializer contract gives. A tester that itself throws `FailedValidation` becomes `Rethrown(..)` in the model. A Swift caller cannot tell that error apart from the core's own `FailedValidation`; the model keeps the two apart, and `TestedInTurn`'s contract relies on that.
- The rule is called at most once per entry point, and `passes` is idempotent. Neither is stated separately: a rule is a mathematical function here, so repeated calls always agree and the number of calls cannot be observed. Rules with side effects are not modelled.
- Concrete rules (length bounds, regular expressions), request binding and error formatting belong to other parts of the system.

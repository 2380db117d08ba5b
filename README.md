# Option arguments and Greeks: a Dafny model

This project models the payloads that a QuantLib option exchanges with a pricing
engine, as declared in `ql/option.hpp`:

- `Option::arguments` holds a payoff handle, an exercise-type tag, a schedule of
  stopping times and a maturity. Its default constructor starts the maturity at
  the `Null<double>()` sentinel. `validate()` runs three `QL_REQUIRE` checks in a
  fixed order: the payoff is bound, the maturity is set, the maturity is not
  negative. It stops at the first one that fails and raises that check's message.
- `Greeks` is a results payload of seven sensitivities. Its constructor calls
  `reset()`, and `reset()` overwrites every sensitivity with the sentinel.
- The `Option` constructor passes its code and description on. It installs the
  pricing engine only when the engine handle it was given is not null.

Files:

- `nulls.dfy` (module `Nulls`): the unset sentinel `NullReal` and `IsNull`.
- `option.dfy` (module `Options`): the handles and tags, the validation errors
  and their messages, the semantics of a `QL_REQUIRE` chain (`RequireAll`), the
  classes `Arguments`, `Greeks` and `Option`, and the lemmas about them.

Modelling choices:

- A thrown `QL_REQUIRE` error becomes an `Outcome`, either `Pass` or `Fail(e)`.
  `e` is one of three `ValidationError`s, and `e.Message()` gives the message
  the source raises.
- `validate()` is `const` in the source. In the model it is a function that
  reads the object, so it cannot change any field.
- `RequireAll` is an independent reference definition of a chain of
  `QL_REQUIRE` statements: the first unmet requirement's error is the result.
  `Arguments.Validate` is written as the source's nested checks and is proved
  equal to `RequireAll` applied to the three requirements in source order.
- `Greeks.Reset` is specified by the pure function `ResetValues` on a snapshot
  (`Greeks.Values()`).
- `Double` maturities and sensitivities are `real`. The source only compares
  them with `==` against the sentinel and with `>=` against `0.0`.

## Model

| member | source | states |
|---|---|---|
| `Options.Arguments.constructor` | ql/option.hpp:49 | A default-constructed argument object has no payoff bound, no stopping times, and its maturity at the unset sentinel. |
| `Options.Arguments.Validate` | ql/option.hpp:50-60 | Validation reads the object and changes nothing. It passes exactly when the payoff is bound, the maturity is set and the maturity is not negative. Otherwise it raises the error of the first requirement that fails, in source order. |
| `Options.RequireAll` | ql/option.hpp:51-59 | A chain of `QL_REQUIRE` checks passes iff every condition holds. When some condition fails, the result is the error of the first failing one. |
| `Options.Arguments.Requirements` | ql/option.hpp:51-59 | The three requirements of validate, in source order, each with the error it raises. |
| `Options.ValidationError.Message` | ql/option.hpp:51-59 | Every validation message starts with the `Option::arguments::validate() : ` prefix. |
| `Options.MessagesDistinct` | ql/option.hpp:51-59 | The three failures raise three different messages. |
| `Options.UnboundPayoffFails` | ql/option.hpp:51-53 | An unbound payoff fails with "no payoff given", whatever the maturity, stopping times or exercise tag. |
| `Options.UnsetMaturityFails` | ql/option.hpp:54-57 | With a payoff bound, a maturity at the sentinel fails with "no maturity given". The sentinel would pass the later sign check, so the earlier check is what rejects it. |
| `Options.NegativeMaturityFails` | ql/option.hpp:57-59 | With a payoff bound and a set maturity below zero, validation fails with "negative maturity". |
| `Options.SetMaturityPasses` | ql/option.hpp:50-60 | With a payoff bound and a set maturity of zero or more, validation passes. |
| `Options.ValidateIgnoresScheduleAndExercise` | ql/option.hpp:50-60 | Two argument objects that agree on payoff and maturity validate alike. Stopping times and exercise tag play no part. |
| `Options.ValidateDefaultArguments` | ql/option.hpp:49-56 | Default-constructing an argument object and then binding a payoff gives an object that fails with "no maturity given". |
| `Options.ResetValues` | ql/option.hpp:74-77 | After a reset every one of the seven sensitivities holds the sentinel, whatever it held before. |
| `Options.ResetIdempotent` | ql/option.hpp:74-77 | Resetting twice leaves the same payload as resetting once. |
| `Options.Greeks.constructor` | ql/option.hpp:73 | A newly constructed Greeks payload has all seven sensitivities unset. |
| `Options.Greeks.Reset` | ql/option.hpp:74-77 | Reset overwrites all seven fields with the sentinel, and its new state is `ResetValues` of the old one. |
| `Options.Option.constructor` | ql/option.hpp:36-42 | The code and description are kept. An engine is attached exactly when the handle given is not null, and then it is that engine. |
| `Options.DefaultOption` | ql/option.hpp:36-42 | Constructing an option with every argument defaulted (null engine, empty code and description) goes through the engine guard and attaches no engine. |

## Left out

- The `Instrument` base class and its calculate/cache lifecycle are not part of this model. `setPricingEngine` is modelled only as storing the handle in the instrument's engine slot.
- `Handle<T>` reference counting, and the `Payoff` and `Exercise` class hierarchies, are not modelled. A payoff is an opaque reference, and a handle is either unbound or bound to one.
- `Exercise::Type` is a three-valued tag. The arguments constructor leaves it unconstrained, because the source leaves it uninitialised.
- IEEE-754 behaviour of `double` (NaN, rounding, signed zero) is not modelled. Values are `real`.
- The sentinel is QuantLib's `Null<double>()`, whose header is not part of this model. `NullReal` takes the largest finite single-precision float, 2^128 - 2^104; the proofs use only that it is one fixed value that is not negative.
- The virtual base classes `Arguments` (ql/option.hpp:47) and `Results` (ql/option.hpp:71) are not modelled. `validate` and `reset` are modelled directly on the concrete classes `Options.Arguments` and `Options.Greeks`.
- `Option::Type` (Call, Put, Straddle) is declared but used by no logic here.
- The exception machinery of `QL_REQUIRE` is not modelled. A failure is a result value carrying the error, not a stack unwind.
- No pricing mathematics is present in the source and none is modelled.

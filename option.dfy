/** The option payloads that an option instrument exchanges with a pricing
    engine: the arguments the engine reads (and validates before computing),
    the Greeks it writes back, and the hook by which an option installs the
    engine it was constructed with. */
module Options {
  import opened Nulls

  // ---------------------------------------------------------------------
  // Collaborators seen only through handles and tags
  // ---------------------------------------------------------------------

  /** An opaque reference to a payoff object, shared and never modified here. */
  datatype PayoffRef = PayoffRef(id: nat)

  /** `Handle<Payoff>`: either unbound (the default) or bound to a payoff. */
  datatype PayoffHandle = Unbound | Bound(payoff: PayoffRef)

  /** `Exercise::Type`, copied into the arguments as a tag and never inspected. */
  datatype ExerciseType = American | Bermudan | European

  /** `Handle<PricingEngine>`: a null handle or a reference to an engine. */
  datatype EngineHandle = NullEngine | Engine(id: nat)

  // ---------------------------------------------------------------------
  // Validation outcome and the semantics of a chain of QL_REQUIRE checks
  // ---------------------------------------------------------------------

  /** Text that opens every message raised by `Option::arguments::validate`. */
  const ValidatePrefix: string := "Option::arguments::validate() : "

  /** The three ways `Option::arguments::validate` can fail. */
  datatype ValidationError = NoPayoff | NoMaturity | NegativeMaturity {

    /** The message the failed requirement raises; each one names its origin. */
    function Message(): (m: string)
      ensures |ValidatePrefix| < |m| && m[..|ValidatePrefix|] == ValidatePrefix
    {
      match this
      case NoPayoff => ValidatePrefix + "no payoff given"
      case NoMaturity => ValidatePrefix + "no maturity given"
      case NegativeMaturity => ValidatePrefix + "negative maturity"
    }
  }

  /** Different failures raise different messages, so a caller that only sees
      the message still knows which requirement failed. */
  lemma MessagesDistinct(e1: ValidationError, e2: ValidationError)
    requires e1 != e2
    ensures e1.Message() != e2.Message()
  {
  }

  /** A validation either passes or raises exactly one error. */
  datatype Outcome = Pass | Fail(error: ValidationError)

  /** One `QL_REQUIRE(condition, message)` statement, evaluated. */
  datatype Requirement = Requirement(holds: bool, error: ValidationError)

  /** Requirement `i` is the first one of the chain that does not hold. */
  ghost predicate FirstUnmet(reqs: seq<Requirement>, i: int)
    requires 0 <= i < |reqs|
  {
    !reqs[i].holds && forall j :: 0 <= j < i ==> reqs[j].holds
  }

  /** Running a chain of `QL_REQUIRE` statements in order: the first one whose
      condition fails raises its error and stops the chain; when all hold,
      control falls through. */
  function RequireAll(reqs: seq<Requirement>): (r: Outcome)
    ensures r.Pass? <==> forall i :: 0 <= i < |reqs| ==> reqs[i].holds
    ensures forall i :: 0 <= i < |reqs| && FirstUnmet(reqs, i) ==> r == Fail(reqs[i].error)
  {
    if |reqs| == 0 then Pass
    else if !reqs[0].holds then Fail(reqs[0].error)
    else
      var rest := RequireAll(reqs[1..]);
      assert forall i :: 1 <= i < |reqs| && FirstUnmet(reqs, i) ==> FirstUnmet(reqs[1..], i - 1);
      rest
  }

  // ---------------------------------------------------------------------
  // Option::arguments
  // ---------------------------------------------------------------------

  /** The inputs every option pricing engine needs. */
  class Arguments {
    var payoff: PayoffHandle
    var exerciseType: ExerciseType
    var stoppingTimes: seq<real>
    var maturity: real

    /** Default construction: no payoff, no stopping times, the maturity at the
        unset sentinel; the exercise tag is left indeterminate. */
    constructor ()
      ensures payoff == Unbound && stoppingTimes == [] && IsNull(maturity)
    {
      payoff := Unbound;
      stoppingTimes := [];
      maturity := NullReal;
    }

    /** The object invariants the engines may rely on once validation passed:
        a payoff is bound, the maturity is set and it is not negative.  Nothing
        relates the maturity to the stopping times or the exercise tag. */
    ghost predicate Ready()
      reads this
    {
      payoff.Bound? && !IsNull(maturity) && maturity >= 0.0
    }

    /** The three `QL_REQUIRE` statements of `validate`, in source order. */
    function Requirements(): (reqs: seq<Requirement>)
      reads this
      ensures |reqs| == 3
      ensures reqs[0].error == NoPayoff && reqs[1].error == NoMaturity && reqs[2].error == NegativeMaturity
    {
      [ Requirement(payoff.Bound?, NoPayoff),
        Requirement(!IsNull(maturity), NoMaturity),
        Requirement(maturity >= 0.0, NegativeMaturity) ]
    }

    /** `validate() const`: a function of the fields, so it changes none of
        them.  It passes exactly when the invariants hold, and otherwise raises
        the error of the first requirement, in source order, that fails. */
    function Validate(): (r: Outcome)
      reads this
      ensures r.Pass? <==> Ready()
      ensures r == RequireAll(Requirements())
    {
      if payoff.Unbound? then Fail(NoPayoff)
      else if IsNull(maturity) then Fail(NoMaturity)
      else if !(maturity >= 0.0) then Fail(NegativeMaturity)
      else Pass
    }
  }

  /** An unbound payoff fails first, whatever the other fields hold. */
  lemma UnboundPayoffFails(a: Arguments)
    requires a.payoff.Unbound?
    ensures a.Validate() == Fail(NoPayoff)
  {
  }

  /** With a payoff bound, an unset maturity is reported as missing, although
      the sentinel itself would pass the sign check. */
  lemma UnsetMaturityFails(a: Arguments)
    requires a.payoff.Bound? && IsNull(a.maturity)
    ensures a.Validate() == Fail(NoMaturity)
    ensures a.Requirements()[2].holds
  {
  }

  /** With a payoff bound and a maturity set, a negative maturity fails. */
  lemma NegativeMaturityFails(a: Arguments)
    requires a.payoff.Bound? && !IsNull(a.maturity) && a.maturity < 0.0
    ensures a.Validate() == Fail(NegativeMaturity)
  {
  }

  /** With a payoff bound and a maturity set and not negative, validation
      passes, whatever the stopping times and the exercise tag. */
  lemma SetMaturityPasses(a: Arguments)
    requires a.payoff.Bound? && !IsNull(a.maturity) && a.maturity >= 0.0
    ensures a.Validate() == Pass
  {
  }

  /** The outcome depends on the payoff and the maturity only: two argument
      objects that agree on those two fields validate alike. */
  lemma ValidateIgnoresScheduleAndExercise(a: Arguments, b: Arguments)
    requires a.payoff == b.payoff && a.maturity == b.maturity
    ensures a.Validate() == b.Validate()
  {
  }

  /** A freshly constructed argument object whose payoff is then bound is
      rejected for its missing maturity: the constructor leaves the sentinel. */
  method ValidateDefaultArguments(p: PayoffRef) returns (r: Outcome)
    ensures r == Fail(NoMaturity)
  {
    var a := new Arguments();
    a.payoff := Bound(p);
    UnsetMaturityFails(a);
    r := a.Validate();
  }

  // ---------------------------------------------------------------------
  // Greeks
  // ---------------------------------------------------------------------

  /** The seven sensitivities a Greeks payload holds, as one value. */
  datatype GreeksValues = GreeksValues(
    delta: real, gamma: real, theta: real, vega: real,
    rho: real, dividendRho: real, strikeSensitivity: real)

  /** Every sensitivity is unset. */
  predicate AllUnset(v: GreeksValues) {
    IsNull(v.delta) && IsNull(v.gamma) && IsNull(v.theta) && IsNull(v.vega) &&
    IsNull(v.rho) && IsNull(v.dividendRho) && IsNull(v.strikeSensitivity)
  }

  /** What `reset()` leaves behind, whatever the payload held before. */
  function ResetValues(v: GreeksValues): (r: GreeksValues)
    ensures AllUnset(r)
  {
    GreeksValues(NullReal, NullReal, NullReal, NullReal, NullReal, NullReal, NullReal)
  }

  /** Resetting twice leaves the same payload as resetting once. */
  lemma ResetIdempotent(v: GreeksValues)
    ensures ResetValues(ResetValues(v)) == ResetValues(v)
  {
  }

  /** A results payload of sensitivities, reused across pricing cycles. */
  class Greeks {
    var delta: real
    var gamma: real
    var theta: real
    var vega: real
    var rho: real
    var dividendRho: real
    var strikeSensitivity: real

    /** The current sensitivities, as one value. */
    function Values(): GreeksValues
      reads this
    {
      GreeksValues(delta, gamma, theta, vega, rho, dividendRho, strikeSensitivity)
    }

    /** Construction resets: every sensitivity starts unset. */
    constructor ()
      ensures AllUnset(Values())
    {
      new;
      Reset();
    }

    /** Overwrites every sensitivity with the unset sentinel. */
    method Reset()
      modifies this
      ensures Values() == ResetValues(old(Values()))
      ensures AllUnset(Values())
    {
      delta, gamma, theta, vega := NullReal, NullReal, NullReal, NullReal;
      rho, dividendRho, strikeSensitivity := NullReal, NullReal, NullReal;
    }
  }

  // ---------------------------------------------------------------------
  // Option: the engine-attachment hook of its constructor
  // ---------------------------------------------------------------------

  /** An option instrument, reduced to what its constructor sets: the
      identifying code, the description and the instrument's engine slot. */
  class Option {
    var isinCode: string
    var description: string
    var pricingEngine: EngineHandle

    /** An engine is attached to the instrument. */
    predicate EngineAttached()
      reads this
    {
      pricingEngine.Engine?
    }

    /** Passes the code and description on; installs the engine exactly when
        the handle given is not null, and otherwise leaves the slot empty. */
    constructor (engine: EngineHandle, isinCode: string, description: string)
      ensures this.isinCode == isinCode && this.description == description
      ensures EngineAttached() <==> engine != NullEngine
      ensures EngineAttached() ==> pricingEngine == engine
    {
      this.isinCode := isinCode;
      this.description := description;
      pricingEngine := NullEngine;
      new;
      if engine != NullEngine {
        pricingEngine := engine;
      }
    }
  }

  /** `Option()` with every argument defaulted: a null engine handle and an
      empty code and description, so the guard attaches no engine. */
  method DefaultOption() returns (o: Option)
    ensures o.isinCode == "" && o.description == ""
    ensures !o.EngineAttached()
  {
    o := new Option(NullEngine, "", "");
  }
}

/** The ExperimentBuilder of com.seatgeek.sixpack: a mutable accumulator whose
    fluent setters record the fields of an experiment and whose build()
    validates them. The module gives a value-level account of the builder
    (BuilderState, the Setter calls, Apply, Run, Validate) and the class
    ExperimentBuilder, whose methods are specified by that account. */
module ExperimentBuilders {
  import opened Wrappers
  import opened Experiments

  /** The three construction-time exceptions. */
  datatype BuildError =
    | NoExperimentName      // NoExperimentNameException
    | NoAlternatives        // NoAlternativesException
    | BadTrafficFraction    // BadTrafficFractionException

  /** What a builder has accumulated so far. */
  datatype BuilderState = BuilderState(
    sixpack: Sixpack,
    name: Option<string>,
    alternatives: set<Alternative>,
    forcedChoice: Option<Alternative>,
    trafficFraction: Option<real>)

  /** A freshly constructed builder: bound to a service, nothing else set. */
  function Init(sixpack: Sixpack): (r: BuilderState) {
    BuilderState(sixpack, None, {}, None, None)
  }

  /** One fluent setter call. */
  datatype Setter =
    | SetName(name: Option<string>)                     // withName(name), name possibly null
    | AddAlternative(alternative: Alternative)          // withAlternative(alternative)
    | AddAlternatives(alternatives: seq<Alternative>)   // withAlternatives(a, b, ...)
    | AddAlternativeSet(alternativeSet: set<Alternative>) // withAlternatives(set)
    | SetForcedChoice(choice: Alternative)              // withForcedChoice(choice)
    | SetTrafficFraction(fraction: real)                // withTrafficFraction(fraction)

  /** The setter call throws: a traffic fraction below 0 or above 1. */
  predicate Rejects(c: Setter) {
    c.SetTrafficFraction? && !FractionInRange(c.fraction)
  }

  /** The setter call hands alternative a to the builder. */
  predicate Supplies(c: Setter, a: Alternative) {
    match c
    case AddAlternative(x) => x == a
    case AddAlternatives(xs) => a in xs
    case AddAlternativeSet(xs) => a in xs
    case _ => false
  }

  /** A name the builder accepts: present and not empty. */
  predicate HasName(name: Option<string>) {
    name.Some? && name.value != ""
  }

  /** The effect of one setter call on the accumulated state. Only a rejected
      traffic fraction fails, and then the state is left as it was. */
  function Apply(s: BuilderState, c: Setter): (r: Result<BuilderState, BuildError>)
    ensures r.Failure? <==> Rejects(c)
    ensures r.Failure? ==> r.error == BadTrafficFraction
    ensures r.Success? ==> r.value.sixpack == s.sixpack
    ensures r.Success? ==> forall a :: a in r.value.alternatives <==> a in s.alternatives || Supplies(c, a)
  {
    match c
    case SetName(n) => Success(s.(name := n))
    case AddAlternative(a) => Success(s.(alternatives := s.alternatives + {a}))
    case AddAlternatives(xs) => Success(s.(alternatives := s.alternatives + (set a | a in xs)))
    case AddAlternativeSet(xs) => Success(s.(alternatives := s.alternatives + xs))
    case SetForcedChoice(a) => Success(s.(forcedChoice := Some(a)))
    case SetTrafficFraction(f) =>
      if f < 0.0 || f > 1.0 then Failure(BadTrafficFraction)
      else Success(s.(trafficFraction := Some(f)))
  }

  /** A chain of setter calls, applied left to right; the first exception
      aborts the chain. The only exception a chain can raise is
      BadTrafficFraction, and no chain rebinds the service. */
  function Run(s: BuilderState, cs: seq<Setter>): (r: Result<BuilderState, BuildError>)
    ensures r.Failure? ==> r.error == BadTrafficFraction
    ensures r.Success? ==> r.value.sixpack == s.sixpack
    decreases |cs|
  {
    if cs == [] then Success(s)
    else match Run(s, cs[..|cs| - 1])
      case Failure(e) => Failure(e)
      case Success(t) => Apply(t, cs[|cs| - 1])
  }

  /** Extending a chain by one call applies that call to the chain's result. */
  lemma RunSnoc(s: BuilderState, cs: seq<Setter>, c: Setter)
    ensures Run(s, cs + [c]) == if Run(s, cs).Failure? then Run(s, cs) else Apply(Run(s, cs).value, c)
  {
    assert (cs + [c])[..|cs + [c]| - 1] == cs;
  }

  /** Every state a chain reaches from a state with an in-range fraction (or
      none) again holds an in-range fraction or none. */
  lemma {:induction false} RunKeepsFractionInRange(s: BuilderState, cs: seq<Setter>)
    requires s.trafficFraction.Some? ==> FractionInRange(s.trafficFraction.value)
    requires Run(s, cs).Success?
    ensures Run(s, cs).value.trafficFraction.Some? ==> FractionInRange(Run(s, cs).value.trafficFraction.value)
  {
    if cs != [] {
      RunKeepsFractionInRange(s, cs[..|cs| - 1]);
    }
  }

  /** build(): the name is checked first, the alternatives second; otherwise
      the experiment carries exactly the accumulated fields. */
  function Validate(s: BuilderState): (r: Result<Experiment, BuildError>)
    ensures r == Failure(NoExperimentName) <==> !HasName(s.name)
    ensures r == Failure(NoAlternatives) <==> HasName(s.name) && s.alternatives == {}
    ensures r.Success? <==> HasName(s.name) && s.alternatives != {}
    ensures r.Success? ==> && r.value.name == s.name.value
                           && r.value.alternatives == s.alternatives
                           && r.value.forcedChoice == s.forcedChoice
                           && r.value.trafficFraction == s.trafficFraction
                           && r.value.sixpack == s.sixpack
  {
    if s.name.None? || s.name.value == "" then Failure(NoExperimentName)
    else if s.alternatives == {} then Failure(NoAlternatives)
    else Success(Experiment(s.name.value, s.alternatives, s.forcedChoice, s.trafficFraction, s.sixpack))
  }

  /** A whole fluent chain on a new builder, ended by build(). What it builds
      is bound to the builder's service and satisfies the Experiment invariants. */
  function Chain(sixpack: Sixpack, cs: seq<Setter>): (r: Result<Experiment, BuildError>)
    ensures r.Success? ==> r.value.sixpack == sixpack && r.value.Valid()
  {
    match Run(Init(sixpack), cs)
    case Failure(e) => Failure(e)
    case Success(s) =>
      RunKeepsFractionInRange(Init(sixpack), cs);
      Validate(s)
  }

  /** The mutable builder. The ghost history holds the setter calls that have
      returned normally; Valid() says the fields are what those calls leave. */
  class ExperimentBuilder {
    const sixpack: Sixpack
    var name: Option<string>
    var alternatives: set<Alternative>
    var forcedChoice: Option<Alternative>
    var trafficFraction: Option<real>
    ghost var history: seq<Setter>

    /** The accumulated fields as a value. */
    function State(): (r: BuilderState)
      reads this
    {
      BuilderState(sixpack, name, alternatives, forcedChoice, trafficFraction)
    }

    ghost predicate Valid()
      reads this
    {
      Run(Init(sixpack), history) == Success(State())
    }

    /** new ExperimentBuilder(sixpack): binds the service, validates nothing. */
    constructor (sixpack: Sixpack)
      ensures Valid() && history == []
      ensures State() == Init(sixpack)
    {
      this.sixpack := sixpack;
      name := None;
      alternatives := {};
      forcedChoice := None;
      trafficFraction := None;
      history := [];
    }

    /** withName(name): stored verbatim, empty or null included. */
    method WithName(name: Option<string>)
      requires Valid()
      modifies this
      ensures Valid() && history == old(history) + [SetName(name)]
      ensures State() == old(State()).(name := name)
    {
      RunSnoc(Init(sixpack), history, SetName(name));
      this.name := name;
      history := history + [SetName(name)];
    }

    /** withAlternative(alternative): adds one member to the set. */
    method WithAlternative(alternative: Alternative)
      requires Valid()
      modifies this
      ensures Valid() && history == old(history) + [AddAlternative(alternative)]
      ensures State() == old(State()).(alternatives := old(alternatives) + {alternative})
    {
      RunSnoc(Init(sixpack), history, AddAlternative(alternative));
      alternatives := alternatives + {alternative};
      history := history + [AddAlternative(alternative)];
    }

    /** withAlternatives(a, b, ...): adds every argument; no argument adds nothing. */
    method WithAlternatives(alts: seq<Alternative>)
      requires Valid()
      modifies this
      ensures Valid() && history == old(history) + [AddAlternatives(alts)]
      ensures State() == old(State()).(alternatives := old(alternatives) + set a | a in alts)
    {
      RunSnoc(Init(sixpack), history, AddAlternatives(alts));
      alternatives := alternatives + set a | a in alts;
      history := history + [AddAlternatives(alts)];
    }

    /** withAlternatives(set): adds every member of the set. */
    method WithAlternativeSet(alts: set<Alternative>)
      requires Valid()
      modifies this
      ensures Valid() && history == old(history) + [AddAlternativeSet(alts)]
      ensures State() == old(State()).(alternatives := old(alternatives) + alts)
    {
      RunSnoc(Init(sixpack), history, AddAlternativeSet(alts));
      alternatives := alternatives + alts;
      history := history + [AddAlternativeSet(alts)];
    }

    /** withForcedChoice(choice): no check that choice is one of the alternatives. */
    method WithForcedChoice(choice: Alternative)
      requires Valid()
      modifies this
      ensures Valid() && history == old(history) + [SetForcedChoice(choice)]
      ensures State() == old(State()).(forcedChoice := Some(choice))
    {
      RunSnoc(Init(sixpack), history, SetForcedChoice(choice));
      forcedChoice := Some(choice);
      history := history + [SetForcedChoice(choice)];
    }

    /** withTrafficFraction(fraction): the one setter that validates at once;
        a fraction below 0 or above 1 throws and leaves the builder as it was. */
    method WithTrafficFraction(fraction: real) returns (r: Outcome<BuildError>)
      requires Valid()
      modifies this
      ensures Valid()
      ensures r == Fail(BadTrafficFraction) <==> fraction < 0.0 || fraction > 1.0
      ensures r.Fail? ==> r.error == BadTrafficFraction
      ensures r.Fail? ==> State() == old(State()) && history == old(history)
      ensures r.Pass? ==> State() == old(State()).(trafficFraction := Some(fraction))
      ensures r.Pass? ==> history == old(history) + [SetTrafficFraction(fraction)]
    {
      if fraction < 0.0 || fraction > 1.0 {
        return Fail(BadTrafficFraction);
      }
      RunSnoc(Init(sixpack), history, SetTrafficFraction(fraction));
      trafficFraction := Some(fraction);
      history := history + [SetTrafficFraction(fraction)];
      r := Pass;
    }

    /** build(): validates the accumulated fields and copies them into an
        immutable experiment. */
    method Build() returns (r: Result<Experiment, BuildError>)
      requires Valid()
      ensures r == Validate(State())
      ensures r == Chain(sixpack, history)
      ensures r.Success? ==> r.value.Valid()
    {
      RunKeepsFractionInRange(Init(sixpack), history);
      if name.None? || name.value == "" {
        r := Failure(NoExperimentName);
      } else if alternatives == {} {
        r := Failure(NoAlternatives);
      } else {
        r := Success(Experiment(name.value, alternatives, forcedChoice, trafficFraction, sixpack));
      }
    }
  }
}

# sixpack-java: ExperimentBuilder and Experiment

A Dafny model of the client-side experiment object of sixpack-java
(`com.seatgeek.sixpack`). It covers two things.

- `ExperimentBuilder` is a mutable accumulator bound to a `Sixpack` service.
  It holds a name, a set of `Alternative`s, an optional forced choice and an
  optional traffic fraction. `build()` checks the name first and the
  alternatives second. It then returns an immutable `Experiment`.
- `Experiment` exposes its fields, `hasForcedChoice()` and `toString()`.
  `participate(success, failure)` forwards exactly one `participateIn` call to
  the service.

The model is derived from the JUnit suite `ExperimentTest.java`, which fixes
the observable contract of both classes. `ExperimentBuilder.java`,
`Experiment.java`, `Sixpack.java` and the exception classes are not modelled.
The model states what the suite asserts, generalised from its concrete calls
to arbitrary chains of calls.

Files:

- `wrappers.dfy`: `Option` (a Java reference that may be null), `Result` and
  `Outcome` (a value or a thrown error).
- `experiment.dfy`, module `Experiments`: the `Alternative` datatype, the two
  callback classes, and the `Sixpack` service as a class. The service's only
  state is the log of `participateIn` calls it has received, the record that
  Mockito's `verify` inspects. Also the immutable `Experiment` datatype with
  `HasForcedChoice`, `ToString` and the `Participate` method.
- `experiment_builder.dfy`, module `ExperimentBuilders`: the builder as a
  value. `BuilderState` holds the accumulated fields, `Setter` is one fluent
  call, `Apply` is the effect of one call, and `Run` applies a chain of calls
  that the first exception aborts. `Validate` is `build()`, and `Chain` is a
  whole chain ended by `build()`. It also holds the class `ExperimentBuilder`.
  Its ghost `history` lists the setter calls that returned normally, and
  `Valid()` ties the real fields to `Run` of that history.
- `builder_laws.dfy`, module `BuilderLaws`: lemmas over arbitrary chains,
  proved by induction on the chain.
- `experiment_test.dfy`, module `ExperimentTest`: each JUnit case as a method.
  The method makes the case's calls on the class, and its postcondition is the
  case's assertion. For a case that expects an exception, the postcondition
  is the error returned.

Java's two overloads of `withAlternatives` get two names here.
`WithAlternatives(seq)` is the variadic form and `WithAlternativeSet(set)`
takes a `Set`. Errors are returned values instead of exceptions:
`BuildError` has one constructor per exception class.

## Model

| member | source | states |
|---|---|---|
| `Experiments.Experiment.Participate` | sixpack-java/src/test/java/com/seatgeek/sixpack/ExperimentTest.java:213-226 | The bound service's call log grows by exactly one entry: this experiment and the same two callback references. Nothing else is modified. |
| `Experiments.Sixpack.ParticipateIn` | sixpack-java/src/test/java/com/seatgeek/sixpack/ExperimentTest.java:225 | The mocked service records each `participateIn(experiment, success, failure)` call it receives, in order. |
| `Experiments.Sixpack.constructor` | sixpack-java/src/test/java/com/seatgeek/sixpack/ExperimentTest.java:17 | A new (mock) service has received no calls. |
| `ExperimentBuilders.Apply` | sixpack-java/src/test/java/com/seatgeek/sixpack/ExperimentTest.java:184-198 | A setter call fails exactly when it is a traffic fraction below 0 or above 1, and the error is BadTrafficFraction. Otherwise the service is kept, and the new alternatives are the old ones plus those the call supplies. |
| `ExperimentBuilders.RunKeepsFractionInRange` | sixpack-java/src/test/java/com/seatgeek/sixpack/ExperimentTest.java:184-198 | No chain of accepted setter calls leaves a traffic fraction outside [0, 1]. |
| `ExperimentBuilders.Run` | sixpack-java/src/test/java/com/seatgeek/sixpack/ExperimentTest.java:33-36 | A fluent chain of setter calls, applied in order, with the first exception aborting it. The only exception a chain can raise is BadTrafficFraction, and no call rebinds the service given to the builder's constructor. |
| `ExperimentBuilders.Chain` | sixpack-java/src/test/java/com/seatgeek/sixpack/ExperimentTest.java:33-36 | A fluent chain on a new builder ended by `build()`. A built experiment is bound to the builder's service and satisfies the Experiment invariants. Its four outcomes are proved in `ChainBadFraction`, `ChainWithoutName`, `ChainWithoutAlternatives` and `ChainSucceeds`. |
| `Experiments.Experiment.HasForcedChoice` | sixpack-java/src/test/java/com/seatgeek/sixpack/ExperimentTest.java:150 | `hasForcedChoice()` is true exactly when a forced choice is present. `ChainSucceeds`, `GetForcedChoice` and `NoForcedChoice` prove that this is whether `withForcedChoice` was called. |
| `Experiments.Experiment.ToString` | sixpack-java/src/test/java/com/seatgeek/sixpack/ExperimentTest.java:210 | `toString()` is the experiment's name, so a built experiment's text is never empty. `ChainSucceeds` and `ToStringEqualsExperimentName` prove it is the last name given to the builder. |
| `ExperimentBuilders.Validate` | sixpack-java/src/test/java/com/seatgeek/sixpack/ExperimentTest.java:54-137 | `build()` fails with NoExperimentName exactly when the name is null or empty. It fails with NoAlternatives exactly when the name is valid and the set is empty. It succeeds exactly when both are present, and the experiment then carries the accumulated name, alternatives, forced choice, fraction and service unchanged. |
| `ExperimentBuilders.ExperimentBuilder.constructor` | sixpack-java/src/test/java/com/seatgeek/sixpack/ExperimentTest.java:29-39 | A new builder is bound to the given service and has nothing else set. |
| `ExperimentBuilders.ExperimentBuilder.WithName` | sixpack-java/src/test/java/com/seatgeek/sixpack/ExperimentTest.java:54-68 | Stores the name verbatim, null and empty included. Every other field is unchanged. |
| `ExperimentBuilders.ExperimentBuilder.WithAlternative` | sixpack-java/src/test/java/com/seatgeek/sixpack/ExperimentTest.java:83-88 | Adds one alternative to the set. Every other field is unchanged. |
| `ExperimentBuilders.ExperimentBuilder.WithAlternatives` | sixpack-java/src/test/java/com/seatgeek/sixpack/ExperimentTest.java:90-93 | Adds every argument of the variadic call to the set, so an empty call adds nothing. Every other field is unchanged. |
| `ExperimentBuilders.ExperimentBuilder.WithAlternativeSet` | sixpack-java/src/test/java/com/seatgeek/sixpack/ExperimentTest.java:100-103 | Adds every member of the given set. Every other field is unchanged. |
| `ExperimentBuilders.ExperimentBuilder.WithForcedChoice` | sixpack-java/src/test/java/com/seatgeek/sixpack/ExperimentTest.java:139-152 | Sets the forced choice. It does not check membership in the alternatives. Every other field is unchanged. |
| `ExperimentBuilders.ExperimentBuilder.WithTrafficFraction` | sixpack-java/src/test/java/com/seatgeek/sixpack/ExperimentTest.java:169-198 | Fails with BadTrafficFraction exactly when the fraction is below 0 or above 1, and then leaves the builder unchanged. Otherwise it stores the fraction exactly. |
| `ExperimentBuilders.ExperimentBuilder.Build` | sixpack-java/src/test/java/com/seatgeek/sixpack/ExperimentTest.java:54-137 | Returns `Validate` of the current fields, which equals the outcome of the whole chain of setter calls made so far. A built experiment satisfies the Experiment invariants: a non-empty name, a non-empty set, and a fraction, if any, in [0, 1]. |
| `BuilderLaws.RunFailsOnlyOnBadFraction` | sixpack-java/src/test/java/com/seatgeek/sixpack/ExperimentTest.java:184-198 | A chain throws if and only if one of its calls is an out-of-range fraction, and what it throws is BadTrafficFraction. |
| `BuilderLaws.RunAlternatives` | sixpack-java/src/test/java/com/seatgeek/sixpack/ExperimentTest.java:77-108 | After a chain, an alternative is in the set if and only if it was there at the start or some call supplied it. Order and the setter used do not matter. |
| `BuilderLaws.RunLastSetterWins` | sixpack-java/src/test/java/com/seatgeek/sixpack/ExperimentTest.java:139-182 | The last `withName`, `withForcedChoice` or `withTrafficFraction` call of a chain decides that field. |
| `BuilderLaws.RunKeepsUnsetFields` | sixpack-java/src/test/java/com/seatgeek/sixpack/ExperimentTest.java:155-167 | A name, forced choice or fraction that no call sets keeps its initial value, which for a new builder is absent. |
| `BuilderLaws.AlternativesIndependentOfHowSupplied` | sixpack-java/src/test/java/com/seatgeek/sixpack/ExperimentTest.java:77-108 | Two chains that supply the same alternatives, through any mix of setters and in any order, leave equal sets. |
| `BuilderLaws.ChainBadFraction` | sixpack-java/src/test/java/com/seatgeek/sixpack/ExperimentTest.java:184-198 | A chain with an out-of-range fraction ends in BadTrafficFraction at the setter call, whatever follows and before `build()`. |
| `BuilderLaws.ChainWithoutName` | sixpack-java/src/test/java/com/seatgeek/sixpack/ExperimentTest.java:54-74 | With no name ever set, or a last name that is null or empty, `build()` fails with NoExperimentName whatever alternatives were supplied. The name check comes first. |
| `BuilderLaws.ChainWithoutAlternatives` | sixpack-java/src/test/java/com/seatgeek/sixpack/ExperimentTest.java:110-137 | With a valid last name and no alternative supplied (never called, an empty set, or an empty variadic call), `build()` fails with NoAlternatives. |
| `BuilderLaws.ChainSucceeds` | sixpack-java/src/test/java/com/seatgeek/sixpack/ExperimentTest.java:28-211 | With a valid last name and at least one alternative, `build()` succeeds. The experiment is valid and its name and `toString()` are the last name. Its alternatives are exactly those supplied and its service is the builder's. Its forced choice is the last one given, or absent with `hasForcedChoice()` false. Its fraction is the last one given, or absent. |
| `BuilderLaws.LastName` | sixpack-java/src/test/java/com/seatgeek/sixpack/ExperimentTest.java:54-68 | In a chain with a `withName` call, gives the index of its last such call. |
| `ExperimentTest.GetSixpack` | sixpack-java/src/test/java/com/seatgeek/sixpack/ExperimentTest.java:28-39 | The build succeeds and the experiment's service is the very object given to the builder. |
| `ExperimentTest.GetName` | sixpack-java/src/test/java/com/seatgeek/sixpack/ExperimentTest.java:41-52 | The build succeeds with the given name. |
| `ExperimentTest.EmptyNameThrows` | sixpack-java/src/test/java/com/seatgeek/sixpack/ExperimentTest.java:54-61 | An empty name gives NoExperimentName, even with no alternatives. |
| `ExperimentTest.NullNameThrows` | sixpack-java/src/test/java/com/seatgeek/sixpack/ExperimentTest.java:63-68 | A null name gives NoExperimentName. |
| `ExperimentTest.NoNameThrows` | sixpack-java/src/test/java/com/seatgeek/sixpack/ExperimentTest.java:70-74 | A builder with no name set gives NoExperimentName. |
| `ExperimentTest.GetAlternatives` | sixpack-java/src/test/java/com/seatgeek/sixpack/ExperimentTest.java:76-108 | Three `withAlternative` calls, one variadic call and one set-valued call all give the set {one, two, three}. |
| `ExperimentTest.NoAlternativesThrows` | sixpack-java/src/test/java/com/seatgeek/sixpack/ExperimentTest.java:110-116 | A valid name and no alternatives give NoAlternatives. |
| `ExperimentTest.EmptyAlternativesThrows` | sixpack-java/src/test/java/com/seatgeek/sixpack/ExperimentTest.java:118-127 | An empty set of alternatives gives NoAlternatives. |
| `ExperimentTest.NullAlternativesThrows` | sixpack-java/src/test/java/com/seatgeek/sixpack/ExperimentTest.java:129-137 | An empty variadic `withAlternatives()` gives NoAlternatives. |
| `ExperimentTest.GetForcedChoice` | sixpack-java/src/test/java/com/seatgeek/sixpack/ExperimentTest.java:139-152 | After `withForcedChoice(test)`, `hasForcedChoice()` is true and the forced choice is `test`. |
| `ExperimentTest.NoForcedChoice` | sixpack-java/src/test/java/com/seatgeek/sixpack/ExperimentTest.java:155-167 | Without `withForcedChoice`, `hasForcedChoice()` is false and the forced choice is absent. |
| `ExperimentTest.GetTrafficFraction` | sixpack-java/src/test/java/com/seatgeek/sixpack/ExperimentTest.java:169-182 | The fraction 0.5 is accepted and the built experiment holds exactly 0.5. |
| `ExperimentTest.LessThanZeroTrafficFractionThrows` | sixpack-java/src/test/java/com/seatgeek/sixpack/ExperimentTest.java:184-190 | `withTrafficFraction(-0.5)` itself fails with BadTrafficFraction, with no `build()` call. |
| `ExperimentTest.GreaterThanOneTrafficFractionThrows` | sixpack-java/src/test/java/com/seatgeek/sixpack/ExperimentTest.java:192-198 | `withTrafficFraction(2.0)` itself fails with BadTrafficFraction. |
| `ExperimentTest.ToStringEqualsExperimentName` | sixpack-java/src/test/java/com/seatgeek/sixpack/ExperimentTest.java:200-211 | The built experiment's `toString()` is exactly its name. |
| `ExperimentTest.ParticipateCallsSixpackParticipate` | sixpack-java/src/test/java/com/seatgeek/sixpack/ExperimentTest.java:213-226 | After `participate(mockSuccess, mockFailure)`, the mock service has received exactly one more call: the built experiment with those two callbacks. |

## Left out

- The `Sixpack` service's real behaviour is not modelled: HTTP, JSON, bucket assignment, and invoking `OnParticipationSuccess` or `OnParticipationFailure`. The model keeps only the log of `participateIn` calls. The callbacks are identity-only classes and nothing in the model invokes them.
- Mockito, JUnit and `initMocks` are test plumbing. The mocks become plain objects passed to the test methods.
- Java `Double` is modelled as `real`. Floating-point rounding, NaN and a null `Double` are not modelled. A fraction is rejected exactly when it is below 0 or above 1, so 0 and 1 are accepted, although the tests do not pin those boundaries.
- `Alternative` equality and hashing are structural equality of a datatype. Set deduplication follows from that.
- Fluent chaining (`return this`) becomes successive statements on the same builder. After a thrown `withTrafficFraction` the model's builder is unchanged, and a caller that catches the exception may continue with it.
- `WithAlternatives`, `WithAlternativeSet`: these add to the set already accumulated. The tests never call either after another alternative setter, so they cannot tell adding apart from replacing.
- A null argument to `withAlternative`, `withAlternatives` or `withForcedChoice` is not modelled: those parameters are non-null here. A null name is modelled.
- No check that the forced choice is one of the alternatives, because no test asserts one.
- Experiment identity is structural equality here. `Experiment` is a datatype, so the service's log compares experiments by value, whereas Java compares them by reference. Two separately built experiments with the same fields cannot be told apart in the log.

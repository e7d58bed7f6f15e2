/** The JUnit cases of ExperimentTest, one method each: the method performs
    the case's calls on a new builder and its postcondition is the case's
    assertion (for an expected exception: the error the call returns). */
module ExperimentTest {
  import opened Wrappers
  import opened Experiments
  import opened ExperimentBuilders

  const ExperimentName := "test-experiment"

  method GetSixpack(mockSixpack: Sixpack) returns (r: Result<Experiment, BuildError>)
    ensures r.Success? && r.value.sixpack == mockSixpack
  {
    var builder := new ExperimentBuilder(mockSixpack);
    builder.WithAlternative(Alternative("test"));
    builder.WithName(Some(ExperimentName));
    r := builder.Build();
  }

  method GetName(mockSixpack: Sixpack) returns (r: Result<Experiment, BuildError>)
    ensures r.Success? && r.value.name == ExperimentName
  {
    var builder := new ExperimentBuilder(mockSixpack);
    builder.WithName(Some(ExperimentName));
    builder.WithAlternative(Alternative("test"));
    r := builder.Build();
  }

  method EmptyNameThrows(mockSixpack: Sixpack) returns (r: Result<Experiment, BuildError>)
    ensures r == Failure(NoExperimentName)
  {
    var builder := new ExperimentBuilder(mockSixpack);
    builder.WithName(Some(""));
    r := builder.Build();
  }

  method NullNameThrows(mockSixpack: Sixpack) returns (r: Result<Experiment, BuildError>)
    ensures r == Failure(NoExperimentName)
  {
    var builder := new ExperimentBuilder(mockSixpack);
    builder.WithName(None);
    r := builder.Build();
  }

  method NoNameThrows(mockSixpack: Sixpack) returns (r: Result<Experiment, BuildError>)
    ensures r == Failure(NoExperimentName)
  {
    var builder := new ExperimentBuilder(mockSixpack);
    r := builder.Build();
  }

  /** Three withAlternative calls, one variadic withAlternatives call and one
      set-valued withAlternatives call all give the same set. */
  method GetAlternatives(mockSixpack: Sixpack)
    returns (a: Result<Experiment, BuildError>, b: Result<Experiment, BuildError>,
             c: Result<Experiment, BuildError>)
    ensures var expected := {Alternative("one"), Alternative("two"), Alternative("three")};
      && a.Success? && a.value.alternatives == expected
      && b.Success? && b.value.alternatives == expected
      && c.Success? && c.value.alternatives == expected
  {
    var one, two, three := Alternative("one"), Alternative("two"), Alternative("three");

    var builderA := new ExperimentBuilder(mockSixpack);
    builderA.WithName(Some(ExperimentName));
    builderA.WithAlternative(one);
    builderA.WithAlternative(two);
    builderA.WithAlternative(three);
    a := builderA.Build();

    var builderB := new ExperimentBuilder(mockSixpack);
    builderB.WithName(Some(ExperimentName));
    builderB.WithAlternatives([one, two, three]);
    b := builderB.Build();

    var builderC := new ExperimentBuilder(mockSixpack);
    builderC.WithName(Some(ExperimentName));
    builderC.WithAlternativeSet({one, two, three});
    c := builderC.Build();
  }

  method NoAlternativesThrows(mockSixpack: Sixpack) returns (r: Result<Experiment, BuildError>)
    ensures r == Failure(NoAlternatives)
  {
    var builder := new ExperimentBuilder(mockSixpack);
    builder.WithName(Some(ExperimentName));
    r := builder.Build();
  }

  method EmptyAlternativesThrows(mockSixpack: Sixpack) returns (r: Result<Experiment, BuildError>)
    ensures r == Failure(NoAlternatives)
  {
    var builder := new ExperimentBuilder(mockSixpack);
    builder.WithName(Some(ExperimentName));
    builder.WithAlternativeSet({});
    r := builder.Build();
  }

  method NullAlternativesThrows(mockSixpack: Sixpack) returns (r: Result<Experiment, BuildError>)
    ensures r == Failure(NoAlternatives)
  {
    var builder := new ExperimentBuilder(mockSixpack);
    builder.WithName(Some(ExperimentName));
    builder.WithAlternatives([]);
    r := builder.Build();
  }

  method GetForcedChoice(mockSixpack: Sixpack) returns (r: Result<Experiment, BuildError>)
    ensures r.Success? && r.value.HasForcedChoice() && r.value.forcedChoice == Some(Alternative("test"))
  {
    var test := Alternative("test");
    var builder := new ExperimentBuilder(mockSixpack);
    builder.WithName(Some(ExperimentName));
    builder.WithAlternative(test);
    builder.WithForcedChoice(test);
    r := builder.Build();
  }

  method NoForcedChoice(mockSixpack: Sixpack) returns (r: Result<Experiment, BuildError>)
    ensures r.Success? && !r.value.HasForcedChoice() && r.value.forcedChoice == None
  {
    var builder := new ExperimentBuilder(mockSixpack);
    builder.WithName(Some(ExperimentName));
    builder.WithAlternative(Alternative("test"));
    r := builder.Build();
  }

  method GetTrafficFraction(mockSixpack: Sixpack)
    returns (outcome: Outcome<BuildError>, r: Result<Experiment, BuildError>)
    ensures outcome == Pass
    ensures r.Success? && r.value.trafficFraction == Some(0.5)
  {
    var builder := new ExperimentBuilder(mockSixpack);
    builder.WithName(Some(ExperimentName));
    builder.WithAlternative(Alternative("test"));
    outcome := builder.WithTrafficFraction(0.5);
    r := builder.Build();
  }

  method LessThanZeroTrafficFractionThrows(mockSixpack: Sixpack) returns (r: Outcome<BuildError>)
    ensures r == Fail(BadTrafficFraction)
  {
    var builder := new ExperimentBuilder(mockSixpack);
    r := builder.WithTrafficFraction(-0.5);
  }

  method GreaterThanOneTrafficFractionThrows(mockSixpack: Sixpack) returns (r: Outcome<BuildError>)
    ensures r == Fail(BadTrafficFraction)
  {
    var builder := new ExperimentBuilder(mockSixpack);
    r := builder.WithTrafficFraction(2.0);
  }

  method ToStringEqualsExperimentName(mockSixpack: Sixpack) returns (r: Result<Experiment, BuildError>)
    ensures r.Success? && r.value.ToString() == ExperimentName
  {
    var builder := new ExperimentBuilder(mockSixpack);
    builder.WithName(Some(ExperimentName));
    builder.WithAlternative(Alternative("test"));
    r := builder.Build();
  }

  /** participate(success, failure) makes exactly one participateIn call on
      the bound service, with this experiment and the same two callbacks. */
  method ParticipateCallsSixpackParticipate(mockSixpack: Sixpack, mockSuccess: OnParticipationSuccess,
                                            mockFailure: OnParticipationFailure)
    returns (r: Result<Experiment, BuildError>)
    modifies mockSixpack
    ensures r.Success? && r.value.sixpack == mockSixpack
    ensures mockSixpack.calls == old(mockSixpack.calls) + [ParticipationRequest(r.value, mockSuccess, mockFailure)]
  {
    var builder := new ExperimentBuilder(mockSixpack);
    builder.WithName(Some(ExperimentName));
    builder.WithAlternative(Alternative("test"));
    r := builder.Build();
    r.value.Participate(mockSuccess, mockFailure);
  }
}

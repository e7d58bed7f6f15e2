/** Laws of a fluent chain of builder calls: which call decides each field,
    when a chain throws, and what build() makes of the result. */
module BuilderLaws {
  import opened Wrappers
  import opened Experiments
  import opened ExperimentBuilders

  /** Some call of the chain hands alternative a to the builder. */
  ghost predicate Supplied(cs: seq<Setter>, a: Alternative) {
    exists i :: 0 <= i < |cs| && Supplies(cs[i], a)
  }

  /** No call of the chain throws. */
  ghost predicate NoneRejected(cs: seq<Setter>) {
    forall i :: 0 <= i < |cs| ==> !Rejects(cs[i])
  }

  /** Call i is the last withName call of the chain. */
  ghost predicate LastNameAt(cs: seq<Setter>, i: int) {
    0 <= i < |cs| && cs[i].SetName? && forall j :: i < j < |cs| ==> !cs[j].SetName?
  }

  /** Call i is the last withForcedChoice call of the chain. */
  ghost predicate LastChoiceAt(cs: seq<Setter>, i: int) {
    0 <= i < |cs| && cs[i].SetForcedChoice? && forall j :: i < j < |cs| ==> !cs[j].SetForcedChoice?
  }

  /** Call i is the last withTrafficFraction call of the chain. */
  ghost predicate LastFractionAt(cs: seq<Setter>, i: int) {
    0 <= i < |cs| && cs[i].SetTrafficFraction? && forall j :: i < j < |cs| ==> !cs[j].SetTrafficFraction?
  }

  /** A chain throws exactly when one of its calls is a rejected traffic
      fraction, and what it throws is BadTrafficFraction. */
  lemma {:induction false} RunFailsOnlyOnBadFraction(s: BuilderState, cs: seq<Setter>)
    ensures Run(s, cs).Failure? <==> !NoneRejected(cs)
    ensures Run(s, cs).Failure? ==> Run(s, cs).error == BadTrafficFraction
  {
    if cs != [] {
      var init := cs[..|cs| - 1];
      RunFailsOnlyOnBadFraction(s, init);
      assert forall i :: 0 <= i < |init| ==> init[i] == cs[i];
    }
  }

  /** The alternatives after a chain are those present at its start together
      with every alternative any of its calls supplied, whatever the order
      and whichever setter delivered them. */
  lemma {:induction false} RunAlternatives(s: BuilderState, cs: seq<Setter>)
    requires Run(s, cs).Success?
    ensures forall a :: a in Run(s, cs).value.alternatives <==> a in s.alternatives || Supplied(cs, a)
  {
    if cs != [] {
      var init, last := cs[..|cs| - 1], cs[|cs| - 1];
      RunAlternatives(s, init);
      forall a ensures Supplied(cs, a) <==> Supplied(init, a) || Supplies(last, a) {
        if Supplied(init, a) {
          var i :| 0 <= i < |init| && Supplies(init[i], a);
          assert cs[i] == init[i];
        }
        if Supplied(cs, a) && !Supplies(last, a) {
          var i :| 0 <= i < |cs| && Supplies(cs[i], a);
          assert init[i] == cs[i];
        }
      }
    }
  }

  /** The last call of each kind decides its field: a later withName replaces
      an earlier one, and likewise for the forced choice and the fraction. */
  lemma {:induction false} RunLastSetterWins(s: BuilderState, cs: seq<Setter>, i: int)
    requires Run(s, cs).Success?
    ensures LastNameAt(cs, i) ==> Run(s, cs).value.name == cs[i].name
    ensures LastChoiceAt(cs, i) ==> Run(s, cs).value.forcedChoice == Some(cs[i].choice)
    ensures LastFractionAt(cs, i) ==> Run(s, cs).value.trafficFraction == Some(cs[i].fraction)
  {
    if cs != [] && 0 <= i < |cs| - 1 {
      var init := cs[..|cs| - 1];
      RunLastSetterWins(s, init, i);
      assert init[i] == cs[i];
      assert LastNameAt(cs, i) ==> LastNameAt(init, i);
      assert LastChoiceAt(cs, i) ==> LastChoiceAt(init, i);
      assert LastFractionAt(cs, i) ==> LastFractionAt(init, i);
    }
  }

  /** A field that no call of the chain sets keeps its value. */
  lemma {:induction false} RunKeepsUnsetFields(s: BuilderState, cs: seq<Setter>)
    requires Run(s, cs).Success?
    ensures (forall j :: 0 <= j < |cs| ==> !cs[j].SetName?) ==> Run(s, cs).value.name == s.name
    ensures (forall j :: 0 <= j < |cs| ==> !cs[j].SetForcedChoice?) ==> Run(s, cs).value.forcedChoice == s.forcedChoice
    ensures (forall j :: 0 <= j < |cs| ==> !cs[j].SetTrafficFraction?) ==> Run(s, cs).value.trafficFraction == s.trafficFraction
  {
    if cs != [] {
      var init := cs[..|cs| - 1];
      RunKeepsUnsetFields(s, init);
      assert forall j :: 0 <= j < |init| ==> init[j] == cs[j];
    }
  }

  /** Two chains that supply the same alternatives, in any order and through
      any mix of withAlternative and withAlternatives, leave the same set. */
  lemma AlternativesIndependentOfHowSupplied(s: BuilderState, cs1: seq<Setter>, cs2: seq<Setter>)
    requires Run(s, cs1).Success? && Run(s, cs2).Success?
    requires forall a :: Supplied(cs1, a) <==> Supplied(cs2, a)
    ensures Run(s, cs1).value.alternatives == Run(s, cs2).value.alternatives
  {
    RunAlternatives(s, cs1);
    RunAlternatives(s, cs2);
  }

  /** A chain with a rejected fraction throws BadTrafficFraction at that call:
      the chain's later calls and build() are never reached. */
  lemma ChainBadFraction(sixpack: Sixpack, cs: seq<Setter>, i: int)
    requires 0 <= i < |cs| && Rejects(cs[i])
    ensures Chain(sixpack, cs) == Failure(BadTrafficFraction)
  {
    RunFailsOnlyOnBadFraction(Init(sixpack), cs);
  }

  /** build() throws NoExperimentName when withName was never called, or when
      its last call gave null or the empty string, whatever the alternatives:
      the name is checked before the alternatives. */
  lemma ChainWithoutName(sixpack: Sixpack, cs: seq<Setter>)
    requires NoneRejected(cs)
    requires forall i :: LastNameAt(cs, i) ==> !HasName(cs[i].name)
    ensures Chain(sixpack, cs) == Failure(NoExperimentName)
  {
    RunFailsOnlyOnBadFraction(Init(sixpack), cs);
    RunKeepsUnsetFields(Init(sixpack), cs);
    if exists j :: 0 <= j < |cs| && cs[j].SetName? {
      var i := LastName(cs);
      RunLastSetterWins(Init(sixpack), cs, i);
    }
  }

  /** build() throws NoAlternatives when the last name is a real one but no
      call supplied an alternative (none called, an empty set, or no
      arguments). */
  lemma ChainWithoutAlternatives(sixpack: Sixpack, cs: seq<Setter>, i: int)
    requires NoneRejected(cs)
    requires LastNameAt(cs, i) && HasName(cs[i].name)
    requires forall a :: !Supplied(cs, a)
    ensures Chain(sixpack, cs) == Failure(NoAlternatives)
  {
    RunFailsOnlyOnBadFraction(Init(sixpack), cs);
    RunLastSetterWins(Init(sixpack), cs, i);
    RunAlternatives(Init(sixpack), cs);
  }

  /** With a real last name and at least one supplied alternative, build()
      returns an experiment that holds that name, exactly the supplied
      alternatives, the service the builder was made with, the last forced
      choice (none if never given) and the last fraction (none if never given). */
  lemma ChainSucceeds(sixpack: Sixpack, cs: seq<Setter>, i: int, a: Alternative)
    requires NoneRejected(cs)
    requires LastNameAt(cs, i) && HasName(cs[i].name)
    requires Supplied(cs, a)
    ensures Chain(sixpack, cs).Success?
    ensures var e := Chain(sixpack, cs).value;
      && e.Valid()
      && e.name == cs[i].name.value
      && e.ToString() == e.name
      && (forall b :: b in e.alternatives <==> Supplied(cs, b))
      && e.sixpack == sixpack
      && (forall k :: LastChoiceAt(cs, k) ==> e.HasForcedChoice() && e.forcedChoice == Some(cs[k].choice))
      && ((forall k :: 0 <= k < |cs| ==> !cs[k].SetForcedChoice?) ==> !e.HasForcedChoice() && e.forcedChoice == None)
      && (forall k :: LastFractionAt(cs, k) ==> e.trafficFraction == Some(cs[k].fraction))
      && ((forall k :: 0 <= k < |cs| ==> !cs[k].SetTrafficFraction?) ==> e.trafficFraction == None)
  {
    var s0 := Init(sixpack);
    RunFailsOnlyOnBadFraction(s0, cs);
    RunLastSetterWins(s0, cs, i);
    RunAlternatives(s0, cs);
    RunKeepsUnsetFields(s0, cs);
    RunKeepsFractionInRange(s0, cs);
    forall k | LastChoiceAt(cs, k) || LastFractionAt(cs, k)
      ensures LastChoiceAt(cs, k) ==> Run(s0, cs).value.forcedChoice == Some(cs[k].choice)
      ensures LastFractionAt(cs, k) ==> Run(s0, cs).value.trafficFraction == Some(cs[k].fraction)
    {
      RunLastSetterWins(s0, cs, k);
    }
  }

  /** The index of the last withName call of a chain that has one. */
  ghost function LastName(cs: seq<Setter>): (i: int)
    requires exists j :: 0 <= j < |cs| && cs[j].SetName?
    ensures LastNameAt(cs, i)
    decreases |cs|
  {
    if cs[|cs| - 1].SetName? then |cs| - 1
    else
      var j :| 0 <= j < |cs| && cs[j].SetName?;
      assert j < |cs| - 1 && cs[..|cs| - 1][j] == cs[j];
      var i := LastName(cs[..|cs| - 1]);
      assert forall k :: i < k < |cs| - 1 ==> cs[..|cs| - 1][k] == cs[k];
      i
  }
}

/** The immutable Experiment of com.seatgeek.sixpack and the collaborators it
    talks to: the Sixpack participation service and the two callbacks. */
module Experiments {
  import opened Wrappers

  /** A named variant of an experiment; equality is by name. */
  datatype Alternative = Alternative(name: string)

  /** The success callback. The core only passes it through, so only its
      identity matters. */
  class OnParticipationSuccess {
    constructor () { }
  }

  /** The failure callback, likewise passed through unmodified. */
  class OnParticipationFailure {
    constructor () { }
  }

  /** One recorded call participateIn(experiment, onSuccess, onFailure). */
  datatype ParticipationRequest = ParticipationRequest(
    experiment: Experiment,
    onSuccess: OnParticipationSuccess,
    onFailure: OnParticipationFailure)

  /** The Sixpack participation service. Its real behaviour (HTTP, bucket
      assignment, invoking a callback) is not part of this model; what the
      model keeps is the log of the participateIn calls it has received. */
  class Sixpack {
    var calls: seq<ParticipationRequest>

    constructor ()
      ensures calls == []
    {
      calls := [];
    }

    /** Receives one participation request. */
    method ParticipateIn(experiment: Experiment, onSuccess: OnParticipationSuccess,
                         onFailure: OnParticipationFailure)
      modifies this
      ensures calls == old(calls) + [ParticipationRequest(experiment, onSuccess, onFailure)]
    {
      calls := calls + [ParticipationRequest(experiment, onSuccess, onFailure)];
    }
  }

  /** A traffic fraction the builder accepts: one inside the closed interval [0, 1]. */
  predicate FractionInRange(fraction: real) {
    0.0 <= fraction <= 1.0
  }

  /** A built experiment. It has no setters: every field is fixed by build(). */
  datatype Experiment = Experiment(
    name: string,
    alternatives: set<Alternative>,
    forcedChoice: Option<Alternative>,
    trafficFraction: Option<real>,
    sixpack: Sixpack)
  {
    /** The invariants build() establishes: a non-empty name, at least one
        alternative, and a traffic fraction, if any, inside [0, 1]. */
    ghost predicate Valid() {
      && name != ""
      && alternatives != {}
      && (trafficFraction.Some? ==> FractionInRange(trafficFraction.value))
    }

    /** hasForcedChoice(): whether a forced choice was given to the builder,
        that is, whether participation is a fixed assignment. */
    predicate HasForcedChoice()
      ensures HasForcedChoice() <==> forcedChoice != None
    {
      forcedChoice.Some?
    }

    /** toString(): the text form of an experiment is its name, so that of a
        built experiment is never empty. */
    function ToString(): (r: string)
      ensures r == name
      ensures Valid() ==> r != ""
    {
      name
    }

    /** participate(success, failure): hands this experiment and the two
        callbacks to the bound service, once, and does nothing else. */
    method Participate(onSuccess: OnParticipationSuccess, onFailure: OnParticipationFailure)
      modifies sixpack
      ensures sixpack.calls == old(sixpack.calls) + [ParticipationRequest(this, onSuccess, onFailure)]
    {
      sixpack.ParticipateIn(this, onSuccess, onFailure);
    }
  }
}

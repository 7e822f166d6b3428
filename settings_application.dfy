/** The device-apply panel: transmits a recommendation's settings to the cooler,
    tracks the connection status, and offers apply, retry, reject and complete.
    `handleApply` awaits the transmission, so it is split in two: `BeginApply` makes
    the call and `FinishApply` receives its outcome. */
module Application {
  import opened Recommendations

  datatype ConnectionStatus = Idle | Connecting | Success | Error

  /** How the transmission call settled: resolved `true`, resolved `false`, or threw. */
  datatype Transmission = Delivered | Refused | Threw

  class SettingsApplication {
    const recommendation: Recommendation
    var isApplying: bool
    var connectionStatus: ConnectionStatus
    var applied: bool
    /** The arguments of every transmission call made so far, oldest first. */
    var transmitted: seq<CoolerSettings>
    /** How many of those calls have settled. */
    var settled: nat
    /** How many times `onComplete` has been invoked. */
    var completions: nat

    ghost predicate Valid()
      reads this
    {
      && (applied <==> connectionStatus == Success)
      && (isApplying <==> connectionStatus == Connecting)
      && (connectionStatus == Idle <==> |transmitted| == 0)
      && |transmitted| == settled + (if isApplying then 1 else 0)
      && (forall k :: 0 <= k < |transmitted| ==> transmitted[k] == recommendation.settings)
    }

    /** The reject button is rendered while `!applied` and enabled while `!isApplying`. */
    predicate RejectEnabled()
      reads this
    {
      !applied && !isApplying
    }

    /** The apply button is rendered while `!applied` and enabled unless applying or succeeded. */
    predicate ApplyEnabled()
      reads this
    {
      !applied && !isApplying && connectionStatus != Success
    }

    /** The retry button is rendered in status error and enabled while not applying. */
    predicate RetryEnabled()
      reads this
    {
      connectionStatus == Error && !isApplying
    }

    /** The complete button is rendered once applied. */
    predicate CompleteEnabled()
      reads this
    {
      applied
    }

    constructor (recommendation: Recommendation)
      ensures Valid()
      ensures this.recommendation == recommendation
      ensures connectionStatus == Idle && !isApplying && !applied
      ensures transmitted == [] && settled == 0 && completions == 0
    {
      this.recommendation := recommendation;
      isApplying := false;
      connectionStatus := Idle;
      applied := false;
      transmitted := [];
      settled := 0;
      completions := 0;
    }

    /** `handleApply` up to the await, from the apply or the retry button: the only place
        a transmission is started, always with the recommendation's own settings. */
    method BeginApply()
      requires Valid() && (ApplyEnabled() || RetryEnabled())
      modifies this`isApplying, this`connectionStatus, this`transmitted
      ensures Valid()
      ensures isApplying && connectionStatus == Connecting && applied == old(applied)
      ensures transmitted == old(transmitted) + [recommendation.settings]
    {
      isApplying := true;
      connectionStatus := Connecting;
      transmitted := transmitted + [recommendation.settings];
    }

    /** `handleApply` after the await: success on `true`, error on `false` or a throw;
        `applied` only ever becomes true, and `isApplying` is cleared in every case. */
    method FinishApply(outcome: Transmission)
      requires Valid() && isApplying
      modifies this`isApplying, this`connectionStatus, this`applied, this`settled
      ensures Valid()
      ensures !isApplying && settled == old(settled) + 1
      ensures outcome == Delivered ==> connectionStatus == Success && applied
      ensures outcome != Delivered ==> connectionStatus == Error && applied == old(applied)
    {
      if outcome == Delivered {
        connectionStatus := Success;
        applied := true;
      } else {
        connectionStatus := Error;
      }
      isApplying := false;
      settled := settled + 1;
    }

    /** `handleReject`: hands control back through `onComplete` without transmitting. */
    method Reject()
      requires Valid() && RejectEnabled()
      modifies this`completions
      ensures Valid() && completions == old(completions) + 1
    {
      completions := completions + 1;
    }

    /** The complete button: hands control back through `onComplete`. */
    method Complete()
      requires Valid() && CompleteEnabled()
      modifies this`completions
      ensures Valid() && completions == old(completions) + 1
    {
      completions := completions + 1;
    }
  }

  /** At most one transmission is in flight, and one is in flight exactly while connecting. */
  lemma AtMostOneInFlight(a: SettingsApplication)
    requires a.Valid()
    ensures |a.transmitted| - a.settled <= 1
    ensures |a.transmitted| - a.settled == 1 <==> a.connectionStatus == Connecting
  {
  }

  /** In success nothing can start a transmission again, and only complete is offered. */
  lemma SuccessIsFinal(a: SettingsApplication)
    requires a.Valid() && a.connectionStatus == Success
    ensures a.applied && !a.isApplying
    ensures !a.ApplyEnabled() && !a.RetryEnabled() && !a.RejectEnabled() && a.CompleteEnabled()
  {
  }
}

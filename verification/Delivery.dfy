/** What one delivery attempt comes to: from the devices it finds and the answers it gets to how its row ends. */
module Delivery {
  import opened Domain
  import opened Outbox

  datatype DeviceResult = AcceptedByDevice | InvalidToken | UnregisteredToken | Transient | ConfigError

  /** The batch is answered per device, or fails as a whole: by its configuration, or by throttling, network or
      timeout. */
  datatype Send = Answered(results: seq<DeviceResult>) | BatchMisconfigured | BatchFailed

  /** `devices` active devices of the recipient, the stored payload, the send, and whether its statements fail. */
  datatype Attempt = Attempt(devices: nat, payloadSafe: bool, send: Send, finalizeFails: bool)

  predicate Permanent(d: DeviceResult) {
    d.InvalidToken? || d.UnregisteredToken?
  }

  /** A device without an answer counts as a transient failure. */
  function ResultFor(a: Attempt, device: nat): DeviceResult
    requires a.send.Answered?
  {
    if device < |a.send.results| then a.send.results[device] else Transient
  }

  predicate Reported(a: Attempt, d: DeviceResult) {
    a.send.Answered? && exists i: nat | i < a.devices :: ResultFor(a, i) == d
  }

  predicate OnlyPermanent(a: Attempt) {
    a.send.Answered? && forall i: nat | i < a.devices :: Permanent(ResultFor(a, i))
  }

  /** The worker's tests, in its order. */
  function OutcomeOf(a: Attempt): Outcome {
    if a.finalizeFails then LeaveSending
    else if a.devices == 0 then Deliver
    else if !a.payloadSafe then FailForGood
    else
      match a.send
      case BatchMisconfigured => FailForGood
      case BatchFailed => FailTransiently
      case Answered(_) =>
        if Reported(a, ConfigError) then FailForGood
        else if Reported(a, AcceptedByDevice) || OnlyPermanent(a) then Deliver
        else FailTransiently
  }

  /** The devices whose tokens are revoked: those a per-device answer calls permanently invalid. */
  function RevokedBy(a: Attempt): set<nat> {
    if a.devices == 0 || !a.payloadSafe || !a.send.Answered? then {}
    else set i: nat | i < a.devices && Permanent(ResultFor(a, i))
  }

  /** A token is revoked exactly when its own device answered that it is invalid or unregistered. */
  lemma RevokedExactly(a: Attempt, i: nat)
    ensures i in RevokedBy(a) <==>
      && a.payloadSafe && a.send.Answered? && i < a.devices && i < |a.send.results|
      && (a.send.results[i] == InvalidToken || a.send.results[i] == UnregisteredToken)
  {
  }

  /** The row's processing, with its pass over the devices. */
  method Judge(a: Attempt) returns (outcome: Outcome, revoked: set<nat>)
    ensures !a.finalizeFails ==> outcome == OutcomeOf(a)
    ensures revoked == RevokedBy(a)
    ensures forall i: nat :: i in revoked <==>
      && a.payloadSafe && a.send.Answered? && i < a.devices && i < |a.send.results|
      && (a.send.results[i] == InvalidToken || a.send.results[i] == UnregisteredToken)
  {
    revoked := {};
    if a.devices == 0 { return Deliver, {}; }
    if !a.payloadSafe { return FailForGood, {}; }
    if a.send.BatchMisconfigured? { return FailForGood, {}; }
    if a.send.BatchFailed? { return FailTransiently, {}; }
    var configErrors, delivered := 0, 0;
    for i := 0 to a.devices
      invariant revoked == set k: nat | k < i && Permanent(ResultFor(a, k))
      invariant configErrors > 0 <==> exists k: nat | k < i :: ResultFor(a, k).ConfigError?
      invariant delivered > 0 <==> exists k: nat | k < i :: ResultFor(a, k).AcceptedByDevice?
      invariant configErrors >= 0 && delivered >= 0
      invariant |revoked| <= i && (|revoked| == i <==> forall k: nat | k < i :: Permanent(ResultFor(a, k)))
    {
      match ResultFor(a, i) {
        case InvalidToken => revoked := revoked + {i};
        case UnregisteredToken => revoked := revoked + {i};
        case ConfigError => configErrors := configErrors + 1;
        case AcceptedByDevice => delivered := delivered + 1;
        case Transient =>
      }
    }
    outcome := if configErrors > 0 then FailForGood
               else if delivered > 0 then Deliver
               else if |revoked| == a.devices then Deliver
               else FailTransiently;
  }

  // ---------------------------------------------------------------- the documented policy

  /** Delivered when some device accepted it, when there is no active device, or when every token is permanently
      invalid. */
  predicate ShouldBeDelivered(a: Attempt) {
    a.devices == 0 || (a.payloadSafe && (Reported(a, AcceptedByDevice) || OnlyPermanent(a)))
  }

  /** Retried when no device accepted it and some failure was transient, of a device or of the whole batch. */
  predicate ShouldBeRetried(a: Attempt) {
    && a.devices > 0 && a.payloadSafe
    && (a.send.BatchFailed? || (Reported(a, Transient) && !Reported(a, AcceptedByDevice)))
  }

  /** What the reports mean for the answers as they came: only a missing answer is read as a transient failure. */
  lemma ReportsMean(a: Attempt)
    requires a.send.Answered?
    ensures forall d: DeviceResult | d != Transient ::
      Reported(a, d) <==> exists i: nat | i < a.devices && i < |a.send.results| :: a.send.results[i] == d
    ensures Reported(a, Transient) <==>
      || |a.send.results| < a.devices
      || exists i: nat | i < a.devices && i < |a.send.results| :: a.send.results[i] == Transient
    ensures OnlyPermanent(a) <==>
      && a.devices <= |a.send.results|
      && forall i: nat | i < a.devices :: a.send.results[i] in {InvalidToken, UnregisteredToken}
  {
    forall d: DeviceResult, i: nat | i < a.devices && i < |a.send.results| && a.send.results[i] == d
      ensures Reported(a, d)
    {
      assert ResultFor(a, i) == d;
    }
    if |a.send.results| < a.devices {
      assert ResultFor(a, |a.send.results|) == Transient && !Permanent(ResultFor(a, |a.send.results|));
    } else {
      forall i: nat | i < a.devices
        ensures Permanent(ResultFor(a, i)) <==> a.send.results[i] in {InvalidToken, UnregisteredToken}
      {
      }
    }
  }

  /** When the statements fail the row stays as it was, to be reclaimed. */
  lemma FailedStatementsLeaveTheRow(row: Row, a: Attempt, now: int)
    requires a.finalizeFails
    ensures FinishRow(row, row.attempts, OutcomeOf(a), now) == row
  {
  }

  /** Until the ceiling, a row ends as the policy says, exactly unless some device reported a configuration error. */
  lemma PolicyHoldsWithoutConfigError(row: Row, a: Attempt, now: int)
    requires RowInv(row) && row.status.Sending? && row.attempts < MAX_DELIVERY_ATTEMPTS - 1 && !a.finalizeFails
    ensures var row' := FinishRow(row, row.attempts, OutcomeOf(a), now);
      && (row'.status.Delivered? <==> ShouldBeDelivered(a) && (a.devices == 0 || !Reported(a, ConfigError)))
      && (row'.status.Pending? <==> ShouldBeRetried(a) && !Reported(a, ConfigError))
      && (row'.status.Dead? <==>
            !(ShouldBeDelivered(a) || ShouldBeRetried(a)) || (a.devices > 0 && Reported(a, ConfigError)))
  {
    if a.send.Answered? && a.devices > 0 && !OnlyPermanent(a) && !Reported(a, ConfigError)
      && !Reported(a, AcceptedByDevice) {
      var i: nat :| i < a.devices && !Permanent(ResultFor(a, i));
      assert ResultFor(a, i) == Transient;
    }
  }

  /** At the last attempt what would be retried is dead; nothing else changes. */
  lemma LastAttemptIsFinal(row: Row, a: Attempt, now: int)
    requires RowInv(row) && row.status.Sending? && row.attempts == MAX_DELIVERY_ATTEMPTS - 1 && !a.finalizeFails
    ensures var row' := FinishRow(row, row.attempts, OutcomeOf(a), now);
      && (row'.status.Delivered? <==> ShouldBeDelivered(a) && (a.devices == 0 || !Reported(a, ConfigError)))
      && (row'.status.Delivered? || row'.status.Dead?)
  {
  }

  /** A device that accepted the message is never asked again: its row is delivered, or dead for another's
      configuration error. */
  lemma AcceptedIsNeverResent(row: Row, a: Attempt, now: int)
    requires RowInv(row) && row.status.Sending? && !a.finalizeFails
    requires a.payloadSafe && Reported(a, AcceptedByDevice)
    ensures var row' := FinishRow(row, row.attempts, OutcomeOf(a), now);
      && (row'.status.Delivered? <==> !Reported(a, ConfigError))
      && (row'.status.Dead? <==> Reported(a, ConfigError))
  {
  }
}

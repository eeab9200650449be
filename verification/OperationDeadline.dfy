/** The deadline of one operation: no result after it, an abandoned body settles before it, and which failure the
  * caller of an attempt sees. */
module OperationDeadline {
  import opened Wrappers
  import Waits = EscalationWaits

  datatype Enforcement = TransactionTimeout | StatementLimits

  datatype Error =
    | OperationTimeout
    | TerminatedByTimeout
    | QueryCanceled
    | SerializationFailure
    | ConnectionLost
    | OtherError(code: nat)

  datatype Stage = Stage(took: real, failure: Option<Error>)

  // What the environment does: how each stage of an attempt ends and how long it takes. `supported` says whether the
  // database knows a transaction timeout.
  datatype Script = Script(
    fence: Stage, checking: Stage, supported: bool, arming: Stage, body: real, result: Result<nat, Error>,
    limiting: Stage, commit: Stage, rollback: real)

  predicate InTime(s: Script) {
    && s.fence.took >= 0.0 && s.checking.took >= 0.0 && s.arming.took >= 0.0 && s.body >= 0.0
    && s.limiting.took >= 0.0 && s.commit.took >= 0.0 && s.rollback >= 0.0
  }

  // Some stage fails with this error.
  predicate Fails(s: Script, error: Error) {
    || s.fence.failure == Some(error) || s.checking.failure == Some(error) || s.arming.failure == Some(error)
    || s.result == Failure(error) || s.limiting.failure == Some(error) || s.commit.failure == Some(error)
  }

  datatype Outcome = Outcome(result: Result<nat, Error>, at: Waits.Time)

  class OperationDeadline {
    const endsAt: Waits.Time
    var enforcement: Option<Enforcement>

    constructor (timeoutMs: nat, now: Waits.Time)
      ensures endsAt == now + timeoutMs as real && enforcement == None
    {
      endsAt := now + timeoutMs as real;
      enforcement := None;
    }

    predicate HasPassed(now: Waits.Time) {
      now >= endsAt
    }

    function EndedOperation(error: Error, now: Waits.Time): bool
      reads this
    {
      error == TerminatedByTimeout || (HasPassed(now) && FailedAtDeadline(error))
    }

    function FailedAtDeadline(error: Error): bool
      reads this
    {
      (enforcement == Some(StatementLimits) && error == QueryCanceled) || (enforcement.Some? && error == ConnectionLost)
    }

    function FailureOf(error: Error, now: Waits.Time): Error
      reads this
    {
      if error == OperationTimeout then error
      else if EndedOperation(error, now) then OperationTimeout
      else error
    }

    // When the limits are armed, if nothing fails before, and when the timer of the body fires.
    function ArmedAt(s: Script, now: Waits.Time): Waits.Time {
      now + s.checking.took + s.arming.took
    }

    function TimerAt(s: Script, now: Waits.Time): Waits.Time {
      Waits.SettlesAt(endsAt, ArmedAt(s, now))
    }

    // The limits are armed and the body is started.
    predicate Starts(s: Script, now: Waits.Time) {
      && s.checking.failure.None? && s.arming.failure.None?
      && (!s.supported ==> now + s.checking.took < endsAt)
    }

    // The body is started and settles before its timer.
    predicate Settles(s: Script, now: Waits.Time) {
      Starts(s, now) && ArmedAt(s, now) + s.body < TimerAt(s, now)
    }

    // A body that ended at this time is before the deadline, and so are the limits set again for the commit.
    predicate EndsInTime(s: Script, endedAt: Waits.Time) {
      endedAt < endsAt && (!s.supported ==> s.limiting.failure.None? && endedAt + s.limiting.took < endsAt)
    }

    // How the failure of a started body is seen at some time: as the timeout if the database ended the transaction by
    // its timeout, or if a statement was cancelled under statement limits or the connection was lost at the deadline.
    predicate SeenAsTimeout(s: Script, error: Error, at: Waits.Time) {
      || error == OperationTimeout || error == TerminatedByTimeout
      || (at >= endsAt && (error == ConnectionLost || (error == QueryCanceled && !s.supported)))
    }

    // Arms the limits, runs the body, and checks the deadline once more.
    method Run(s: Script, now: Waits.Time) returns (o: Outcome)
      requires InTime(s)
      modifies this`enforcement
      ensures o.at >= now
      ensures o.result.Success? <==> Settles(s, now) && s.result.Success? && EndsInTime(s, ArmedAt(s, now) + s.body)
      ensures o.result.Success? ==> o.at < endsAt && o.result == s.result
      ensures s.checking.failure.Some? ==> o == Outcome(Failure(s.checking.failure.value), now + s.checking.took)
      ensures Starts(s, now) && ArmedAt(s, now) + s.body >= TimerAt(s, now) ==>
        o == Outcome(Failure(OperationTimeout), TimerAt(s, now))
      ensures Starts(s, now) ==> enforcement == Some(if s.supported then TransactionTimeout else StatementLimits)
      ensures o.result.Failure? && o.result.error != OperationTimeout ==> Fails(s, o.result.error)
      ensures o.result == Failure(OperationTimeout) ==>
        Fails(s, OperationTimeout) || o.at >= endsAt || o.at == TimerAt(s, now)
      ensures Settles(s, now) && s.result.Failure? ==> o.result == s.result && o.at == ArmedAt(s, now) + s.body
    {
      var supportAt := now + s.checking.took;
      if s.checking.failure.Some? {
        return Outcome(Failure(s.checking.failure.value), supportAt);
      }
      var armedAt := supportAt + s.arming.took;
      if s.supported {
        if s.arming.failure.Some? {
          return Outcome(Failure(s.arming.failure.value), armedAt);
        }
        enforcement := Some(TransactionTimeout);
      } else {
        enforcement := Some(StatementLimits);
        if HasPassed(supportAt) {
          return Outcome(Failure(OperationTimeout), supportAt);
        }
        if s.arming.failure.Some? {
          return Outcome(Failure(s.arming.failure.value), armedAt);
        }
      }
      var settlesAt := Waits.SettlesAt(endsAt, armedAt);
      if armedAt + s.body >= settlesAt {
        return Outcome(Failure(OperationTimeout), settlesAt);
      }
      var endedAt := armedAt + s.body;
      if s.result.Failure? {
        return Outcome(s.result, endedAt);
      }
      if HasPassed(endedAt) {
        return Outcome(Failure(OperationTimeout), endedAt);
      }
      var checkedAt := endedAt;
      if !s.supported {
        checkedAt := endedAt + s.limiting.took;
        if s.limiting.failure.Some? {
          return Outcome(Failure(s.limiting.failure.value), checkedAt);
        }
      }
      if HasPassed(checkedAt) {
        return Outcome(Failure(OperationTimeout), checkedAt);
      }
      o := Outcome(s.result, checkedAt);
    }

    // One attempt as its caller sees it: the fence, the run, and the commit or the rollback. A failure is the one of
    // some stage, or the timeout, which is seen only for a database that ended the transaction by its timeout, after
    // the body's timer, or after the deadline. A serialization failure of the body is never taken for the deadline.
    method RunAttempt(s: Script, now: Waits.Time) returns (o: Outcome)
      requires InTime(s)
      modifies this`enforcement
      ensures o.at >= now
      ensures o.result.Success? ==> o.result == s.result && s.commit.failure.None? && Settles(s, now + s.fence.took)
      ensures o.result.Failure? && o.result.error != OperationTimeout ==> Fails(s, o.result.error)
      ensures o.result == Failure(OperationTimeout) ==>
        || Fails(s, OperationTimeout) || Fails(s, TerminatedByTimeout)
        || o.at >= endsAt || o.at >= TimerAt(s, now + s.fence.took)
      ensures s.fence.failure.None? && Settles(s, now + s.fence.took) && s.result == Failure(SerializationFailure) ==>
        o.result == Failure(SerializationFailure)
      ensures s.fence.failure.None? && Settles(s, now + s.fence.took) && s.result.Failure? ==>
        && o.at == ArmedAt(s, now + s.fence.took) + s.body + s.rollback
        && o.result == Failure(if SeenAsTimeout(s, s.result.error, o.at) then OperationTimeout else s.result.error)
      ensures s.fence.failure.Some? && old(enforcement) == None ==>
        && o.at == now + s.fence.took + s.rollback
        && o.result == Failure(if s.fence.failure.value == TerminatedByTimeout then OperationTimeout
                               else s.fence.failure.value)
      ensures
        var start := now + s.fence.took;
        s.fence.failure.None? && Settles(s, start) && s.result.Success? && EndsInTime(s, ArmedAt(s, start) + s.body)
        && s.commit.failure.Some? ==>
        o.result == Failure(if SeenAsTimeout(s, s.commit.failure.value, o.at) then OperationTimeout
                            else s.commit.failure.value)
      ensures s.fence.failure.None? && s.commit.failure.None? ==>
        (o.result.Success? <==>
           var start := now + s.fence.took;
           Settles(s, start) && s.result.Success? && EndsInTime(s, ArmedAt(s, start) + s.body))
      ensures o.result.Failure? ==> o.result.error != TerminatedByTimeout
      ensures o.result.Failure? && o.at >= endsAt && enforcement == Some(StatementLimits) ==>
        o.result.error != QueryCanceled
    {
      var startedAt := now + s.fence.took;
      if s.fence.failure.Some? {
        var failedAt := startedAt + s.rollback;
        return Outcome(Failure(FailureOf(s.fence.failure.value, failedAt)), failedAt);
      }
      var run := Run(s, startedAt);
      if run.result.Failure? {
        var failedAt := run.at + s.rollback;
        return Outcome(Failure(FailureOf(run.result.error, failedAt)), failedAt);
      }
      var committedAt := run.at + s.commit.took;
      if s.commit.failure.Some? {
        return Outcome(Failure(FailureOf(s.commit.failure.value, committedAt)), committedAt);
      }
      o := Outcome(run.result, committedAt);
    }
  }
}

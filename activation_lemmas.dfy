/** Properties of the activation state machine of module Activation: what
    every run of `registerValidator` (pkg/version1/k8s/validators.go) does,
    whatever the node answers, proved as invariants of `Step` carried
    through `Run`. */
module ActivationLemmas {
  import opened GoBasics
  import opened Config
  import opened Activation

  /** The number of `platform.addValidator` requests in a request log. */
  function Submissions(sent: seq<Request>): nat
  {
    if sent == [] then 0
    else Submissions(sent[..|sent| - 1]) + (if sent[|sent| - 1].AddValidator? then 1 else 0)
  }

  lemma SubmissionsAppend(sent: seq<Request>, r: Request)
    ensures Submissions(sent + [r]) == Submissions(sent) + (if r.AddValidator? then 1 else 0)
  {
    assert (sent + [r])[..|sent|] == sent;
  }

  /** A log without `addValidator` requests counts none. */
  lemma {:induction false} NoSubmissions(sent: seq<Request>)
    requires forall i :: 0 <= i < |sent| ==> !sent[i].AddValidator?
    ensures Submissions(sent) == 0
  {
    if sent != [] {
      NoSubmissions(sent[..|sent| - 1]);
    }
  }

  /** The state right after the keystore setup, when both calls got an answer. */
  function AfterKeystore(id: Identity, script: seq<Observation>): Attempt
    requires |script| >= 2
  {
    var start := script[1].now + PENDING_TIME_OFFSET + SYNC_BOUND;
    Attempt(CheckingActive, 0, start, start + STAKE_DURATION,
            [CreateUser(id.staker.publicAddress, id.password),
             ImportKey(id.staker.publicAddress, id.password, id.staker.privateKey)])
  }

  /** A run whose keystore calls both get an answer enters the retry loop in
      `AfterKeystore`, with the window computed from the clock of the second. */
  lemma RunEntersLoop(id: Identity, script: seq<Observation>)
    requires |script| >= 2 && script[0].reply.Answer? && script[1].reply.Answer?
    ensures Run(id, Initial, script) == Run(id, AfterKeystore(id, script), script[2..])
    ensures AfterKeystore(id, script).endTime == script[1].now + 180 + 2592000
  {
    assert script[0..] == script;
    RunUnfold(id, Initial, script, 0);
    var a := Step(id, Initial, script[0]);
    assert a == Attempt(ImportingKey, 0, 0, 0, [CreateUser(id.staker.publicAddress, id.password)]);
    RunUnfold(id, a, script, 1);
    assert Step(id, a, script[1]) == AfterKeystore(id, script);
  }

  /** The engine only ever appends to its request log, one request per step
      at most. */
  lemma {:induction false} RunExtendsLog(id: Identity, a: Attempt, script: seq<Observation>)
    ensures var final := Run(id, a, script);
      |a.sent| <= |final.sent| <= |a.sent| + |script| && final.sent[..|a.sent|] == a.sent
    decreases |script|
  {
    if !a.phase.Done? && script != [] {
      var b := Step(id, a, script[0]);
      assert |a.sent| <= |b.sent| <= |a.sent| + 1 && b.sent[..|a.sent|] == a.sent;
      RunExtendsLog(id, b, script[1..]);
      var final := Run(id, b, script[1..]);
      assert final.sent[..|a.sent|] == final.sent[..|b.sent|][..|a.sent|];
    }
  }

  // ---------------------------------------------------------------------
  // Keystore setup happens exactly once, before the loop.

  /** `keystore.createUser` is the first request of a log and only the first;
      `platform.importKey` the second and only the second. */
  predicate KeystoreFirst(sent: seq<Request>)
  {
    && (forall i :: 0 <= i < |sent| ==> (sent[i].CreateUser? <==> i == 0))
    && (forall i :: 0 <= i < |sent| ==> (sent[i].ImportKey? <==> i == 1))
  }

  /** The log starts with the keystore setup, and the phase agrees with how
      much of the setup has been sent. */
  predicate KeystoreOnce(a: Attempt)
  {
    && KeystoreFirst(a.sent)
    && (a.phase == CreatingUser ==> a.sent == [])
    && (a.phase == ImportingKey ==> |a.sent| == 1)
    && (!a.phase.Done? && a.phase != CreatingUser && a.phase != ImportingKey ==> |a.sent| >= 2)
  }

  lemma AppendKeepsKeystoreFirst(sent: seq<Request>, r: Request)
    requires KeystoreFirst(sent)
    requires r.CreateUser? <==> |sent| == 0
    requires r.ImportKey? <==> |sent| == 1
    ensures KeystoreFirst(sent + [r])
  {
  }

  lemma StepKeepsKeystoreOnce(id: Identity, a: Attempt, o: Observation)
    requires !a.phase.Done? && KeystoreOnce(a)
    ensures KeystoreOnce(Step(id, a, o))
  {
    var b := Step(id, a, o);
    StepAppendsAtMostOne(id, a, o);
    if b.sent != a.sent {
      var r := b.sent[|a.sent|];
      assert r.CreateUser? <==> |a.sent| == 0 by {
        match a.phase {
          case CreatingUser =>
          case ImportingKey =>
          case CheckingActive =>
          case CheckingPending =>
          case Submitting =>
          case PollingStatus(_) =>
          case AwaitingActivation =>
        }
      }
      assert r.ImportKey? <==> |a.sent| == 1 by {
        match a.phase {
          case CreatingUser =>
          case ImportingKey =>
          case CheckingActive =>
          case CheckingPending =>
          case Submitting =>
          case PollingStatus(_) =>
          case AwaitingActivation =>
        }
      }
      AppendKeepsKeystoreFirst(a.sent, r);
    }
    match a.phase {
      case CreatingUser =>
      case ImportingKey =>
      case CheckingActive =>
      case CheckingPending =>
      case Submitting =>
      case PollingStatus(_) =>
      case AwaitingActivation =>
    }
  }

  lemma {:induction false} RunKeepsKeystoreOnce(id: Identity, a: Attempt, script: seq<Observation>)
    requires KeystoreOnce(a)
    ensures KeystoreOnce(Run(id, a, script))
    decreases |script|
  {
    if !a.phase.Done? && script != [] {
      StepKeepsKeystoreOnce(id, a, script[0]);
      RunKeepsKeystoreOnce(id, Step(id, a, script[0]), script[1..]);
    }
  }

  /** Whatever the node answers and however often the loop retries, the
      keystore user is created by the first request only and the key is
      imported by the second only. */
  lemma KeystoreSetUpOnce(id: Identity, script: seq<Observation>)
    ensures var sent := Run(id, Initial, script).sent;
      && (forall i :: 0 <= i < |sent| ==> (sent[i].CreateUser? <==> i == 0))
      && (forall i :: 0 <= i < |sent| ==> (sent[i].ImportKey? <==> i == 1))
  {
    RunKeepsKeystoreOnce(id, Initial, script);
    assert KeystoreFirst(Run(id, Initial, script).sent);
  }

  // ---------------------------------------------------------------------
  // The idempotency guard precedes every submission.

  /** Every `addValidator` directly follows a `getCurrentValidators` and a
      `getPendingValidators`. The log holds requests only; that both replies
      left the node out follows from `Step`, which submits only then (see
      `ActiveNodeReturnsAtGuard` and `PendingNeverSubmits`). */
  predicate GuardedSubmissions(a: Attempt)
  {
    && (forall i :: 0 <= i < |a.sent| && a.sent[i].AddValidator? ==>
          2 <= i && a.sent[i - 2] == GetCurrentValidators && a.sent[i - 1] == GetPendingValidators)
    && (a.phase == CheckingPending ==> |a.sent| >= 1 && a.sent[|a.sent| - 1] == GetCurrentValidators)
    && (a.phase == Submitting ==>
          |a.sent| >= 2 && a.sent[|a.sent| - 2] == GetCurrentValidators && a.sent[|a.sent| - 1] == GetPendingValidators)
  }

  /** Appending a request keeps every submission guarded if the request is
      not a submission or follows both halves of the guard. */
  lemma AppendKeepsGuarded(sent: seq<Request>, r: Request)
    requires forall i :: 0 <= i < |sent| && sent[i].AddValidator? ==>
               2 <= i && sent[i - 2] == GetCurrentValidators && sent[i - 1] == GetPendingValidators
    requires r.AddValidator? ==>
               |sent| >= 2 && sent[|sent| - 2] == GetCurrentValidators && sent[|sent| - 1] == GetPendingValidators
    ensures var s := sent + [r];
      forall i :: 0 <= i < |s| && s[i].AddValidator? ==>
        2 <= i && s[i - 2] == GetCurrentValidators && s[i - 1] == GetPendingValidators
  {
  }

  lemma StepKeepsGuardedSubmissions(id: Identity, a: Attempt, o: Observation)
    requires !a.phase.Done? && GuardedSubmissions(a)
    ensures GuardedSubmissions(Step(id, a, o))
  {
    var b := Step(id, a, o);
    StepAppendsAtMostOne(id, a, o);
    if b.sent != a.sent {
      AppendKeepsGuarded(a.sent, b.sent[|a.sent|]);
    }
    match a.phase {
      case CreatingUser =>
      case ImportingKey =>
      case CheckingActive =>
      case CheckingPending =>
      case Submitting =>
      case PollingStatus(_) =>
      case AwaitingActivation =>
    }
  }

  lemma {:induction false} RunKeepsGuardedSubmissions(id: Identity, a: Attempt, script: seq<Observation>)
    requires GuardedSubmissions(a)
    ensures GuardedSubmissions(Run(id, a, script))
    decreases |script|
  {
    if !a.phase.Done? && script != [] {
      StepKeepsGuardedSubmissions(id, a, script[0]);
      RunKeepsGuardedSubmissions(id, Step(id, a, script[0]), script[1..]);
    }
  }

  /** Every submission in a run directly follows both halves of the guard. */
  lemma GuardPrecedesSubmission(id: Identity, script: seq<Observation>)
    ensures var sent := Run(id, Initial, script).sent;
      forall i :: 0 <= i < |sent| && sent[i].AddValidator? ==>
        2 <= i && sent[i - 2] == GetCurrentValidators && sent[i - 1] == GetPendingValidators
  {
    RunKeepsGuardedSubmissions(id, Initial, script);
  }

  // ---------------------------------------------------------------------
  // Already active or already pending: no submission.

  /** A guard that finds the node active ends the call successfully; the only
      request sent is the `getCurrentValidators` that found it. */
  lemma ActiveNodeReturnsAtGuard(id: Identity, a: Attempt, script: seq<Observation>)
    requires a.phase == CheckingActive && |script| >= 1
    requires script[0].reply.Answer? && Lists(script[0].reply.body, id.staker.nodeID)
    ensures Run(id, a, script)
         == a.(phase := Done(Registered), attempts := a.attempts + 1, sent := a.sent + [GetCurrentValidators])
  {
    assert script[0..] == script;
    RunUnfold(id, a, script, 0);
  }

  /** From the activation wait the engine only ever asks for the current
      validator set again. */
  lemma {:induction false} AwaitingOnlyPolls(id: Identity, a: Attempt, script: seq<Observation>)
    requires a.phase == AwaitingActivation
    ensures var final := Run(id, a, script);
      && final.attempts == a.attempts
      && |a.sent| <= |final.sent| && final.sent[..|a.sent|] == a.sent
      && (forall i :: |a.sent| <= i < |final.sent| ==> final.sent[i] == GetCurrentValidators)
      && (OutcomeOf(final).Failed? ==>
            OutcomeOf(final).failure.Transport? || OutcomeOf(final).failure.ActivationWaitCancelled?)
    decreases |script|
  {
    if script != [] {
      var b := Step(id, a, script[0]);
      if !b.phase.Done? {
        AwaitingOnlyPolls(id, b, script[1..]);
      }
    }
  }

  /** A node already active at the first guard is never submitted: the call
      sends the keystore setup and one `getCurrentValidators`, and succeeds. */
  lemma {:induction false} AlreadyActiveNeverSubmits(id: Identity, script: seq<Observation>)
    requires |script| >= 3 && script[0].reply.Answer? && script[1].reply.Answer?
    requires script[2].reply.Answer? && Lists(script[2].reply.body, id.staker.nodeID)
    ensures var final := Run(id, Initial, script);
      && OutcomeOf(final) == Registered
      && final.attempts == 1
      && final.sent == AfterKeystore(id, script).sent + [GetCurrentValidators]
      && Submissions(final.sent) == 0
  {
    RunEntersLoop(id, script);
    ActiveNodeReturnsAtGuard(id, AfterKeystore(id, script), script[2..]);
    var sent := AfterKeystore(id, script).sent + [GetCurrentValidators];
    NoSubmissions(sent);
  }

  /** A node found pending at the first guard is never submitted: the call
      goes straight to the activation wait, and only that wait can fail it. */
  lemma {:induction false} PendingNeverSubmits(id: Identity, script: seq<Observation>)
    requires |script| >= 4 && script[0].reply.Answer? && script[1].reply.Answer?
    requires script[2].reply.Answer? && !Lists(script[2].reply.body, id.staker.nodeID)
    requires script[3].reply.Answer? && Lists(script[3].reply.body, id.staker.nodeID)
    ensures var final := Run(id, Initial, script);
      && final.attempts == 1
      && Submissions(final.sent) == 0
      && (OutcomeOf(final).Failed? ==>
            OutcomeOf(final).failure.Transport? || OutcomeOf(final).failure.ActivationWaitCancelled?)
  {
    RunEntersLoop(id, script);
    var a := AfterKeystore(id, script);
    var rest := script[2..];
    RunUnfold(id, a, rest, 0);
    var b := Step(id, a, rest[0]);
    RunUnfold(id, b, rest, 1);
    var c := Step(id, b, rest[1]);
    assert c.phase == AwaitingActivation;
    assert c.sent == a.sent + [GetCurrentValidators, GetPendingValidators];
    AwaitingOnlyPolls(id, c, rest[2..]);
    var final := Run(id, c, rest[2..]);
    assert forall i :: 0 <= i < |final.sent| ==> !final.sent[i].AddValidator? by {
      forall i | 0 <= i < |final.sent|
        ensures !final.sent[i].AddValidator?
      {
        if i < |c.sent| {
          assert final.sent[i] == final.sent[..|c.sent|][i];
        }
      }
    }
    NoSubmissions(final.sent);
  }

  // ---------------------------------------------------------------------
  // The staking window.

  /** Every submission in the log carries endTime and a start time between
      endTime minus the stake duration and start, in non-decreasing order. */
  predicate SubmissionsWithin(sent: seq<Request>, endTime: int, start: int)
  {
    && (forall i :: 0 <= i < |sent| && sent[i].AddValidator? ==>
          sent[i].endTime == endTime && endTime - STAKE_DURATION <= sent[i].startTime <= start)
    && (forall i, j :: 0 <= i < j < |sent| && sent[i].AddValidator? && sent[j].AddValidator? ==>
          sent[i].startTime <= sent[j].startTime)
  }

  /** The end time stays the one computed after the keystore setup; the start
      time never drops below its first value and never decreases; every
      submission carries that end time and a start time no later than the
      current one. */
  predicate WindowKept(a: Attempt, endTime: int)
  {
    && a.endTime == endTime
    && a.startTime >= endTime - STAKE_DURATION
    && SubmissionsWithin(a.sent, endTime, a.startTime)
  }

  /** Appending a request keeps the submissions within the window when the
      start time only grows and a new submission starts between the old and
      the new start time. */
  lemma AppendKeepsWithin(sent: seq<Request>, r: Request, endTime: int, start: int, start': int)
    requires SubmissionsWithin(sent, endTime, start) && start <= start'
    requires r.AddValidator? ==>
               r.endTime == endTime && endTime - STAKE_DURATION <= start <= r.startTime <= start'
    ensures SubmissionsWithin(sent + [r], endTime, start')
  {
  }

  lemma StepKeepsWindow(id: Identity, a: Attempt, o: Observation, endTime: int)
    requires !a.phase.Done? && a.phase != CreatingUser && a.phase != ImportingKey
    requires WindowKept(a, endTime)
    ensures WindowKept(Step(id, a, o), endTime)
  {
    var b := Step(id, a, o);
    StepAppendsAtMostOne(id, a, o);
    assert b.endTime == a.endTime && a.startTime <= b.startTime by {
      match a.phase {
        case CheckingActive =>
        case CheckingPending =>
        case Submitting =>
        case PollingStatus(_) =>
        case AwaitingActivation =>
      }
    }
    var r := if b.sent == a.sent then GetCurrentValidators else b.sent[|a.sent|];
    assert r.AddValidator? ==> r.endTime == endTime && a.startTime <= r.startTime <= b.startTime by {
      match a.phase {
        case CheckingActive =>
        case CheckingPending =>
        case Submitting =>
        case PollingStatus(_) =>
        case AwaitingActivation =>
      }
    }
    AppendKeepsWithin(a.sent, r, endTime, a.startTime, b.startTime);
    if b.sent == a.sent {
      assert SubmissionsWithin(b.sent, endTime, b.startTime) by {
        assert (a.sent + [r])[..|a.sent|] == a.sent;
      }
    }
  }

  lemma {:induction false} RunKeepsWindow(id: Identity, a: Attempt, script: seq<Observation>, endTime: int)
    requires a.phase != CreatingUser && a.phase != ImportingKey
    requires WindowKept(a, endTime)
    ensures WindowKept(Run(id, a, script), endTime)
    decreases |script|
  {
    if !a.phase.Done? && script != [] {
      StepKeepsWindow(id, a, script[0], endTime);
      var b := Step(id, a, script[0]);
      assert b.phase != CreatingUser && b.phase != ImportingKey;
      RunKeepsWindow(id, b, script[1..], endTime);
    }
  }

  /** Once in the retry loop, every submission of the call carries the same
      end time, 180 s plus 30 days after the clock reading of the key import;
      no submitted start time is earlier than 180 s after that reading; and
      later submissions never start earlier than previous ones. */
  lemma EndTimeFixed(id: Identity, script: seq<Observation>)
    requires |script| >= 2 && script[0].reply.Answer? && script[1].reply.Answer?
    ensures var final := Run(id, Initial, script);
      var endTime := script[1].now + 180 + 2592000;
      && final.endTime == endTime
      && (forall i :: 0 <= i < |final.sent| && final.sent[i].AddValidator? ==>
            final.sent[i].endTime == endTime && final.sent[i].startTime >= script[1].now + 180)
      && (forall i, j :: 0 <= i < j < |final.sent| && final.sent[i].AddValidator? && final.sent[j].AddValidator? ==>
            final.sent[i].startTime <= final.sent[j].startTime)
  {
    RunEntersLoop(id, script);
    var a := AfterKeystore(id, script);
    RunKeepsWindow(id, a, script[2..], a.endTime);
  }

  /** A submission is never dated in the past: its start time is at least the
      clock reading of that step, and the previous start time is kept while it
      still lies ahead. */
  lemma SubmissionNotInPast(id: Identity, a: Attempt, o: Observation)
    requires a.phase == Submitting && !o.cancelled
    ensures var b := Step(id, a, o);
      && |b.sent| == |a.sent| + 1
      && b.sent[|a.sent|].AddValidator?
      && b.sent[|a.sent|].startTime >= o.now
      && b.sent[|a.sent|].endTime == a.endTime
      && (o.now <= a.startTime ==> b.sent[|a.sent|].startTime == a.startTime)
  {
  }

  /** The end time is never refreshed, so a submission made within 180 s of it,
      after the loop has retried for about 30 days, asks for a window whose
      start is not before its end. */
  lemma LateRetryInvertsWindow(id: Identity, a: Attempt, o: Observation)
    requires a.phase == Submitting && !o.cancelled
    requires o.now > a.startTime && o.now + 180 >= a.endTime
    ensures var b := Step(id, a, o);
      b.sent[|a.sent|].startTime >= b.sent[|a.sent|].endTime
  {
  }

  // ---------------------------------------------------------------------
  // The attempt counter.

  /** `count` is incremented at the head of every round, and every round that
      loops back made exactly one submission. */
  predicate AttemptsCounted(a: Attempt)
  {
    var n := Submissions(a.sent);
    match a.phase
    case CreatingUser => a.attempts == n
    case ImportingKey => a.attempts == n
    case CheckingActive => a.attempts == n
    case PollingStatus(_) => a.attempts == n
    case CheckingPending => a.attempts == n + 1
    case Submitting => a.attempts == n + 1
    case AwaitingActivation => n <= a.attempts <= n + 1
    case Done(_) => n <= a.attempts <= n + 1
  }

  /** A step appends at most one request to the log. */
  lemma StepAppendsAtMostOne(id: Identity, a: Attempt, o: Observation)
    requires !a.phase.Done?
    ensures var b := Step(id, a, o);
      b.sent == a.sent || (|b.sent| == |a.sent| + 1 && b.sent == a.sent + [b.sent[|a.sent|]])
  {
  }

  lemma StepKeepsAttemptsCounted(id: Identity, a: Attempt, o: Observation)
    requires !a.phase.Done? && AttemptsCounted(a)
    ensures AttemptsCounted(Step(id, a, o))
  {
    var b := Step(id, a, o);
    StepAppendsAtMostOne(id, a, o);
    if b.sent != a.sent {
      SubmissionsAppend(a.sent, b.sent[|a.sent|]);
    }
    match a.phase {
      case CreatingUser =>
      case ImportingKey =>
      case CheckingActive =>
      case CheckingPending =>
      case Submitting =>
      case PollingStatus(_) =>
      case AwaitingActivation =>
    }
  }

  lemma {:induction false} RunKeepsAttemptsCounted(id: Identity, a: Attempt, script: seq<Observation>)
    requires AttemptsCounted(a)
    ensures AttemptsCounted(Run(id, a, script))
    decreases |script|
  {
    if !a.phase.Done? && script != [] {
      StepKeepsAttemptsCounted(id, a, script[0]);
      RunKeepsAttemptsCounted(id, Step(id, a, script[0]), script[1..]);
    }
  }

  /** The attempt counter of a call is its number of submissions or one
      more. */
  lemma AttemptsMatchSubmissions(id: Identity, script: seq<Observation>)
    ensures var final := Run(id, Initial, script);
      Submissions(final.sent) <= final.attempts <= Submissions(final.sent) + 1
  {
    RunKeepsAttemptsCounted(id, Initial, script);
  }

  // ---------------------------------------------------------------------
  // Cancellation.

  /** How many requests the engine may still send before it next checks the
      context: the keystore setup and the guard do not check it. */
  function RequestsBeforeCheck(p: Phase): nat
  {
    match p
    case CreatingUser => 4
    case ImportingKey => 3
    case CheckingActive => 2
    case CheckingPending => 1
    case _ => 0
  }

  /** Once the context is done, the engine sends at most the requests left
      before its next context check, never submits, and returns as soon as
      the script reaches that check. */
  lemma {:induction false} CancelledRunStops(id: Identity, a: Attempt, script: seq<Observation>)
    requires forall k :: 0 <= k < |script| ==> script[k].cancelled
    ensures var final := Run(id, a, script);
      && |a.sent| <= |final.sent| <= |a.sent| + RequestsBeforeCheck(a.phase)
      && (forall i :: |a.sent| <= i < |final.sent| ==> !final.sent[i].AddValidator?)
      && (|script| > RequestsBeforeCheck(a.phase) ==> final.phase.Done?)
    decreases |script|
  {
    if !a.phase.Done? && script != [] {
      var b := Step(id, a, script[0]);
      assert |a.sent| <= |b.sent| <= |a.sent| + 1;
      assert |b.sent| == |a.sent| + 1 ==> !b.sent[|a.sent|].AddValidator?;
      CancelledRunStops(id, b, script[1..]);
      RunExtendsLog(id, b, script[1..]);
      var final := Run(id, b, script[1..]);
      forall i | |a.sent| <= i < |b.sent|
        ensures !final.sent[i].AddValidator?
      {
        assert final.sent[i] == final.sent[..|b.sent|][i];
      }
    }
  }

  /** Each wait checks the context before its next request and then fails with
      an error naming the node, sending nothing. */
  lemma CancelledWaitFails(id: Identity, a: Attempt, o: Observation)
    requires a.phase == Submitting || a.phase.PollingStatus? || a.phase == AwaitingActivation
    requires o.cancelled
    ensures var b := Step(id, a, o);
      && b.sent == a.sent
      && b.phase.Done? && b.phase.outcome.Failed?
      && b.phase.outcome.failure.nodeID == id.staker.nodeID
  {
  }

  // ---------------------------------------------------------------------
  // Empty transaction IDs and transaction status.

  /** An answer to `addValidator` without a transaction ID loops back to the
      guard when errors are allowed, and otherwise fails naming the node and
      the node's message. */
  lemma EmptyTxID(id: Identity, a: Attempt, o: Observation)
    requires a.phase == Submitting && !o.cancelled && o.reply.Answer? && o.reply.txID == ""
    ensures var b := Step(id, a, o);
      && (id.allowError ==> b.phase == CheckingActive)
      && (!id.allowError ==> b.phase == Done(Failed(AddRejected(id.staker.nodeID, o.reply.message))))
  {
  }

  /** `Committed` proceeds to the activation wait, `Unknown` and `Dropped`
      loop back to the guard, any other status polls again. */
  lemma StatusHandling(id: Identity, a: Attempt, o: Observation)
    requires a.phase.PollingStatus? && !o.cancelled && o.reply.Answer?
    ensures var b := Step(id, a, o);
      && b.sent == a.sent + [GetTxStatus(a.phase.txID)]
      && (o.reply.status == "Committed" ==> b.phase == AwaitingActivation)
      && (o.reply.status in {"Unknown", "Dropped"} ==> b.phase == CheckingActive)
      && (o.reply.status !in {"Committed", "Unknown", "Dropped"} ==> b.phase == a.phase)
      && b.attempts == a.attempts && b.startTime == a.startTime
  {
  }
}

/** The Go functions of pkg/version1/k8s/validators.go, with their loops, each
    proved to behave as the activation state machine of module Activation
    prescribes; and the registration entry point with its bootstrap gate and
    per-staker dispatch. */
module Validators {
  import opened GoBasics
  import opened Config
  import opened Activation

  /** What `verifyStatus` returns: nil, `errNotAddedToMempool`, another
      error; or nothing yet when the script ends first. */
  datatype StatusResult = TxCommitted | TxNotInMempool | TxFailed(failure: Failure) | TxUnfinished

  /** The phase the engine is in after `verifyStatus` returns r. */
  function AfterPolling(r: StatusResult, txID: string): Phase
  {
    match r
    case TxCommitted => AwaitingActivation
    case TxNotInMempool => CheckingActive
    case TxFailed(f) => Done(Failed(f))
    case TxUnfinished => PollingStatus(txID)
  }

  /** `verifyStatus`: poll `platform.getTxStatus` until the transaction is
      committed, reported Unknown/Dropped, an error occurs or the context is
      done. */
  method VerifyStatus(id: Identity, txID: string, script: seq<Observation>, pos: nat,
                      sent0: seq<Request>, ghost attempts: nat, ghost startTime: int, ghost endTime: int)
    returns (r: StatusResult, next: nat, sent: seq<Request>)
    requires pos <= |script|
    ensures pos <= next <= |script|
    ensures r.TxUnfinished? ==> next == |script|
    ensures !r.TxUnfinished? ==> next > pos
    ensures Run(id, Attempt(PollingStatus(txID), attempts, startTime, endTime, sent0), script[pos..])
         == Run(id, Attempt(AfterPolling(r, txID), attempts, startTime, endTime, sent), script[next..])
  {
    next, sent := pos, sent0;
    while true
      invariant pos <= next <= |script|
      invariant Run(id, Attempt(PollingStatus(txID), attempts, startTime, endTime, sent0), script[pos..])
             == Run(id, Attempt(PollingStatus(txID), attempts, startTime, endTime, sent), script[next..])
      decreases |script| - next
    {
      if next == |script| {
        r := TxUnfinished;
        return;
      }
      var o := script[next];
      RunUnfold(id, Attempt(PollingStatus(txID), attempts, startTime, endTime, sent), script, next);
      next := next + 1;
      if o.cancelled {
        r := TxFailed(StatusWaitCancelled(id.staker.nodeID));
        return;
      }
      sent := sent + [GetTxStatus(txID)];
      if o.reply.Unreachable? {
        r := TxFailed(Transport(o.reply.reason));
        return;
      }
      var status := o.reply.status;
      if status == "Committed" {
        r := TxCommitted;
        return;
      } else if status == "Unknown" || status == "Dropped" {
        r := TxNotInMempool;
        return;
      }
    }
  }

  /** `waitForValidatorToBecomeActive`: poll the current validator set until
      it lists the node, an error occurs or the context is done. */
  method WaitForValidatorToBecomeActive(id: Identity, script: seq<Observation>, pos: nat,
                                        sent0: seq<Request>, ghost attempts: nat, ghost startTime: int, ghost endTime: int)
    returns (outcome: Outcome, next: nat, sent: seq<Request>)
    requires pos <= |script|
    ensures pos <= next <= |script|
    ensures outcome.Unfinished? ==> next == |script|
    ensures Run(id, Attempt(AwaitingActivation, attempts, startTime, endTime, sent0), script[pos..])
         == Run(id, Attempt(if outcome.Unfinished? then AwaitingActivation else Done(outcome),
                            attempts, startTime, endTime, sent), script[next..])
  {
    next, sent := pos, sent0;
    while true
      invariant pos <= next <= |script|
      invariant Run(id, Attempt(AwaitingActivation, attempts, startTime, endTime, sent0), script[pos..])
             == Run(id, Attempt(AwaitingActivation, attempts, startTime, endTime, sent), script[next..])
      decreases |script| - next
    {
      if next == |script| {
        outcome := Unfinished;
        return;
      }
      var o := script[next];
      RunUnfold(id, Attempt(AwaitingActivation, attempts, startTime, endTime, sent), script, next);
      next := next + 1;
      if o.cancelled {
        outcome := Failed(ActivationWaitCancelled(id.staker.nodeID));
        return;
      }
      sent := sent + [GetCurrentValidators];
      if o.reply.Unreachable? {
        outcome := Failed(Transport(o.reply.reason));
        return;
      }
      if Lists(o.reply.body, id.staker.nodeID) {
        outcome := Registered;
        return;
      }
    }
  }

  /** What the idempotency guard found: the node in the current set, in the
      pending set, in neither, an error; or nothing yet when the script ends. */
  datatype GuardResult = GuardActive | GuardPending | GuardAbsent | GuardFailed(failure: Failure) | GuardUnfinished

  function AfterGuard(r: GuardResult): Phase
    requires !r.GuardUnfinished?
  {
    match r
    case GuardActive => Done(Registered)
    case GuardPending => AwaitingActivation
    case GuardAbsent => Submitting
    case GuardFailed(f) => Done(Failed(f))
  }

  /** The head of each round of `registerValidator`: count the attempt, then
      `isActiveValidator` and, if the node is not active, `isPendingValidator`. */
  method CheckGuard(id: Identity, script: seq<Observation>, pos: nat, sent0: seq<Request>,
                    attempts0: nat, ghost startTime: int, ghost endTime: int)
    returns (r: GuardResult, next: nat, sent: seq<Request>, attempts: nat, ghost after: Phase)
    requires pos <= |script|
    ensures pos <= next <= |script|
    ensures r.GuardUnfinished? ==> next == |script| && !after.Done?
    ensures !r.GuardUnfinished? ==> next > pos
    ensures !r.GuardUnfinished? ==> after == AfterGuard(r)
    ensures Run(id, Attempt(CheckingActive, attempts0, startTime, endTime, sent0), script[pos..])
         == Run(id, Attempt(after, attempts, startTime, endTime, sent), script[next..])
  {
    var nodeID := id.staker.nodeID;
    next, sent, attempts, after := pos, sent0, attempts0, CheckingActive;
    if next == |script| {
      r := GuardUnfinished;
      return;
    }
    RunUnfold(id, Attempt(CheckingActive, attempts, startTime, endTime, sent), script, next);
    attempts := attempts + 1;
    var o := script[next];
    next := next + 1;
    sent := sent + [GetCurrentValidators];
    if o.reply.Unreachable? {
      r := GuardFailed(Transport(o.reply.reason));
      after := AfterGuard(r);
      return;
    }
    if Lists(o.reply.body, nodeID) {
      r, after := GuardActive, Done(Registered);
      return;
    }
    after := CheckingPending;
    if next == |script| {
      r := GuardUnfinished;
      return;
    }
    RunUnfold(id, Attempt(CheckingPending, attempts, startTime, endTime, sent), script, next);
    o := script[next];
    next := next + 1;
    sent := sent + [GetPendingValidators];
    if o.reply.Unreachable? {
      r := GuardFailed(Transport(o.reply.reason));
    } else if Lists(o.reply.body, nodeID) {
      r := GuardPending;
    } else {
      r := GuardAbsent;
    }
    after := AfterGuard(r);
  }

  /** What one `addValidator` submission led to: a transaction to poll, a
      retry of the whole round (empty ID while errors are allowed), an error;
      or nothing yet when the script ends. */
  datatype SubmitResult = Submitted(txID: string) | Retry | SubmitFailed(failure: Failure) | SubmitUnfinished

  function AfterSubmit(r: SubmitResult): Phase
    requires !r.SubmitUnfinished?
  {
    match r
    case Submitted(txID) => PollingStatus(txID)
    case Retry => CheckingActive
    case SubmitFailed(f) => Done(Failed(f))
  }

  /** The context check, the start-time refresh and the `addValidator` call. */
  method SubmitValidator(id: Identity, script: seq<Observation>, pos: nat, sent0: seq<Request>,
                         ghost attempts: nat, startTime0: int, endTime: int)
    returns (r: SubmitResult, next: nat, sent: seq<Request>, startTime: int)
    requires pos <= |script|
    ensures pos <= next <= |script|
    ensures startTime >= startTime0
    ensures r.SubmitUnfinished? ==> next == |script| && sent == sent0 && startTime == startTime0
    ensures !r.SubmitUnfinished? ==> next == pos + 1
    ensures Run(id, Attempt(Submitting, attempts, startTime0, endTime, sent0), script[pos..])
         == Run(id, Attempt(if r.SubmitUnfinished? then Submitting else AfterSubmit(r),
                            attempts, startTime, endTime, sent), script[next..])
  {
    var nodeID := id.staker.nodeID;
    next, sent, startTime := pos, sent0, startTime0;
    if next == |script| {
      r := SubmitUnfinished;
      return;
    }
    RunUnfold(id, Attempt(Submitting, attempts, startTime, endTime, sent), script, next);
    var o := script[next];
    next := next + 1;
    if o.cancelled {
      r := SubmitFailed(AddCancelled(nodeID));
      return;
    }
    if o.now > startTime {
      startTime := o.now + PENDING_TIME_OFFSET + SYNC_BOUND;
    }
    sent := sent + [AddValidator(nodeID, startTime, endTime, id.staker.stake, id.rewardAddress,
                                 DELEGATION_FEE_RATE, id.staker.publicAddress, id.password)];
    if o.reply.Unreachable? {
      r := SubmitFailed(Transport(o.reply.reason));
    } else if o.reply.txID == "" {
      r := if id.allowError then Retry else SubmitFailed(AddRejected(nodeID, o.reply.message));
    } else {
      r := Submitted(o.reply.txID);
    }
  }

  /** `registerValidator`: keystore setup once, then rounds of guard, submit,
      poll and wait. Returns what the source returns, every request it sent
      and its attempt counter, all as the state machine prescribes. */
  method RegisterValidator(staker: Staker, password: string, allowError: bool, script: seq<Observation>)
    returns (outcome: Outcome, sent: seq<Request>, attempts: nat)
    requires '-' in staker.publicAddress
    ensures var final := Run(IdentityOf(staker, password, allowError), Initial, script);
            outcome == OutcomeOf(final) && sent == final.sent && attempts == final.attempts
  {
    var id := IdentityOf(staker, password, allowError);
    var username := staker.publicAddress;
    sent, attempts := [], 0;
    assert script[0..] == script;
    assert script[|script|..] == [];

    // keystore.createUser
    if |script| == 0 {
      outcome := Unfinished;
      return;
    }
    RunUnfold(id, Initial, script, 0);
    sent := sent + [CreateUser(username, password)];
    if script[0].reply.Unreachable? {
      outcome := Failed(Transport(script[0].reply.reason));
      return;
    }

    // platform.importKey
    if |script| == 1 {
      outcome := Unfinished;
      return;
    }
    RunUnfold(id, Attempt(ImportingKey, 0, 0, 0, sent), script, 1);
    sent := sent + [ImportKey(username, password, staker.privateKey)];
    if script[1].reply.Unreachable? {
      outcome := Failed(Transport(script[1].reply.reason));
      return;
    }

    var startTime := script[1].now + PENDING_TIME_OFFSET + SYNC_BOUND;
    var endTime := startTime + STAKE_DURATION;
    var pos := 2;

    while true
      invariant 2 <= pos <= |script|
      invariant Run(id, Initial, script)
             == Run(id, Attempt(CheckingActive, attempts, startTime, endTime, sent), script[pos..])
      decreases |script| - pos
    {
      var guard;
      ghost var after;
      ghost var pos0 := pos;
      guard, pos, sent, attempts, after := CheckGuard(id, script, pos, sent, attempts, startTime, endTime);
      match guard
      case GuardUnfinished =>
        outcome := Unfinished;
        return;
      case GuardFailed(f) =>
        outcome := Failed(f);
        return;
      case GuardActive =>
        outcome := Registered;
        return;
      case GuardPending =>
        outcome, pos, sent := WaitForValidatorToBecomeActive(id, script, pos, sent, attempts, startTime, endTime);
        return;
      case GuardAbsent =>

      var submitted;
      submitted, pos, sent, startTime := SubmitValidator(id, script, pos, sent, attempts, startTime, endTime);
      match submitted
      case SubmitUnfinished =>
        outcome := Unfinished;
        return;
      case SubmitFailed(f) =>
        outcome := Failed(f);
        return;
      case Retry =>
        continue;
      case Submitted(txID) =>

      var status;
      status, pos, sent := VerifyStatus(id, txID, script, pos, sent, attempts, startTime, endTime);
      match status
      case TxNotInMempool =>
        continue;
      case TxFailed(f) =>
        outcome := Failed(f);
        return;
      case TxUnfinished =>
        outcome := Unfinished;
        return;
      case TxCommitted =>
        outcome, pos, sent := WaitForValidatorToBecomeActive(id, script, pos, sent, attempts, startTime, endTime);
        return;
    }
  }

  /** What the bootstrap gate of `RegisterValidators` came to: the root node
      reported itself bootstrapped; a reply without a `result` object made
      `isBootstrapped` panic; or every reply so far said "not yet". */
  datatype GateStatus = GateOpen | GateCrashed | GateWaiting

  /** The gate decided by the first reply that is not "not yet". */
  function GateOf(replies: seq<InfoReply>): (g: GateStatus)
    ensures g == GateWaiting <==> forall i :: 0 <= i < |replies| ==> IsBootstrapped(replies[i]) == NotBootstrapped
    ensures g == GateOpen ==> exists i :: 0 <= i < |replies| && IsBootstrapped(replies[i]) == Bootstrapped
    ensures g == GateCrashed ==> exists i :: 0 <= i < |replies| && IsBootstrapped(replies[i]) == Panics
  {
    if replies == [] then GateWaiting
    else match IsBootstrapped(replies[0])
      case Bootstrapped => GateOpen
      case Panics => GateCrashed
      case NotBootstrapped => GateOf(replies[1..])
  }

  /** The loop of `RegisterValidators` that polls `isBootstrapped` until it
      returns nil. */
  method AwaitBootstrap(replies: seq<InfoReply>) returns (gate: GateStatus, polls: nat)
    ensures gate == GateOf(replies)
    ensures polls <= |replies|
    ensures forall i :: 0 <= i < polls - 1 ==> IsBootstrapped(replies[i]) == NotBootstrapped
    ensures gate == GateOpen ==> 0 < polls && IsBootstrapped(replies[polls - 1]) == Bootstrapped
    ensures gate == GateCrashed ==> 0 < polls && IsBootstrapped(replies[polls - 1]) == Panics
    ensures gate == GateWaiting ==>
      polls == |replies| && forall i :: 0 <= i < |replies| ==> IsBootstrapped(replies[i]) == NotBootstrapped
  {
    polls := 0;
    while polls < |replies|
      invariant polls <= |replies|
      invariant forall i :: 0 <= i < polls ==> IsBootstrapped(replies[i]) == NotBootstrapped
      invariant GateOf(replies) == GateOf(replies[polls..])
    {
      assert replies[polls..][1..] == replies[polls + 1..];
      var check := IsBootstrapped(replies[polls]);
      polls := polls + 1;
      if check == Bootstrapped {
        gate := GateOpen;
        return;
      } else if check == Panics {
        gate := GateCrashed;
        return;
      }
    }
    gate := GateWaiting;
  }

  /** What `registerValidator` returns for one staker, per the state machine. */
  function StakerOutcome(staker: Staker, password: string, allowError: bool, script: seq<Observation>): Outcome
    requires '-' in staker.publicAddress
  {
    OutcomeOf(Run(IdentityOf(staker, password, allowError), Initial, script))
  }

  /** The first error among finished runs, in staker order. */
  function FirstFailure(outcomes: seq<Outcome>): (r: Outcome)
    requires Unfinished !in outcomes
    ensures r == Registered <==> forall i :: 0 <= i < |outcomes| ==> outcomes[i] == Registered
    ensures r.Failed? ==>
      exists i :: 0 <= i < |outcomes| && outcomes[i] == r && forall j :: 0 <= j < i ==> outcomes[j] == Registered
    ensures !r.Unfinished?
  {
    if outcomes == [] then Registered
    else if outcomes[0].Failed? then outcomes[0]
    else
      var rest := FirstFailure(outcomes[1..]);
      assert forall i :: 0 < i < |outcomes| ==> outcomes[i] == outcomes[1..][i - 1];
      rest
  }

  /** `g.Wait()` over runs taken one at a time: it returns only once every
      run has returned, and then the first error, or nil. */
  function Aggregate(outcomes: seq<Outcome>): (r: Outcome)
    ensures r == Unfinished <==> Unfinished in outcomes
    ensures r == Registered <==> forall i :: 0 <= i < |outcomes| ==> outcomes[i] == Registered
    ensures r.Failed? ==>
      exists i :: 0 <= i < |outcomes| && outcomes[i] == r && forall j :: 0 <= j < i ==> outcomes[j] == Registered
  {
    if Unfinished in outcomes then Unfinished else FirstFailure(outcomes)
  }

  /** What `RegisterValidators` came to. */
  datatype Registration = NeverBootstrapped | GatePanicked | Dispatched(outcome: Outcome)

  /** `RegisterValidators` past the port-forward setup: wait for the root node
      to bootstrap, and only then run `registerValidator` for every staker,
      in order, and return the errgroup's verdict. */
  method RegisterValidators(boot: seq<InfoReply>, stakers: seq<Staker>, passwords: seq<string>,
                            allowError: bool, scripts: seq<seq<Observation>>)
    returns (r: Registration, outcomes: seq<Outcome>)
    requires |passwords| == |stakers| && |scripts| == |stakers|
    requires forall i :: 0 <= i < |stakers| ==> '-' in stakers[i].publicAddress
    ensures GateOf(boot) == GateWaiting ==> r == NeverBootstrapped && outcomes == []
    ensures GateOf(boot) == GateCrashed ==> r == GatePanicked && outcomes == []
    ensures GateOf(boot) == GateOpen ==>
      && |outcomes| == |stakers|
      && (forall i :: 0 <= i < |stakers| ==>
            outcomes[i] == StakerOutcome(stakers[i], passwords[i], allowError, scripts[i]))
      && r == Dispatched(Aggregate(outcomes))
  {
    var gate, _ := AwaitBootstrap(boot);
    outcomes := [];
    if gate == GateWaiting {
      r := NeverBootstrapped;
      return;
    } else if gate == GateCrashed {
      r := GatePanicked;
      return;
    }
    var k := 0;
    while k < |stakers|
      invariant k <= |stakers| && |outcomes| == k
      invariant forall i :: 0 <= i < k ==>
        outcomes[i] == StakerOutcome(stakers[i], passwords[i], allowError, scripts[i])
    {
      var outcome, _, _ := RegisterValidator(stakers[k], passwords[k], allowError, scripts[k]);
      outcomes := outcomes + [outcome];
      k := k + 1;
    }
    r := Dispatched(Aggregate(outcomes));
  }
}

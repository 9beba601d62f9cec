/** The validator activation state machine of pkg/version1/k8s/validators.go
    (`registerValidator` with `verifyStatus` and
    `waitForValidatorToBecomeActive`), stated as a step function over the
    bootstrap node's answers.

    The node is seen only through its answers: each request the engine sends
    consumes one `Observation`, which also carries the clock reading and the
    state of the run's cancellation context at that moment. A run is the
    engine applied to a finite script of observations; if the script ends
    before the engine does, the run is `Unfinished`. */
module Activation {
  import opened GoBasics
  import opened Config

  /** `DEFAULT_PENDING_TIME_OFFSET` (2 minutes) and `SYNC_BOUND` (1 minute), in seconds. */
  const PENDING_TIME_OFFSET: int := 120
  const SYNC_BOUND: int := 60
  /** `day * 30`, in seconds. */
  const STAKE_DURATION: int := 30 * 86400
  const DELEGATION_FEE_RATE: int := 10

  /** What one HTTP exchange with the node yields: a failure of the POST, of
      reading the body or of decoding it; or the raw body together with the
      `result.txID`, `result.status` and `error.message` fields decoded from it. */
  datatype Reply =
    | Unreachable(reason: string)
    | Answer(body: string, txID: string, status: string, message: string)

  /** One step of the world as the engine sees it: the Unix time it reads
      during the step, whether the run's context is done when it checks, and
      the node's reply to the request of that step. */
  datatype Observation = Observation(now: int, cancelled: bool, reply: Reply)

  /** The JSON-RPC requests the engine sends, with their parameters. */
  datatype Request =
    | CreateUser(username: string, password: string)
    | ImportKey(username: string, password: string, privateKey: string)
    | GetCurrentValidators
    | GetPendingValidators
    | AddValidator(nodeID: string, startTime: int, endTime: int, stakeAmount: uint64,
                   rewardAddress: string, delegationFeeRate: int, username: string, password: string)
    | GetTxStatus(txID: string)

  /** The errors `registerValidator` returns. Each one raised by the engine
      itself names the node ID. */
  datatype Failure =
    | Transport(reason: string)                   // returned unchanged from the HTTP layer
    | AddRejected(nodeID: string, message: string)  // "failed to add validator %s - Reason: %s"
    | AddCancelled(nodeID: string)                  // "could not add %s as a validator"
    | StatusWaitCancelled(nodeID: string)           // "could not wait for validator %s"
    | ActivationWaitCancelled(nodeID: string)       // "... %s to become active"

  datatype Outcome = Registered | Failed(failure: Failure) | Unfinished

  /** The per-call constants for a staker. */
  function IdentityOf(staker: Staker, password: string, allowError: bool): (id: Identity)
    requires '-' in staker.publicAddress
    ensures id.staker == staker && id.rewardAddress == RewardAddress(staker.publicAddress)
  {
    Identity(staker, password, RewardAddress(staker.publicAddress), allowError)
  }

  /** Where the engine is: which request it sends next, or that it returned. */
  datatype Phase =
    | CreatingUser
    | ImportingKey
    | CheckingActive          // the idempotency guard, first half
    | CheckingPending         // the idempotency guard, second half
    | Submitting
    | PollingStatus(txID: string)
    | AwaitingActivation
    | Done(outcome: Outcome)

  /** What stays fixed during one call: the staker, its keystore password
      (the hex SHA-1 digest of its public address, computed outside the
      model), its reward address and the run's allowError flag. */
  datatype Identity = Identity(staker: Staker, password: string, rewardAddress: string, allowError: bool)

  /** The per-call state: phase, attempt counter, the staking window in Unix
      seconds, and every request sent so far. */
  datatype Attempt = Attempt(phase: Phase, attempts: nat, startTime: int, endTime: int, sent: seq<Request>)

  const Initial: Attempt := Attempt(CreatingUser, 0, 0, 0, [])

  /** `fmt.Sprintf("P-%s", strings.Split(addr, "-")[1])`; the index panics
      when the address has no dash. */
  function RewardAddress(publicAddress: string): string
    requires '-' in publicAddress
  {
    "P-" + Split(publicAddress, '-')[1]
  }

  /** For an address made of a chain alias, one dash and a dash-free rest,
      the reward address is the same rest on the P-chain. */
  lemma RewardAddressOf(chain: string, rest: string)
    requires '-' !in chain && '-' !in rest
    ensures '-' in chain + "-" + rest
    ensures RewardAddress(chain + "-" + rest) == "P-" + rest
  {
    var addr := chain + "-" + rest;
    assert addr[|chain|] == '-';
    assert Join([chain, rest], '-') == addr;
    SplitJoin([chain, rest], '-');
  }

  /** `isActiveValidator` / `isPendingValidator`: the node ID occurs anywhere
      in the body returned for the validator set. */
  predicate Lists(body: string, nodeID: string)
  {
    Contains(body, nodeID)
  }

  /** How `verifyStatus` reads one `result.status`. */
  datatype TxVerdict = Accepted | NotInMempool | StillPending

  function ClassifyStatus(status: string): (v: TxVerdict)
    ensures v == Accepted <==> status == "Committed"
    ensures v == NotInMempool <==> status == "Unknown" || status == "Dropped"
  {
    if status == "Committed" then Accepted
    else if status == "Unknown" || status == "Dropped" then NotInMempool
    else StillPending
  }

  /** The `addValidator` request for the current window. */
  function Submission(id: Identity, startTime: int, endTime: int): Request
  {
    AddValidator(id.staker.nodeID, startTime, endTime, id.staker.stake, id.rewardAddress,
                 DELEGATION_FEE_RATE, id.staker.publicAddress, id.password)
  }

  /** The start time used for a submission at clock `now`: kept unless it has
      already passed, then moved to now plus the pending offset and sync bound. */
  function RefreshedStart(startTime: int, now: int): (r: int)
    ensures r >= now && r >= startTime
    ensures now <= startTime ==> r == startTime
    ensures now > startTime ==> r == now + PENDING_TIME_OFFSET + SYNC_BOUND
  {
    if now > startTime then now + PENDING_TIME_OFFSET + SYNC_BOUND else startTime
  }

  function Fail(a: Attempt, sent: seq<Request>, f: Failure): Attempt
  {
    a.(phase := Done(Failed(f)), sent := sent)
  }

  /** One step of `registerValidator`: send the request the phase calls for
      (after the context check, where the source has one) and act on the reply. */
  function Step(id: Identity, a: Attempt, o: Observation): Attempt
    requires !a.phase.Done?
  {
    var nodeID := id.staker.nodeID;
    var user := id.staker.publicAddress;
    match a.phase
    case CreatingUser =>
      var sent := a.sent + [CreateUser(user, id.password)];
      if o.reply.Unreachable? then Fail(a, sent, Transport(o.reply.reason))
      else a.(phase := ImportingKey, sent := sent)
    case ImportingKey =>
      var sent := a.sent + [ImportKey(user, id.password, id.staker.privateKey)];
      if o.reply.Unreachable? then Fail(a, sent, Transport(o.reply.reason))
      else
        var start := o.now + PENDING_TIME_OFFSET + SYNC_BOUND;
        Attempt(CheckingActive, a.attempts, start, start + STAKE_DURATION, sent)
    case CheckingActive =>
      var sent := a.sent + [GetCurrentValidators];
      var b := a.(attempts := a.attempts + 1);
      if o.reply.Unreachable? then Fail(b, sent, Transport(o.reply.reason))
      else if Lists(o.reply.body, nodeID) then b.(phase := Done(Registered), sent := sent)
      else b.(phase := CheckingPending, sent := sent)
    case CheckingPending =>
      var sent := a.sent + [GetPendingValidators];
      if o.reply.Unreachable? then Fail(a, sent, Transport(o.reply.reason))
      else if Lists(o.reply.body, nodeID) then a.(phase := AwaitingActivation, sent := sent)
      else a.(phase := Submitting, sent := sent)
    case Submitting =>
      if o.cancelled then Fail(a, a.sent, AddCancelled(nodeID))
      else
        var start := RefreshedStart(a.startTime, o.now);
        var sent := a.sent + [Submission(id, start, a.endTime)];
        var b := a.(startTime := start);
        if o.reply.Unreachable? then Fail(b, sent, Transport(o.reply.reason))
        else if o.reply.txID == "" then
          if id.allowError then b.(phase := CheckingActive, sent := sent)
          else Fail(b, sent, AddRejected(nodeID, o.reply.message))
        else b.(phase := PollingStatus(o.reply.txID), sent := sent)
    case PollingStatus(txID) =>
      if o.cancelled then Fail(a, a.sent, StatusWaitCancelled(nodeID))
      else
        var sent := a.sent + [GetTxStatus(txID)];
        if o.reply.Unreachable? then Fail(a, sent, Transport(o.reply.reason))
        else (match ClassifyStatus(o.reply.status)
          case Accepted => a.(phase := AwaitingActivation, sent := sent)
          case NotInMempool => a.(phase := CheckingActive, sent := sent)
          case StillPending => a.(sent := sent))
    case AwaitingActivation =>
      if o.cancelled then Fail(a, a.sent, ActivationWaitCancelled(nodeID))
      else
        var sent := a.sent + [GetCurrentValidators];
        if o.reply.Unreachable? then Fail(a, sent, Transport(o.reply.reason))
        else if Lists(o.reply.body, nodeID) then a.(phase := Done(Registered), sent := sent)
        else a.(sent := sent)
  }

  /** The engine driven by a script of observations, until it returns or the
      script ends. */
  function Run(id: Identity, a: Attempt, script: seq<Observation>): Attempt
    decreases |script|
  {
    if a.phase.Done? || script == [] then a
    else Run(id, Step(id, a, script[0]), script[1..])
  }

  /** What `registerValidator` returned, or Unfinished if it had not yet. */
  function OutcomeOf(a: Attempt): Outcome
  {
    if a.phase.Done? then a.phase.outcome else Unfinished
  }

  /** One observation consumed from position pos of the script. */
  lemma RunUnfold(id: Identity, a: Attempt, script: seq<Observation>, pos: nat)
    requires pos < |script| && !a.phase.Done?
    ensures Run(id, a, script[pos..]) == Run(id, Step(id, a, script[pos]), script[pos + 1..])
  {
    assert script[pos..][0] == script[pos];
    assert script[pos..][1..] == script[pos + 1..];
  }

  /** The result of `info.isBootstrapped`, as decoded by `isBootstrapped`: the
      POST or read failed; or the body decoded (decoding errors are ignored)
      with or without a `result` object, and the value of its
      `isBootstrapped` field if it is a boolean. */
  datatype InfoReply =
    | InfoUnreachable(reason: string)
    | InfoAnswer(hasResultObject: bool, isBootstrapped: Option<bool>)

  datatype BootCheck = Bootstrapped | NotBootstrapped | Panics

  /** `isBootstrapped`: nil only for a literal `true`; the type assertion on a
      missing or non-object `result` panics. */
  function IsBootstrapped(r: InfoReply): (c: BootCheck)
    ensures c == Bootstrapped <==> r.InfoAnswer? && r.hasResultObject && r.isBootstrapped == Some(true)
    ensures c == Panics <==> r.InfoAnswer? && !r.hasResultObject
  {
    match r
    case InfoUnreachable(_) => NotBootstrapped
    case InfoAnswer(hasResult, field) =>
      if !hasResult then Panics
      else if field == Some(true) then Bootstrapped
      else NotBootstrapped
  }
}

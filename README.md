# Camino Kubernetes test-network creator, modelled in Dafny

The tool builds a Camino test network. `generate` creates a set of stakers:
TLS certificate, node ID, private key and X-chain address for each. It also
builds a genesis configuration that funds every staker and makes the first
few the initial stakers. `create` deploys the network into a Kubernetes
namespace, in this order:

- the namespace
- one TLS secret per staker
- three workload groups (root, validators, API nodes), each a Service plus
  a StatefulSet
- an nginx ingress

Over a port-forward to the root node, `create` then registers the remaining
stakers as validators. `destroy` deletes what `create` made.

The model covers these parts:

- **Go basics** (`go_basics.dfy`): Go maps as shared references
  (`StringMap`), uint64 wrap-around, the int32 and int64 conversions, and
  `strconv.FormatBool`. It also has `strings.Split`, `strings.Contains` and
  `fmt`'s `%d`, each with its own laws.
- **Records** (`config.dfy`, `options.dfy`): stakers and the network and
  cluster configuration. Every object name is `PrefixWith(prefix, suffix)`.
  The label selector is read off the configuration's shared label map.
  `Labels()` writes the group type into that same map.
- **Genesis** (`genesis.dfy`): `createStakers`, `createAllocations` and
  `BuildNetwork`, as array loops over key material that a parameter
  supplies.
- **Workloads** (`workloads.dfy`): the Service, containers and StatefulSet
  of a workload group. Also the create-or-update sequence and the readiness
  watch, with the cluster's answers as parameters.
- **Validator activation** (`activation.dfy`, `validators.dfy`,
  `activation_lemmas.dfy`): `registerValidator` of validators.go is a state
  machine.
  - `Activation.Step` sends one request and reads one observation: the node's
    reply, the clock, and whether the context is done.
  - `Activation.Run` applies `Step` to a script of observations.
  - The imperative methods in `validators.go`'s shape are proved equal to
    `Run`. The lemmas then state what every run does, whatever the node
    answers:
    - the keystore is set up exactly once
    - every submission directly follows both guard queries
    - an active or pending node is never submitted again
    - the end time is fixed and start times never go back
    - the attempt counter is the number of submissions or one more
    - a cancelled context stops the engine
- **Older code path** (`legacy.dfy`): what k8s.go does.
  - An older `RegisterValidators` / `registerValidator`. It sends one
    `addValidator`, never interprets the answer (it only prints the body),
    and stops at the first error, a failed read included.
  - `CreateNamespace`, `CreateStakerSecrets`, the three group option
    constructors, `CreateIngress`, and `DeleteCluster` with its
    `keepDisks` branch.
- **create command** (`create_command.dfy`): the command's checks on the
  loaded network and the numbers it derives from its flags.

Cluster and HTTP calls are never made. The answers they would return are
inputs, and the calls issued are outputs, in order.

Where the source is inconsistent with itself, the model follows the code
as written:

- The genesis network ID is always 1002, whatever the configuration says.
- The `Network` literal in `BuildNetwork` gives two values for a
  three-field struct. The model leaves the version empty, and the "old
  network file" check of `create` would then reject the result.
- The initial stakers of the genesis get the node ID with a `NodeID-`
  prefix. The engine in validators.go searches for the staker's node ID as
  stored. The older engine in k8s.go also submits it with the prefix.
- The two `RegisterValidators` and the two `isBootstrapped` in one package
  are modelled separately: `Validators.*` and `Legacy.*`.
- `DeleteCluster` reads two results from `Selector()`, which returns one.
  The model uses the selector's match labels.
- `create.go` calls `RegisterValidators` with an `allowError` argument,
  which only the validators.go version has. It also calls
  `CopySecretFromDefaultNamespace` and `BuildGenesisConfig`; neither is part
  of this model.

## Model

| member | source | states |
|---|---|---|
| GoBasics.StringMap.constructor | cmd/create.go:95-97 | a new Go map holds exactly the given entries |
| GoBasics.StringMap.Put | pkg/version1/k8s/types.go:33 | `m[key] = value` changes that one key and nothing else |
| GoBasics.TwiceU64 | pkg/version1/network_configuration.go:32-35 | `2 * DefaultStake` in uint64: exact below 2^63, reduced by 2^64 from there on |
| GoBasics.ToInt32 | cmd/create.go:204-209 | `int32(x)` lies in the int32 range, is congruent to x modulo 2^32, and is x itself for x below 2^31 |
| GoBasics.ToInt64 | cmd/create.go:154-158 | `int(x)` of a uint64 is x below 2^63 and x - 2^64 from 2^63 on, so it is negative exactly then |
| GoBasics.FormatBool | pkg/version1/k8s/stateful_sets.go:221 | the text is "true" exactly when the flag is set, and "false" otherwise |
| GoBasics.Split | pkg/version1/k8s/validators.go:250 | at least one piece; no piece contains the separator; one piece exactly when the separator is absent |
| GoBasics.JoinSplit | pkg/version1/k8s/validators.go:250 | joining the pieces with the separator gives back the address |
| GoBasics.SplitJoin | pkg/version1/k8s/validators.go:250 | splitting a join of separator-free pieces gives back those pieces |
| GoBasics.ContainsOccurs | pkg/version1/k8s/validators.go:203 | `strings.Contains` holds exactly when the node ID occurs at some offset of the body |
| GoBasics.DecimalString | pkg/version1/k8s/k8s.go:336 | `%d` prints only digits, with two or more exactly for numbers from 10 |
| GoBasics.DecimalStringInjective | pkg/version1/k8s/k8s.go:336 | different staker indexes print differently |
| Config.PrefixWith | pkg/version1/types.go:54-56 | the name is the prefix, one dash, then the suffix, at those exact positions |
| Config.PrefixWithInjective | pkg/version1/types.go:54-56 | under one prefix, different suffixes give different names |
| Config.Selector | pkg/version1/types.go:58-75 | the selector's match labels are exactly the configured labels except one with an empty key, which `AddLabelToSelector` skips, whatever the iteration order |
| Config.AddLabelToSelector | pkg/version1/types.go:63 | adds one match label; an empty key leaves the selector unchanged |
| Options.Name | pkg/version1/k8s/types.go:27-29 | a group's name is prefix-dash-type |
| Options.NamesDistinct | pkg/version1/k8s/types.go:27-29 | groups of different types never share a name |
| Options.WithTypeLabel | pkg/version1/k8s/types.go:31-35 | the labels keep every other key and gain "type" = the group type |
| Options.WithTypeLabelIdempotent | pkg/version1/k8s/types.go:31-35 | tagging twice with the same type equals tagging once |
| Options.Labels | pkg/version1/k8s/types.go:31-35 | returns the configuration's own map, now tagged with the type, so every holder of the map sees the tag |
| Options.LabelsTwice | pkg/version1/k8s/types.go:31-35 | two calls return one and the same map, tagged once |
| Genesis.CreateStakers | pkg/version1/network_configuration.go:45-90 | staker i carries key i's node ID, certificate and key, the default stake, "PrivateKey-" plus the CB58 key, and the address |
| Genesis.CreateAllocations | pkg/version1/network_configuration.go:25-43 | one allocation per staker, in order, to its address, of twice the default stake wrapped to uint64, all locked until 2524604400 |
| Genesis.BuildNetwork | pkg/version1/network_configuration.go:92-130 | every staker funded in order, to its address and the zero Ethereum address, with twice the default stake locked until the unlock time; the first NumInitialStakers are the initial stakers, each staking its own funds under "NodeID-" + its ID; network ID 1002, the given start time, the fixed durations and bond, the network name as message, and no version |
| Genesis.InitialStakersFunded | pkg/version1/network_configuration.go:100-112 | every initial staker's reward address owns an allocation and is listed among the staked funds |
| Workloads.BuildService | pkg/version1/k8s/stateful_sets.go:23-46 | a ClusterIP Service named after the group, with the rpc port and, for validators only, the staking port; its labels and selector are the shared, type-tagged map |
| Workloads.DefaultVolumeMounts | pkg/version1/k8s/stateful_sets.go:274-290 | three mounts with distinct names and paths, none clashing with the certificate mount; only the configuration mount is read-only |
| Workloads.DefaultVolumes | pkg/version1/k8s/stateful_sets.go:246-272 | the network's configuration and scripts ConfigMaps with mode 0555, plus an empty directory for certificates, under distinct names |
| Workloads.BuildContainer | pkg/version1/k8s/stateful_sets.go:178-244 | the node container: name, image, requests, start command, ports and mounts by role; ROOT_NODE_ID from key Node-ID of secret prefix-0; NETWORK_NAME, POD_IP, and IS_API_NODE / IS_ROOT as the `FormatBool` text ("true" or "false") of "neither validator nor root" and "validator and root", which are never both "true" |
| Workloads.ValidatorInitContainer | pkg/version1/k8s/stateful_sets.go:292-330 | the certificate initialiser; it carries IS_ROOT=true exactly for the root group |
| Workloads.DefaultMountsDeclared | pkg/version1/k8s/stateful_sets.go:116-176 | every mount of every container names a pod volume or the data claim |
| Workloads.BaseStatefulSet | pkg/version1/k8s/stateful_sets.go:116-176 | the group's StatefulSet: parallel pods, the pull secret and service account, an init container for validators only, the node container, the default volumes, one 10Gi claim, and every mount declared |
| Workloads.WatchUntilReady | pkg/version1/k8s/stateful_sets.go:96-108 | events are read up to and including the first one with all replicas available and updated, or all of them when none is |
| Workloads.SkipsWatch | pkg/version1/k8s/stateful_sets.go:91 | the watch is skipped exactly when the written object reports every desired replica available |
| Workloads.SkipIgnoresUpdatedReplicas | pkg/version1/k8s/stateful_sets.go:91-105 | the pre-watch check compares only available replicas, so a set not fully updated skips a watch that would not have stopped yet |
| Workloads.ApplyService | pkg/version1/k8s/stateful_sets.go:48-66 | Get the group's Service, then Update it if found and Create it otherwise; the object written is exactly the one `buildService` makes (ClusterIP, its ports by role, the shared labels as labels and selector); the write's error is returned |
| Workloads.ApplyStatefulSet | pkg/version1/k8s/stateful_sets.go:68-111 | Get, then Update or Create the StatefulSet that `baseStateFullSet` makes, every field stated and every mount declared; on a write error stop with it; otherwise watch unless the written object has all replicas available, and read events until one is ready |
| Workloads.CreateStatefulSetWithOptions | pkg/version1/k8s/stateful_sets.go:48-114 | the Service half with the `buildService` object, stopping at its write error; then the StatefulSet half with the `baseStateFullSet` object, its watch and its errors; the shared labels end up tagged with the group's type |
| Activation.Lists | pkg/version1/k8s/validators.go:182-238 | `isActiveValidator` / `isPendingValidator`: the node ID occurs anywhere in the body of the validator-set reply; `GoBasics.ContainsOccurs` states what that means |
| Activation.Step | pkg/version1/k8s/validators.go:240-395 | one step of `registerValidator` and its waits (validators.go:109-180): one request per step in the source's order (createUser, importKey, then rounds of getCurrentValidators, getPendingValidators, addValidator, getTxStatus polls, getCurrentValidators waits); the context is checked only before submit, poll and wait; the counter is incremented at the head of each round; a transport failure returns at once |
| Activation.Run | pkg/version1/k8s/validators.go:240-395 | the engine driven by a script of observations until it returns or the script ends; the reference every `Validators` method is proved equal to |
| Activation.IdentityOf | pkg/version1/k8s/validators.go:246-250 | a call's identity carries the staker and the reward address derived from its public address |
| Activation.RewardAddressOf | pkg/version1/k8s/validators.go:250 | for an address "chain-rest" the reward address is "P-rest" |
| Activation.ClassifyStatus | pkg/version1/k8s/validators.go:146-151 | "Committed" is accepted; "Unknown" and "Dropped" mean not in the mempool; anything else polls again |
| Activation.RefreshedStart | pkg/version1/k8s/validators.go:325-328 | the start used for a submission stays unchanged while it lies ahead, and once the clock has passed it becomes the clock plus the pending offset and sync bound (180 s) |
| Activation.IsBootstrapped | pkg/version1/k8s/validators.go:397-439 | nil exactly for a literal `true`; a reply without a `result` object panics |
| Validators.VerifyStatus | pkg/version1/k8s/validators.go:109-156 | the polling loop does exactly what the state machine does from the polling phase, consuming observations up to its return |
| Validators.WaitForValidatorToBecomeActive | pkg/version1/k8s/validators.go:158-180 | the activation wait does exactly what the state machine does from the waiting phase |
| Validators.CheckGuard | pkg/version1/k8s/validators.go:299-319 | the head of a round (count, active check, pending check) equals the corresponding state-machine steps |
| Validators.SubmitValidator | pkg/version1/k8s/validators.go:321-371 | one submission equals the state-machine step from the submitting phase, and the start time never decreases |
| Validators.RegisterValidator | pkg/version1/k8s/validators.go:240-395 | the returned error, the requests sent and the attempt count are those of the state machine run on the same observations |
| Validators.GateOf | pkg/version1/k8s/validators.go:66-74 | the bootstrap gate is decided by the first reply that is not "not yet": open on a bootstrapped reply, crashed on a panicking one; it is still waiting exactly when every reply said not yet |
| Validators.AwaitBootstrap | pkg/version1/k8s/validators.go:66-74 | polls until the first bootstrapped or panicking reply; every earlier reply said "not yet" |
| Validators.FirstFailure | pkg/version1/k8s/validators.go:89-92 | nil exactly when every run succeeded; otherwise a failure preceded only by successes |
| Validators.StakerOutcome | pkg/version1/k8s/validators.go:78-84 | the error the goroutine of one staker returns: the outcome of `registerValidator` as `Run` computes it from the initial state |
| Validators.Aggregate | pkg/version1/k8s/validators.go:76-92 | unfinished exactly when some run is; success exactly when all succeed; otherwise a failure of one run |
| Validators.RegisterValidators | pkg/version1/k8s/validators.go:28-95 | no staker is registered before the root bootstraps or after the check panics; once it bootstraps, every staker's outcome is its own run, and the verdict is their aggregate |
| ActivationLemmas.NoSubmissions | pkg/version1/k8s/validators.go:329-345 | a log without addValidator counts zero submissions |
| ActivationLemmas.RunEntersLoop | pkg/version1/k8s/validators.go:252-297 | once both keystore calls are answered, the run continues in the retry loop with the end time set to the clock at key import, plus 180 s, plus 30 days |
| ActivationLemmas.RunExtendsLog | pkg/version1/k8s/validators.go:240-395 | a run only ever appends to the request log |
| ActivationLemmas.KeystoreSetUpOnce | pkg/version1/k8s/validators.go:252-293 | however often the loop retries, createUser is the first request and only the first, and importKey the second and only the second |
| ActivationLemmas.GuardPrecedesSubmission | pkg/version1/k8s/validators.go:299-345 | every addValidator directly follows a getCurrentValidators and a getPendingValidators |
| ActivationLemmas.ActiveNodeReturnsAtGuard | pkg/version1/k8s/validators.go:303-310 | a guard that finds the node active returns success after that one request |
| ActivationLemmas.AwaitingOnlyPolls | pkg/version1/k8s/validators.go:158-180 | from the activation wait only getCurrentValidators is sent, and the only errors are transport errors and the wait's cancellation |
| ActivationLemmas.AlreadyActiveNeverSubmits | pkg/version1/k8s/validators.go:303-310 | a node active at the first guard is never submitted: keystore setup, one check, success |
| ActivationLemmas.PendingNeverSubmits | pkg/version1/k8s/validators.go:312-319 | a node pending at the first guard is never submitted; the call goes straight to the activation wait |
| ActivationLemmas.RunKeepsWindow | pkg/version1/k8s/validators.go:295-345 | the end time stays fixed, the start time never decreases, and every submission carries that end time |
| ActivationLemmas.EndTimeFixed | pkg/version1/k8s/validators.go:295-345 | all submissions of a call share one end time; none starts earlier than 180 s after the key import; later ones never start earlier |
| ActivationLemmas.SubmissionNotInPast | pkg/version1/k8s/validators.go:325-343 | a submitted start time is never before the clock reading of its step |
| ActivationLemmas.LateRetryInvertsWindow | pkg/version1/k8s/validators.go:296-297 | the end time is never refreshed, so a retry within 180 s of it submits a window whose start is not before its end |
| ActivationLemmas.AttemptsMatchSubmissions | pkg/version1/k8s/validators.go:299-301 | the attempt counter is the number of submissions or one more |
| ActivationLemmas.CancelledRunStops | pkg/version1/k8s/validators.go:321-323 | once the context is done, the engine sends at most the requests left before its next context check, never submits, and returns at that check |
| ActivationLemmas.CancelledWaitFails | pkg/version1/k8s/validators.go:112-114 | each wait checks the context first, then fails naming the node and sends nothing |
| ActivationLemmas.EmptyTxID | pkg/version1/k8s/validators.go:361-371 | an answer without a transaction ID loops back to the guard when errors are allowed, and otherwise fails with the node's message |
| ActivationLemmas.StatusHandling | pkg/version1/k8s/validators.go:375-381 | Committed goes on to the activation wait; Unknown and Dropped go back to the guard; other statuses poll again |
| Legacy.LegacySubmission | pkg/version1/k8s/k8s.go:159-176 | the older submission prefixes "NodeID-", starts 2 minutes after the clock and lasts 30 days |
| Legacy.LegacyRegisterValidator | pkg/version1/k8s/k8s.go:104-191 | success exactly when all three exchanges got an answer, whatever it says; then exactly three requests were sent |
| Legacy.LegacyRequests | pkg/version1/k8s/k8s.go:104-191 | createUser, importKey and addValidator are sent in this order, each only after the previous one got an answer; a returned error is the reason of the last exchange, which failed |
| Legacy.LegacySubmitsOnce | pkg/version1/k8s/k8s.go:104-191 | the older engine submits at most once and never queries validator sets or transaction status |
| Legacy.LegacyIgnoresRejection | pkg/version1/k8s/k8s.go:177-189 | an answer without a transaction ID is success for the older engine; the validators.go engine fails on it when errors are not allowed |
| Legacy.RegisterInOrder | pkg/version1/k8s/k8s.go:93-101 | registers the stakers in order; each result is that staker's call; every staker before the last processed succeeded; nil exactly when all were registered without error, otherwise the last processed staker's error |
| Legacy.LegacyRegisterValidators | pkg/version1/k8s/k8s.go:84-101 | nobody is registered while the root has not bootstrapped or once the check panics; after bootstrap, the stakers are registered in order up to the first error |
| Legacy.CreateNamespace | pkg/version1/k8s/k8s.go:237-249 | success exactly when the create succeeded or the namespace already exists; otherwise the create's own error |
| Legacy.StakerSecret | pkg/version1/k8s/k8s.go:335-355 | secret i is named prefix-i and holds the certificate and key under the TLS keys, plus the node ID, public address and private key as strings |
| Legacy.StakerSecretNamesDistinct | pkg/version1/k8s/k8s.go:335-336 | secrets of different stakers have different names |
| Legacy.CreateStakerSecrets | pkg/version1/k8s/k8s.go:325-367 | applies the secret of each staker in order; stops at the first failed apply, which it returns; nil exactly when every apply succeeded |
| Legacy.RootNodeIDResolves | pkg/version1/k8s/k8s.go:336-352 | every node container's ROOT_NODE_ID names staker 0's secret and a key that secret holds, so it resolves to the root staker's node ID; no other staker's secret has that name |
| Legacy.ApiNodeOptions | pkg/version1/k8s/k8s.go:495-507 | API nodes neither validate nor act as root, and request the API resources |
| Legacy.RootNodeOptions | pkg/version1/k8s/k8s.go:509-521 | the root is one validating replica with validator resources |
| Legacy.ValidatorOptions | pkg/version1/k8s/k8s.go:523-535 | validators validate, are not root, and request validator resources |
| Legacy.GroupNamesDistinct | pkg/version1/k8s/k8s.go:495-535 | the three groups' names are pairwise different |
| Legacy.GroupRoles | pkg/version1/k8s/k8s.go:495-535 | only API pods run as API nodes, only the root pod runs as root, and only validator groups expose the staking port |
| Legacy.CreateIngress | pkg/version1/k8s/k8s.go:537-616 | adds the rewrite annotation to the caller's map; an nginx ingress on the domain routing the prefix to the API Service and prefix/static to the root Service, with TLS from prefix-domain-ingress-tls; Update if found, otherwise Create |
| Legacy.IngressRoutesToGroupServices | pkg/version1/k8s/k8s.go:556-581 | the ingress backends are the API and root groups' Services, by the port name of their rpc port, and they differ |
| Legacy.DeletionPlan | pkg/version1/k8s/k8s.go:618-683 | nine deletions, plus the volume claims exactly when disks are not kept; every collection deletion selects by the given labels |
| Legacy.DeletesGroupServices | pkg/version1/k8s/k8s.go:632-638 | the Services deleted by name are exactly the three groups' Services |
| Legacy.DeleteLabelledObjects | pkg/version1/k8s/k8s.go:640-680 | continues the plan after the Services, stopping at the first failing call; without a failure it completes the plan |
| Legacy.DeleteSelected | pkg/version1/k8s/k8s.go:625-683 | for the given match labels, issues a prefix of the plan, in order, stopping at the first failing call and returning its error; nil exactly when the whole plan ran without error |
| Legacy.DeleteCluster | pkg/version1/k8s/k8s.go:618-683 | the same for the configured labels (an empty key skipped by the selector) |
| CreateCommand.PlanCreate | cmd/create.go:125-209 | rejects an old network file, then a version mismatch, then `int(validators)` below the initial stakers as too few, then above the stakers as too many, each exactly when its condition holds and the earlier checks passed, naming the flag value; otherwise plans the genesis stakers, the int32 validator replicas (validators - 1, so -1 for zero), the API replicas, the registration slice with allowError, and the deadline |
| CreateCommand.HugeValidatorCountTooFew | cmd/create.go:154-156 | a validator count of 2^63 or more reads as negative and is rejected as too few |
| CreateCommand.PlanPartitionsStakers | cmd/create.go:152-223 | the genesis stakers split, in order, into the initial stakers and the stakers handed to registration |
| CreateCommand.ClusterConfig | cmd/create.go:92-113 | prefix and namespace are the network name, and the only label is network = name, in a fresh map |

## Left out

- Port forwarding over SPDY, HTTP transport and JSON encoding are left out. A failed POST, body read or decode appears only as an `Unreachable` reply.
- Sleeps, and the undefined `DEFAULT_TIMEOUT` they use, are left out. Time enters only as the clock reading in each observation.
- Concurrency of the errgroup is left out: the start stagger, scheduling, and the cancellation a failed run causes in the others. A run's cancellation is an input, the `cancelled` flag of its observations.
- Validators.Aggregate: returns the first failure in staker order. The errgroup returns the first in time, and that order is not modelled.
- Unfinished outcomes exist only in the model. They stand for a run whose script ended before the Go function returned. A Go call without an answer would block or loop forever.
- Key generation is left out: TLS certificates, node IDs, secp256k1 keys, CB58 and bech32 addresses. It arrives as `KeyMaterial`.
- The keystore password, the hex SHA-1 digest of the public address, is a parameter (`password`, `passwords`) that the model neither computes nor ties to the address.
- Namespaces are left out of the cluster calls: `CreateNamespace` models only how the create's error is read, not the Namespace object named after the configured namespace, and `DeleteCall` does not record the namespace every deletion is scoped to.
- Activation.RewardAddress: requires a dash in the public address. `strings.Split(addr, "-")[1]` panics without one (validators.go and k8s.go), and that panic is not modelled. Addresses made by key generation always have the form chain-rest.
- Activation.IdentityOf: requires a dash in the staker's address, for the reward address; the panic is not modelled.
- Validators.RegisterValidator: requires a dash in the staker's address; the panic on an address without one is not modelled.
- Validators.StakerOutcome: requires a dash in the staker's address; the panic is not modelled.
- Validators.RegisterValidators: requires a dash in every staker's address; the panic is not modelled.
- Legacy.LegacySubmission: requires a dash in the staker's address; the panic is not modelled.
- Legacy.LegacyRegisterValidator: requires a dash in the staker's address; the panic is not modelled.
- Legacy.RegisterInOrder: requires a dash in every staker's address; the panic is not modelled.
- Legacy.LegacyRegisterValidators: requires a dash in every staker's address; the panic is not modelled.
- Workloads.WatchUntilReady: the channel is taken to close right after the first ready event; an event client-go still delivers after `watch.Stop()` is not modelled. The function returns nil either way.
- Genesis.BuildNetwork: requires NumInitialStakers <= NumStakers. The source's slice panics otherwise, and that panic is not modelled.
- The C-chain genesis text, `resource.MustParse` of the resource flags, and the text of `ctx.Err()` are left out.
- `LoadNetwork`, flag parsing and the progress bar are left out.
- `CreateNetworkConfigMap`, `CreateScriptsConfigMap` (the embedded scripts), `CopyPullSecret` and `CreateRBAC` of k8s.go are left out. Each only assembles fixed objects and makes one cluster call.
- `CopySecretFromDefaultNamespace` and `BuildGenesisConfig` are not part of this model.
- The `destroy` command itself is left out; only `DeleteCluster` is modelled.
- Go integer widths are written out only where they change a result: the uint64 doubling of the stake, and the int and int32 conversions in `create`. Elsewhere integers are unbounded.

/** cmd/create.go: the `create` command's checks on the loaded network file
    and the numbers it derives from its flags before it builds the cluster.
    Flag parsing, file loading and the cluster calls are not modelled; the
    command's decision is a plan or the error it stops with. */
module CreateCommand {
  import opened GoBasics
  import opened Config

  /** The errors the command returns from its own checks. */
  datatype CreateError =
    | OldNetworkFile                                    // "using old network json, please regenerate"
    | VersionMismatch(version: string)                  // "cannot create network with different version ..."
    | TooFewValidators(requested: uint64, initial: int)    // "network needs at least all initial stakers ..."
    | TooManyValidators(requested: uint64, available: int) // "network config ... does not contain enough validators"

  /** What the command goes on to do once the checks pass. */
  datatype CreatePlan = CreatePlan(
    genesisStakers: seq<Staker>,  // the stakers the genesis is rebuilt from
    validatorReplicas: int,       // the int32 replica count of the validator group
    apiReplicas: int,             // the int32 replica count of the API group
    registration: seq<Staker>,    // the stakers handed to validator registration
    allowError: bool,             // registration's allowError flag
    deadline: Option<int>)        // the context timeout, when one is set

  /** The command's decision, for a loaded network, the build's commit, the
      `--validators`, `--api-nodes` and `--timeout` flags. `int(numValidators)`
      reads a uint64 flag as a signed 64-bit int. */
  function PlanCreate(network: Network, commit: string, numValidators: uint64, numApiNodes: uint64, timeout: int)
    : (r: Result<CreatePlan, CreateError>)
    ensures r == Err(OldNetworkFile) <==> network.version == ""
    ensures r.Err? && r.error.VersionMismatch? <==> network.version != "" && network.version != commit
    ensures r.Err? && r.error.VersionMismatch? ==> r.error.version == network.version
    ensures r.Err? && r.error.TooFewValidators? <==>
      && network.version != "" && network.version == commit
      && ToInt64(numValidators) < |network.genesisConfig.initialStakers|
    ensures r.Err? && r.error.TooManyValidators? <==>
      && network.version != "" && network.version == commit
      && |network.genesisConfig.initialStakers| <= ToInt64(numValidators)
      && ToInt64(numValidators) > |network.stakers|
    ensures r.Err? && r.error.TooFewValidators? ==>
      r.error == TooFewValidators(numValidators, |network.genesisConfig.initialStakers|)
    ensures r.Err? && r.error.TooManyValidators? ==>
      r.error == TooManyValidators(numValidators, |network.stakers|)
    ensures r.Ok? <==>
      && network.version != "" && network.version == commit
      && |network.genesisConfig.initialStakers| <= ToInt64(numValidators) <= |network.stakers|
    ensures r.Ok? ==>
      var p := r.value;
      && p.genesisStakers == network.stakers[..numValidators]
      && p.registration == network.stakers[|network.genesisConfig.initialStakers|..numValidators]
      && p.allowError
      && (timeout > 0 ==> p.deadline == Some(timeout))
      && (timeout <= 0 ==> p.deadline == None)
      && (numValidators < 0x8000_0000 ==> p.validatorReplicas == numValidators - 1)
      && (numApiNodes < 0x8000_0000 ==> p.apiReplicas == numApiNodes)
  {
    var deadline := if timeout > 0 then Some(timeout) else None;
    var numInitialStakers := |network.genesisConfig.initialStakers|;
    var requested := ToInt64(numValidators);
    if network.version == "" then Err(OldNetworkFile)
    else if network.version != commit then Err(VersionMismatch(network.version))
    else if requested < numInitialStakers then Err(TooFewValidators(numValidators, numInitialStakers))
    else if requested > |network.stakers| then Err(TooManyValidators(numValidators, |network.stakers|))
    else
      Ok(CreatePlan(
        network.stakers[..numValidators],
        ToInt32(ToInt32(numValidators) - 1),
        ToInt32(numApiNodes),
        network.stakers[numInitialStakers..numValidators],
        true,
        deadline))
  }

  /** A `--validators` value of 2^63 or more reads as negative and is
      rejected as too small, never as too large. */
  lemma HugeValidatorCountTooFew(network: Network, commit: string, numValidators: uint64, numApiNodes: uint64, timeout: int)
    requires network.version != "" && network.version == commit
    requires numValidators >= 0x8000_0000_0000_0000
    ensures PlanCreate(network, commit, numValidators, numApiNodes, timeout).Err?
    ensures PlanCreate(network, commit, numValidators, numApiNodes, timeout).error.TooFewValidators?
  {
  }

  /** The genesis stakers split into the genesis initial stakers, which are
      already validators, and the stakers handed to registration: every
      genesis staker is in exactly one part, in order. */
  lemma {:induction false} PlanPartitionsStakers(network: Network, commit: string, numValidators: uint64,
                                                 numApiNodes: uint64, timeout: int)
    requires PlanCreate(network, commit, numValidators, numApiNodes, timeout).Ok?
    ensures var p := PlanCreate(network, commit, numValidators, numApiNodes, timeout).value;
      var numInitial := |network.genesisConfig.initialStakers|;
      && |p.genesisStakers| == numValidators
      && p.genesisStakers[..numInitial] + p.registration == p.genesisStakers
      && |p.registration| == numValidators - numInitial
  {
    var p := PlanCreate(network, commit, numValidators, numApiNodes, timeout).value;
    var numInitial := |network.genesisConfig.initialStakers|;
    assert p.genesisStakers[..numInitial] == network.stakers[..numInitial];
    assert network.stakers[..numInitial] + network.stakers[numInitial..numValidators] == network.stakers[..numValidators];
  }

  /** The cluster configuration the command assembles: the network name is
      both the prefix and the namespace, and the only label is
      "network" = the network name, in a new map. */
  method ClusterConfig(networkName: string, image: string, domain: string, tlsSecretName: string,
                       pullSecretName: string, api: ResourceList, validator: ResourceList, enableMonitoring: bool)
    returns (k: K8sConfig)
    ensures k.k8sPrefix == networkName && k.namespace == networkName
    ensures fresh(k.labels) && k.labels.entries == map["network" := networkName]
    ensures k.image == image && k.domain == domain
    ensures k.tlsSecretName == tlsSecretName && k.pullSecretName == pullSecretName
    ensures k.resources == K8sResources(api, validator) && k.enableMonitoring == enableMonitoring
  {
    var labels := new StringMap(map["network" := networkName]);
    k := K8sConfig(networkName, networkName, domain, labels, image, tlsSecretName, pullSecretName,
                   K8sResources(api, validator), enableMonitoring);
  }
}

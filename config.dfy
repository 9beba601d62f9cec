/** The records of pkg/version1/types.go: a staker identity, the network and
    cluster configuration, and the generated network; plus the two helpers
    `PrefixWith` and `Selector` that every cluster object name and label
    selector is built from. */
module Config {
  import opened GoBasics

  /** One validator-to-be. The parsed TLS certificate (`Cert`, never
      serialised) is not part of the model; its bytes are. */
  datatype Staker = Staker(
    nodeID: string,
    certBytes: seq<byte>,
    keyBytes: seq<byte>,
    stake: uint64,
    privateKey: string,
    publicAddress: string)

  datatype NetworkConfig = NetworkConfig(
    numStakers: uint64,
    numInitialStakers: uint64,
    networkName: string,
    networkID: uint64,
    defaultStake: uint64)

  /** A Kubernetes resource list; quantities stay unparsed strings. */
  type ResourceList = map<string, string>

  datatype K8sResources = K8sResources(api: ResourceList, validator: ResourceList)

  /** The cluster configuration. `labels` is a Go map and therefore shared by
      every copy of the record. */
  datatype K8sConfig = K8sConfig(
    k8sPrefix: string,
    namespace: string,
    domain: string,
    labels: StringMap,
    image: string,
    tlsSecretName: string,
    pullSecretName: string,
    resources: K8sResources,
    enableMonitoring: bool)

  /** The genesis library's records that a Network carries. */
  datatype LockedAmount = LockedAmount(amount: uint64, locktime: uint64)

  datatype UnparsedAllocation = UnparsedAllocation(
    ethAddr: string,
    avaxAddr: string,
    initialAmount: uint64,
    unlockSchedule: seq<LockedAmount>)

  datatype UnparsedStaker = UnparsedStaker(nodeID: string, rewardAddress: string)

  /** The parts of the genesis configuration the tool fills in; the embedded
      C-chain genesis text is a fixed string and is not modelled. */
  datatype UnparsedConfig = UnparsedConfig(
    networkID: uint64,
    allocations: seq<UnparsedAllocation>,
    startTime: uint64,
    initialStakeDuration: uint64,
    initialStakeDurationOffset: uint64,
    initialStakedFunds: seq<string>,
    initialStakers: seq<UnparsedStaker>,
    validatorBondAmount: uint64,
    message: string)

  datatype Network = Network(version: string, genesisConfig: UnparsedConfig, stakers: seq<Staker>)

  /** `fmt.Sprintf("%s-%s", k.K8sPrefix, s)`: the prefix, one dash, then s. */
  function PrefixWith(k: K8sConfig, s: string): (r: string)
    ensures |r| == |k.k8sPrefix| + 1 + |s|
    ensures r[..|k.k8sPrefix|] == k.k8sPrefix
    ensures r[|k.k8sPrefix|] == '-'
    ensures r[|k.k8sPrefix| + 1..] == s
  {
    k.k8sPrefix + "-" + s
  }

  /** Under one configuration, different suffixes give different names, so
      the objects named this way never collide. */
  lemma PrefixWithInjective(k: K8sConfig, s: string, t: string)
    requires PrefixWith(k, s) == PrefixWith(k, t)
    ensures s == t
  {
    var n := |k.k8sPrefix| + 1;
    assert s == PrefixWith(k, s)[n..];
    assert t == PrefixWith(k, t)[n..];
  }

  /** A label selector; only match labels are ever filled in. */
  datatype LabelSelector = LabelSelector(matchLabels: map<string, string>)

  /** `metav1.AddLabelToSelector`: an empty key leaves the selector as it is. */
  function AddLabelToSelector(sel: LabelSelector, key: string, value: string): LabelSelector
  {
    if key == "" then sel else sel.(matchLabels := sel.matchLabels[key := value])
  }

  /** `K8sConfig.Selector`: one match label per configured label, visiting the
      labels in no particular order (Go map iteration); a label with an
      empty key is skipped. */
  method Selector(k: K8sConfig) returns (sel: LabelSelector)
    ensures sel.matchLabels == k.labels.entries - {""}
    ensures "" !in k.labels.entries ==> sel.matchLabels == k.labels.entries
    ensures k.labels.entries == map[] ==> sel.matchLabels == map[]
  {
    var labels := k.labels.entries;
    sel := LabelSelector(map[]);
    var remaining := labels.Keys;
    while remaining != {}
      invariant remaining <= labels.Keys
      invariant sel.matchLabels.Keys == labels.Keys - remaining - {""}
      invariant forall key :: key in sel.matchLabels ==> sel.matchLabels[key] == labels[key]
      decreases remaining
    {
      var key :| key in remaining;
      sel := AddLabelToSelector(sel, key, labels[key]);
      remaining := remaining - {key};
    }
    assert sel.matchLabels.Keys == (labels - {""}).Keys;
  }
}

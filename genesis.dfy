/** pkg/version1/network_configuration.go: assembling the stakers and the
    genesis configuration of a new network. Certificates, node IDs, private
    keys and addresses are produced by foreign cryptographic code; they
    arrive here as `KeyMaterial`, one record per staker. */
module Genesis {
  import opened GoBasics
  import opened Config

  /** The all-zero Ethereum address every allocation carries. */
  const ZERO_ETH_ADDRESS: string := "0x0000000000000000000000000000000000000000"
  /** The unlock time of every allocation, in Unix seconds. */
  const UNLOCK_TIME: uint64 := 2524604400
  const GENESIS_NETWORK_ID: uint64 := 1002
  const INITIAL_STAKE_DURATION: uint64 := 31536000
  const INITIAL_STAKE_DURATION_OFFSET: uint64 := 5400
  /** `1e12` */
  const VALIDATOR_BOND_AMOUNT: uint64 := 1_000_000_000_000

  /** What the key generation of `createStakers` yields for one staker: the
      certificate and key bytes, the node ID derived from the certificate
      (as its string form), the CB58 encoding of a new private key, and the
      X-chain address of its public key. */
  datatype KeyMaterial = KeyMaterial(
    nodeID: string,
    certBytes: seq<byte>,
    keyBytes: seq<byte>,
    privateKeyCB58: string,
    address: string)

  /** Staker i as `createStakers` records it. */
  predicate StakerFrom(s: Staker, k: KeyMaterial, config: NetworkConfig)
  {
    && s.nodeID == k.nodeID && s.certBytes == k.certBytes && s.keyBytes == k.keyBytes
    && s.stake == config.defaultStake
    && s.privateKey == "PrivateKey-" + k.privateKeyCB58
    && s.publicAddress == k.address
  }

  /** The record-filling loop of `createStakers`: one staker per generated
      key, in order, each staking the configured default stake. */
  method CreateStakers(config: NetworkConfig, keys: seq<KeyMaterial>) returns (stakers: seq<Staker>)
    ensures |stakers| == |keys|
    ensures forall i :: 0 <= i < |keys| ==> StakerFrom(stakers[i], keys[i], config)
  {
    var out := new Staker[|keys|];
    for i := 0 to |keys|
      invariant forall j :: 0 <= j < i ==> StakerFrom(out[j], keys[j], config)
    {
      var k := keys[i];
      out[i] := Staker(k.nodeID, k.certBytes, k.keyBytes, config.defaultStake,
                       "PrivateKey-" + k.privateKeyCB58, k.address);
    }
    stakers := out[..];
  }

  /** `createAllocations`: one allocation per staker, in staker order, to the
      staker's address and the zero Ethereum address, of twice the default
      stake (in wrapping uint64 arithmetic), all of it locked until
      `UNLOCK_TIME`. */
  method CreateAllocations(stakers: seq<Staker>, config: NetworkConfig)
    returns (allocations: seq<UnparsedAllocation>)
    ensures |allocations| == |stakers|
    ensures forall i :: 0 <= i < |stakers| ==>
      && allocations[i].avaxAddr == stakers[i].publicAddress
      && allocations[i].ethAddr == ZERO_ETH_ADDRESS
      && allocations[i].initialAmount == TwiceU64(config.defaultStake)
      && allocations[i].unlockSchedule == [LockedAmount(allocations[i].initialAmount, UNLOCK_TIME)]
    ensures config.defaultStake < U64_MODULUS / 2 ==>
      forall i :: 0 <= i < |stakers| ==> allocations[i].initialAmount == 2 * config.defaultStake
  {
    var out := new UnparsedAllocation[|stakers|];
    for i := 0 to |stakers|
      invariant forall j :: 0 <= j < i ==>
        && out[j].avaxAddr == stakers[j].publicAddress
        && out[j].ethAddr == ZERO_ETH_ADDRESS
        && out[j].initialAmount == TwiceU64(config.defaultStake)
        && out[j].unlockSchedule == [LockedAmount(out[j].initialAmount, UNLOCK_TIME)]
    {
      out[i] := UnparsedAllocation(
        ZERO_ETH_ADDRESS,
        stakers[i].publicAddress,
        TwiceU64(config.defaultStake),
        [LockedAmount(TwiceU64(config.defaultStake), UNLOCK_TIME)]);
    }
    allocations := out[..];
  }

  /** The genesis of a network agrees with its stakers: every staker has an
      allocation, in order; the first `numInitial` stakers are the initial
      stakers, staking their own funds and rewarded to their own address. */
  predicate GenesisMatchesStakers(n: Network, numInitial: nat)
  {
    var g := n.genesisConfig;
    && numInitial <= |n.stakers|
    && |g.allocations| == |n.stakers|
    && (forall i :: 0 <= i < |n.stakers| ==> g.allocations[i].avaxAddr == n.stakers[i].publicAddress)
    && |g.initialStakedFunds| == numInitial
    && (forall i :: 0 <= i < numInitial ==> g.initialStakedFunds[i] == n.stakers[i].publicAddress)
    && |g.initialStakers| == numInitial
    && (forall i :: 0 <= i < numInitial ==>
          g.initialStakers[i] == UnparsedStaker("NodeID-" + n.stakers[i].nodeID, n.stakers[i].publicAddress))
  }

  /** `BuildNetwork`: generate the stakers, take the first
      `NumInitialStakers` of them as the initial stakers (slicing past the end
      panics, hence the second requirement), give every staker an allocation
      and fill in the genesis constants. The `Network` literal of the source
      sets no version, so it stays empty. */
  method BuildNetwork(config: NetworkConfig, now: uint64, keys: seq<KeyMaterial>) returns (n: Network)
    requires |keys| == config.numStakers
    requires config.numInitialStakers <= config.numStakers
    ensures |n.stakers| == config.numStakers
    ensures forall i :: 0 <= i < |keys| ==> StakerFrom(n.stakers[i], keys[i], config)
    ensures GenesisMatchesStakers(n, config.numInitialStakers)
    ensures forall i :: 0 <= i < |n.stakers| ==>
      && n.genesisConfig.allocations[i].ethAddr == ZERO_ETH_ADDRESS
      && n.genesisConfig.allocations[i].initialAmount == TwiceU64(config.defaultStake)
      && n.genesisConfig.allocations[i].unlockSchedule == [LockedAmount(TwiceU64(config.defaultStake), UNLOCK_TIME)]
    ensures n.version == ""
    ensures n.genesisConfig.networkID == GENESIS_NETWORK_ID
    ensures n.genesisConfig.startTime == now
    ensures n.genesisConfig.initialStakeDuration == INITIAL_STAKE_DURATION
    ensures n.genesisConfig.initialStakeDurationOffset == INITIAL_STAKE_DURATION_OFFSET
    ensures n.genesisConfig.validatorBondAmount == VALIDATOR_BOND_AMOUNT
    ensures n.genesisConfig.message == config.networkName
  {
    var stakersRaw := CreateStakers(config, keys);
    var initial := stakersRaw[..config.numInitialStakers];
    var allocations := CreateAllocations(stakersRaw, config);

    var funds := new string[|initial|];
    for i := 0 to |initial|
      invariant forall j :: 0 <= j < i ==> funds[j] == initial[j].publicAddress
    {
      funds[i] := initial[i].publicAddress;
    }
    var initialStakedFunds := funds[..];

    var initialStakers := new UnparsedStaker[|initial|];
    for i := 0 to |initial|
      invariant forall j :: 0 <= j < i ==>
        initialStakers[j] == UnparsedStaker("NodeID-" + initial[j].nodeID, initial[j].publicAddress)
    {
      initialStakers[i] := UnparsedStaker("NodeID-" + initial[i].nodeID, initial[i].publicAddress);
    }

    assert forall j :: 0 <= j < |initial| ==> initial[j] == stakersRaw[j];
    var genesisConfig := UnparsedConfig(
      GENESIS_NETWORK_ID, allocations, now, INITIAL_STAKE_DURATION, INITIAL_STAKE_DURATION_OFFSET,
      initialStakedFunds, initialStakers[..], VALIDATOR_BOND_AMOUNT, config.networkName);
    n := Network("", genesisConfig, stakersRaw);
  }

  /** Every initial staker of a genesis that agrees with its stakers owns an
      allocation and stakes funds from its own reward address. */
  lemma InitialStakersFunded(n: Network, numInitial: nat, i: nat)
    requires GenesisMatchesStakers(n, numInitial) && i < numInitial
    ensures var reward := n.genesisConfig.initialStakers[i].rewardAddress;
      && n.genesisConfig.initialStakedFunds[i] == reward
      && exists j :: 0 <= j < |n.genesisConfig.allocations| && n.genesisConfig.allocations[j].avaxAddr == reward
  {
    assert n.genesisConfig.allocations[i].avaxAddr == n.stakers[i].publicAddress;
  }
}

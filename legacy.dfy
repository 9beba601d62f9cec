/** pkg/version1/k8s/k8s.go: the cluster operations the create and destroy
    commands call directly (namespace, staker secrets, workload group
    options, ingress, cluster deletion), together with the file's older
    validator registration (`RegisterValidators` / `registerValidator`),
    which sends a single `addValidator` and does not read its answer.
    Cluster calls are not made: their answers are parameters, and the calls
    issued are returned in order. */
module Legacy {
  import opened GoBasics
  import opened Config
  import opened Options
  import opened Workloads
  import opened Activation
  import opened Validators

  // ---------------------------------------------------------------------
  // Older validator registration
  // ---------------------------------------------------------------------

  /** What the three HTTP exchanges of one `registerValidator` call yield,
      and the clock reading taken before the last one. */
  datatype LegacyExchange = LegacyExchange(now: int, createUser: Reply, importKey: Reply, addValidator: Reply)

  /** The error returned (only transport errors exist here) and the requests sent. */
  datatype LegacyResult = LegacyResult(err: Option<string>, sent: seq<Request>)

  /** The older `addValidator` request: the node ID gets a "NodeID-" prefix,
      the window starts two minutes after the clock reading (no sync bound)
      and lasts thirty days. */
  function LegacySubmission(staker: Staker, password: string, now: int): (req: Request)
    requires '-' in staker.publicAddress
    ensures req.AddValidator? && req.nodeID == "NodeID-" + staker.nodeID
    ensures req.startTime == now + PENDING_TIME_OFFSET
    ensures req.endTime - req.startTime == STAKE_DURATION
  {
    var start := now + PENDING_TIME_OFFSET;
    AddValidator("NodeID-" + staker.nodeID, start, start + STAKE_DURATION, staker.stake,
                 RewardAddress(staker.publicAddress), DELEGATION_FEE_RATE, staker.publicAddress, password)
  }

  /** The older `registerValidator`: create the keystore user, import the
      key, send one `addValidator`; any reply body is accepted, and only a
      failed POST or body read is returned as an error. */
  function LegacyRegisterValidator(staker: Staker, password: string, x: LegacyExchange): (r: LegacyResult)
    requires '-' in staker.publicAddress
    ensures r.err.None? <==> x.createUser.Answer? && x.importKey.Answer? && x.addValidator.Answer?
    ensures r.err.None? ==> |r.sent| == 3
  {
    var user := staker.publicAddress;
    var created := [CreateUser(user, password)];
    if x.createUser.Unreachable? then LegacyResult(Some(x.createUser.reason), created)
    else
      var imported := created + [ImportKey(user, password, staker.privateKey)];
      if x.importKey.Unreachable? then LegacyResult(Some(x.importKey.reason), imported)
      else
        var submitted := imported + [LegacySubmission(staker, password, x.now)];
        if x.addValidator.Unreachable? then LegacyResult(Some(x.addValidator.reason), submitted)
        else LegacyResult(None, submitted)
  }

  /** The requests of the older `registerValidator` in order, up to the first
      exchange that failed; a returned error is that exchange's reason. */
  lemma LegacyRequests(staker: Staker, password: string, x: LegacyExchange)
    requires '-' in staker.publicAddress
    ensures var r := LegacyRegisterValidator(staker, password, x);
      && 1 <= |r.sent| <= 3
      && r.sent[0] == CreateUser(staker.publicAddress, password)
      && (|r.sent| >= 2 ==> x.createUser.Answer? && r.sent[1] == ImportKey(staker.publicAddress, password, staker.privateKey))
      && (|r.sent| == 3 ==> x.importKey.Answer? && r.sent[2] == LegacySubmission(staker, password, x.now))
      && (r.err.Some? ==>
            || (|r.sent| == 1 && x.createUser == Unreachable(r.err.value))
            || (|r.sent| == 2 && x.importKey == Unreachable(r.err.value))
            || (|r.sent| == 3 && x.addValidator == Unreachable(r.err.value)))
  {
  }

  /** The older engine sends `addValidator` at most once and never asks the
      node for the validator sets or a transaction status. */
  lemma LegacySubmitsOnce(staker: Staker, password: string, x: LegacyExchange)
    requires '-' in staker.publicAddress
    ensures forall j :: 0 <= j < |LegacyRegisterValidator(staker, password, x).sent| ==>
      var req := LegacyRegisterValidator(staker, password, x).sent[j];
      (req.AddValidator? <==> j == 2) && !req.GetCurrentValidators? && !req.GetPendingValidators? && !req.GetTxStatus?
  {
  }

  /** A node answer without a transaction ID (a rejected `addValidator`)
      is success for the older engine, while the state machine of
      validators.go, without allowError, fails with the node's message. */
  lemma LegacyIgnoresRejection(staker: Staker, password: string, x: LegacyExchange, a: Attempt, o: Observation)
    requires '-' in staker.publicAddress
    requires x.createUser.Answer? && x.importKey.Answer? && x.addValidator.Answer? && x.addValidator.txID == ""
    requires a.phase == Submitting && !o.cancelled && o.reply == x.addValidator
    ensures LegacyRegisterValidator(staker, password, x).err.None?
    ensures Step(IdentityOf(staker, password, false), a, o).phase ==
      Done(Failed(AddRejected(staker.nodeID, x.addValidator.message)))
  {
  }

  /** What the older `RegisterValidators` came to past the port-forward
      setup: the root never bootstrapped within the replies, the bootstrap
      check panicked, or the stakers were processed with this error (or nil). */
  datatype LegacyRegistration = LegacyNeverBootstrapped | LegacyPanicked | LegacyDone(err: Option<string>)

  /** The stakers were registered one after another up to the first error:
      each result is that staker's call; every call before the last
      succeeded; the error is nil exactly when every staker was registered
      without error, and otherwise the last call's error. */
  predicate RegisteredInOrder(stakers: seq<Staker>, passwords: seq<string>, exchanges: seq<LegacyExchange>,
                              err: Option<string>, results: seq<LegacyResult>)
    requires |passwords| == |stakers| && |exchanges| == |stakers|
    requires forall i :: 0 <= i < |stakers| ==> '-' in stakers[i].publicAddress
  {
    && |results| <= |stakers|
    && (forall i :: 0 <= i < |results| ==>
          results[i] == LegacyRegisterValidator(stakers[i], passwords[i], exchanges[i]))
    && (forall i :: 0 <= i < |results| - 1 ==> results[i].err.None?)
    && (err.None? <==> |results| == |stakers| && forall i :: 0 <= i < |results| ==> results[i].err.None?)
    && (err.Some? ==> 0 < |results| && err == results[|results| - 1].err)
  }

  /** The registration loop of the older `RegisterValidators`: register the
      stakers in order, returning the first error and registering nobody
      after it. */
  method RegisterInOrder(stakers: seq<Staker>, passwords: seq<string>, exchanges: seq<LegacyExchange>)
    returns (err: Option<string>, results: seq<LegacyResult>)
    requires |passwords| == |stakers| && |exchanges| == |stakers|
    requires forall i :: 0 <= i < |stakers| ==> '-' in stakers[i].publicAddress
    ensures RegisteredInOrder(stakers, passwords, exchanges, err, results)
  {
    results := [];
    var k := 0;
    while k < |stakers|
      invariant k <= |stakers| && |results| == k
      invariant forall i :: 0 <= i < k ==>
        results[i] == LegacyRegisterValidator(stakers[i], passwords[i], exchanges[i])
      invariant forall i :: 0 <= i < k ==> results[i].err.None?
    {
      var result := LegacyRegisterValidator(stakers[k], passwords[k], exchanges[k]);
      results := results + [result];
      if result.err.Some? {
        err := result.err;
        return;
      }
      k := k + 1;
    }
    err := None;
  }

  /** The older `RegisterValidators`: poll `isBootstrapped` until it returns
      nil, then run the registration loop; nobody is registered before the
      root bootstraps or once the check panics. */
  method LegacyRegisterValidators(boot: seq<InfoReply>, stakers: seq<Staker>, passwords: seq<string>,
                                  exchanges: seq<LegacyExchange>)
    returns (r: LegacyRegistration, results: seq<LegacyResult>)
    requires |passwords| == |stakers| && |exchanges| == |stakers|
    requires forall i :: 0 <= i < |stakers| ==> '-' in stakers[i].publicAddress
    ensures GateOf(boot) == GateWaiting ==> r == LegacyNeverBootstrapped && results == []
    ensures GateOf(boot) == GateCrashed ==> r == LegacyPanicked && results == []
    ensures GateOf(boot) == GateOpen ==>
      r.LegacyDone? && RegisteredInOrder(stakers, passwords, exchanges, r.err, results)
  {
    var gate, _ := AwaitBootstrap(boot);
    results := [];
    if gate == GateWaiting {
      r := LegacyNeverBootstrapped;
    } else if gate == GateCrashed {
      r := LegacyPanicked;
    } else {
      var err;
      err, results := RegisterInOrder(stakers, passwords, exchanges);
      r := LegacyDone(err);
    }
  }

  // ---------------------------------------------------------------------
  // Namespace
  // ---------------------------------------------------------------------

  /** An error from the Kubernetes API: the object already exists, or any
      other failure. */
  datatype ApiError = AlreadyExists | ApiFailure(message: string)

  /** `CreateNamespace`: the create call's error, except that an existing
      namespace counts as success. */
  function CreateNamespace(createErr: Option<ApiError>): (r: Option<ApiError>)
    ensures r.None? <==> createErr.None? || createErr == Some(AlreadyExists)
    ensures r.Some? ==> r == createErr
  {
    if createErr.Some? && createErr.value != AlreadyExists then createErr else None
  }

  // ---------------------------------------------------------------------
  // Staker secrets
  // ---------------------------------------------------------------------

  const SECRET_TYPE_TLS: string := "kubernetes.io/tls"
  const TLS_CERT_KEY: string := "tls.crt"
  const TLS_PRIVATE_KEY_KEY: string := "tls.key"

  /** The apply configuration of a Secret. Its labels are the configuration's
      shared label map. */
  datatype Secret = Secret(
    name: string,
    namespace: string,
    labels: StringMap,
    secretType: string,
    data: map<string, seq<byte>>,
    stringData: map<string, string>)

  /** The secret of the i-th staker: named after the prefix and the index,
      holding the TLS certificate and key, and the node ID, public address
      and private key as strings. */
  function StakerSecret(k: K8sConfig, i: nat, s: Staker): (secret: Secret)
    ensures secret.name == PrefixWith(k, DecimalString(i))
    ensures secret.namespace == k.namespace && secret.labels == k.labels
    ensures secret.secretType == SECRET_TYPE_TLS
    ensures secret.data.Keys == {TLS_CERT_KEY, TLS_PRIVATE_KEY_KEY}
    ensures secret.data[TLS_CERT_KEY] == s.certBytes && secret.data[TLS_PRIVATE_KEY_KEY] == s.keyBytes
    ensures secret.stringData.Keys == {NODE_ID_KEY, "PublicAddress", "PrivateKey"}
    ensures secret.stringData[NODE_ID_KEY] == s.nodeID
    ensures secret.stringData["PublicAddress"] == s.publicAddress
    ensures secret.stringData["PrivateKey"] == s.privateKey
  {
    Secret(PrefixWith(k, DecimalString(i)), k.namespace, k.labels, SECRET_TYPE_TLS,
           map[TLS_CERT_KEY := s.certBytes, TLS_PRIVATE_KEY_KEY := s.keyBytes],
           map[NODE_ID_KEY := s.nodeID, "PublicAddress" := s.publicAddress, "PrivateKey" := s.privateKey])
  }

  /** Different stakers' secrets have different names. */
  lemma StakerSecretNamesDistinct(k: K8sConfig, i: nat, j: nat, s: Staker, t: Staker)
    requires i != j
    ensures StakerSecret(k, i, s).name != StakerSecret(k, j, t).name
  {
    if StakerSecret(k, i, s).name == StakerSecret(k, j, t).name {
      PrefixWithInjective(k, DecimalString(i), DecimalString(j));
      DecimalStringInjective(i, j);
    }
  }

  /** `CreateStakerSecrets`: apply one secret per staker, in order; the
      first failed apply is returned and no later secret is applied.
      `failures` maps the index of an apply call to the error it returns. */
  method CreateStakerSecrets(stakers: seq<Staker>, k: K8sConfig, failures: map<nat, string>)
    returns (err: Option<string>, applied: seq<Secret>)
    ensures |applied| <= |stakers|
    ensures forall i :: 0 <= i < |applied| ==> applied[i] == StakerSecret(k, i, stakers[i])
    ensures forall i :: 0 <= i < |applied| - 1 ==> i !in failures
    ensures err.None? <==> |applied| == |stakers| && forall i :: 0 <= i < |stakers| ==> i !in failures
    ensures err.Some? ==> 0 < |applied| && |applied| - 1 in failures && err.value == failures[|applied| - 1]
  {
    applied := [];
    var i := 0;
    while i < |stakers|
      invariant i <= |stakers| && |applied| == i
      invariant forall j :: 0 <= j < i ==> applied[j] == StakerSecret(k, j, stakers[j])
      invariant forall j :: 0 <= j < i ==> j !in failures
    {
      var s := stakers[i];
      var name := k.k8sPrefix + "-" + DecimalString(i);
      var secret := Secret(name, k.namespace, k.labels, SECRET_TYPE_TLS,
                           map[TLS_CERT_KEY := s.certBytes, TLS_PRIVATE_KEY_KEY := s.keyBytes],
                           map[NODE_ID_KEY := s.nodeID, "PublicAddress" := s.publicAddress, "PrivateKey" := s.privateKey]);
      applied := applied + [secret];
      if i in failures {
        err := Some(failures[i]);
        return;
      }
      i := i + 1;
    }
    err := None;
  }

  /** The node containers' ROOT_NODE_ID variable names the secret written
      for staker 0 and a key that secret holds, so it resolves to the root
      staker's node ID; no other staker's secret has that name. */
  lemma RootNodeIDResolves(o: StatefulSetOptions, c: Container, secrets: seq<Secret>, stakers: seq<Staker>)
    requires IsNodeContainer(o, c)
    requires 0 < |secrets| <= |stakers|
    requires forall i :: 0 <= i < |secrets| ==> secrets[i] == StakerSecret(o.config, i, stakers[i])
    ensures c.env[0].source.SecretKey?
    ensures secrets[0].name == c.env[0].source.secretName && secrets[0].namespace == o.config.namespace
    ensures c.env[0].source.key in secrets[0].stringData
    ensures secrets[0].stringData[c.env[0].source.key] == stakers[0].nodeID
    ensures forall i :: 0 < i < |secrets| ==> secrets[i].name != c.env[0].source.secretName
  {
    assert DecimalString(0) == "0";
    forall i | 0 < i < |secrets|
      ensures secrets[i].name != c.env[0].source.secretName
    {
      StakerSecretNamesDistinct(o.config, 0, i, stakers[0], stakers[i]);
    }
  }

  // ---------------------------------------------------------------------
  // Workload groups
  // ---------------------------------------------------------------------

  /** The options of `CreateApiNodes`: non-validating API nodes with the API
      resource requests. */
  function ApiNodeOptions(k: K8sConfig, replicas: int): (o: StatefulSetOptions)
    ensures !o.isValidator && !o.isRoot && o.requests == k.resources.api
  {
    StatefulSetOptions(k, "api", false, false, replicas, k.resources.api)
  }

  /** The options of `CreateRootNode`: the single root validator. */
  function RootNodeOptions(k: K8sConfig): (o: StatefulSetOptions)
    ensures o.isValidator && o.isRoot && o.replicas == 1 && o.requests == k.resources.validator
  {
    StatefulSetOptions(k, "root", true, true, 1, k.resources.validator)
  }

  /** The options of `CreateValidators`: the non-root validators. */
  function ValidatorOptions(k: K8sConfig, replicas: int): (o: StatefulSetOptions)
    ensures o.isValidator && !o.isRoot && o.requests == k.resources.validator
  {
    StatefulSetOptions(k, "validator", true, false, replicas, k.resources.validator)
  }

  /** The three groups get three different names, so their Services and
      StatefulSets never collide. */
  lemma GroupNamesDistinct(k: K8sConfig, apiReplicas: int, validatorReplicas: int)
    ensures Name(ApiNodeOptions(k, apiReplicas)) != Name(RootNodeOptions(k))
    ensures Name(ApiNodeOptions(k, apiReplicas)) != Name(ValidatorOptions(k, validatorReplicas))
    ensures Name(RootNodeOptions(k)) != Name(ValidatorOptions(k, validatorReplicas))
  {
    NamesDistinct(ApiNodeOptions(k, apiReplicas), RootNodeOptions(k));
    NamesDistinct(ApiNodeOptions(k, apiReplicas), ValidatorOptions(k, validatorReplicas));
    NamesDistinct(RootNodeOptions(k), ValidatorOptions(k, validatorReplicas));
  }

  /** Only the API group's pods run as API nodes and only the root group's
      pod runs as the root; only validators expose the staking port. */
  lemma GroupRoles(k: K8sConfig, apiReplicas: int, validatorReplicas: int, api: Container, root: Container, validator: Container)
    requires IsNodeContainer(ApiNodeOptions(k, apiReplicas), api)
    requires IsNodeContainer(RootNodeOptions(k), root)
    requires IsNodeContainer(ValidatorOptions(k, validatorReplicas), validator)
    ensures api.env[2].source.value == "true" && api.env[4].source.value != "true"
    ensures root.env[2].source.value != "true" && root.env[4].source.value == "true"
    ensures validator.env[2].source.value != "true" && validator.env[4].source.value != "true"
    ensures |api.ports| == 1 && |root.ports| == 2 && |validator.ports| == 2
  {
  }

  // ---------------------------------------------------------------------
  // Ingress
  // ---------------------------------------------------------------------

  const REWRITE_TARGET: string := "nginx.ingress.kubernetes.io/rewrite-target"

  /** One routed path: its pattern, path type, and backend Service and port name. */
  datatype IngressPath = IngressPath(path: string, pathType: string, serviceName: string, portName: string)

  datatype IngressTLS = IngressTLS(hosts: seq<string>, secretName: string)

  /** An Ingress with a single host rule. Its annotations are the caller's
      Go map. */
  datatype Ingress = Ingress(
    name: string,
    namespace: string,
    annotations: StringMap,
    className: string,
    host: string,
    paths: seq<IngressPath>,
    tls: seq<IngressTLS>)

  /** The write `CreateIngress` issues after its lookup. */
  datatype IngressWrite = UpdateIngress | CreateIngressObject

  /** The ingress `CreateIngress` builds: named after the prefix, nginx
      class, on the configured domain; "/<prefix>..." goes to the API
      Service and "/<prefix>/static..." to the root Service, both on the
      rpc port; TLS for the domain from a secret named after prefix and
      domain. */
  predicate IsNetworkIngress(k: K8sConfig, annotations: StringMap, ing: Ingress)
  {
    && ing.name == PrefixWith(k, "ingress") && ing.namespace == k.namespace
    && ing.annotations == annotations && ing.className == "nginx" && ing.host == k.domain
    && ing.paths == [
         IngressPath("/" + k.k8sPrefix + "(/|$)(.*)", "Prefix", PrefixWith(k, "api"), "rpc"),
         IngressPath("/" + k.k8sPrefix + "/static(/|$)(.*)", "Prefix", PrefixWith(k, "root"), "rpc")]
    && ing.tls == [IngressTLS([k.domain], k.k8sPrefix + "-" + k.domain + "-ingress-tls")]
  }

  /** `CreateIngress`: set the rewrite annotation in the caller's map, build
      the ingress, then update it if the lookup found one and create it
      otherwise (any lookup error counts as not found); the write's error
      is returned. */
  method CreateIngress(k: K8sConfig, annotations: StringMap, lookupFound: bool, writeErr: Option<string>)
    returns (err: Option<string>, ing: Ingress, write: IngressWrite)
    modifies annotations
    ensures annotations.entries == old(annotations.entries)[REWRITE_TARGET := "/$2"]
    ensures IsNetworkIngress(k, annotations, ing)
    ensures write == (if lookupFound then UpdateIngress else CreateIngressObject)
    ensures err == writeErr
  {
    annotations.Put(REWRITE_TARGET, "/$2");
    var prefix := k.k8sPrefix;
    ing := Ingress(PrefixWith(k, "ingress"), k.namespace, annotations, "nginx", k.domain,
                   [IngressPath("/" + prefix + "(/|$)(.*)", "Prefix", PrefixWith(k, "api"), "rpc"),
                    IngressPath("/" + prefix + "/static(/|$)(.*)", "Prefix", PrefixWith(k, "root"), "rpc")],
                   [IngressTLS([k.domain], prefix + "-" + k.domain + "-ingress-tls")]);
    write := if lookupFound then UpdateIngress else CreateIngressObject;
    err := writeErr;
  }

  /** The ingress routes to Services that exist: the API group's Service and
      the root group's Service, each by the port name those Services give
      their rpc port. */
  lemma IngressRoutesToGroupServices(k: K8sConfig, annotations: StringMap, ing: Ingress, apiReplicas: int,
                                     apiService: Service, rootService: Service)
    requires IsNetworkIngress(k, annotations, ing)
    requires apiService.name == Name(ApiNodeOptions(k, apiReplicas)) && |apiService.ports| > 0 && apiService.ports[0] == ServicePort("rpc", RPC_PORT, RPC_PORT)
    requires rootService.name == Name(RootNodeOptions(k)) && |rootService.ports| > 0 && rootService.ports[0] == ServicePort("rpc", RPC_PORT, RPC_PORT)
    ensures ing.paths[0].serviceName == apiService.name && ing.paths[0].portName == apiService.ports[0].name
    ensures ing.paths[1].serviceName == rootService.name && ing.paths[1].portName == rootService.ports[0].name
    ensures ing.paths[0].serviceName != ing.paths[1].serviceName
  {
    GroupNamesDistinct(k, apiReplicas, 1);
  }

  // ---------------------------------------------------------------------
  // Cluster deletion
  // ---------------------------------------------------------------------

  /** A delete request: every object of a kind matching the label selector,
      or one Service by name. */
  datatype DeleteCall =
    | DeleteCollection(kind: string, selector: map<string, string>)
    | DeleteService(name: string)

  /** The deletions `DeleteCluster` issues when none fails: StatefulSets,
      the three group Services, ConfigMaps, Secrets, ServiceAccounts,
      RoleBindings, Roles, and the volume claims unless disks are kept. */
  function DeletionPlan(k: K8sConfig, sel: map<string, string>, keepDisks: bool): (plan: seq<DeleteCall>)
    ensures |plan| == if keepDisks then 9 else 10
    ensures DeleteCollection("PersistentVolumeClaim", sel) in plan <==> !keepDisks
    ensures forall i :: 0 <= i < |plan| && plan[i].DeleteCollection? ==> plan[i].selector == sel
  {
    [DeleteCollection("StatefulSet", sel),
     DeleteService(PrefixWith(k, "api")), DeleteService(PrefixWith(k, "root")), DeleteService(PrefixWith(k, "validator")),
     DeleteCollection("ConfigMap", sel), DeleteCollection("Secret", sel), DeleteCollection("ServiceAccount", sel),
     DeleteCollection("RoleBinding", sel), DeleteCollection("Role", sel)]
    + (if keepDisks then [] else [DeleteCollection("PersistentVolumeClaim", sel)])
  }

  /** The Services deleted by name are exactly those of the three workload
      groups. */
  lemma DeletesGroupServices(k: K8sConfig, sel: map<string, string>, keepDisks: bool, apiReplicas: int, validatorReplicas: int)
    ensures forall i :: 0 <= i < |DeletionPlan(k, sel, keepDisks)| && DeletionPlan(k, sel, keepDisks)[i].DeleteService? ==>
      DeletionPlan(k, sel, keepDisks)[i].name in
        {Name(ApiNodeOptions(k, apiReplicas)), Name(RootNodeOptions(k)), Name(ValidatorOptions(k, validatorReplicas))}
    ensures DeleteService(Name(ApiNodeOptions(k, apiReplicas))) in DeletionPlan(k, sel, keepDisks)
    ensures DeleteService(Name(RootNodeOptions(k))) in DeletionPlan(k, sel, keepDisks)
    ensures DeleteService(Name(ValidatorOptions(k, validatorReplicas))) in DeletionPlan(k, sel, keepDisks)
  {
    var plan := DeletionPlan(k, sel, keepDisks);
    assert plan[1] == DeleteService(Name(ApiNodeOptions(k, apiReplicas)));
    assert plan[2] == DeleteService(Name(RootNodeOptions(k)));
    assert plan[3] == DeleteService(Name(ValidatorOptions(k, validatorReplicas)));
  }

  /** Where a stop-at-first-error sequence of calls stands: the calls issued
      are the first ones of the plan; all but the last succeeded; the error
      is the last call's if it failed, and otherwise every call succeeded. */
  predicate Settled(plan: seq<DeleteCall>, failures: map<nat, string>, issued: seq<DeleteCall>, err: Option<string>)
  {
    && |issued| <= |plan| && issued == plan[..|issued|]
    && (forall i :: 0 <= i < |issued| - 1 ==> i !in failures)
    && (err.Some? ==> 0 < |issued| && |issued| - 1 in failures && err.value == failures[|issued| - 1])
    && (err.None? ==> forall i :: 0 <= i < |issued| ==> i !in failures)
  }

  /** Issue one delete call, the next one of the plan, and report its error
      if it has one. */
  method Issue(issued: seq<DeleteCall>, call: DeleteCall, failures: map<nat, string>, ghost plan: seq<DeleteCall>)
    returns (next: seq<DeleteCall>, err: Option<string>)
    requires Settled(plan, failures, issued, None)
    requires |issued| < |plan| && plan[|issued|] == call
    ensures next == issued + [call] && |next| == |issued| + 1
    ensures Settled(plan, failures, next, err)
    ensures err.Some? <==> |issued| in failures
  {
    next := issued + [call];
    assert plan[..|next|] == plan[..|issued|] + [plan[|issued|]];
    err := if |issued| in failures then Some(failures[|issued|]) else None;
  }

  /** The deletions of `DeleteCluster` after the Services: ConfigMaps,
      Secrets, ServiceAccounts, RoleBindings, Roles and, unless disks are
      kept, the volume claims. */
  method DeleteLabelledObjects(k: K8sConfig, sel: map<string, string>, keepDisks: bool, failures: map<nat, string>,
                               issued0: seq<DeleteCall>, ghost plan: seq<DeleteCall>)
    returns (err: Option<string>, issued: seq<DeleteCall>)
    requires plan == DeletionPlan(k, sel, keepDisks)
    requires |issued0| == 4 && Settled(plan, failures, issued0, None)
    ensures Settled(plan, failures, issued, err)
    ensures err.None? ==> issued == plan
  {
    assert plan[4] == DeleteCollection("ConfigMap", sel) && plan[5] == DeleteCollection("Secret", sel);
    assert plan[6] == DeleteCollection("ServiceAccount", sel) && plan[7] == DeleteCollection("RoleBinding", sel);
    assert plan[8] == DeleteCollection("Role", sel);
    assert !keepDisks ==> plan[9] == DeleteCollection("PersistentVolumeClaim", sel);
    issued, err := Issue(issued0, DeleteCollection("ConfigMap", sel), failures, plan);
    if err.Some? { return; }
    issued, err := Issue(issued, DeleteCollection("Secret", sel), failures, plan);
    if err.Some? { return; }
    issued, err := Issue(issued, DeleteCollection("ServiceAccount", sel), failures, plan);
    if err.Some? { return; }
    issued, err := Issue(issued, DeleteCollection("RoleBinding", sel), failures, plan);
    if err.Some? { return; }
    issued, err := Issue(issued, DeleteCollection("Role", sel), failures, plan);
    if err.Some? { return; }
    if !keepDisks {
      issued, err := Issue(issued, DeleteCollection("PersistentVolumeClaim", sel), failures, plan);
      if err.Some? { return; }
    }
    assert issued == plan;
  }

  /** The deletions of `DeleteCluster` for the match labels sel: the
      StatefulSets, the three group Services, then the labelled objects,
      stopping at the first failing call. */
  method DeleteSelected(k: K8sConfig, sel: map<string, string>, keepDisks: bool, failures: map<nat, string>)
    returns (err: Option<string>, issued: seq<DeleteCall>)
    ensures Settled(DeletionPlan(k, sel, keepDisks), failures, issued, err)
    ensures err.None? <==>
      issued == DeletionPlan(k, sel, keepDisks) && forall i :: 0 <= i < |issued| ==> i !in failures
  {
    ghost var plan := DeletionPlan(k, sel, keepDisks);
    assert plan[0] == DeleteCollection("StatefulSet", sel);
    assert forall g :: 0 <= g < 3 ==> plan[1 + g] == DeleteService(PrefixWith(k, ["api", "root", "validator"][g]));
    issued := [];
    issued, err := Issue(issued, DeleteCollection("StatefulSet", sel), failures, plan);
    if err.Some? { return; }
    var groups := ["api", "root", "validator"];
    var g := 0;
    while g < |groups|
      invariant g <= |groups| && |issued| == 1 + g
      invariant Settled(plan, failures, issued, None)
    {
      issued, err := Issue(issued, DeleteService(PrefixWith(k, groups[g])), failures, plan);
      if err.Some? { return; }
      g := g + 1;
    }
    err, issued := DeleteLabelledObjects(k, sel, keepDisks, failures, issued, plan);
  }

  /** `DeleteCluster`: delete everything the network created, selecting by
      the configuration's labels, stopping at the first failing call.
      `failures` maps the index of a call to the error it returns. */
  method DeleteCluster(k: K8sConfig, keepDisks: bool, failures: map<nat, string>)
    returns (err: Option<string>, issued: seq<DeleteCall>)
    ensures Settled(DeletionPlan(k, k.labels.entries - {""}, keepDisks), failures, issued, err)
    ensures err.None? <==>
      issued == DeletionPlan(k, k.labels.entries - {""}, keepDisks) && forall i :: 0 <= i < |issued| ==> i !in failures
  {
    var selector := Selector(k);
    err, issued := DeleteSelected(k, selector.matchLabels, keepDisks, failures);
  }
}

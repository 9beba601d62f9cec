/** pkg/version1/k8s/stateful_sets.go: the Service and StatefulSet of one
    workload group, the containers in its pod template, and the
    create-or-update-then-wait sequence against the cluster. Cluster calls
    are not made: their answers are parameters, and the calls issued are
    returned in order. */
module Workloads {
  import opened GoBasics
  import opened Config
  import opened Options

  datatype ServicePort = ServicePort(name: string, port: int, targetPort: int)

  /** A Service. Its metadata labels and its selector are Go maps, so they
      are shared references. */
  datatype Service = Service(
    name: string,
    namespace: string,
    labels: StringMap,
    serviceType: string,
    ports: seq<ServicePort>,
    selector: StringMap)

  datatype ContainerPort = ContainerPort(name: string, containerPort: int)

  datatype VolumeMount = VolumeMount(name: string, mountPath: string, readOnly: bool)

  /** Where an environment variable's value comes from: a literal, a key of a
      Secret, or a field of the pod. */
  datatype EnvSource =
    | Literal(value: string)
    | SecretKey(secretName: string, key: string)
    | PodField(fieldPath: string)

  datatype EnvVar = EnvVar(name: string, source: EnvSource)

  datatype Container = Container(
    name: string,
    image: string,
    requests: ResourceList,
    env: seq<EnvVar>,
    command: seq<string>,
    ports: seq<ContainerPort>,
    volumeMounts: seq<VolumeMount>)

  datatype VolumeSource = ConfigMapVolume(configMap: string, defaultMode: int) | EmptyDir

  datatype Volume = Volume(name: string, source: VolumeSource)

  /** A persistent volume claim template: name, access mode, requested storage. */
  datatype ClaimTemplate = ClaimTemplate(name: string, accessMode: string, storage: string)

  /** A StatefulSet. The object labels, the selector's match labels and the
      pod template labels are the same Go map. */
  datatype StatefulSet = StatefulSet(
    name: string,
    namespace: string,
    labels: StringMap,
    podManagementPolicy: string,
    replicas: int,
    selector: StringMap,
    templateLabels: StringMap,
    imagePullSecrets: seq<string>,
    serviceAccountName: string,
    initContainers: seq<Container>,
    containers: seq<Container>,
    volumes: seq<Volume>,
    claimTemplates: seq<ClaimTemplate>)

  const RPC_PORT: int := 9650
  const STAKING_PORT: int := 9651
  /** `int32(0555)`: octal 555. */
  const CONFIG_MAP_MODE: int := 5 * 64 + 5 * 8 + 5
  const CERT_MOUNT: VolumeMount := VolumeMount("cert-vol", "/mnt/cert", false)

  /** The Service of a group as `buildService` makes it. */
  predicate IsGroupService(o: StatefulSetOptions, svc: Service)
  {
    && svc.name == Name(o) && svc.namespace == o.config.namespace
    && svc.serviceType == "ClusterIP"
    && |svc.ports| == (if o.isValidator then 2 else 1)
    && svc.ports[0] == ServicePort("rpc", RPC_PORT, RPC_PORT)
    && (o.isValidator ==> svc.ports[1] == ServicePort("staking", STAKING_PORT, STAKING_PORT))
    && svc.labels == o.config.labels && svc.selector == o.config.labels
  }

  /** `buildService`: a ClusterIP Service named after the group, with the
      rpc port and, for validators, the staking port; it carries the shared
      configuration labels, which `Labels()` has just tagged with the group's
      type, and selects on the same map. */
  method BuildService(o: StatefulSetOptions) returns (svc: Service)
    modifies o.config.labels
    ensures IsGroupService(o, svc)
    ensures o.config.labels.entries == WithTypeLabel(old(o.config.labels.entries), o.typ)
  {
    var ports := [ServicePort("rpc", RPC_PORT, RPC_PORT)];
    if o.isValidator {
      ports := ports + [ServicePort("staking", STAKING_PORT, STAKING_PORT)];
    }
    var metadataLabels := o.config.labels;
    var selector := Labels(o);
    svc := Service(Name(o), o.config.namespace, metadataLabels, "ClusterIP", ports, selector);
  }

  /** `defaultVolumeMounts`: configuration (read-only), data and scripts. */
  function DefaultVolumeMounts(): (r: seq<VolumeMount>)
    ensures |r| == 3
    ensures forall i, j :: 0 <= i < j < |r| ==> r[i].name != r[j].name && r[i].mountPath != r[j].mountPath
    ensures forall i :: 0 <= i < |r| ==> (r[i].readOnly <==> r[i].name == "conf-vol")
    ensures forall i :: 0 <= i < |r| ==> r[i].name != CERT_MOUNT.name && r[i].mountPath != CERT_MOUNT.mountPath
  {
    [VolumeMount("conf-vol", "/mnt/conf", true),
     VolumeMount("data-vol", "/mnt/data", false),
     VolumeMount("scripts-vol", "/mnt/scripts", false)]
  }

  /** `defaultVolumes`: the configuration and scripts ConfigMaps of the
      network, mode 0555, and an empty directory for certificates. */
  function DefaultVolumes(k: K8sConfig): (r: seq<Volume>)
    ensures |r| == 3
    ensures forall i, j :: 0 <= i < j < |r| ==> r[i].name != r[j].name
    ensures r[0] == Volume("conf-vol", ConfigMapVolume(k.k8sPrefix, CONFIG_MAP_MODE))
    ensures r[1] == Volume("scripts-vol", ConfigMapVolume(PrefixWith(k, "scripts"), CONFIG_MAP_MODE))
    ensures r[2] == Volume(CERT_MOUNT.name, EmptyDir)
  {
    assert k.k8sPrefix + "-scripts" == PrefixWith(k, "scripts");
    [Volume("conf-vol", ConfigMapVolume(k.k8sPrefix, CONFIG_MAP_MODE)),
     Volume("scripts-vol", ConfigMapVolume(k.k8sPrefix + "-scripts", CONFIG_MAP_MODE)),
     Volume("cert-vol", EmptyDir)]
  }

  /** The node container as `buildContainer` makes it. */
  predicate IsNodeContainer(o: StatefulSetOptions, c: Container)
  {
    && c.name == "camino-node" && c.image == o.config.image && c.requests == o.requests
    && c.command == ["bash", "/mnt/scripts/start.sh"]
    && |c.ports| == (if o.isValidator then 2 else 1)
    && c.ports[0] == ContainerPort("rpc", RPC_PORT)
    && (o.isValidator ==> c.ports[1] == ContainerPort("staking", STAKING_PORT))
    && c.volumeMounts == DefaultVolumeMounts() + (if o.isValidator then [CERT_MOUNT] else [])
    && |c.env| == 5
    && c.env[0] == EnvVar("ROOT_NODE_ID", SecretKey(PrefixWith(o.config, "0"), NODE_ID_KEY))
    && c.env[1] == EnvVar("NETWORK_NAME", Literal(o.config.k8sPrefix))
    && c.env[2] == EnvVar("IS_API_NODE", Literal(FormatBool(!o.isValidator && !o.isRoot)))
    && c.env[3] == EnvVar("POD_IP", PodField("status.podIP"))
    && c.env[4] == EnvVar("IS_ROOT", Literal(FormatBool(o.isValidator && o.isRoot)))
  }

  /** `buildContainer`: the camino-node container; validators also expose the
      staking port and mount the certificate volume after the default mounts.
      A pod is an API node exactly when it is neither validator nor root, and
      is the root exactly when it is both. */
  method BuildContainer(o: StatefulSetOptions) returns (c: Container)
    ensures IsNodeContainer(o, c)
    ensures c.env[2].source.value == "true" <==> !o.isValidator && !o.isRoot
    ensures c.env[4].source.value == "true" <==> o.isValidator && o.isRoot
    ensures !(c.env[2].source.value == "true" && c.env[4].source.value == "true")
  {
    var ports := [ContainerPort("rpc", RPC_PORT)];
    var volumeMounts := DefaultVolumeMounts();
    if o.isValidator {
      ports := ports + [ContainerPort("staking", STAKING_PORT)];
      volumeMounts := volumeMounts + [VolumeMount("cert-vol", "/mnt/cert", false)];
    }
    var env := [
      EnvVar("ROOT_NODE_ID", SecretKey(o.config.k8sPrefix + "-0", "Node-ID")),
      EnvVar("NETWORK_NAME", Literal(o.config.k8sPrefix)),
      EnvVar("IS_API_NODE", Literal(FormatBool(!(o.isValidator || o.isRoot)))),
      EnvVar("POD_IP", PodField("status.podIP")),
      EnvVar("IS_ROOT", Literal(FormatBool(o.isValidator && o.isRoot)))];
    assert o.config.k8sPrefix + "-0" == PrefixWith(o.config, "0");
    c := Container("camino-node", o.config.image, o.requests, env,
                   ["bash", "/mnt/scripts/start.sh"], ports, volumeMounts);
  }

  /** The init container as `validatorInitContainer` makes it. */
  predicate IsInitContainer(o: StatefulSetOptions, c: Container)
  {
    && c.name == "init-certificates" && c.image == "bitnami/kubectl:latest"
    && c.command == ["bash", "/mnt/scripts/init.sh"]
    && c.ports == [] && c.requests == map[]
    && |c.env| == (if o.isRoot then 3 else 2)
    && c.env[0] == EnvVar("NAMESPACE", PodField("metadata.namespace"))
    && c.env[1] == EnvVar("SECRET_PREFIX", Literal(o.config.k8sPrefix))
    && (o.isRoot ==> c.env[2] == EnvVar("IS_ROOT", Literal("true")))
    && c.volumeMounts == DefaultVolumeMounts() + [CERT_MOUNT]
  }

  /** `validatorInitContainer`: the certificate initialiser; it sets IS_ROOT
      (to "true") exactly for the root group and mounts the certificate
      volume writable after the default mounts. */
  method ValidatorInitContainer(o: StatefulSetOptions) returns (c: Container)
    ensures IsInitContainer(o, c)
    ensures (exists i :: 0 <= i < |c.env| && c.env[i] == EnvVar("IS_ROOT", Literal("true"))) <==> o.isRoot
  {
    var envs := [
      EnvVar("NAMESPACE", PodField("metadata.namespace")),
      EnvVar("SECRET_PREFIX", Literal(o.config.k8sPrefix))];
    if o.isRoot {
      envs := envs + [EnvVar("IS_ROOT", Literal("true"))];
    }
    c := Container("init-certificates", "bitnami/kubectl:latest", map[], envs,
                   ["bash", "/mnt/scripts/init.sh"], [],
                   DefaultVolumeMounts() + [VolumeMount("cert-vol", "/mnt/cert", false)]);
  }

  /** A pod volume or a claim template of the StatefulSet has this name. */
  predicate Declared(sts: StatefulSet, name: string)
  {
    || (exists i :: 0 <= i < |sts.volumes| && sts.volumes[i].name == name)
    || (exists i :: 0 <= i < |sts.claimTemplates| && sts.claimTemplates[i].name == name)
  }

  /** Every volume mount of every container refers to a pod volume or to the
      claim template. */
  predicate MountsDeclared(sts: StatefulSet)
  {
    && (forall c, j :: c in sts.initContainers && 0 <= j < |c.volumeMounts| ==> Declared(sts, c.volumeMounts[j].name))
    && (forall c, j :: c in sts.containers && 0 <= j < |c.volumeMounts| ==> Declared(sts, c.volumeMounts[j].name))
  }

  /** With the default volumes and the data claim, the default mounts and the
      certificate mount are all declared. */
  lemma DefaultMountsDeclared(sts: StatefulSet, k: K8sConfig)
    requires sts.volumes == DefaultVolumes(k)
    requires sts.claimTemplates == [ClaimTemplate("data-vol", "ReadWriteOnce", "10Gi")]
    requires forall c :: c in sts.initContainers + sts.containers ==>
      c.volumeMounts == DefaultVolumeMounts() || c.volumeMounts == DefaultVolumeMounts() + [CERT_MOUNT]
    ensures MountsDeclared(sts)
  {
    assert Declared(sts, "conf-vol") by { assert sts.volumes[0].name == "conf-vol"; }
    assert Declared(sts, "scripts-vol") by { assert sts.volumes[1].name == "scripts-vol"; }
    assert Declared(sts, "cert-vol") by { assert sts.volumes[2].name == "cert-vol"; }
    assert Declared(sts, "data-vol") by { assert sts.claimTemplates[0].name == "data-vol"; }
    var all := DefaultVolumeMounts() + [CERT_MOUNT];
    assert forall j :: 0 <= j < |all| ==> all[j].name in {"conf-vol", "data-vol", "scripts-vol", "cert-vol"};
    forall c, j | c in sts.initContainers + sts.containers && 0 <= j < |c.volumeMounts|
      ensures Declared(sts, c.volumeMounts[j].name)
    {
      assert c.volumeMounts[j] == all[j];
    }
  }

  /** The StatefulSet of a group as `baseStateFullSet` makes it. */
  predicate IsGroupStatefulSet(o: StatefulSetOptions, sts: StatefulSet)
  {
    && sts.name == Name(o) && sts.namespace == o.config.namespace
    && sts.labels == o.config.labels && sts.selector == o.config.labels && sts.templateLabels == o.config.labels
    && sts.podManagementPolicy == "Parallel" && sts.replicas == o.replicas
    && sts.imagePullSecrets == ["gcr-image-pull"]
    && sts.serviceAccountName == PrefixWith(o.config, "init-container")
    && |sts.initContainers| == (if o.isValidator then 1 else 0)
    && (o.isValidator ==> IsInitContainer(o, sts.initContainers[0]))
    && |sts.containers| == 1 && IsNodeContainer(o, sts.containers[0])
    && sts.volumes == DefaultVolumes(o.config)
    && sts.claimTemplates == [ClaimTemplate("data-vol", "ReadWriteOnce", "10Gi")]
  }

  /** `baseStateFullSet`: the StatefulSet of a group, with one init container
      for validator groups and none otherwise, one node container, the
      default volumes and one 10Gi data claim. */
  method BaseStatefulSet(o: StatefulSetOptions) returns (sts: StatefulSet)
    modifies o.config.labels
    ensures IsGroupStatefulSet(o, sts)
    ensures MountsDeclared(sts)
    ensures o.config.labels.entries == WithTypeLabel(old(o.config.labels.entries), o.typ)
  {
    var labels := Labels(o);
    var initContainers := [];
    if o.isValidator {
      var init := ValidatorInitContainer(o);
      initContainers := initContainers + [init];
    }
    var node := BuildContainer(o);
    sts := StatefulSet(Name(o), o.config.namespace, labels, "Parallel", o.replicas, labels, labels,
                       ["gcr-image-pull"], PrefixWith(o.config, "init-container"),
                       initContainers, [node], DefaultVolumes(o.config),
                       [ClaimTemplate("data-vol", "ReadWriteOnce", "10Gi")]);
    DefaultMountsDeclared(sts, o.config);
  }

  /** The replica counts a StatefulSet reports. */
  datatype WorkloadStatus = WorkloadStatus(availableReplicas: int, updatedReplicas: int)

  /** What the watch channel delivers: a StatefulSet with its status, or some
      other object, which is skipped. */
  datatype WatchEvent = OtherObject | StatefulSetEvent(status: WorkloadStatus)

  /** The condition on which the watch is stopped: every desired replica is
      both available and updated. */
  predicate Ready(e: WatchEvent, replicas: int)
  {
    e.StatefulSetEvent? && e.status.availableReplicas == replicas && e.status.updatedReplicas == replicas
  }

  /** The watch loop of `createStatefulSetWithOptions`: events are read until
      the channel closes. The model takes the channel to close right after
      the first ready event, when the watch is stopped, so the loop reads up
      to that event; without one it reads every event delivered. An event
      already in flight when the watch stops is not modelled; the result is
      nil either way. */
  method WatchUntilReady(replicas: int, events: seq<WatchEvent>) returns (seen: nat)
    ensures seen <= |events|
    ensures forall i :: 0 <= i < seen - 1 ==> !Ready(events[i], replicas)
    ensures seen < |events| ==> 0 < seen && Ready(events[seen - 1], replicas)
    ensures seen == |events| && seen > 0 && !Ready(events[seen - 1], replicas) ==>
      forall i :: 0 <= i < |events| ==> !Ready(events[i], replicas)
  {
    seen := 0;
    var stopped := false;
    while seen < |events| && !stopped
      invariant seen <= |events|
      invariant forall i :: 0 <= i < seen - 1 ==> !Ready(events[i], replicas)
      invariant stopped <==> 0 < seen && Ready(events[seen - 1], replicas)
    {
      var event := events[seen];
      seen := seen + 1;
      if event.OtherObject? {
        continue;
      }
      if event.status.availableReplicas == replicas && event.status.updatedReplicas == replicas {
        stopped := true;
      }
    }
  }

  /** The requests `createStatefulSetWithOptions` makes, with the objects sent. */
  datatype ClusterCall =
    | GetService(name: string)
    | UpdateService(service: Service)
    | CreateService(service: Service)
    | GetStatefulSet(name: string)
    | UpdateStatefulSet(statefulSet: StatefulSet)
    | CreateStatefulSet(statefulSet: StatefulSet)
    | WatchStatefulSet(name: string)

  /** The cluster's answers: whether each Get succeeded (any error counts as
      "not found"), the error of each Create/Update, the status of the
      written StatefulSet, the error of opening the watch, and the events
      the watch delivers before its channel closes. */
  datatype ClusterAnswers = ClusterAnswers(
    serviceFound: bool,
    serviceWrite: Option<string>,
    statefulSetFound: bool,
    statefulSetWrite: Result<WorkloadStatus, string>,
    watchOpen: Option<string>,
    events: seq<WatchEvent>)

  /** Whether the watch is skipped: only the available replicas are compared. */
  predicate SkipsWatch(written: WorkloadStatus, replicas: int)
  {
    written.availableReplicas == replicas
  }

  /** The watch is skipped for a StatefulSet whose replicas are all available
      even if some are not updated yet, although the watch itself would not
      stop on such a status. */
  lemma SkipIgnoresUpdatedReplicas(replicas: int, updated: int)
    requires updated != replicas
    ensures SkipsWatch(WorkloadStatus(replicas, updated), replicas)
    ensures !Ready(StatefulSetEvent(WorkloadStatus(replicas, updated)), replicas)
  {
  }

  /** The Service half of `createStatefulSetWithOptions`: Get, then Update
      the Service if it was found and Create it otherwise. */
  method ApplyService(o: StatefulSetOptions, answers: ClusterAnswers)
    returns (err: Option<string>, calls: seq<ClusterCall>)
    modifies o.config.labels
    ensures o.config.labels.entries == WithTypeLabel(old(o.config.labels.entries), o.typ)
    ensures |calls| == 2 && calls[0] == GetService(Name(o))
    ensures calls[1].UpdateService? <==> answers.serviceFound
    ensures calls[1].UpdateService? || calls[1].CreateService?
    ensures IsGroupService(o, calls[1].service)
    ensures err == answers.serviceWrite
  {
    var svc := BuildService(o);
    calls := [GetService(Name(o))];
    if answers.serviceFound {
      calls := calls + [UpdateService(svc)];
    } else {
      calls := calls + [CreateService(svc)];
    }
    err := answers.serviceWrite;
  }

  /** What the StatefulSet half of `createStatefulSetWithOptions` did, given
      the cluster's answers: the calls it issued, the error it returned and
      how many watch events it read. */
  predicate StatefulSetApplied(o: StatefulSetOptions, answers: ClusterAnswers,
                               err: Option<string>, calls: seq<ClusterCall>, eventsSeen: nat)
  {
    && |calls| >= 2 && calls[0] == GetStatefulSet(Name(o))
    && (calls[1].UpdateStatefulSet? <==> answers.statefulSetFound)
    && (calls[1].UpdateStatefulSet? || calls[1].CreateStatefulSet?)
    && IsGroupStatefulSet(o, calls[1].statefulSet) && MountsDeclared(calls[1].statefulSet)
    && (answers.statefulSetWrite.Err? ==>
          err == Some(answers.statefulSetWrite.error) && |calls| == 2 && eventsSeen == 0)
    && (answers.statefulSetWrite.Ok? ==>
          var written := answers.statefulSetWrite.value;
          && (SkipsWatch(written, o.replicas) ==> err == None && |calls| == 2 && eventsSeen == 0)
          && (!SkipsWatch(written, o.replicas) ==>
                && |calls| == 3 && calls[2] == WatchStatefulSet(Name(o))
                && (answers.watchOpen.Some? ==> err == answers.watchOpen && eventsSeen == 0)
                && (answers.watchOpen.None? ==>
                      && err == None && eventsSeen <= |answers.events|
                      && (eventsSeen < |answers.events| ==> 0 < eventsSeen && Ready(answers.events[eventsSeen - 1], o.replicas))
                      && (forall i :: 0 <= i < eventsSeen - 1 ==> !Ready(answers.events[i], o.replicas)))))
  }

  /** The StatefulSet half of `createStatefulSetWithOptions`: build the
      group's StatefulSet, Get it, then Update it if found and Create it
      otherwise; then watch it unless the written object already has all
      replicas available. */
  method ApplyStatefulSet(o: StatefulSetOptions, answers: ClusterAnswers)
    returns (err: Option<string>, calls: seq<ClusterCall>, eventsSeen: nat)
    modifies o.config.labels
    ensures o.config.labels.entries == WithTypeLabel(old(o.config.labels.entries), o.typ)
    ensures StatefulSetApplied(o, answers, err, calls, eventsSeen)
  {
    var sts := BaseStatefulSet(o);
    var name := Name(o);
    eventsSeen := 0;
    calls := [GetStatefulSet(name)];
    if answers.statefulSetFound {
      calls := calls + [UpdateStatefulSet(sts)];
    } else {
      calls := calls + [CreateStatefulSet(sts)];
    }
    if answers.statefulSetWrite.Err? {
      err := Some(answers.statefulSetWrite.error);
      return;
    }

    var written := answers.statefulSetWrite.value;
    if written.availableReplicas != o.replicas {
      calls := calls + [WatchStatefulSet(name)];
      if answers.watchOpen.Some? {
        err := answers.watchOpen;
        return;
      }
      eventsSeen := WatchUntilReady(o.replicas, answers.events);
    }
    err := None;
  }

  /** `createStatefulSetWithOptions`: update the Service if Get found it and
      create it otherwise, then the same for the StatefulSet, then, unless
      all desired replicas are already available, watch it until ready. */
  method CreateStatefulSetWithOptions(o: StatefulSetOptions, answers: ClusterAnswers)
    returns (err: Option<string>, calls: seq<ClusterCall>, eventsSeen: nat)
    modifies o.config.labels
    ensures o.config.labels.entries == WithTypeLabel(old(o.config.labels.entries), o.typ)
    ensures |calls| >= 2 && calls[0] == GetService(Name(o))
    ensures calls[1].UpdateService? <==> answers.serviceFound
    ensures calls[1].UpdateService? || calls[1].CreateService?
    ensures IsGroupService(o, calls[1].service)
    ensures answers.serviceWrite.Some? ==> err == answers.serviceWrite && |calls| == 2 && eventsSeen == 0
    ensures answers.serviceWrite.None? ==> StatefulSetApplied(o, answers, err, calls[2..], eventsSeen)
  {
    var svcErr, svcCalls := ApplyService(o, answers);
    calls := svcCalls;
    eventsSeen := 0;
    if svcErr.Some? {
      err := svcErr;
      return;
    }
    WithTypeLabelIdempotent(old(o.config.labels.entries), o.typ);
    var stsCalls;
    err, stsCalls, eventsSeen := ApplyStatefulSet(o, answers);
    calls := calls + stsCalls;
    assert calls[2..] == stsCalls;
  }
}

/** pkg/version1/k8s/types.go: the options of one workload group (root,
    validator or api StatefulSet), its name, and its label set. */
module Options {
  import opened GoBasics
  import opened Config

  /** The secret key under which a staker's node ID is stored; the secret
      writer and the node container's ROOT_NODE_ID lookup both use it. */
  const NODE_ID_KEY: string := "Node-ID"

  /** `stateFullSetOptions`; `replicas` is an int32 in the source. */
  datatype StatefulSetOptions = StatefulSetOptions(
    config: K8sConfig,
    typ: string,
    isValidator: bool,
    isRoot: bool,
    replicas: int,
    requests: ResourceList)

  /** `Name()`: the configured prefix, a dash, then the workload type. */
  function Name(o: StatefulSetOptions): (r: string)
    ensures r == o.config.k8sPrefix + "-" + o.typ
  {
    PrefixWith(o.config, o.typ)
  }

  /** Workload groups of different types get different names. */
  lemma NamesDistinct(o: StatefulSetOptions, p: StatefulSetOptions)
    requires o.config.k8sPrefix == p.config.k8sPrefix && o.typ != p.typ
    ensures Name(o) != Name(p)
  {
    if Name(o) == Name(p) {
      PrefixWithInjective(o.config, o.typ, p.typ);
    }
  }

  /** The label set `Labels()` leaves behind: every configured label, with
      "type" set to the workload type (replacing an earlier "type"). */
  function WithTypeLabel(m: map<string, string>, typ: string): (r: map<string, string>)
    ensures r.Keys == m.Keys + {"type"}
    ensures r["type"] == typ
    ensures forall key :: key in m && key != "type" ==> r[key] == m[key]
  {
    m["type" := typ]
  }

  /** A second `Labels()` call with the same type changes nothing more. */
  lemma WithTypeLabelIdempotent(m: map<string, string>, typ: string)
    ensures WithTypeLabel(WithTypeLabel(m, typ), typ) == WithTypeLabel(m, typ)
  {
  }

  /** `Labels()`: writes "type" into the configuration's own label map (the
      map is shared, so the caller's configuration changes too) and returns
      that same map. */
  method Labels(o: StatefulSetOptions) returns (labels: StringMap)
    modifies o.config.labels
    ensures labels == o.config.labels
    ensures labels.entries == WithTypeLabel(old(o.config.labels.entries), o.typ)
  {
    labels := o.config.labels;
    labels.Put("type", o.typ);
  }

  /** Calling `Labels()` twice returns the same map, with the same contents
      as after the first call. */
  method LabelsTwice(o: StatefulSetOptions) returns (first: StringMap, second: StringMap)
    modifies o.config.labels
    ensures first == second == o.config.labels
    ensures second.entries == WithTypeLabel(old(o.config.labels.entries), o.typ)
  {
    first := Labels(o);
    second := Labels(o);
    WithTypeLabelIdempotent(old(o.config.labels.entries), o.typ);
  }
}

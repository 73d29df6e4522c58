/**
 * The ORCA provider (pkg/provider): the registry of the pods scheduled to the
 * virtual node, and the labels and taints it puts on the node. The registry is
 * updated in place; reads return copies, which are plain values here.
 */
module Provider {
  import opened Wrappers
  import opened Text
  import opened Kube
  import opened Configuration
  import opened Instances

  /** Node labels the provider sets, whatever the configuration says. */
  const LabelProvider := "orca.research/provider"
  const LabelVersion := "orca.research/version"
  const CloudProvider := "aws"

  const ScheduledReason := "Scheduled"

  datatype ProviderError =
    | NilConfig
    | EmptyNodeName
      /** "failed to create instance selector", wrapping why */
    | SelectorUnavailable(cause: SelectError)
    | NilPod
    | MissingAnnotations(namespace: string, name: string)
      /** "failed to select instance type", wrapping why */
    | SelectionFailed(cause: SelectError)
    | PodNotFound(namespace: string, name: string)

  /** The pod as CreatePod stores it: pending, scheduled, with a message naming the instance type. */
  function Scheduled(pod: Pod, instanceType: string): (r: Pod)
    ensures r.(status := pod.status) == pod
    ensures r.status.phase == PodPending
    ensures |r.status.conditions| == 1
    ensures var c := r.status.conditions[0];
      c.kind == PodScheduled && c.status == ConditionTrue && c.reason == ScheduledReason &&
      Contains(c.message, instanceType)
  {
    var message := "Pod scheduled to ORCA node, launching " + instanceType + " instance";
    assert OccursAt(message, instanceType, 38);
    pod.(status := PodStatus(PodPending, [PodCondition(PodScheduled, ConditionTrue, ScheduledReason, message)]))
  }

  /** Some registered pod has this namespace and name. */
  predicate HasPod(pods: map<string, Pod>, namespace: string, name: string) {
    exists uid :: uid in pods && pods[uid].namespace == namespace && pods[uid].name == name
  }

  /**
   * The node's labels after ConfigureNode: its own labels, overlaid by the
   * configured ones, then the provider and version labels, which always win.
   */
  function NodeLabels(existing: Option<map<string, string>>, configured: map<string, string>, version: string): (r: map<string, string>)
    ensures r.Keys == existing.GetOr(map[]).Keys + configured.Keys + {LabelProvider, LabelVersion}
    ensures r[LabelProvider] == CloudProvider && r[LabelVersion] == version
    ensures forall k :: k in configured && k != LabelProvider && k != LabelVersion ==> r[k] == configured[k]
    ensures forall k :: k in existing.GetOr(map[]) && k !in configured && k != LabelProvider && k != LabelVersion ==>
      r[k] == existing.GetOr(map[])[k]
  {
    (existing.GetOr(map[]) + configured)[LabelProvider := CloudProvider][LabelVersion := version]
  }

  /**
   * The conditions ConfigureNode reports: the node is ready, and under no
   * memory, disk or PID pressure, with its network available.
   */
  function ProviderConditions(): (cs: seq<NodeCondition>)
    ensures |cs| == 5 && cs[0].kind == NodeReady
    ensures forall i, j :: 0 <= i < j < |cs| ==> cs[i].kind != cs[j].kind
    ensures forall i :: 0 <= i < |cs| ==> (cs[i].status == ConditionTrue <==> cs[i].kind == NodeReady)
    ensures forall i :: 0 <= i < |cs| ==> cs[i].status in {ConditionTrue, ConditionFalse}
  {
    [ NodeCondition(NodeReady, ConditionTrue, "OrcaProviderReady", "ORCA provider is ready"),
      NodeCondition(NodeMemoryPressure, ConditionFalse, "OrcaProviderHasSufficientMemory", "ORCA provider has sufficient memory"),
      NodeCondition(NodeDiskPressure, ConditionFalse, "OrcaProviderHasNoDiskPressure", "ORCA provider has no disk pressure"),
      NodeCondition(NodePIDPressure, ConditionFalse, "OrcaProviderHasSufficientPID", "ORCA provider has sufficient PID"),
      NodeCondition(NodeNetworkUnavailable, ConditionFalse, "OrcaProviderNetworkReady", "ORCA provider network is ready") ]
  }

  /** The system info ConfigureNode reports: the provider's version as kubelet, the configured operating system. */
  function ProviderNodeInfo(version: string, operatingSystem: string): NodeSystemInfo {
    NodeSystemInfo("amd64", "", "orca://1.0.0", "", "", version, "", operatingSystem, "AWS EC2", "")
  }

  /** `m` is `base` with the entries of `top` written in, except for the keys still `pending`. */
  predicate OverlaidExcept(base: map<string, string>, top: map<string, string>, m: map<string, string>, pending: set<string>) {
    && pending <= top.Keys
    && m.Keys == base.Keys + (top.Keys - pending)
    && (forall k :: k in top && k !in pending ==> m[k] == top[k])
    && (forall k :: k in base && (k !in top || k in pending) ==> m[k] == base[k])
  }

  /** Writing one pending key keeps the overlay invariant with one key fewer pending. */
  lemma OverlayStep(base: map<string, string>, top: map<string, string>, m: map<string, string>, pending: set<string>, k: string)
    requires OverlaidExcept(base, top, m, pending) && k in pending
    ensures OverlaidExcept(base, top, m[k := top[k]], pending - {k})
  {
  }

  /** With nothing pending, the overlay is done. */
  lemma OverlayDone(base: map<string, string>, top: map<string, string>, m: map<string, string>)
    requires OverlaidExcept(base, top, m, {})
    ensures m == base + top
  {
  }

  /** Writes every entry of `top` into `base`, one key at a time: the overlay `base + top`. */
  method Overlay(base: map<string, string>, top: map<string, string>) returns (m: map<string, string>)
    ensures m == base + top
  {
    m := base;
    var remaining := top.Keys;
    while remaining != {}
      invariant OverlaidExcept(base, top, m, remaining)
      decreases |remaining|
    {
      var k :| k in remaining;
      OverlayStep(base, top, m, remaining, k);
      m := m[k := top[k]];
      remaining := remaining - {k};
    }
    OverlayDone(base, top, m);
  }

  /** The provider behind the virtual node. */
  class OrcaProvider {
    const config: Config
    /** The selector chain NewSelector built from the configured selection mode. */
    const selector: seq<Strategy>
    const nodeName: string
    const namespace: string
    const version: string
    /** The registry, keyed by pod UID. */
    var pods: map<string, Pod>

    /** Every pod is registered under its own UID. */
    ghost predicate Valid()
      reads this
    {
      forall uid :: uid in pods ==> pods[uid].uid == uid
    }

    constructor (config: Config, selector: seq<Strategy>, nodeName: string, namespace: string, version: string)
      ensures this.config == config && this.selector == selector
      ensures this.nodeName == nodeName && this.namespace == namespace && this.version == version
      ensures pods == map[] && Valid()
    {
      this.config := config;
      this.selector := selector;
      this.nodeName := nodeName;
      this.namespace := namespace;
      this.version := version;
      pods := map[];
    }

    /** Checks the arguments and builds the selector chain for the configured mode; the registry starts empty. */
    static method NewProvider(cfg: Config?, nodeName: string, namespace: string, version: string)
      returns (r: Result<OrcaProvider, ProviderError>)
      ensures cfg == null ==> r == Err(NilConfig)
      ensures cfg != null && nodeName == "" ==> r == Err(EmptyNodeName)
      ensures cfg != null && nodeName != "" && NewSelector(cfg.instances).Err? ==>
        r == Err(SelectorUnavailable(NewSelector(cfg.instances).error))
      ensures r.Ok? <==> cfg != null && nodeName != "" && cfg.instances.selectionMode in SelectionModes
      ensures r.Ok? ==> fresh(r.value) && r.value.Valid() && r.value.pods == map[]
      ensures r.Ok? ==> r.value.config == cfg && r.value.selector == NewSelector(cfg.instances).value
      ensures r.Ok? ==> r.value.nodeName == nodeName && r.value.namespace == namespace && r.value.version == version
    {
      if cfg == null {
        return Err(NilConfig);
      }
      if nodeName == "" {
        return Err(EmptyNodeName);
      }
      var selector := NewSelector(cfg.instances);
      if selector.Err? {
        return Err(SelectorUnavailable(selector.error));
      }
      var p := new OrcaProvider(cfg, selector.value, nodeName, namespace, version);
      return Ok(p);
    }

    /**
     * Selects an instance type and registers a scheduled copy of the pod under
     * its UID, replacing any entry already there. A nil pod, a pod without
     * annotations, or a failed selection leaves the registry as it was.
     */
    method CreatePod(pod: Option<Pod>) returns (err: Option<ProviderError>)
      modifies this
      ensures pod.None? ==> err == Some(NilPod)
      ensures pod.Some? && pod.value.annotations.None? ==> err == Some(MissingAnnotations(pod.value.namespace, pod.value.name))
      ensures pod.Some? && pod.value.annotations.Some? && Chain(selector, pod.value).Err? ==>
        err == Some(SelectionFailed(Chain(selector, pod.value).error))
      ensures err.None? <==> pod.Some? && pod.value.annotations.Some? && Chain(selector, pod.value).Ok?
      ensures err.Some? ==> pods == old(pods)
      ensures err.None? ==> pods == old(pods)[pod.value.uid := Scheduled(pod.value, Chain(selector, pod.value).value)]
      ensures old(Valid()) ==> Valid()
    {
      if pod.None? {
        return Some(NilPod);
      }
      var p := pod.value;
      if p.annotations.None? {
        return Some(MissingAnnotations(p.namespace, p.name));
      }
      var selected := ChainSelect(selector, p);
      if selected.Err? {
        return Some(SelectionFailed(selected.error));
      }
      pods := pods[p.uid := Scheduled(p, selected.value)];
      return None;
    }

    /** Replaces the labels and annotations of the registered pod with the pod's UID; nothing else changes. */
    method UpdatePod(pod: Option<Pod>) returns (err: Option<ProviderError>)
      modifies this
      ensures pod.None? ==> err == Some(NilPod)
      ensures pod.Some? && pod.value.uid !in old(pods) ==> err == Some(PodNotFound(pod.value.namespace, pod.value.name))
      ensures err.None? <==> pod.Some? && pod.value.uid in old(pods)
      ensures err.Some? ==> pods == old(pods)
      ensures err.None? ==>
        pods == old(pods)[pod.value.uid := old(pods)[pod.value.uid].(labels := pod.value.labels, annotations := pod.value.annotations)]
      ensures old(Valid()) ==> Valid()
    {
      if pod.None? {
        return Some(NilPod);
      }
      var p := pod.value;
      if p.uid !in pods {
        return Some(PodNotFound(p.namespace, p.name));
      }
      var existing := pods[p.uid];
      existing := existing.(labels := p.labels, annotations := p.annotations);
      pods := pods[p.uid := existing];
      return None;
    }

    /** Forgets the pod's UID; for a non-nil pod this never fails, registered or not. */
    method DeletePod(pod: Option<Pod>) returns (err: Option<ProviderError>)
      modifies this
      ensures err.Some? <==> pod.None?
      ensures pod.None? ==> err == Some(NilPod) && pods == old(pods)
      ensures pod.Some? ==> pods == old(pods) - {pod.value.uid}
      ensures old(Valid()) ==> Valid()
    {
      if pod.None? {
        return Some(NilPod);
      }
      pods := pods - {pod.value.uid};
      return None;
    }

    /** A copy of some registered pod with this namespace and name; which one, if several match, is unspecified. */
    method GetPod(namespace: string, name: string) returns (r: Result<Pod, ProviderError>)
      ensures r.Ok? <==> HasPod(pods, namespace, name)
      ensures r.Ok? ==> r.value in pods.Values && r.value.namespace == namespace && r.value.name == name
      ensures r.Err? ==> r.error == PodNotFound(namespace, name)
    {
      var unvisited := pods.Keys;
      while unvisited != {}
        invariant unvisited <= pods.Keys
        invariant forall uid :: uid in pods && uid !in unvisited ==> !(pods[uid].namespace == namespace && pods[uid].name == name)
        decreases |unvisited|
      {
        var uid :| uid in unvisited;
        var candidate := pods[uid];
        if candidate.namespace == namespace && candidate.name == name {
          return Ok(candidate);
        }
        unvisited := unvisited - {uid};
      }
      return Err(PodNotFound(namespace, name));
    }

    /** The status of the pod GetPod finds; fails exactly when GetPod does. */
    method GetPodStatus(namespace: string, name: string) returns (r: Result<PodStatus, ProviderError>)
      ensures r.Ok? <==> HasPod(pods, namespace, name)
      ensures r.Ok? ==>
        exists uid :: uid in pods && pods[uid].namespace == namespace && pods[uid].name == name && pods[uid].status == r.value
      ensures r.Err? ==> r.error == PodNotFound(namespace, name)
    {
      var found := GetPod(namespace, name);
      if found.Err? {
        return Err(found.error);
      }
      return Ok(found.value.status);
    }

    /** One copy of every registered pod, in unspecified order. */
    method GetPods() returns (ps: seq<Pod>)
      ensures |ps| == |pods|
      ensures forall uid :: uid in pods ==> pods[uid] in ps
      ensures forall p :: p in ps ==> p in pods.Values
      ensures Valid() ==> forall i, j :: 0 <= i < j < |ps| ==> ps[i].uid != ps[j].uid
    {
      ps := [];
      var registry := pods;
      var unvisited := registry.Keys;
      ghost var uids: seq<string> := [];
      while unvisited != {}
        invariant unvisited <= registry.Keys
        invariant |ps| == |uids| && |uids| + |unvisited| == |registry|
        invariant forall i :: 0 <= i < |uids| ==> uids[i] in registry && uids[i] !in unvisited && ps[i] == registry[uids[i]]
        invariant forall i, j :: 0 <= i < j < |uids| ==> uids[i] != uids[j]
        invariant forall uid :: uid in registry && uid !in unvisited ==> uid in uids
        decreases |unvisited|
      {
        var uid :| uid in unvisited;
        ps := ps + [registry[uid]];
        uids := uids + [uid];
        unvisited := unvisited - {uid};
      }
    }

    /**
     * Puts the configured labels over the node's own, then the provider and
     * version labels, appends the configured taints after the node's, and
     * reports the node ready with the provider's system info.
     */
    method ConfigureNode(node: Node)
      modifies node
      ensures node.labels == Some(NodeLabels(old(node.labels), config.node.labels, version))
      ensures node.taints == old(node.taints) + config.node.taints
      ensures node.conditions == ProviderConditions()
      ensures node.info == ProviderNodeInfo(version, config.node.operatingSystem)
    {
      var configured, configuredTaints, operatingSystem := config.node.labels, config.node.taints, config.node.operatingSystem;
      var labels := if node.labels.None? then map[] else node.labels.value;
      labels := Overlay(labels, configured);
      labels := labels[LabelProvider := CloudProvider];
      labels := labels[LabelVersion := version];
      node.labels := Some(labels);
      node.taints := node.taints + configuredTaints;
      node.conditions := ProviderConditions();
      node.info := ProviderNodeInfo(version, operatingSystem);
    }
  }
}

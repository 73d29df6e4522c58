/**
 * The parts of the Kubernetes API objects the core reads and writes.
 * Copies made with DeepCopy are plain values here.
 */
module Kube {
  import opened Wrappers

  /** Resource names in a container's requests, with the unit each value is counted in. */
  const ResourceCpu := "cpu"               // millicores
  const ResourceMemory := "memory"         // bytes
  const ResourceGpu := "nvidia.com/gpu"    // devices

  /** A container and its resource requests; a request is absent when its name is not a key. */
  datatype Container = Container(name: string, requests: map<string, int>)

  const PodPending := "Pending"
  const PodScheduled := "PodScheduled"
  const ConditionTrue := "True"

  /** A pod condition; its transition timestamp is not modelled. */
  datatype PodCondition = PodCondition(kind: string, status: string, reason: string, message: string)

  datatype PodStatus = PodStatus(phase: string, conditions: seq<PodCondition>)

  /**
   * A pod. `labels` and `annotations` are None where the Go maps are nil,
   * which the selectors and the provider tell apart from an empty map.
   */
  datatype Pod = Pod(
    namespace: string,
    name: string,
    uid: string,
    labels: Option<map<string, string>>,
    annotations: Option<map<string, string>>,
    containers: seq<Container>,
    status: PodStatus)

  /** `v, ok := pod.Annotations[key]`: None when the map is nil or lacks the key. */
  function Annotation(pod: Pod, key: string): (r: Option<string>)
    ensures r.Some? <==> pod.annotations.Some? && key in pod.annotations.value
    ensures r.Some? ==> r.value == pod.annotations.value[key]
  {
    match pod.annotations
    case None => None
    case Some(m) => if key in m then Some(m[key]) else None
  }

  datatype Taint = Taint(key: string, value: string, effect: string)

  const ConditionFalse := "False"

  /** Node condition types. */
  const NodeReady := "Ready"
  const NodeMemoryPressure := "MemoryPressure"
  const NodeDiskPressure := "DiskPressure"
  const NodePIDPressure := "PIDPressure"
  const NodeNetworkUnavailable := "NetworkUnavailable"

  /** A node condition; its heartbeat and transition timestamps are not modelled. */
  datatype NodeCondition = NodeCondition(kind: string, status: string, reason: string, message: string)

  datatype NodeSystemInfo = NodeSystemInfo(
    architecture: string,
    bootId: string,
    containerRuntimeVersion: string,
    kernelVersion: string,
    kubeProxyVersion: string,
    kubeletVersion: string,
    machineId: string,
    operatingSystem: string,
    osImage: string,
    systemUuid: string)

  /** The parts of a node object ConfigureNode updates in place. */
  class Node {
    var labels: Option<map<string, string>>
    var taints: seq<Taint>
    var conditions: seq<NodeCondition>
    var info: NodeSystemInfo

    constructor (labels: Option<map<string, string>>, taints: seq<Taint>, conditions: seq<NodeCondition>, info: NodeSystemInfo)
      ensures this.labels == labels && this.taints == taints
      ensures this.conditions == conditions && this.info == info
    {
      this.labels := labels;
      this.taints := taints;
      this.conditions := conditions;
      this.info := info;
    }
  }
}

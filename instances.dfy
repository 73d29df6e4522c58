/**
 * Instance-type selection (pkg/instances): the explicit, template and auto
 * strategies, and the chain that tries them in the order the selection mode fixes.
 */
module Instances {
  import opened Wrappers
  import opened Kube
  import opened Configuration

  const AnnotationInstanceType := "orca.research/instance-type"
  const AnnotationWorkloadTemplate := "orca.research/workload-template"

  datatype SelectError =
    | NoAnnotations
    | MissingAnnotation(key: string)
    | EmptyAnnotation(key: string)
    | UnknownTemplate(name: string)
    | TemplateWithoutInstanceType(name: string)
      /** "no selector could determine instance type", wrapping the last failure (nil for an empty chain) */
    | NoSelectorMatched(last: Option<SelectError>)
    | UnknownSelectionMode(mode: string)

  // ---------------------------------------------------------------------------
  // Explicit strategy (explicit.go)

  /**
   * The instance type named by the instance-type annotation, verbatim: any
   * non-empty value is accepted, with no format or allow-list check.
   */
  function SelectExplicit(pod: Pod): (r: Result<string, SelectError>)
    ensures r.Ok? <==> Annotation(pod, AnnotationInstanceType).Some? && Annotation(pod, AnnotationInstanceType).value != ""
    ensures r.Ok? ==> r.value == Annotation(pod, AnnotationInstanceType).value
    ensures pod.annotations.None? ==> r == Err(NoAnnotations)
    ensures pod.annotations.Some? && Annotation(pod, AnnotationInstanceType).None? ==> r == Err(MissingAnnotation(AnnotationInstanceType))
    ensures Annotation(pod, AnnotationInstanceType) == Some("") ==> r == Err(EmptyAnnotation(AnnotationInstanceType))
  {
    if pod.annotations.None? then
      Err(NoAnnotations)
    else if AnnotationInstanceType !in pod.annotations.value then
      Err(MissingAnnotation(AnnotationInstanceType))
    else if pod.annotations.value[AnnotationInstanceType] == "" then
      Err(EmptyAnnotation(AnnotationInstanceType))
    else
      Ok(pod.annotations.value[AnnotationInstanceType])
  }

  /** The explicit strategy reads the annotations only: resource requests, labels, identity never matter. */
  lemma ExplicitReadsOnlyAnnotations(p: Pod, q: Pod)
    requires p.annotations == q.annotations
    ensures SelectExplicit(p) == SelectExplicit(q)
  {
  }

  // ---------------------------------------------------------------------------
  // Template strategy (template.go)

  /**
   * The instance type of the template named by the workload-template annotation.
   * The template's launch type and spot price are not part of the result.
   */
  function SelectTemplate(templates: map<string, WorkloadTemplate>, pod: Pod): (r: Result<string, SelectError>)
    ensures var name := Annotation(pod, AnnotationWorkloadTemplate);
      r.Ok? <==> name.Some? && name.value != "" && name.value in templates && templates[name.value].instanceType != ""
    ensures r.Ok? ==> r.value == templates[Annotation(pod, AnnotationWorkloadTemplate).value].instanceType && r.value != ""
    ensures pod.annotations.None? ==> r == Err(NoAnnotations)
    ensures pod.annotations.Some? && Annotation(pod, AnnotationWorkloadTemplate).None? ==> r == Err(MissingAnnotation(AnnotationWorkloadTemplate))
    ensures Annotation(pod, AnnotationWorkloadTemplate) == Some("") ==> r == Err(EmptyAnnotation(AnnotationWorkloadTemplate))
    ensures var name := Annotation(pod, AnnotationWorkloadTemplate);
      name.Some? && name.value != "" && name.value !in templates ==> r == Err(UnknownTemplate(name.value))
    ensures var name := Annotation(pod, AnnotationWorkloadTemplate);
      name.Some? && name.value != "" && name.value in templates && templates[name.value].instanceType == "" ==>
        r == Err(TemplateWithoutInstanceType(name.value))
  {
    if pod.annotations.None? then
      Err(NoAnnotations)
    else if AnnotationWorkloadTemplate !in pod.annotations.value then
      Err(MissingAnnotation(AnnotationWorkloadTemplate))
    else
      var name := pod.annotations.value[AnnotationWorkloadTemplate];
      if name == "" then
        Err(EmptyAnnotation(AnnotationWorkloadTemplate))
      else if name !in templates then
        Err(UnknownTemplate(name))
      else if templates[name].instanceType == "" then
        Err(TemplateWithoutInstanceType(name))
      else
        Ok(templates[name].instanceType)
  }

  /**
   * The template strategy reads only the workload-template annotation and the
   * table: the instance-type annotation, resource requests and a template's
   * launch settings never change its result.
   */
  lemma TemplateReadsOnlyItsAnnotation(templates: map<string, WorkloadTemplate>, p: Pod, q: Pod,
                                       launchType: string, maxSpotPrice: string)
    requires Annotation(p, AnnotationWorkloadTemplate) == Annotation(q, AnnotationWorkloadTemplate)
    requires p.annotations.None? <==> q.annotations.None?
    ensures SelectTemplate(templates, p) == SelectTemplate(templates, q)
    ensures var relaunched := map n | n in templates :: templates[n].(launchType := launchType, maxSpotPrice := maxSpotPrice);
      SelectTemplate(relaunched, p) == SelectTemplate(templates, p)
  {
  }

  // ---------------------------------------------------------------------------
  // Auto strategy (auto.go)

  const GiB := 1024 * 1024 * 1024
  const MilliPerCpu := 1000

  /** A container's request for one resource; an absent request counts as 0. */
  function Request(c: Container, resource: string): int {
    if resource in c.requests then c.requests[resource] else 0
  }

  /** The sum of one resource's requests over the containers. */
  function Total(cs: seq<Container>, resource: string): int
    decreases |cs|
  {
    if cs == [] then 0 else Total(cs[..|cs| - 1], resource) + Request(cs[|cs| - 1], resource)
  }

  /** Totals add up over the containers of a pod: container boundaries do not matter. */
  lemma {:induction false} TotalAppend(a: seq<Container>, b: seq<Container>, resource: string)
    ensures Total(a + b, resource) == Total(a, resource) + Total(b, resource)
    decreases |b|
  {
    if b == [] {
      assert a + b == a;
    } else {
      var b' := b[..|b| - 1];
      assert (a + b)[..|a + b| - 1] == a + b';
      assert (a + b)[|a + b| - 1] == b[|b| - 1];
      TotalAppend(a, b', resource);
    }
  }

  /** Containers that request nothing of a resource total 0 of it. */
  lemma {:induction false} TotalWithoutRequests(cs: seq<Container>, resource: string)
    requires forall i :: 0 <= i < |cs| ==> resource !in cs[i].requests
    ensures Total(cs, resource) == 0
    decreases |cs|
  {
    if cs != [] {
      TotalWithoutRequests(cs[..|cs| - 1], resource);
    }
  }

  /** The GPU instance table, keyed by exact device count. */
  const GpuInstances: map<int, string> :=
    map[1 := "g5.xlarge", 2 := "g5.2xlarge", 4 := "g5.12xlarge", 8 := "p5.48xlarge"]

  /** The GPU instance for a device count: the table entry, or the one-device entry for any other count. */
  function GpuInstance(gpus: int): (r: string)
    ensures r == if gpus in GpuInstances then GpuInstances[gpus] else GpuInstances[1]
  {
    if gpus == 1 then "g5.xlarge"
    else if gpus == 2 then "g5.2xlarge"
    else if gpus == 4 then "g5.12xlarge"
    else if gpus == 8 then "p5.48xlarge"
    else "g5.xlarge"
  }

  /** Go's integer division, which truncates toward zero. */
  function GoDiv(a: int, b: int): int
    requires b > 0
  {
    if a >= 0 then a / b else -((-a) / b)
  }

  /** b * d is at least b for a positive multiplier d. */
  lemma MulAtLeast(b: int, d: int)
    requires b > 0 && d >= 1
    ensures b * d >= b
  {
    assert b * d == b * (d - 1) + b;
  }

  lemma NatDivMonotone(a: int, a': int, b: int)
    requires 0 <= a <= a' && b > 0
    ensures a / b <= a' / b
  {
    var q, q' := a / b, a' / b;
    assert a == b * q + a % b && 0 <= a % b;
    assert a' == b * q' + a' % b && a' % b < b;
    if q > q' {
      MulAtLeast(b, q - q');
      assert false;
    }
  }

  /** Truncating division is monotone in its dividend. */
  lemma GoDivMonotone(a: int, a': int, b: int)
    requires a <= a' && b > 0
    ensures GoDiv(a, b) <= GoDiv(a', b)
  {
    if 0 <= a {
      NatDivMonotone(a, a', b);
    } else if a' < 0 {
      NatDivMonotone(-a', -a, b);
    } else {
      NatDivMonotone(0, -a, b);
      NatDivMonotone(0, a', b);
      assert 0 / b == 0;
    }
  }

  /** Converts a CPU request to whole vCPUs and picks from the ladder (selectCPUInstance). */
  function CpuInstance(cpuMilli: int, memoryBytes: int): string {
    var vcpus := GoDiv(cpuMilli, MilliPerCpu);
    var memoryGiB := GoDiv(memoryBytes, GiB);
    if vcpus <= 2 && memoryGiB <= 4 then "t3.small"
    else if vcpus <= 4 && memoryGiB <= 8 then "t3.large"
    else if vcpus <= 8 && memoryGiB <= 16 then "c7i.2xlarge"
    else if vcpus <= 16 && memoryGiB <= 32 then "c7i.4xlarge"
    else if vcpus <= 32 && memoryGiB <= 64 then "c7i.8xlarge"
    else "c7i.16xlarge"
  }

  /** A CPU bucket: the largest request (whole vCPUs, whole GiB) it takes, and its instance type. */
  datatype Bucket = Bucket(vcpus: int, memoryGiB: int, instanceType: string)

  /** The CPU buckets, smallest first; a request no bucket takes gets LargestCpuInstance. */
  const CpuLadder: seq<Bucket> := [
    Bucket(2, 4, "t3.small"),
    Bucket(4, 8, "t3.large"),
    Bucket(8, 16, "c7i.2xlarge"),
    Bucket(16, 32, "c7i.4xlarge"),
    Bucket(32, 64, "c7i.8xlarge")]
  const LargestCpuInstance := "c7i.16xlarge"

  predicate Fits(b: Bucket, vcpus: int, memoryGiB: int) {
    vcpus <= b.vcpus && memoryGiB <= b.memoryGiB
  }

  /** The first bucket from `from` on that takes the request, or |CpuLadder| when none does. */
  function FirstFit(vcpus: int, memoryGiB: int, from: nat): (i: nat)
    requires from <= |CpuLadder|
    ensures from <= i <= |CpuLadder|
    decreases |CpuLadder| - from
  {
    if from == |CpuLadder| then from
    else if Fits(CpuLadder[from], vcpus, memoryGiB) then from
    else FirstFit(vcpus, memoryGiB, from + 1)
  }

  /** The instance type of a bucket position; the position past the ladder is the largest instance. */
  function BucketInstance(i: nat): string {
    if i < |CpuLadder| then CpuLadder[i].instanceType else LargestCpuInstance
  }

  /** The bucket position a CPU/memory request lands in. */
  function CpuBucket(cpuMilli: int, memoryBytes: int): nat {
    FirstFit(GoDiv(cpuMilli, MilliPerCpu), GoDiv(memoryBytes, GiB), 0)
  }

  /** FirstFit is the least bucket that takes the request: it fits, and every earlier one does not. */
  lemma {:induction false} FirstFitIsLeast(vcpus: int, memoryGiB: int, from: nat)
    requires from <= |CpuLadder|
    ensures var i := FirstFit(vcpus, memoryGiB, from);
      && (i < |CpuLadder| ==> Fits(CpuLadder[i], vcpus, memoryGiB))
      && (forall j :: from <= j < i ==> !Fits(CpuLadder[j], vcpus, memoryGiB))
    decreases |CpuLadder| - from
  {
    if from < |CpuLadder| && !Fits(CpuLadder[from], vcpus, memoryGiB) {
      FirstFitIsLeast(vcpus, memoryGiB, from + 1);
    }
  }

  /** The if-ladder of selectCPUInstance is the first-fit choice over CpuLadder. */
  lemma CpuInstanceIsFirstFit(cpuMilli: int, memoryBytes: int)
    ensures CpuInstance(cpuMilli, memoryBytes) == BucketInstance(CpuBucket(cpuMilli, memoryBytes))
  {
    var v, m := GoDiv(cpuMilli, MilliPerCpu), GoDiv(memoryBytes, GiB);
    assert FirstFit(v, m, 4) == if Fits(CpuLadder[4], v, m) then 4 else 5;
    assert FirstFit(v, m, 3) == if Fits(CpuLadder[3], v, m) then 3 else FirstFit(v, m, 4);
    assert FirstFit(v, m, 2) == if Fits(CpuLadder[2], v, m) then 2 else FirstFit(v, m, 3);
    assert FirstFit(v, m, 1) == if Fits(CpuLadder[1], v, m) then 1 else FirstFit(v, m, 2);
    assert FirstFit(v, m, 0) == if Fits(CpuLadder[0], v, m) then 0 else FirstFit(v, m, 1);
  }

  /** The ladder is monotone: more CPU or more memory never lands in an earlier bucket. */
  lemma CpuBucketMonotone(cpuMilli: int, memoryBytes: int, cpuMilli': int, memoryBytes': int)
    requires cpuMilli <= cpuMilli' && memoryBytes <= memoryBytes'
    ensures CpuBucket(cpuMilli, memoryBytes) <= CpuBucket(cpuMilli', memoryBytes')
  {
    var v, m := GoDiv(cpuMilli, MilliPerCpu), GoDiv(memoryBytes, GiB);
    var v', m' := GoDiv(cpuMilli', MilliPerCpu), GoDiv(memoryBytes', GiB);
    GoDivMonotone(cpuMilli, cpuMilli', MilliPerCpu);
    GoDivMonotone(memoryBytes, memoryBytes', GiB);
    var i' := FirstFit(v', m', 0);
    FirstFitIsLeast(v', m', 0);
    FirstFitIsLeast(v, m, 0);
    if i' < |CpuLadder| {
      assert Fits(CpuLadder[i'], v, m);
    }
  }

  /** What the auto strategy picks for a pod's containers: the GPU table if any GPU is requested, else the CPU ladder. */
  function AutoChoice(containers: seq<Container>): string {
    var gpus := Total(containers, ResourceGpu);
    if gpus > 0 then GpuInstance(gpus)
    else CpuInstance(Total(containers, ResourceCpu), Total(containers, ResourceMemory))
  }

  /** Sums the requests over all containers, then picks an instance type; it never fails. */
  method AutoSelect(pod: Pod) returns (r: Result<string, SelectError>)
    ensures r == Ok(AutoChoice(pod.containers))
  {
    var totalCpu, totalMemory, gpuCount := 0, 0, 0;
    var i := 0;
    while i < |pod.containers|
      invariant 0 <= i <= |pod.containers|
      invariant totalCpu == Total(pod.containers[..i], ResourceCpu)
      invariant totalMemory == Total(pod.containers[..i], ResourceMemory)
      invariant gpuCount == Total(pod.containers[..i], ResourceGpu)
    {
      var c := pod.containers[i];
      assert pod.containers[..i + 1][..i] == pod.containers[..i];
      if ResourceCpu in c.requests {
        totalCpu := totalCpu + c.requests[ResourceCpu];
      }
      if ResourceMemory in c.requests {
        totalMemory := totalMemory + c.requests[ResourceMemory];
      }
      if ResourceGpu in c.requests {
        gpuCount := gpuCount + c.requests[ResourceGpu];
      }
      i := i + 1;
    }
    assert pod.containers[..i] == pod.containers;
    if gpuCount > 0 {
      return Ok(GpuInstance(gpuCount));
    }
    return Ok(CpuInstance(totalCpu, totalMemory));
  }

  /** One container requesting the given CPU (millicores) and memory (bytes). */
  function CpuContainer(cpuMilli: int, memoryBytes: int): Container {
    Container("c", map[ResourceCpu := cpuMilli, ResourceMemory := memoryBytes])
  }

  /** One container requesting the given number of GPUs. */
  function GpuContainer(gpus: int): Container {
    Container("g", map[ResourceGpu := gpus])
  }

  /** The documented choices: 1/2/4/8 GPUs, 1 CPU/2Gi, 3 CPU/6Gi, 6 CPU/12Gi, and 2+2 CPU/4+4Gi over two containers. */
  lemma AutoExamples()
    ensures AutoChoice([GpuContainer(1)]) == "g5.xlarge"
    ensures AutoChoice([GpuContainer(2)]) == "g5.2xlarge"
    ensures AutoChoice([GpuContainer(4)]) == "g5.12xlarge"
    ensures AutoChoice([GpuContainer(8)]) == "p5.48xlarge"
    ensures AutoChoice([CpuContainer(1000, 2 * GiB)]) == "t3.small"
    ensures AutoChoice([CpuContainer(3000, 6 * GiB)]) == "t3.large"
    ensures AutoChoice([CpuContainer(6000, 12 * GiB)]) == "c7i.2xlarge"
    ensures AutoChoice([CpuContainer(2000, 4 * GiB), CpuContainer(2000, 4 * GiB)]) == "t3.large"
    ensures AutoChoice([]) == "t3.small"
  {
    var one := [CpuContainer(2000, 4 * GiB)];
    assert one[..0] == [];
    assert (one + one)[..1] == one;
    assert one + one == [CpuContainer(2000, 4 * GiB), CpuContainer(2000, 4 * GiB)];
    TotalAppend(one, one, ResourceCpu);
    TotalAppend(one, one, ResourceMemory);
    TotalAppend(one, one, ResourceGpu);
    forall c: Container
      ensures Total([c], ResourceCpu) == Request(c, ResourceCpu)
      ensures Total([c], ResourceMemory) == Request(c, ResourceMemory)
      ensures Total([c], ResourceGpu) == Request(c, ResourceGpu)
    {
      assert [c][..0] == [];
    }
  }

  /** A pod without GPU requests gets a CPU instance, one with GPU requests a GPU instance. */
  lemma AutoGpuIffRequested(containers: seq<Container>)
    ensures AutoChoice(containers) in GpuInstances.Values <==> Total(containers, ResourceGpu) > 0
  {
  }

  // ---------------------------------------------------------------------------
  // The chain (selector.go)

  /** One strategy of the chain; a template strategy carries the configured table. */
  datatype Strategy = Explicit | Template(templates: map<string, WorkloadTemplate>) | Auto

  /** What one strategy answers for a pod. */
  function Apply(s: Strategy, pod: Pod): Result<string, SelectError> {
    match s
    case Explicit => SelectExplicit(pod)
    case Template(templates) => SelectTemplate(templates, pod)
    case Auto => Ok(AutoChoice(pod.containers))
  }

  /** The chain for a selection mode; the accepted modes are exactly those Validate accepts. */
  function NewSelector(cfg: InstancesConfig): (r: Result<seq<Strategy>, SelectError>)
    ensures r.Ok? <==> cfg.selectionMode in SelectionModes
    ensures r.Err? ==> r.error == UnknownSelectionMode(cfg.selectionMode)
    ensures cfg.selectionMode == "explicit" ==> r == Ok([Explicit])
    ensures cfg.selectionMode == "template" ==> r == Ok([Explicit, Template(cfg.templates)])
    ensures cfg.selectionMode == "auto" ==> r == Ok([Explicit, Template(cfg.templates), Auto])
  {
    match cfg.selectionMode
    case "explicit" => Ok([Explicit])
    case "template" => Ok([Explicit, Template(cfg.templates)])
    case "auto" => Ok([Explicit, Template(cfg.templates), Auto])
    case _ => Err(UnknownSelectionMode(cfg.selectionMode))
  }

  /** The chain's answer from some position on, given the last failure seen before it. */
  function ChainFrom(chain: seq<Strategy>, pod: Pod, lastErr: Option<SelectError>): Result<string, SelectError>
    decreases |chain|
  {
    if chain == [] then Err(NoSelectorMatched(lastErr))
    else match Apply(chain[0], pod)
      case Ok(instanceType) => Ok(instanceType)
      case Err(e) => ChainFrom(chain[1..], pod, Some(e))
  }

  /** The chain's answer for a pod. */
  function Chain(chain: seq<Strategy>, pod: Pod): Result<string, SelectError> {
    ChainFrom(chain, pod, None)
  }

  /** Tries each strategy in order; returns the first success, or an error wrapping the last failure. */
  method ChainSelect(chain: seq<Strategy>, pod: Pod) returns (r: Result<string, SelectError>)
    ensures r == Chain(chain, pod)
  {
    var lastErr: Option<SelectError> := None;
    for i := 0 to |chain|
      invariant ChainFrom(chain[i..], pod, lastErr) == Chain(chain, pod)
    {
      assert chain[i..][0] == chain[i] && chain[i..][1..] == chain[i + 1..];
      var answer: Result<string, SelectError>;
      match chain[i] {
        case Explicit => answer := SelectExplicit(pod);
        case Template(templates) => answer := SelectTemplate(templates, pod);
        case Auto => answer := AutoSelect(pod);
      }
      assert answer == Apply(chain[i], pod);
      if answer.Ok? {
        return Ok(answer.value);
      }
      assert ChainFrom(chain[i..], pod, lastErr) == ChainFrom(chain[i + 1..], pod, Some(answer.error));
      lastErr := Some(answer.error);
    }
    return Err(NoSelectorMatched(lastErr));
  }

  /** The first strategy that succeeds decides; the strategies after it are not consulted. */
  lemma {:induction false} ChainFirstSuccess(chain: seq<Strategy>, pod: Pod, lastErr: Option<SelectError>, k: nat)
    requires k < |chain| && Apply(chain[k], pod).Ok?
    requires forall j :: 0 <= j < k ==> Apply(chain[j], pod).Err?
    ensures ChainFrom(chain, pod, lastErr) == Apply(chain[k], pod)
    decreases k
  {
    if k > 0 {
      ChainFirstSuccess(chain[1..], pod, Some(Apply(chain[0], pod).error), k - 1);
    }
  }

  /**
   * The chain fails exactly when every strategy fails, and then its error
   * wraps the last strategy's error (or the incoming one for an empty chain).
   */
  lemma {:induction false} ChainFailure(chain: seq<Strategy>, pod: Pod, lastErr: Option<SelectError>)
    ensures ChainFrom(chain, pod, lastErr).Err? <==> forall j :: 0 <= j < |chain| ==> Apply(chain[j], pod).Err?
    ensures ChainFrom(chain, pod, lastErr).Err? ==>
      ChainFrom(chain, pod, lastErr).error ==
        NoSelectorMatched(if chain == [] then lastErr else Some(Apply(chain[|chain| - 1], pod).error))
    decreases |chain|
  {
    if chain != [] {
      var rest := chain[1..];
      match Apply(chain[0], pod)
      case Ok(_) =>
      case Err(e) =>
        ChainFailure(rest, pod, Some(e));
        assert forall j :: 1 <= j < |chain| ==> chain[j] == rest[j - 1];
        if rest != [] {
          assert chain[|chain| - 1] == rest[|rest| - 1];
        }
    }
  }

  /** In "auto" mode the chain never fails, because the auto strategy never does. */
  lemma AutoModeNeverFails(cfg: InstancesConfig, pod: Pod)
    requires cfg.selectionMode == "auto"
    ensures Chain(NewSelector(cfg).value, pod).Ok?
  {
    var chain := NewSelector(cfg).value;
    ChainFailure(chain, pod, None);
    assert Apply(chain[2], pod).Ok?;
  }

  /** In "explicit" mode the chain succeeds exactly when the instance-type annotation is non-empty, and returns it. */
  lemma ExplicitModeChain(cfg: InstancesConfig, pod: Pod)
    requires cfg.selectionMode == "explicit"
    ensures Chain(NewSelector(cfg).value, pod) ==
      match SelectExplicit(pod)
      case Ok(t) => Ok(t)
      case Err(e) => Err(NoSelectorMatched(Some(e)))
  {
  }

  /** When the explicit annotation is usable it wins, in every mode, whatever the template says. */
  lemma ExplicitWins(cfg: InstancesConfig, pod: Pod)
    requires cfg.selectionMode in SelectionModes
    requires SelectExplicit(pod).Ok?
    ensures Chain(NewSelector(cfg).value, pod) == SelectExplicit(pod)
  {
    ChainFirstSuccess(NewSelector(cfg).value, pod, None, 0);
  }

  /** In "template" mode the chain succeeds exactly when the explicit or the template strategy does. */
  lemma TemplateModeChain(cfg: InstancesConfig, pod: Pod)
    requires cfg.selectionMode == "template"
    ensures Chain(NewSelector(cfg).value, pod).Ok? <==>
      SelectExplicit(pod).Ok? || SelectTemplate(cfg.templates, pod).Ok?
    ensures SelectExplicit(pod).Err? && SelectTemplate(cfg.templates, pod).Ok? ==>
      Chain(NewSelector(cfg).value, pod) == SelectTemplate(cfg.templates, pod)
  {
    ChainFailure(NewSelector(cfg).value, pod, None);
  }

  /** Every configuration Validate accepts has a selection mode NewSelector builds a chain for. */
  lemma ValidatedConfigHasSelector(s: Settings)
    requires Validated(s).error.None?
    ensures NewSelector(Validated(s).settings.instances).Ok?
  {
  }
}

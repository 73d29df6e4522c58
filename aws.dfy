/**
 * The EC2 client (internal/aws): what it asks EC2 for and how it reads the
 * answers. EC2 itself is not modelled; its answers are parameters, and every
 * operation returns, beside its result, the EC2 calls it issued, in order.
 */
module Aws {
  import opened Wrappers
  import opened Kube
  import opened Configuration
  import opened Text

  // Pod annotations the client reads.
  const AnnotationLaunchType := "orca.research/launch-type"
  const AnnotationMaxSpotPrice := "orca.research/max-spot-price"
  const AnnotationAmi := "orca.research/ami"
  const AnnotationBudgetNamespace := "orca.research/budget-namespace"
  const AnnotationUserData := "orca.research/user-data"

  // Tag keys the client writes.
  const TagName := "Name"
  const TagPod := "orca.research/pod"
  const TagPodUid := "orca.research/pod-uid"
  const TagNamespace := "orca.research/namespace"
  const TagProvider := "orca.research/provider"
  const TagCreatedAt := "orca.research/created-at"
  const TagBudgetNamespace := "orca.research/budget-namespace"
  const ProviderName := "orca"

  /** The AMI used when neither the pod nor the configuration names one. */
  const FallbackAmi := "ami-0c55b159cbfafe1f0"
  const SpotLaunchType := "spot"
  const SpotOneTime := "one-time"
  const ResourceTypeInstance := "instance"

  const StateRunning := "running"
  const StatePending := "pending"
  const StateTerminated := "terminated"
  const StateShuttingDown := "shutting-down"
  /** The states GetInstanceByPod looks in, in the order of the filter. */
  const ActiveStates: seq<string> := ["pending", "running", "stopping", "stopped"]

  const StateFilterName := "instance-state-name"
  const TagFilterPrefix := "tag:"

  /** waitForInstanceRunning polls every 10 s under a 5 min deadline. */
  const WaitTimeoutSeconds := 300
  const PollIntervalSeconds := 10
  /** The ticks that fall strictly before the deadline: the most DescribeInstances calls one wait can make. */
  const PollBudget: nat := (WaitTimeoutSeconds - 1) / PollIntervalSeconds

  // ---------------------------------------------------------------------------
  // EC2 values and calls

  datatype Tag = Tag(key: string, value: string)

  /** An EC2 instance as DescribeInstances or RunInstances reports it; absent pointers are None. */
  datatype Ec2Instance = Ec2Instance(
    instanceId: string,
    instanceType: string,
    state: string,
    publicIp: Option<string>,
    privateIp: Option<string>,
    launchTime: Option<int>,
    tags: seq<Tag>)

  datatype Reservation = Reservation(instances: seq<Ec2Instance>)

  /** The client's own view of an instance (types.go); the Type and InstanceType fields hold the same value. */
  datatype Instance = Instance(
    id: string,
    instanceType: string,
    state: string,
    publicIp: string,
    privateIp: string,
    launchTime: int)

  datatype ApiError = ApiError(message: string)

  datatype SpotOptions = SpotOptions(maxPrice: string, spotInstanceType: string)

  datatype TagSpecification = TagSpecification(resourceType: string, tags: seq<Tag>)

  /** The RunInstances request; `spot` holds the spot market options, None for on-demand. */
  datatype RunInstancesInput = RunInstancesInput(
    imageId: string,
    instanceType: string,
    minCount: int,
    maxCount: int,
    subnetId: string,
    securityGroupIds: seq<string>,
    tagSpecifications: seq<TagSpecification>,
    userData: string,
    spot: Option<SpotOptions>)

  datatype Filter = Filter(name: string, values: seq<string>)

  datatype DescribeInput = ByIds(instanceIds: seq<string>) | ByFilters(filters: seq<Filter>)

  /** An EC2 API call the client issued. */
  datatype Ec2Call =
    | RunInstances(input: RunInstancesInput)
    | TerminateInstances(instanceIds: seq<string>)
    | DescribeInstances(describe: DescribeInput)

  /**
   * EC2's answers during one CreateInstance: to RunInstances, to the k-th
   * DescribeInstances of the wait, and to TerminateInstances.
   */
  datatype Ec2Answers = Ec2Answers(
    run: Result<seq<Ec2Instance>, ApiError>,
    poll: nat -> Result<seq<Reservation>, ApiError>,
    terminate: Outcome<ApiError>)

  datatype ClientError =
    | NilPod
    | EmptyInstanceType
    | EmptyInstanceId
    | RunFailed(cause: ApiError)
    | NoInstancesCreated
      /** "instance failed to start", wrapping why the wait failed */
    | StartFailed(reason: ClientError)
    | TerminateFailed(cause: ApiError)
    | DescribeFailed(cause: ApiError)
    | InstanceNotFound(instanceId: string)
    | DescribeByPodFailed(cause: ApiError)
    | InstanceNotFoundForPod(podKey: string)
    | WaitTimedOut
    | TerminalState(state: string)
    | UnexpectedState(state: string)

  /** An operation's result together with the EC2 calls it issued. */
  datatype Reply<T> = Reply(result: Result<T, ClientError>, calls: seq<Ec2Call>)

  /** How many calls in a log are TerminateInstances calls. */
  function Terminations(calls: seq<Ec2Call>): nat {
    if calls == [] then 0
    else Terminations(calls[..|calls| - 1]) + (if calls[|calls| - 1].TerminateInstances? then 1 else 0)
  }

  /** How many calls in a log are RunInstances calls. */
  function Launches(calls: seq<Ec2Call>): nat {
    if calls == [] then 0
    else Launches(calls[..|calls| - 1]) + (if calls[|calls| - 1].RunInstances? then 1 else 0)
  }

  lemma {:induction false} CountsAppend(a: seq<Ec2Call>, b: seq<Ec2Call>)
    ensures Terminations(a + b) == Terminations(a) + Terminations(b)
    ensures Launches(a + b) == Launches(a) + Launches(b)
    decreases |b|
  {
    if b == [] {
      assert a + b == a;
    } else {
      assert (a + b)[..|a + b| - 1] == a + b[..|b| - 1];
      CountsAppend(a, b[..|b| - 1]);
    }
  }

  // ---------------------------------------------------------------------------
  // Launch settings (getLaunchType, getMaxSpotPrice, getAMI, buildUserData)

  /** The first present candidate, or the fallback: the priority order the launch settings follow. */
  function FirstPresent(candidates: seq<Option<string>>, fallback: string): string {
    if candidates == [] then fallback
    else if candidates[0].Some? then candidates[0].value
    else FirstPresent(candidates[1..], fallback)
  }

  /** A value, treated as absent when empty. */
  function NonEmpty(v: Option<string>): Option<string> {
    if v.Some? && v.value != "" then v else None
  }

  /** The launch type: the pod's launch-type annotation (even empty), else the configured default. */
  function LaunchType(cfg: InstancesConfig, pod: Pod): (r: string)
    ensures r == FirstPresent([Annotation(pod, AnnotationLaunchType)], cfg.defaultLaunchType)
  {
    if pod.annotations.None? then cfg.defaultLaunchType
    else if AnnotationLaunchType in pod.annotations.value then pod.annotations.value[AnnotationLaunchType]
    else cfg.defaultLaunchType
  }

  /** The spot price cap: the pod's annotation, else the configured cap for the type, else none (""). */
  function MaxSpotPrice(cfg: InstancesConfig, pod: Pod, instanceType: string): (r: string)
    ensures var configured := if instanceType in cfg.maxSpotPrices then Some(cfg.maxSpotPrices[instanceType]) else None;
      r == FirstPresent([Annotation(pod, AnnotationMaxSpotPrice), configured], "")
  {
    var configured := if instanceType in cfg.maxSpotPrices then Some(cfg.maxSpotPrices[instanceType]) else None;
    var candidates := [Annotation(pod, AnnotationMaxSpotPrice), configured];
    assert candidates[1..] == [configured] && candidates[1..][1..] == [];
    if pod.annotations.Some? && AnnotationMaxSpotPrice in pod.annotations.value then
      pod.annotations.value[AnnotationMaxSpotPrice]
    else if instanceType in cfg.maxSpotPrices then
      cfg.maxSpotPrices[instanceType]
    else
      assert FirstPresent(candidates[1..], "") == FirstPresent([], "");
      ""
  }

  /** The AMI: a non-empty pod annotation, else a non-empty configured AMI, else the fallback; never empty. */
  function Ami(cfg: AwsConfig, pod: Pod): (r: string)
    ensures r == FirstPresent([NonEmpty(Annotation(pod, AnnotationAmi)), NonEmpty(Some(cfg.amiId))], FallbackAmi)
    ensures r != ""
  {
    var candidates := [NonEmpty(Annotation(pod, AnnotationAmi)), NonEmpty(Some(cfg.amiId))];
    assert candidates[1..] == [NonEmpty(Some(cfg.amiId))] && candidates[1..][1..] == [];
    if pod.annotations.Some? && AnnotationAmi in pod.annotations.value && pod.annotations.value[AnnotationAmi] != "" then
      pod.annotations.value[AnnotationAmi]
    else if cfg.amiId != "" then
      cfg.amiId
    else
      assert FirstPresent(candidates[1..], FallbackAmi) == FirstPresent([], FallbackAmi);
      FallbackAmi
  }

  /** "namespace/name", the key the pod tag and the lookup filter share. */
  function PodKey(namespace: string, name: string): string {
    namespace + "/" + name
  }

  /** Two pod keys are equal only for the same pod, given namespaces without '/' (Kubernetes forbids it). */
  lemma {:induction false} PodKeyInjective(ns1: string, n1: string, ns2: string, n2: string)
    requires '/' !in ns1 && '/' !in ns2
    requires PodKey(ns1, n1) == PodKey(ns2, n2)
    ensures ns1 == ns2 && n1 == n2
  {
    var k := PodKey(ns1, n1);
    assert k[|ns1|] == '/' && k[|ns2|] == '/';
    assert ns1 == k[..|ns1|] == ns2;
    assert n1 == k[|ns1| + 1..] == n2;
  }

  const UserDataHeader := "#!/bin/bash\n# ORCA instance initialization\necho \"ORCA instance starting for pod: "

  /** The user data: the pod's user-data annotation verbatim, else a boot script naming the pod. */
  function UserData(pod: Pod): (r: string)
    ensures Annotation(pod, AnnotationUserData).Some? ==> r == Annotation(pod, AnnotationUserData).value
    ensures Annotation(pod, AnnotationUserData).None? ==>
      |r| >= |UserDataHeader| && r[..|UserDataHeader|] == UserDataHeader && Contains(r, PodKey(pod.namespace, pod.name))
  {
    if pod.annotations.Some? && AnnotationUserData in pod.annotations.value then
      pod.annotations.value[AnnotationUserData]
    else
      var script := UserDataHeader + pod.namespace + "/" + pod.name + "\"\n";
      assert OccursAt(script, PodKey(pod.namespace, pod.name), |UserDataHeader|);
      script
  }

  // ---------------------------------------------------------------------------
  // Tags (buildTags)

  /** The value of the first tag with the key, if any. */
  function TagValue(tags: seq<Tag>, key: string): (r: Option<string>)
    ensures r.Some? <==> exists t :: t in tags && t.key == key
    ensures r.Some? ==> Tag(key, r.value) in tags
  {
    if tags == [] then None
    else if tags[0].key == key then Some(tags[0].value)
    else TagValue(tags[1..], key)
  }

  /** No two tags share a key (EC2 refuses duplicate keys). */
  predicate DistinctKeys(tags: seq<Tag>) {
    forall i, j :: 0 <= i < j < |tags| ==> tags[i].key != tags[j].key
  }

  /** With distinct keys, looking a tag's key up finds that tag's value. */
  lemma {:induction false} TagValueOfDistinct(tags: seq<Tag>, t: Tag)
    requires DistinctKeys(tags) && t in tags
    ensures TagValue(tags, t.key) == Some(t.value)
  {
    if tags[0] != t {
      assert t in tags[1..];
      assert tags[0].key != t.key by {
        var j :| 0 <= j < |tags| && tags[j] == t;
        assert j != 0;
      }
      TagValueOfDistinct(tags[1..], t);
    }
  }

  /** The keys of the six tags every launched instance carries, in the order they are written. */
  const StandardTagKeys := [TagName, TagPod, TagPodUid, TagNamespace, TagProvider, TagCreatedAt]

  /**
   * The tags of an instance launched for a pod: its name, the pod key, the pod
   * UID, its namespace, the provider, the launch time `now` (RFC 3339, read from
   * the clock), and the budget namespace when the pod is annotated with one.
   */
  function PodTags(pod: Pod, now: string): (tags: seq<Tag>)
    ensures DistinctKeys(tags)
    ensures |tags| == if Annotation(pod, AnnotationBudgetNamespace).Some? then 7 else 6
    ensures forall i :: 0 <= i < 6 ==> tags[i].key == StandardTagKeys[i]
    ensures Tag(TagName, "orca-" + pod.namespace + "-" + pod.name) in tags
    ensures Tag(TagPod, PodKey(pod.namespace, pod.name)) in tags
    ensures Tag(TagPodUid, pod.uid) in tags
    ensures Tag(TagNamespace, pod.namespace) in tags
    ensures Tag(TagProvider, ProviderName) in tags
    ensures Tag(TagCreatedAt, now) in tags
    ensures Annotation(pod, AnnotationBudgetNamespace).Some? ==>
      Tag(TagBudgetNamespace, Annotation(pod, AnnotationBudgetNamespace).value) in tags
    ensures Annotation(pod, AnnotationBudgetNamespace).None? ==> forall t :: t in tags ==> t.key != TagBudgetNamespace
  {
    var standard := [
      Tag(TagName, "orca-" + pod.namespace + "-" + pod.name),
      Tag(TagPod, PodKey(pod.namespace, pod.name)),
      Tag(TagPodUid, pod.uid),
      Tag(TagNamespace, pod.namespace),
      Tag(TagProvider, ProviderName),
      Tag(TagCreatedAt, now)];
    if pod.annotations.Some? && AnnotationBudgetNamespace in pod.annotations.value then
      standard + [Tag(TagBudgetNamespace, pod.annotations.value[AnnotationBudgetNamespace])]
    else
      standard
  }

  /** The tags looked up by key: the pod key under the pod tag, and the budget tag exactly when the pod has the annotation. */
  lemma PodTagsLookup(pod: Pod, now: string)
    ensures TagValue(PodTags(pod, now), TagPod) == Some(PodKey(pod.namespace, pod.name))
    ensures TagValue(PodTags(pod, now), TagPodUid) == Some(pod.uid)
    ensures TagValue(PodTags(pod, now), TagBudgetNamespace) == Annotation(pod, AnnotationBudgetNamespace)
  {
    var tags := PodTags(pod, now);
    TagValueOfDistinct(tags, Tag(TagPod, PodKey(pod.namespace, pod.name)));
    TagValueOfDistinct(tags, Tag(TagPodUid, pod.uid));
    if Annotation(pod, AnnotationBudgetNamespace).Some? {
      TagValueOfDistinct(tags, Tag(TagBudgetNamespace, Annotation(pod, AnnotationBudgetNamespace).value));
    }
  }

  /** Writes the six standard tags, then appends the budget tag when the pod carries the annotation. */
  method BuildTags(pod: Pod, now: string) returns (tags: seq<Tag>)
    ensures tags == PodTags(pod, now)
  {
    var podKey := PodKey(pod.namespace, pod.name);
    tags := [
      Tag(TagName, "orca-" + pod.namespace + "-" + pod.name),
      Tag(TagPod, podKey),
      Tag(TagPodUid, pod.uid),
      Tag(TagNamespace, pod.namespace),
      Tag(TagProvider, ProviderName),
      Tag(TagCreatedAt, now)];
    if pod.annotations.Some? && AnnotationBudgetNamespace in pod.annotations.value {
      tags := tags + [Tag(TagBudgetNamespace, pod.annotations.value[AnnotationBudgetNamespace])];
    }
  }

  // ---------------------------------------------------------------------------
  // Single calls (TerminateInstance, DescribeInstance, GetInstanceByPod)

  /** Terminates one instance; an empty id is refused before any call. */
  function TerminateInstance(instanceId: string, answer: Outcome<ApiError>): (r: Reply<()>)
    ensures instanceId == "" ==> r == Reply(Err(EmptyInstanceId), [])
    ensures instanceId != "" ==> r.calls == [TerminateInstances([instanceId])]
    ensures instanceId != "" ==> (r.result.Ok? <==> answer.Pass?)
    ensures instanceId != "" && answer.Fail? ==> r.result == Err(TerminateFailed(answer.error))
  {
    if instanceId == "" then Reply(Err(EmptyInstanceId), [])
    else
      var calls := [TerminateInstances([instanceId])];
      match answer
      case Fail(e) => Reply(Err(TerminateFailed(e)), calls)
      case Pass => Reply(Ok(()), calls)
  }

  /** The client's view of an EC2 instance; absent addresses become "" and an absent launch time 0. */
  function ToInstance(i: Ec2Instance): Instance {
    Instance(i.instanceId, i.instanceType, i.state, i.publicIp.GetOr(""), i.privateIp.GetOr(""), i.launchTime.GetOr(0))
  }

  /** The first instance of the first reservation, if there is one. */
  function FirstInstance(rs: seq<Reservation>): Option<Ec2Instance> {
    if rs == [] || rs[0].instances == [] then None else Some(rs[0].instances[0])
  }

  /** Describes one instance by id; an empty id is refused before any call. */
  function DescribeInstance(instanceId: string, answer: Result<seq<Reservation>, ApiError>): (r: Reply<Instance>)
    ensures r.calls == if instanceId == "" then [] else [DescribeInstances(ByIds([instanceId]))]
    ensures instanceId == "" ==> r.result == Err(EmptyInstanceId)
    ensures instanceId != "" && answer.Err? ==> r.result == Err(DescribeFailed(answer.error))
    ensures instanceId != "" && answer.Ok? && FirstInstance(answer.value).None? ==> r.result == Err(InstanceNotFound(instanceId))
    ensures r.result.Ok? <==> instanceId != "" && answer.Ok? && FirstInstance(answer.value).Some?
    ensures r.result.Ok? ==> r.result.value == ToInstance(FirstInstance(answer.value).value)
  {
    if instanceId == "" then Reply(Err(EmptyInstanceId), [])
    else
      var calls := [DescribeInstances(ByIds([instanceId]))];
      match answer
      case Err(e) => Reply(Err(DescribeFailed(e)), calls)
      case Ok(rs) =>
        if |rs| == 0 || |rs[0].instances| == 0 then Reply(Err(InstanceNotFound(instanceId)), calls)
        else Reply(Ok(ToInstance(rs[0].instances[0])), calls)
  }

  /** The filters that find a pod's instance: its pod tag, in one of the active states. */
  function PodFilters(namespace: string, name: string): seq<Filter> {
    [Filter(TagFilterPrefix + TagPod, [PodKey(namespace, name)]), Filter(StateFilterName, ActiveStates)]
  }

  /** Whether EC2 would let an instance through a filter. */
  predicate MatchesFilter(i: Ec2Instance, f: Filter) {
    if f.name == StateFilterName then i.state in f.values
    else if |f.name| >= |TagFilterPrefix| && f.name[..|TagFilterPrefix|] == TagFilterPrefix then
      exists t :: t in i.tags && t.key == f.name[|TagFilterPrefix|..] && t.value in f.values
    else false
  }

  predicate MatchesAll(i: Ec2Instance, filters: seq<Filter>) {
    forall f :: f in filters ==> MatchesFilter(i, f)
  }

  /** An answer in which every instance passes every filter of the request. */
  predicate Honours(rs: seq<Reservation>, filters: seq<Filter>) {
    forall r, i :: r in rs && i in r.instances ==> MatchesAll(i, filters)
  }

  /** Finds the instance of a pod by its tag among the active instances; takes the first EC2 lists. */
  function GetInstanceByPod(namespace: string, name: string, answer: Result<seq<Reservation>, ApiError>): (r: Reply<Instance>)
    ensures r.calls == [DescribeInstances(ByFilters(PodFilters(namespace, name)))]
    ensures answer.Err? ==> r.result == Err(DescribeByPodFailed(answer.error))
    ensures answer.Ok? && FirstInstance(answer.value).None? ==> r.result == Err(InstanceNotFoundForPod(PodKey(namespace, name)))
    ensures r.result.Ok? <==> answer.Ok? && FirstInstance(answer.value).Some?
    ensures r.result.Ok? ==> r.result.value == ToInstance(FirstInstance(answer.value).value)
  {
    var podKey := PodKey(namespace, name);
    var calls := [DescribeInstances(ByFilters(PodFilters(namespace, name)))];
    match answer
    case Err(e) => Reply(Err(DescribeByPodFailed(e)), calls)
    case Ok(rs) =>
      if |rs| == 0 || |rs[0].instances| == 0 then Reply(Err(InstanceNotFoundForPod(podKey)), calls)
      else Reply(Ok(ToInstance(rs[0].instances[0])), calls)
  }

  /** An instance launched for a pod, while active, passes the filters GetInstanceByPod sends for that pod. */
  lemma LaunchedInstanceIsFound(pod: Pod, now: string, i: Ec2Instance)
    requires forall t :: t in PodTags(pod, now) ==> t in i.tags
    requires i.state in ActiveStates
    ensures MatchesAll(i, PodFilters(pod.namespace, pod.name))
  {
    var key := PodKey(pod.namespace, pod.name);
    assert Tag(TagPod, key) in i.tags;
    var f := PodFilters(pod.namespace, pod.name)[0];
    assert f.name[|TagFilterPrefix|..] == TagPod;
  }

  /**
   * When EC2 honours the filters, what GetInstanceByPod returns is active and
   * carries the pod's tag; with '/'-free namespaces, that tag names this pod only.
   */
  lemma FoundInstanceBelongsToPod(namespace: string, name: string, rs: seq<Reservation>)
    requires Honours(rs, PodFilters(namespace, name))
    requires GetInstanceByPod(namespace, name, Ok(rs)).result.Ok?
    ensures GetInstanceByPod(namespace, name, Ok(rs)).result.value.state in ActiveStates
    ensures Tag(TagPod, PodKey(namespace, name)) in FirstInstance(rs).value.tags
  {
    var i := FirstInstance(rs).value;
    assert rs[0] in rs && i in rs[0].instances;
    var filters := PodFilters(namespace, name);
    assert MatchesAll(i, filters);
    assert filters[0] in filters && filters[1] in filters;
    assert filters[0].name[|TagFilterPrefix|..] == TagPod;
    var t :| t in i.tags && t.key == TagPod && t.value in [PodKey(namespace, name)];
    assert t == Tag(TagPod, PodKey(namespace, name));
  }

  /** A DescribeInstance answer in which EC2 honours the id lists the instance asked for. */
  lemma DescribeReturnsTheInstance(instanceId: string, rs: seq<Reservation>)
    requires instanceId != ""
    requires forall r, i :: r in rs && i in r.instances ==> i.instanceId == instanceId
    requires FirstInstance(rs).Some?
    ensures DescribeInstance(instanceId, Ok(rs)).result == Ok(ToInstance(FirstInstance(rs).value))
    ensures DescribeInstance(instanceId, Ok(rs)).result.value.id == instanceId
  {
    assert rs[0].instances[0] in rs[0].instances;
  }

  // ---------------------------------------------------------------------------
  // Waiting for the instance (waitForInstanceRunning)

  /** How one poll ends the wait, or lets it go on. */
  datatype Step = Running | Pending | Stop(error: ClientError)

  /** The calls one poll issues: a DescribeInstances of the instance, none for an empty id. */
  function PollCalls(instanceId: string): seq<Ec2Call> {
    if instanceId == "" then [] else [DescribeInstances(ByIds([instanceId]))]
  }

  /**
   * What one poll means: running ends the wait, pending lets it go on;
   * terminated, shutting-down, any other state, or a failed describe stops it
   * with an error.
   */
  function PollStep(instanceId: string, answer: Result<seq<Reservation>, ApiError>): (s: Step)
    ensures var d := DescribeInstance(instanceId, answer);
      s.Running? <==> d.result.Ok? && d.result.value.state == StateRunning
    ensures var d := DescribeInstance(instanceId, answer);
      s.Pending? <==> d.result.Ok? && d.result.value.state == StatePending
    ensures var d := DescribeInstance(instanceId, answer);
      d.result.Err? ==> s == Stop(d.result.error)
    ensures var d := DescribeInstance(instanceId, answer);
      d.result.Ok? && d.result.value.state in {StateTerminated, StateShuttingDown} ==> s == Stop(TerminalState(d.result.value.state))
    ensures var d := DescribeInstance(instanceId, answer);
      d.result.Ok? && d.result.value.state !in {StateRunning, StatePending, StateTerminated, StateShuttingDown} ==>
        s == Stop(UnexpectedState(d.result.value.state))
  {
    var d := DescribeInstance(instanceId, answer);
    if d.result.Err? then Stop(d.result.error)
    else
      var state := d.result.value.state;
      if state == StateRunning then Running
      else if state == StateTerminated || state == StateShuttingDown then Stop(TerminalState(state))
      else if state == StatePending then Pending
      else Stop(UnexpectedState(state))
  }

  /** What each poll before the deadline means, in order. */
  function Polled(instanceId: string, poll: nat -> Result<seq<Reservation>, ApiError>): (steps: seq<Step>)
    ensures |steps| == PollBudget
  {
    seq(PollBudget, j requires 0 <= j < PollBudget => PollStep(instanceId, poll(j)))
  }

  /** The j-th step is what the j-th poll means. */
  lemma PolledAt(instanceId: string, poll: nat -> Result<seq<Reservation>, ApiError>, j: nat)
    requires j < PollBudget
    ensures Polled(instanceId, poll)[j] == PollStep(instanceId, poll(j))
  {
  }

  /** How the wait from the k-th poll on ends; when the ticks before the deadline are used up, it times out. */
  function WaitResult(steps: seq<Step>, k: nat): Result<(), ClientError>
    decreases |steps| - k
  {
    if k >= |steps| then Err(WaitTimedOut)
    else match steps[k]
      case Running => Ok(())
      case Stop(e) => Err(e)
      case Pending => WaitResult(steps, k + 1)
  }

  /** The calls the wait from the k-th poll on issues: one poll's calls per poll, up to the one that ends it. */
  function WaitCalls(instanceId: string, steps: seq<Step>, k: nat): seq<Ec2Call>
    decreases |steps| - k
  {
    if k >= |steps| then []
    else if steps[k].Pending? then PollCalls(instanceId) + WaitCalls(instanceId, steps, k + 1)
    else PollCalls(instanceId)
  }

  /** One tick of the wait: describe the instance and classify its state. */
  method PollOnce(instanceId: string, answer: Result<seq<Reservation>, ApiError>) returns (step: Step, calls: seq<Ec2Call>)
    ensures step == PollStep(instanceId, answer)
    ensures calls == PollCalls(instanceId)
  {
    var d := DescribeInstance(instanceId, answer);
    calls := d.calls;
    if d.result.Err? {
      return Stop(d.result.error), calls;
    }
    var state := d.result.value.state;
    if state == StateRunning {
      step := Running;
    } else if state == StateTerminated || state == StateShuttingDown {
      step := Stop(TerminalState(state));
    } else if state != StatePending {
      step := Stop(UnexpectedState(state));
    } else {
      step := Pending;
    }
  }

  /** Polls the instance until it runs, fails, or the deadline passes. */
  method WaitForInstanceRunning(instanceId: string, poll: nat -> Result<seq<Reservation>, ApiError>)
    returns (r: Result<(), ClientError>, calls: seq<Ec2Call>)
    ensures r == WaitResult(Polled(instanceId, poll), 0)
    ensures calls == WaitCalls(instanceId, Polled(instanceId, poll), 0)
  {
    ghost var steps := Polled(instanceId, poll);
    calls := [];
    var k: nat := 0;
    while k < PollBudget
      invariant k <= PollBudget
      invariant WaitResult(steps, 0) == WaitResult(steps, k)
      invariant WaitCalls(instanceId, steps, 0) == calls + WaitCalls(instanceId, steps, k)
      decreases PollBudget - k
    {
      var step, polled := PollOnce(instanceId, poll(k));
      PolledAt(instanceId, poll, k);
      ghost var rest := WaitCalls(instanceId, steps, k + 1);
      assert WaitCalls(instanceId, steps, k) == if step.Pending? then polled + rest else polled;
      ghost var before := calls;
      calls := calls + polled;
      if !step.Pending? {
        return if step.Running? then Ok(()) else Err(step.error), calls;
      }
      assert before + (polled + rest) == calls + rest;
      k := k + 1;
    }
    assert calls + [] == calls;
    return Err(WaitTimedOut), calls;
  }

  /** Every call of a wait is a DescribeInstances of the instance; a wait with an id makes at least one and at most one per step. */
  lemma {:induction false} WaitCallsBounded(instanceId: string, steps: seq<Step>, k: nat)
    requires k <= |steps|
    ensures |WaitCalls(instanceId, steps, k)| <= |steps| - k
    ensures instanceId != "" && k < |steps| ==> |WaitCalls(instanceId, steps, k)| >= 1
    ensures forall c :: c in WaitCalls(instanceId, steps, k) ==> c == DescribeInstances(ByIds([instanceId]))
    decreases |steps| - k
  {
    if k < |steps| && steps[k].Pending? {
      WaitCallsBounded(instanceId, steps, k + 1);
    }
  }

  /** The n-th poll reports running, before the deadline, and the polls from k to it reported pending. */
  predicate RunsAt(steps: seq<Step>, k: nat, n: nat) {
    && k <= n < |steps|
    && steps[n] == Running
    && forall j :: k <= j < n ==> steps[j] == Pending
  }

  /**
   * The wait succeeds exactly when some poll before the deadline reports
   * running and every earlier poll reported pending.
   */
  lemma {:induction false} WaitSucceedsIff(steps: seq<Step>, k: nat)
    requires k <= |steps|
    ensures WaitResult(steps, k).Ok? <==> exists n :: RunsAt(steps, k, n)
    decreases |steps| - k
  {
    if k < |steps| {
      if steps[k] == Pending {
        WaitSucceedsIff(steps, k + 1);
        if WaitResult(steps, k).Ok? {
          var n :| RunsAt(steps, k + 1, n);
          assert RunsAt(steps, k, n);
        }
        if n :| RunsAt(steps, k, n) {
          assert RunsAt(steps, k + 1, n);
        }
      } else if steps[k] == Running {
        assert RunsAt(steps, k, k);
      }
    }
  }

  /** The wait times out exactly when every poll before the deadline reports pending. */
  lemma {:induction false} WaitTimesOutIff(steps: seq<Step>, k: nat)
    requires k <= |steps|
    requires forall j :: k <= j < |steps| ==> steps[j] != Stop(WaitTimedOut)
    ensures WaitResult(steps, k) == Err(WaitTimedOut) <==> forall j :: k <= j < |steps| ==> steps[j] == Pending
    decreases |steps| - k
  {
    if k < |steps| {
      WaitTimesOutIff(steps, k + 1);
    }
  }

  /**
   * The wait on an instance times out exactly when every poll before the
   * deadline reports pending: no poll stops it with the timeout error itself.
   */
  lemma WaitOnInstanceTimesOutIff(instanceId: string, poll: nat -> Result<seq<Reservation>, ApiError>)
    ensures WaitResult(Polled(instanceId, poll), 0) == Err(WaitTimedOut) <==>
      forall j :: 0 <= j < PollBudget ==> PollStep(instanceId, poll(j)) == Pending
  {
    var steps := Polled(instanceId, poll);
    forall j | 0 <= j < PollBudget
      ensures steps[j] == PollStep(instanceId, poll(j)) && steps[j] != Stop(WaitTimedOut)
    {
      PolledAt(instanceId, poll, j);
    }
    WaitTimesOutIff(steps, 0);
  }

  /** A log of DescribeInstances calls alone launches and terminates nothing. */
  lemma {:induction false} DescribesCountNothing(calls: seq<Ec2Call>)
    requires forall c :: c in calls ==> c.DescribeInstances?
    ensures Launches(calls) == 0 && Terminations(calls) == 0
    decreases |calls|
  {
    if calls != [] {
      assert calls[|calls| - 1] in calls;
      DescribesCountNothing(calls[..|calls| - 1]);
    }
  }

  // ---------------------------------------------------------------------------
  // Launching (CreateInstance)

  /** The RunInstances request for a pod: one instance of the type, tagged, spot options only for the spot launch type. */
  function LaunchInput(cfg: Settings, pod: Pod, instanceType: string, now: string): RunInstancesInput {
    var input := RunInstancesInput(
      Ami(cfg.aws, pod), instanceType, 1, 1, cfg.aws.subnetId, cfg.aws.securityGroupIds,
      [TagSpecification(ResourceTypeInstance, PodTags(pod, now))], UserData(pod), None);
    if LaunchType(cfg.instances, pod) == SpotLaunchType then
      input.(spot := Some(SpotOptions(MaxSpotPrice(cfg.instances, pod, instanceType), SpotOneTime)))
    else input
  }

  /** What a launch request asks for. */
  lemma LaunchInputShape(cfg: Settings, pod: Pod, instanceType: string, now: string)
    ensures var input := LaunchInput(cfg, pod, instanceType, now);
      && input.minCount == 1 && input.maxCount == 1
      && input.instanceType == instanceType
      && input.imageId == Ami(cfg.aws, pod) && input.imageId != ""
      && input.userData == UserData(pod)
      && input.subnetId == cfg.aws.subnetId && input.securityGroupIds == cfg.aws.securityGroupIds
      && (input.spot.Some? <==> LaunchType(cfg.instances, pod) == SpotLaunchType)
      && (input.spot.Some? ==> input.spot.value.spotInstanceType == SpotOneTime)
      && (input.spot.Some? ==> input.spot.value.maxPrice == MaxSpotPrice(cfg.instances, pod, instanceType))
      && input.tagSpecifications == [TagSpecification(ResourceTypeInstance, PodTags(pod, now))]
  {
  }

  /**
   * CreateInstance as a function of EC2's answers: launch one instance, wait
   * for it to run, and on a failed wait terminate it and report why it did not start.
   */
  function Launch(cfg: Settings, pod: Option<Pod>, instanceType: string, now: string, ec2: Ec2Answers): Reply<string> {
    if pod.None? then Reply(Err(NilPod), [])
    else if instanceType == "" then Reply(Err(EmptyInstanceType), [])
    else
      var run := RunInstances(LaunchInput(cfg, pod.value, instanceType, now));
      match ec2.run
      case Err(e) => Reply(Err(RunFailed(e)), [run])
      case Ok(instances) =>
        if instances == [] then Reply(Err(NoInstancesCreated), [run])
        else
          var id := instances[0].instanceId;
          var waitCalls := WaitCalls(id, Polled(id, ec2.poll), 0);
          match WaitResult(Polled(id, ec2.poll), 0)
          case Ok(_) => Reply(Ok(id), [run] + waitCalls)
          case Err(e) => Reply(Err(StartFailed(e)), [run] + waitCalls + TerminateInstance(id, ec2.terminate).calls)
  }

  /** Launches an instance for a pod and waits for it; an instance that does not start is terminated. */
  method CreateInstance(cfg: Settings, pod: Option<Pod>, instanceType: string, now: string, ec2: Ec2Answers)
    returns (r: Result<string, ClientError>, calls: seq<Ec2Call>)
    ensures Reply(r, calls) == Launch(cfg, pod, instanceType, now, ec2)
  {
    if pod.None? {
      return Err(NilPod), [];
    }
    if instanceType == "" {
      return Err(EmptyInstanceType), [];
    }
    var p := pod.value;
    var launchType := LaunchType(cfg.instances, p);
    var tags := BuildTags(p, now);
    var userData := UserData(p);
    var input := RunInstancesInput(
      Ami(cfg.aws, p), instanceType, 1, 1, cfg.aws.subnetId, cfg.aws.securityGroupIds,
      [TagSpecification(ResourceTypeInstance, tags)], userData, None);
    if launchType == SpotLaunchType {
      var maxPrice := MaxSpotPrice(cfg.instances, p, instanceType);
      input := input.(spot := Some(SpotOptions(maxPrice, SpotOneTime)));
    }
    calls := [RunInstances(input)];
    if ec2.run.Err? {
      return Err(RunFailed(ec2.run.error)), calls;
    }
    if |ec2.run.value| == 0 {
      return Err(NoInstancesCreated), calls;
    }
    var instanceId := ec2.run.value[0].instanceId;
    var waited, waitCalls := WaitForInstanceRunning(instanceId, ec2.poll);
    calls := calls + waitCalls;
    if waited.Err? {
      var terminated := TerminateInstance(instanceId, ec2.terminate);
      calls := calls + terminated.calls;
      return Err(StartFailed(waited.error)), calls;
    }
    return Ok(instanceId), calls;
  }

  /**
   * How a launch ends: the guards and an empty RunInstances answer each fail
   * with their own error, and a launch succeeds, with the created instance's id,
   * exactly when that instance was seen running.
   */
  lemma LaunchOutcomes(cfg: Settings, pod: Option<Pod>, instanceType: string, now: string, ec2: Ec2Answers)
    ensures pod.None? ==> Launch(cfg, pod, instanceType, now, ec2).result == Err(NilPod)
    ensures pod.Some? && instanceType == "" ==> Launch(cfg, pod, instanceType, now, ec2).result == Err(EmptyInstanceType)
    ensures pod.Some? && instanceType != "" && ec2.run.Err? ==>
      Launch(cfg, pod, instanceType, now, ec2).result == Err(RunFailed(ec2.run.error))
    ensures pod.Some? && instanceType != "" && ec2.run == Ok([]) ==>
      Launch(cfg, pod, instanceType, now, ec2).result == Err(NoInstancesCreated)
    ensures Launch(cfg, pod, instanceType, now, ec2).result.Ok? <==>
      pod.Some? && instanceType != "" && ec2.run.Ok? && ec2.run.value != [] &&
      WaitResult(Polled(ec2.run.value[0].instanceId, ec2.poll), 0).Ok?
    ensures Launch(cfg, pod, instanceType, now, ec2).result.Ok? ==>
      Launch(cfg, pod, instanceType, now, ec2).result.value == ec2.run.value[0].instanceId
  {
  }

  /**
   * Every launch that gets past the guards issues exactly one RunInstances, first;
   * a launch stopped by a guard issues nothing.
   */
  lemma LaunchIssuesOneRun(cfg: Settings, pod: Option<Pod>, instanceType: string, now: string, ec2: Ec2Answers)
    ensures var l := Launch(cfg, pod, instanceType, now, ec2);
      (pod.None? || instanceType == "") <==> l.calls == []
    ensures var l := Launch(cfg, pod, instanceType, now, ec2);
      l.calls != [] ==> l.calls[0] == RunInstances(LaunchInput(cfg, pod.value, instanceType, now)) && Launches(l.calls) == 1
  {
    var l := Launch(cfg, pod, instanceType, now, ec2);
    if pod.Some? && instanceType != "" && ec2.run.Ok? && ec2.run.value != [] {
      var id := ec2.run.value[0].instanceId;
      var waitCalls := WaitCalls(id, Polled(id, ec2.poll), 0);
      var run := [RunInstances(LaunchInput(cfg, pod.value, instanceType, now))];
      WaitCallsBounded(id, Polled(id, ec2.poll), 0);
      DescribesCountNothing(waitCalls);
      CountsAppend(run, waitCalls);
      CountsAppend(run + waitCalls, TerminateInstance(id, ec2.terminate).calls);
      assert Launches(run) == 1 by { assert run[..0] == []; }
      assert Launches(TerminateInstance(id, ec2.terminate).calls) == 0 by {
        var t := TerminateInstance(id, ec2.terminate).calls;
        if t != [] { assert t[..0] == []; }
      }
    }
  }

  /**
   * A launch succeeds only with an instance the wait saw running, and never
   * terminates it; a launch whose instance was created but did not start
   * terminates it exactly once (an empty id aside), as the last call.
   */
  lemma LaunchCleansUp(cfg: Settings, pod: Option<Pod>, instanceType: string, now: string, ec2: Ec2Answers)
    ensures var l := Launch(cfg, pod, instanceType, now, ec2);
      l.result.Ok? ==> Terminations(l.calls) == 0 && WaitResult(Polled(l.result.value, ec2.poll), 0).Ok?
    ensures var l := Launch(cfg, pod, instanceType, now, ec2);
      l.result.Err? && l.result.error.StartFailed? && ec2.run.value[0].instanceId != "" ==>
        Terminations(l.calls) == 1 && l.calls[|l.calls| - 1] == TerminateInstances([ec2.run.value[0].instanceId])
    ensures var l := Launch(cfg, pod, instanceType, now, ec2);
      l.result.Err? && !l.result.error.StartFailed? ==> Terminations(l.calls) == 0
  {
    var l := Launch(cfg, pod, instanceType, now, ec2);
    if pod.Some? && instanceType != "" && ec2.run.Ok? && ec2.run.value != [] {
      var id := ec2.run.value[0].instanceId;
      var waitCalls := WaitCalls(id, Polled(id, ec2.poll), 0);
      var run := [RunInstances(LaunchInput(cfg, pod.value, instanceType, now))];
      var term := TerminateInstance(id, ec2.terminate).calls;
      WaitCallsBounded(id, Polled(id, ec2.poll), 0);
      DescribesCountNothing(waitCalls);
      CountsAppend(run, waitCalls);
      CountsAppend(run + waitCalls, term);
      assert Terminations(run) == 0 by { assert run[..0] == []; }
      if term != [] {
        assert term[..0] == [];
      }
    } else if l.calls != [] {
      assert l.calls[..0] == [];
    }
  }
}

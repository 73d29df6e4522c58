# ORCA core in Dafny

A model of the decision logic of ORCA, a virtual-kubelet provider that runs
Kubernetes pods on EC2 instances. It covers the following parts:

- **Instance selection** (`instances.dfy`, pkg/instances). The explicit,
  template and auto strategies are modelled, together with the selector chain
  that NewSelector builds from the configured selection mode.
- **The EC2 client** (`aws.dfy`, internal/aws/client.go). It covers
  CreateInstance with its launch settings, tags and user data, the
  wait-until-running loop, terminate, describe, and lookup of an instance by pod.
- **The provider** (`provider.dfy`, pkg/provider/provider.go). It covers the
  pod registry that CreatePod, UpdatePod and DeletePod change in place, the
  GetPod, GetPodStatus and GetPods reads, and ConfigureNode.
- **Configuration validation** (`config.dfy`, pkg/config/config.go). Validate
  checks the fields in order and writes defaults into the receiver as it goes.

`kube.dfy` holds the pieces of the Kubernetes objects that the core reads and
writes. `wrappers.dfy` holds `Option`, `Result`, `Outcome` and a `Contains`
predicate on sequences.

EC2 is modelled as an oracle. Each client operation takes EC2's answers as
parameters. It returns its result together with the log of EC2 calls it
issued (`Reply`). Its properties can therefore speak about which calls were
made. For example, no call is made before the guards and exactly one
RunInstances is issued. An instance that was created but whose wait failed
is terminated exactly once, unless its id is empty. A RunInstances error or
an empty RunInstances answer terminates nothing.

Everything that changes state in place is a class. `Config.Validate` writes
defaults. `OrcaProvider` keeps its registry in a `pods` map. `Node` is the
object that ConfigureNode updates.

The loops of the source are methods with loop invariants, each proved against
a specification function:

- `ChainSelect` against `Chain`;
- `AutoSelect` against `AutoChoice`;
- `WaitForInstanceRunning` against `WaitResult` and `WaitCalls`;
- `Overlay` against map union.

The registry reads `GetPod` and `GetPods` also loop over the map with
invariants. They are proved against their own ensures rather than against a
separate function.

Two step-by-step methods have no loop. Each is proved equal to a specification
function:

- `CreateInstance` against `Launch`;
- `BuildTags` against `PodTags`.

Go map iteration order is unspecified. Loops over maps therefore pick their
next key with `:|`, and their contracts hold for every order.

Some facts about the code shape the model:

- The provider holds no EC2 client. Its field is commented out at
  pkg/provider/provider.go:25-26. CreatePod only selects a type and records
  the pod, and launching is left as TODOs at pkg/provider/provider.go:84-88.
- getAMI always returns an image. It falls back to a fixed AMI at
  internal/aws/client.go:309-311.
- CreateInstance terminates the instance after any error from the wait
  (internal/aws/client.go:130-133). That includes a timeout, a terminal state,
  a failed describe and an unexpected state.
- The client has no operation that lists every managed instance.
- No instance-type allow-list is checked. Selection leaves it as a TODO at
  pkg/instances/explicit.go:38-39, and `allowedInstanceTypes` is never read.

## Model

| member | source | states |
|---|---|---|
| Configuration.Validated | pkg/config/config.go:155-209 | Validate succeeds exactly when region, node name, cpu, memory and pods are set and the defaulted selection mode and launch type are known. On success the receiver holds every default. The AWS section and the node section apart from the OS are never changed. On an error, logging and metrics are untouched. A missing region or node name fails before any default is written. |
| Configuration.Config.Validate | pkg/config/config.go:155-209 | The error returned and the new fields are exactly `Validated` of the old fields: the checks run in source order and each default is written just before the check that reads it. |
| Configuration.ValidateIdempotent | pkg/config/config.go:155-209 | Validating an accepted configuration again succeeds and changes nothing. |
| Configuration.ValidateIgnoresNetwork | pkg/config/config.go:155-209 | The VPC, subnet and security groups never change the verdict. |
| Configuration.MissingCpuFailsFirst | pkg/config/config.go:155-170 | With a region and a node name but no cpu, validation fails on the cpu, with the OS default already written. |
| Kube.Annotation | pkg/instances/explicit.go:25-33 | `pod.Annotations[key]` is present exactly when the map is non-nil and has the key, and it then holds that value. |
| Instances.SelectExplicit | pkg/instances/explicit.go:24-42 | Succeeds exactly when the instance-type annotation is present and non-empty, and returns it. A nil map, a missing key and an empty value each give their own error. |
| Instances.ExplicitReadsOnlyAnnotations | pkg/instances/explicit.go:24-42 | The explicit choice depends on the annotations only. |
| Instances.SelectTemplate | pkg/instances/template.go:30-54 | Succeeds exactly when the template annotation names a known template with a non-empty instance type, and returns that type. A nil map, a missing or empty annotation, an unknown name and a template without a type each give their own error. |
| Instances.TemplateReadsOnlyItsAnnotation | pkg/instances/template.go:30-54 | The template choice depends only on the template annotation, and never on the launch type or spot price of the templates. |
| Instances.TotalAppend | pkg/instances/auto.go:24-34 | Summing requests over containers distributes over concatenation. |
| Instances.TotalWithoutRequests | pkg/instances/auto.go:24-34 | Containers that do not request a resource total zero for it. |
| Instances.GoDivMonotone | pkg/instances/auto.go:66-67 | Go's truncating division by a positive divisor is monotone. |
| Instances.FirstFitIsLeast | pkg/instances/auto.go:70-82 | The first-fit bucket takes the request, and no earlier bucket does. |
| Instances.CpuInstanceIsFirstFit | pkg/instances/auto.go:64-83 | The if-ladder of selectCPUInstance, applied to whole vCPUs and whole GiB rounded toward zero, is the first fit over the bucket table. |
| Instances.CpuBucketMonotone | pkg/instances/auto.go:64-83 | Asking for more CPU or memory never yields a smaller bucket. |
| Instances.GpuInstance | pkg/instances/auto.go:46-61 | 1, 2, 4 and 8 GPUs map to their table entry (g5.xlarge, g5.2xlarge, g5.12xlarge, p5.48xlarge). Any other count falls back to the single-GPU g5.xlarge. |
| Instances.AutoSelect | pkg/instances/auto.go:18-43 | The loop over the containers computes the auto choice for their summed requests, and never fails. |
| Instances.AutoExamples | pkg/instances/auto_test.go:18-214 | 1, 2, 4 and 8 GPUs pick g5.xlarge, g5.2xlarge, g5.12xlarge and p5.48xlarge. 1 CPU with 2Gi picks t3.small, 3 CPU with 6Gi picks t3.large, and 6 CPU with 12Gi picks c7i.2xlarge. Two 2-CPU/4Gi containers together pick t3.large. No containers pick t3.small. |
| Instances.AutoGpuIffRequested | pkg/instances/auto.go:36-42 | The auto choice is a GPU instance exactly when the containers request GPUs. |
| Instances.NewSelector | pkg/instances/selector.go:24-57 | A chain is built exactly for a known mode: explicit gives [explicit], template gives [explicit, template], auto gives [explicit, template, auto]. Any other mode is refused with that mode. |
| Instances.ChainSelect | pkg/instances/selector.go:60-73 | The loop returns what `Chain` specifies for the pod. |
| Instances.ChainFirstSuccess | pkg/instances/selector.go:60-73 | The chain returns the answer of the first strategy that succeeds. |
| Instances.ChainFailure | pkg/instances/selector.go:60-73 | The chain fails exactly when every strategy fails, and it then wraps the last strategy's error. |
| Instances.AutoModeNeverFails | pkg/instances/selector.go:42-48 | In auto mode, selection always succeeds. |
| Instances.ExplicitModeChain | pkg/instances/selector.go:29-33 | In explicit mode, the chain succeeds and fails exactly as the explicit strategy does. |
| Instances.ExplicitWins | pkg/instances/selector.go:24-73 | In every mode, an explicit instance-type annotation decides the choice. |
| Instances.TemplateModeChain | pkg/instances/selector.go:35-40 | In template mode, selection succeeds exactly when the explicit or the template strategy does, and falls back to the template. |
| Instances.ValidatedConfigHasSelector | pkg/config/config.go:179-184 | A validated configuration always gets a selector chain. |
| Aws.CountsAppend | internal/aws/client.go:71-137 | Counting launches and terminations in a call log distributes over concatenation. |
| Aws.LaunchType | internal/aws/client.go:265-275 | The launch type is the pod's annotation (even when empty), else the configured default. |
| Aws.MaxSpotPrice | internal/aws/client.go:278-293 | The spot cap is the pod's annotation, else the configured cap for the type, else none. |
| Aws.Ami | internal/aws/client.go:296-312 | The image is a non-empty pod annotation, else a non-empty configured AMI, else the fallback image. It is never empty. |
| Aws.PodKeyInjective | internal/aws/client.go:316 | Two pods with namespaces free of '/' share a pod key only if they are the same pod. |
| Aws.UserData | internal/aws/client.go:359-372 | The user data is the pod's annotation verbatim, else the boot-script header followed by text that contains the pod's key. |
| Aws.TagValue | internal/aws/client.go:315-356 | A tag lookup finds a value exactly when some tag has the key, and that tag is in the list. |
| Aws.TagValueOfDistinct | internal/aws/client.go:315-356 | When keys are distinct, looking up a tag's key returns that tag's value. |
| Aws.PodTags | internal/aws/client.go:315-356 | The tags have distinct keys: the six standard tags in source order, plus the budget tag exactly when the pod has the annotation. Each tag carries the pod's name, key, UID, namespace, the provider and the launch time. |
| Aws.PodTagsLookup | internal/aws/client.go:315-356 | Looking the tags up by key gives the pod key, the UID, and the budget namespace exactly as annotated. |
| Aws.BuildTags | internal/aws/client.go:315-356 | The tags built by appending are `PodTags`. |
| Aws.TerminateInstance | internal/aws/client.go:140-155 | An empty id fails with no call. Otherwise exactly one TerminateInstances call for the id is issued, and the operation fails exactly when EC2 does, wrapping EC2's error. |
| Aws.DescribeInstance | internal/aws/client.go:158-187 | An empty id fails with no call. Otherwise one DescribeInstances by id is issued. It succeeds exactly when EC2 answers with at least one instance, and returns the first one converted. An EC2 error and "not found" each give their own error. |
| Aws.DescribeReturnsTheInstance | internal/aws/client.go:158-187 | When EC2 honours the id filter, the instance described is the one asked for. |
| Aws.GetInstanceByPod | internal/aws/client.go:190-226 | One DescribeInstances with the pod-tag and active-state filters is issued. It succeeds exactly when EC2 lists an instance, and returns the first one. An EC2 error and "not found" each give their own error. |
| Aws.LaunchedInstanceIsFound | internal/aws/client.go:190-226 | An active instance tagged for a pod passes the filters of that pod's lookup. |
| Aws.FoundInstanceBelongsToPod | internal/aws/client.go:190-226 | When EC2 honours the filters, the instance found is active and carries the pod's tag. |
| Aws.PollStep | internal/aws/client.go:240-258 | One poll reports running or pending exactly when the describe succeeds with that state. A failed describe stops the wait with the describe's error. Terminated and shutting-down stop it with a terminal-state error, and any other state with an unexpected-state error. |
| Aws.PolledAt | internal/aws/client.go:229-262 | The k-th step of the wait is what the k-th poll means. |
| Aws.PollOnce | internal/aws/client.go:240-258 | One tick of the loop yields the step that `PollStep` defines, and the calls of one poll. |
| Aws.WaitForInstanceRunning | internal/aws/client.go:229-262 | The loop returns the result that `WaitResult` specifies and issues the calls that `WaitCalls` specifies. |
| Aws.WaitCallsBounded | internal/aws/client.go:229-262 | A wait issues only DescribeInstances of its instance: at least one for a non-empty id, and at most one per tick before the deadline. |
| Aws.WaitSucceedsIff | internal/aws/client.go:229-262 | The wait succeeds exactly when some poll before the deadline reports running and every earlier poll reported pending. |
| Aws.WaitTimesOutIff | internal/aws/client.go:229-262 | Given steps that never carry the timeout error, the wait times out exactly when every poll before the deadline reports pending. |
| Aws.WaitOnInstanceTimesOutIff | internal/aws/client.go:229-262 | The wait on an instance times out exactly when every poll before the deadline reports pending. |
| Aws.DescribesCountNothing | internal/aws/client.go:229-262 | A log of DescribeInstances calls launches and terminates nothing. |
| Aws.LaunchInputShape | internal/aws/client.go:79-114 | The RunInstances request asks for exactly one instance of the chosen type. Its image is `Ami`, never empty, and its user data is `UserData`. It carries the configured subnet and groups and the pod's tags. It has spot options exactly for the spot launch type, and those options are one-time with the cap `MaxSpotPrice`. |
| Aws.CreateInstance | internal/aws/client.go:71-137 | The method's result and calls are those of `Launch`. |
| Aws.LaunchOutcomes | internal/aws/client.go:71-137 | A nil pod fails with NilPod, and an empty type with EmptyInstanceType. A RunInstances error is wrapped, and an empty RunInstances answer fails with NoInstancesCreated. A launch succeeds exactly when the created instance was seen running, and it then returns that instance's id. |
| Aws.LaunchIssuesOneRun | internal/aws/client.go:71-137 | A launch past the nil-pod and empty-type guards issues exactly one RunInstances, first, with the request built for the pod. A guarded launch issues nothing. |
| Aws.LaunchCleansUp | internal/aws/client.go:124-137 | A successful launch terminates nothing, and its instance was seen running. A created instance that did not start is terminated exactly once, as the last call, unless its id is empty. Any other failure terminates nothing. |
| Provider.Scheduled | pkg/provider/provider.go:95-107 | The stored copy differs from the pod only in its status: phase Pending and one PodScheduled=True condition with reason Scheduled, whose message names the instance type. |
| Provider.NodeLabels | pkg/provider/provider.go:198-206 | The node keeps its own labels and gains the configured ones, which win. The provider and version labels always end up aws and the provider's version. |
| Provider.Overlay | pkg/provider/provider.go:202-204 | Writing the configured labels in one key at a time yields the union, with the configured values winning, in any iteration order. |
| Provider.OverlayStep | pkg/provider/provider.go:202-204 | Writing one pending key keeps the overlay invariant. |
| Provider.ProviderConditions | pkg/provider/provider.go:211-253 | The node reports five conditions of distinct types, Ready first. Only Ready is True, and all the others are False. |
| Provider.OrcaProvider.NewProvider | pkg/provider/provider.go:40-65 | A nil config, an empty node name and an unknown selection mode are refused in that order. Otherwise the new provider holds the chain for the mode and an empty, valid registry. |
| Provider.OrcaProvider.CreatePod | pkg/provider/provider.go:68-110 | A nil pod, nil annotations and a failed selection are refused in that order, and leave the registry as it was. Otherwise the scheduled copy is stored under the pod's UID. Registry validity is kept. |
| Provider.OrcaProvider.UpdatePod | pkg/provider/provider.go:113-131 | A nil pod and an unknown UID are refused and change nothing. Otherwise only the labels and annotations of the registered entry are replaced. |
| Provider.OrcaProvider.DeletePod | pkg/provider/provider.go:134-150 | Only a nil pod is refused. Otherwise the UID is removed, whether it was registered or not. |
| Provider.OrcaProvider.GetPod | pkg/provider/provider.go:153-164 | Succeeds exactly when some registered pod has the namespace and name, and returns such a pod. Otherwise the error is not-found. |
| Provider.OrcaProvider.GetPodStatus | pkg/provider/provider.go:167-177 | Succeeds exactly when GetPod does, with the status of such a registered pod. |
| Provider.OrcaProvider.GetPods | pkg/provider/provider.go:180-190 | Returns every registered pod exactly once, and nothing else. |
| Provider.OrcaProvider.ConfigureNode | pkg/provider/provider.go:193-267 | The node's labels become `NodeLabels`, and the configured taints are appended after its own. It is reported ready, with the provider's system info. |

## Left out

- NewClient (internal/aws/client.go:26-68) loads the AWS SDK configuration and credentials and builds the SDK client. It is I/O and is not modelled. EC2 is an oracle of answers instead.
- The SDK's nil pointers are not modelled: a RunInstances answer whose first instance has no id would panic in Go. The model reads the id as a plain string.
- User data is passed as written. The model does not capture whether the SDK or EC2 base64-encodes it.
- The clock: `time.Now()` in buildTags is the parameter `now`, the formatted RFC 3339 string.
- Aws.WaitForInstanceRunning does not model elapsed time. Ticks fall every 10 s under a 300 s deadline, and the model gives the wait the 29 ticks that fall strictly before the deadline (`PollBudget`). A tick at exactly 300 s races with the deadline in Go's `select`, and the model treats it as timed out. Time spent inside DescribeInstance, which can push later ticks past the deadline, is not modelled. Cancellation of the caller's context is not modelled either.
- Concurrency: the registry mutex and concurrent CreatePod, UpdatePod and DeletePod are not modelled. Each method runs alone.
- Provider.OrcaProvider.UpdatePod stores the caller's label and annotation maps by reference in Go. The model stores values, so later mutation through that alias is not captured.
- Resource quantities are exact integers (millicores, bytes, GPU count). Instances.AutoSelect therefore does not model int64 overflow of the sums, or the rounding of fractional quantities by `Quantity.Value()` and `MilliValue()`.
- ConfigureNode's capacity and allocatable (`NodeConfig.Capacity` and `Allocatable`, pkg/config/config.go:54-71) parse quantity strings and are not modelled. The heartbeat and transition timestamps of node and pod conditions are not modelled either.
- LoadConfig (pkg/config/config.go:135-152) reads and parses a YAML file. It is I/O and is not modelled.
- GetNodeStatus, GetContainerLogs, RunInContainer and GetStatsSummary (pkg/provider/provider.go:271-312) are stubs or report fixed data, and are not modelled.
- The server, the node controller and main are not part of this model.

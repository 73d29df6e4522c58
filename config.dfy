/**
 * The configuration record and its validation (pkg/config/config.go).
 * Loading from YAML, the capacity helpers and the limits/development
 * sections are not part of this model.
 */
module Configuration {
  import opened Wrappers
  import opened Kube

  datatype AwsCredentials = AwsCredentials(accessKeyId: string, secretAccessKey: string)

  datatype AwsConfig = AwsConfig(
    region: string,
    credentials: Option<AwsCredentials>,
    vpcId: string,
    subnetId: string,
    securityGroupIds: seq<string>,
    amiId: string,
    developmentMode: bool)

  datatype NodeConfig = NodeConfig(
    name: string,
    labels: map<string, string>,
    taints: seq<Taint>,
    operatingSystem: string,
    cpu: string,
    memory: string,
    pods: string,
    gpu: string)

  /** A named bundle of launch settings; only `instanceType` is used by selection. */
  datatype WorkloadTemplate = WorkloadTemplate(instanceType: string, launchType: string, maxSpotPrice: string)

  datatype InstancesConfig = InstancesConfig(
    selectionMode: string,
    templates: map<string, WorkloadTemplate>,
    defaultLaunchType: string,
    allowedInstanceTypes: seq<string>,
    maxSpotPrices: map<string, string>)

  datatype LoggingConfig = LoggingConfig(level: string, format: string, logAwsCalls: bool)

  datatype MetricsConfig = MetricsConfig(enabled: bool, port: int, path: string, prometheusEnabled: bool)

  /** The value of every field of a Config object. */
  datatype Settings = Settings(
    aws: AwsConfig,
    node: NodeConfig,
    instances: InstancesConfig,
    logging: LoggingConfig,
    metrics: MetricsConfig)

  datatype ConfigError =
    | MissingRegion
    | MissingNodeName
    | MissingNodeCpu
    | MissingNodeMemory
    | MissingNodePods
    | InvalidSelectionMode
    | InvalidLaunchType

  /** The selection modes Validate accepts (and NewSelector builds a chain for). */
  const SelectionModes: set<string> := {"explicit", "template", "auto"}
  const LaunchTypes: set<string> := {"on-demand", "spot"}

  const DefaultOperatingSystem := "Linux"
  const DefaultSelectionMode := "explicit"
  const DefaultLaunchType := "on-demand"
  const DefaultLogLevel := "info"
  const DefaultLogFormat := "json"
  const DefaultMetricsPort := 8080
  const DefaultMetricsPath := "/metrics"

  /** A field value with its default written in when it is empty. */
  function OrDefault(v: string, default: string): string {
    if v == "" then default else v
  }

  /** The checks Validate makes, all of them, on the values after defaulting. */
  predicate Acceptable(s: Settings) {
    && s.aws.region != ""
    && s.node.name != ""
    && s.node.cpu != ""
    && s.node.memory != ""
    && s.node.pods != ""
    && OrDefault(s.instances.selectionMode, DefaultSelectionMode) in SelectionModes
    && OrDefault(s.instances.defaultLaunchType, DefaultLaunchType) in LaunchTypes
  }

  /** Every default written into its field when that field is empty; nothing else changed. */
  function WithDefaults(s: Settings): Settings {
    s.(node := s.node.(operatingSystem := OrDefault(s.node.operatingSystem, DefaultOperatingSystem)),
       instances := s.instances.(
         selectionMode := OrDefault(s.instances.selectionMode, DefaultSelectionMode),
         defaultLaunchType := OrDefault(s.instances.defaultLaunchType, DefaultLaunchType)),
       logging := s.logging.(
         level := OrDefault(s.logging.level, DefaultLogLevel),
         format := OrDefault(s.logging.format, DefaultLogFormat)),
       metrics := s.metrics.(
         port := if s.metrics.port == 0 then DefaultMetricsPort else s.metrics.port,
         path := OrDefault(s.metrics.path, DefaultMetricsPath)))
  }

  /** What Validate returns, and what it leaves in the receiver. */
  datatype Validation = Validation(error: Option<ConfigError>, settings: Settings)

  /**
   * Validate as a function of the receiver's fields before the call: the checks
   * in source order, with each default written just before the check that reads it.
   * On an error the defaults written so far stay in the receiver.
   */
  function Validated(s: Settings): (v: Validation)
    ensures v.error.None? <==> Acceptable(s)
    ensures v.error.None? ==> v.settings == WithDefaults(s)
    ensures v.settings.aws == s.aws && v.settings.node.(operatingSystem := s.node.operatingSystem) == s.node
    ensures v.error.Some? ==> v.settings.logging == s.logging && v.settings.metrics == s.metrics
    ensures v.error == Some(MissingRegion) <==> s.aws.region == ""
    ensures v.error == Some(MissingRegion) || v.error == Some(MissingNodeName) ==> v.settings == s
    ensures v.error.None? ==> v.settings.instances.selectionMode in SelectionModes
    ensures v.error.None? ==> v.settings.instances.defaultLaunchType in LaunchTypes
  {
    if s.aws.region == "" then Validation(Some(MissingRegion), s)
    else if s.node.name == "" then Validation(Some(MissingNodeName), s)
    else
      var s1 := s.(node := s.node.(operatingSystem := OrDefault(s.node.operatingSystem, DefaultOperatingSystem)));
      if s1.node.cpu == "" then Validation(Some(MissingNodeCpu), s1)
      else if s1.node.memory == "" then Validation(Some(MissingNodeMemory), s1)
      else if s1.node.pods == "" then Validation(Some(MissingNodePods), s1)
      else
        var s2 := s1.(instances := s1.instances.(selectionMode := OrDefault(s1.instances.selectionMode, DefaultSelectionMode)));
        if s2.instances.selectionMode !in SelectionModes then Validation(Some(InvalidSelectionMode), s2)
        else
          var s3 := s2.(instances := s2.instances.(defaultLaunchType := OrDefault(s2.instances.defaultLaunchType, DefaultLaunchType)));
          if s3.instances.defaultLaunchType !in LaunchTypes then Validation(Some(InvalidLaunchType), s3)
          else
            Validation(None, s3.(
              logging := s3.logging.(level := OrDefault(s3.logging.level, DefaultLogLevel),
                                     format := OrDefault(s3.logging.format, DefaultLogFormat)),
              metrics := s3.metrics.(port := if s3.metrics.port == 0 then DefaultMetricsPort else s3.metrics.port,
                                     path := OrDefault(s3.metrics.path, DefaultMetricsPath))))
  }

  /** Validating a configuration Validate has already accepted succeeds and writes nothing. */
  lemma ValidateIdempotent(s: Settings)
    requires Validated(s).error.None?
    ensures Validated(Validated(s).settings) == Validation(None, Validated(s).settings)
  {
  }

  /** The VPC, subnet and security groups are not checked: they never change the verdict. */
  lemma ValidateIgnoresNetwork(s: Settings, vpcId: string, subnetId: string, securityGroupIds: seq<string>)
    ensures Validated(s.(aws := s.aws.(vpcId := vpcId, subnetId := subnetId, securityGroupIds := securityGroupIds))).error
         == Validated(s).error
  {
  }

  /**
   * A configuration with a region and a node name but no node.cpu (the shape of
   * the "missing VPC/subnet/security group" test documents) fails on node.cpu,
   * with the operating-system default already written.
   */
  lemma MissingCpuFailsFirst(s: Settings)
    requires s.aws.region != "" && s.node.name != "" && s.node.cpu == ""
    ensures Validated(s).error == Some(MissingNodeCpu)
    ensures Validated(s).settings.node.operatingSystem == OrDefault(s.node.operatingSystem, DefaultOperatingSystem)
  {
  }

  /** A configuration object; Validate writes defaults into its fields. */
  class Config {
    var aws: AwsConfig
    var node: NodeConfig
    var instances: InstancesConfig
    var logging: LoggingConfig
    var metrics: MetricsConfig

    /** The value of the fields. */
    function Fields(): Settings
      reads this
    {
      Settings(aws, node, instances, logging, metrics)
    }

    constructor (s: Settings)
      ensures Fields() == s
    {
      aws, node, instances, logging, metrics := s.aws, s.node, s.instances, s.logging, s.metrics;
    }

    /** Checks the fields in order, writing each default as it goes. */
    method Validate() returns (err: Option<ConfigError>)
      modifies this
      ensures Validation(err, Fields()) == Validated(old(Fields()))
    {
      if aws.region == "" {
        return Some(MissingRegion);
      }
      if node.name == "" {
        return Some(MissingNodeName);
      }
      node := node.(operatingSystem := OrDefault(node.operatingSystem, DefaultOperatingSystem));
      if node.cpu == "" {
        return Some(MissingNodeCpu);
      }
      if node.memory == "" {
        return Some(MissingNodeMemory);
      }
      if node.pods == "" {
        return Some(MissingNodePods);
      }
      instances := instances.(selectionMode := OrDefault(instances.selectionMode, DefaultSelectionMode));
      if instances.selectionMode !in SelectionModes {
        return Some(InvalidSelectionMode);
      }
      instances := instances.(defaultLaunchType := OrDefault(instances.defaultLaunchType, DefaultLaunchType));
      if instances.defaultLaunchType !in LaunchTypes {
        return Some(InvalidLaunchType);
      }
      logging := logging.(level := OrDefault(logging.level, DefaultLogLevel));
      logging := logging.(format := OrDefault(logging.format, DefaultLogFormat));
      metrics := metrics.(port := if metrics.port == 0 then DefaultMetricsPort else metrics.port);
      metrics := metrics.(path := OrDefault(metrics.path, DefaultMetricsPath));
      return None;
    }
  }
}

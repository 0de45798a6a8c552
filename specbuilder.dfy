/** The specifications the manager submits for one transform request: the
    worker deployment (name, replicas, one container with its command line,
    environment, CPU limit and volume mounts) and, when autoscaling is on,
    the horizontal pod autoscaler that targets it.  All of it is computed
    from the request and the configuration, with no side effects. */
module SpecBuilder {
  import opened Wrappers
  import opened Text
  import opened Settings

  /** The parameters of `launch_transformer_jobs`. */
  datatype TransformRequest = TransformRequest(
    image: string,
    requestId: string,
    workers: nat,
    chunkSize: nat,
    rabbitmqUri: string,
    namespace: string,
    resultDestination: string,
    resultFormat: string,
    x509Secret: string,
    generatedCodeCm: Option<string>,
    kafkaBroker: Option<string> := None)

  datatype EnvVar = EnvVar(name: string, value: string)

  datatype VolumeSource =
    | SecretVolume(secretName: string)
    | HostPathVolume(path: string)
    | ConfigMapVolume(configMapName: string)

  datatype Volume = Volume(name: string, source: VolumeSource)

  datatype VolumeMount = VolumeMount(name: string, mountPath: string)

  datatype Container = Container(
    image: string,
    imagePullPolicy: string,
    args: seq<string>,
    env: seq<EnvVar>,
    limits: map<string, nat>,
    volumeMounts: seq<VolumeMount>)

  /** A deployment: `metadata.name`, `spec.replicas`, and the pod template's
      containers and volumes. */
  datatype Deployment = Deployment(
    name: string,
    replicas: nat,
    containers: seq<Container>,
    volumes: seq<Volume>)

  /** A horizontal pod autoscaler: its name, its bounds, the name in its
      `scale_target_ref` and its target CPU utilisation percentage. */
  datatype Autoscaler = Autoscaler(
    name: string,
    minReplicas: nat,
    maxReplicas: nat,
    targetName: string,
    targetCpuUtilization: nat)

  const DeploymentPrefix := "transformer-"
  const PullAlways := "Always"

  /** The deterministic name of a request's deployment (and of its autoscaler). */
  function DeploymentName(requestId: string): (n: string)
    ensures |n| == |DeploymentPrefix| + |requestId|
    ensures n[..|DeploymentPrefix|] == DeploymentPrefix && n[|DeploymentPrefix|..] == requestId
  {
    DeploymentPrefix + requestId
  }

  /** Distinct requests get distinct deployments. */
  lemma DeploymentNameInjective(a: string, b: string)
    ensures DeploymentName(a) == DeploymentName(b) ==> a == b
  {
  }

  // ---- command line ----

  const RabbitUriFlag := "--rabbit-uri"
  const ChunksFlag := "--chunks"
  const DestinationFlag := "--result-destination"
  const FormatFlag := "--result-format"
  const BrokerFlag := "--brokerlist"

  predicate IsFlagName(s: string) {
    s == RabbitUriFlag || s == ChunksFlag || s == DestinationFlag || s == FormatFlag || s == BrokerFlag
  }

  datatype Flag = Flag(name: string, value: string)

  const KafkaDestination := "kafka"

  /** The broker the workers are told about: the supplied one, and only
      when the results go to Kafka. */
  function BrokerOf(req: TransformRequest): Option<string> {
    if req.resultDestination == KafkaDestination then req.kafkaBroker else None
  }

  /** The flag/value pairs of the worker's command line, in order; the
      broker flag only when the destination is Kafka and a broker was given. */
  function ArgFlags(req: TransformRequest): seq<Flag> {
    [Flag(RabbitUriFlag, req.rabbitmqUri),
     Flag(ChunksFlag, NatToString(req.chunkSize)),
     Flag(DestinationFlag, req.resultDestination),
     Flag(FormatFlag, req.resultFormat)]
    + match BrokerOf(req)
      case Some(broker) => [Flag(BrokerFlag, broker)]
      case None => []
  }

  /** `name value name value ...`, joined by single spaces. */
  function Render(flags: seq<Flag>): string {
    if |flags| == 0 then ""
    else if |flags| == 1 then flags[0].name + " " + flags[0].value
    else flags[0].name + " " + flags[0].value + " " + Render(flags[1..])
  }

  /** The words `Render` is meant to produce. */
  function Tokens(flags: seq<Flag>): seq<string> {
    if |flags| == 0 then [] else [flags[0].name, flags[0].value] + Tokens(flags[1..])
  }

  /** The value of the first flag called `name`. */
  function Lookup(flags: seq<Flag>, name: string): Option<string> {
    if |flags| == 0 then None
    else if flags[0].name == name then Some(flags[0].value)
    else Lookup(flags[1..], name)
  }

  /** Reads a command line back: the word after the first occurrence of
      `flag`, if there is one. */
  function FlagValue(words: seq<string>, flag: string): Option<string> {
    if |words| == 0 then None
    else if words[0] == flag then (if |words| >= 2 then Some(words[1]) else None)
    else FlagValue(words[1..], flag)
  }

  /** The container's `args`: the single argument string the tests read as `args[0]`. */
  function Args(req: TransformRequest): (args: seq<string>)
    ensures |args| == 1
  {
    [Render(ArgFlags(req))]
  }

  predicate PlainFlags(flags: seq<Flag>) {
    forall k :: 0 <= k < |flags| ==> NoSpace(flags[k].name) && NoSpace(flags[k].value)
  }

  lemma {:induction false} SplitRender(flags: seq<Flag>)
    requires |flags| >= 1 && PlainFlags(flags)
    ensures Split(Render(flags)) == Tokens(flags)
  {
    var f := flags[0];
    SplitWord(f.name);
    SplitWord(f.value);
    SplitJoin(f.name, f.value);
    if |flags| == 1 {
      assert Tokens(flags) == [f.name, f.value] + Tokens([]);
    } else {
      var rest := Render(flags[1..]);
      assert Render(flags) == (f.name + " " + f.value) + " " + rest;
      SplitJoin(f.name + " " + f.value, rest);
      SplitRender(flags[1..]);
    }
  }

  lemma {:induction false} FlagValueTokens(flags: seq<Flag>, f: string)
    requires forall k :: 0 <= k < |flags| ==> flags[k].value != f
    ensures FlagValue(Tokens(flags), f) == Lookup(flags, f)
  {
    if |flags| > 0 {
      var t := Tokens(flags);
      assert t[0] == flags[0].name && t[1] == flags[0].value;
      if flags[0].name != f {
        assert t[1..][1..] == Tokens(flags[1..]);
        FlagValueTokens(flags[1..], f);
      }
    }
  }

  /** The request's command-line values are single words that do not look
      like one of the flags (what reading the line back by words needs). */
  predicate PlainArgs(req: TransformRequest) {
    NoSpace(req.rabbitmqUri) && !IsFlagName(req.rabbitmqUri)
    && NoSpace(req.resultDestination) && !IsFlagName(req.resultDestination)
    && NoSpace(req.resultFormat) && !IsFlagName(req.resultFormat)
    && (BrokerOf(req).Some? ==> NoSpace(BrokerOf(req).value) && !IsFlagName(BrokerOf(req).value))
  }

  lemma DigitsAreNotFlags(s: string)
    requires |s| >= 1 && IsDigits(s)
    ensures NoSpace(s) && !IsFlagName(s)
  {
    assert '0' <= s[0] <= '9';
  }

  /** The command line carries every request value under its own flag; the
      broker flag carries the supplied broker when the destination is Kafka,
      and is absent otherwise, even when a broker was supplied. */
  lemma ArgsCarryRequest(req: TransformRequest)
    requires PlainArgs(req)
    ensures var words := Split(Args(req)[0]);
      && FlagValue(words, RabbitUriFlag) == Some(req.rabbitmqUri)
      && FlagValue(words, ChunksFlag) == Some(NatToString(req.chunkSize))
      && FlagValue(words, DestinationFlag) == Some(req.resultDestination)
      && FlagValue(words, FormatFlag) == Some(req.resultFormat)
      && (req.resultDestination == KafkaDestination ==> FlagValue(words, BrokerFlag) == req.kafkaBroker)
      && (req.resultDestination != KafkaDestination ==> FlagValue(words, BrokerFlag) == None)
  {
    var flags := ArgFlags(req);
    PlainArgFlags(req);
    SplitRender(flags);
    LookupArgFlags(req);
    FlagValueTokens(flags, RabbitUriFlag);
    FlagValueTokens(flags, ChunksFlag);
    FlagValueTokens(flags, DestinationFlag);
    FlagValueTokens(flags, FormatFlag);
    FlagValueTokens(flags, BrokerFlag);
  }

  lemma PlainArgFlags(req: TransformRequest)
    requires PlainArgs(req)
    ensures var flags := ArgFlags(req);
      PlainFlags(flags) && forall k :: 0 <= k < |flags| ==> !IsFlagName(flags[k].value)
  {
    var flags := ArgFlags(req);
    var chunks := NatToString(req.chunkSize);
    DigitsAreNotFlags(chunks);
    FlagNamesArePlain();
    forall k | 0 <= k < |flags|
      ensures NoSpace(flags[k].name) && NoSpace(flags[k].value) && !IsFlagName(flags[k].value)
    {
      if k == 0 {
        assert flags[k] == Flag(RabbitUriFlag, req.rabbitmqUri);
      } else if k == 1 {
        assert flags[k] == Flag(ChunksFlag, chunks);
      } else if k == 2 {
        assert flags[k] == Flag(DestinationFlag, req.resultDestination);
      } else if k == 3 {
        assert flags[k] == Flag(FormatFlag, req.resultFormat);
      } else {
        assert flags[k] == Flag(BrokerFlag, BrokerOf(req).value);
      }
    }
  }

  lemma FlagNamesArePlain()
    ensures NoSpace(RabbitUriFlag) && NoSpace(ChunksFlag) && NoSpace(DestinationFlag)
    ensures NoSpace(FormatFlag) && NoSpace(BrokerFlag)
  {
  }

  /** Each flag of the command line finds its own value. */
  lemma LookupArgFlags(req: TransformRequest)
    ensures var flags := ArgFlags(req);
      && Lookup(flags, RabbitUriFlag) == Some(req.rabbitmqUri)
      && Lookup(flags, ChunksFlag) == Some(NatToString(req.chunkSize))
      && Lookup(flags, DestinationFlag) == Some(req.resultDestination)
      && Lookup(flags, FormatFlag) == Some(req.resultFormat)
      && Lookup(flags, BrokerFlag) == BrokerOf(req)
  {
    var flags := ArgFlags(req);
    assert |flags| >= 4;
    assert flags[0] == Flag(RabbitUriFlag, req.rabbitmqUri);
    assert flags[1] == Flag(ChunksFlag, NatToString(req.chunkSize));
    assert flags[2] == Flag(DestinationFlag, req.resultDestination);
    assert flags[3] == Flag(FormatFlag, req.resultFormat);
    assert DestinationFlag != BrokerFlag && DestinationFlag != FormatFlag;
    assert |RabbitUriFlag| == |BrokerFlag| && RabbitUriFlag[2] != BrokerFlag[2];
    var tail := flags[4..];
    assert tail == if BrokerOf(req).Some? then [Flag(BrokerFlag, BrokerOf(req).value)] else [];
    assert Lookup(tail, BrokerFlag) == BrokerOf(req);
    assert flags[3..][1..] == tail;
    assert Lookup(flags[3..], BrokerFlag) == BrokerOf(req);
    assert Lookup(flags[3..], FormatFlag) == Some(req.resultFormat);
    assert flags[2..][1..] == flags[3..];
    assert Lookup(flags[2..], BrokerFlag) == BrokerOf(req);
    assert Lookup(flags[2..], FormatFlag) == Some(req.resultFormat);
    assert flags[1..][1..] == flags[2..];
    assert Lookup(flags[2..], DestinationFlag) == Some(req.resultDestination);
    assert Lookup(flags[1..], DestinationFlag) == Some(req.resultDestination);
  }

  // ---- environment ----

  const MinioUrlVar := "MINIO_URL"
  const MinioAccessKeyVar := "MINIO_ACCESS_KEY"
  const MinioSecretKeyVar := "MINIO_SECRET_KEY"
  const ObjectStoreDestination := "object-store"

  predicate IsMinioVar(name: string) {
    name == MinioUrlVar || name == MinioAccessKeyVar || name == MinioSecretKeyVar
  }

  /** The object store is wired into the workers only when it is enabled and
      the request writes its results there. */
  predicate ObjectStoreWired(req: TransformRequest, cfg: Config) {
    cfg.objectStoreEnabled && req.resultDestination == ObjectStoreDestination
  }

  /** The value of the first variable called `name`. */
  function EnvValue(env: seq<EnvVar>, name: string): Option<string> {
    if |env| == 0 then None
    else if env[0].name == name then Some(env[0].value)
    else EnvValue(env[1..], name)
  }

  /** The container's environment. */
  function Env(req: TransformRequest, cfg: Config): (env: seq<EnvVar>)
    ensures ObjectStoreWired(req, cfg) ==>
      && EnvValue(env, MinioUrlVar) == Some(cfg.minioUrl)
      && EnvValue(env, MinioAccessKeyVar) == Some(cfg.minioAccessKey)
      && EnvValue(env, MinioSecretKeyVar) == Some(cfg.minioSecretKey)
    ensures !ObjectStoreWired(req, cfg) ==> forall e <- env :: !IsMinioVar(e.name)
  {
    if ObjectStoreWired(req, cfg) then
      var env := [EnvVar(MinioUrlVar, cfg.minioUrl),
                  EnvVar(MinioAccessKeyVar, cfg.minioAccessKey),
                  EnvVar(MinioSecretKeyVar, cfg.minioSecretKey)];
      assert MinioAccessKeyVar[6] != MinioSecretKeyVar[6];
      assert EnvValue(env[2..], MinioSecretKeyVar) == Some(cfg.minioSecretKey);
      assert env[1..][1..] == env[2..];
      env
    else []
  }

  // ---- volumes ----

  const X509VolumeName := "x509-secret"
  const X509MountPath := "/etc/grid-security-ro"
  const LocalPathVolumeName := "rootfiles"
  const LocalPathMountPath := "/data"
  const GeneratedCodeVolumeName := "generated-code"
  const GeneratedCodeMountPath := "/generated"

  /** The one data source mounted beside the credentials. */
  datatype AuxiliaryMount = NoAuxiliary | LocalPathMount(path: string) | GeneratedCodeMount(configMap: string)

  /** A configured local path takes the slot before generated code does. */
  function Auxiliary(req: TransformRequest, cfg: Config): AuxiliaryMount {
    match cfg.localPath
    case Some(path) => LocalPathMount(path)
    case None =>
      match req.generatedCodeCm
      case Some(cm) => GeneratedCodeMount(cm)
      case None => NoAuxiliary
  }

  /** A volume and the place it is mounted in the container. */
  datatype Mount = Mount(volume: Volume, at: VolumeMount)

  function MountOf(aux: AuxiliaryMount): seq<Mount> {
    match aux
    case NoAuxiliary => []
    case LocalPathMount(path) =>
      [Mount(Volume(LocalPathVolumeName, HostPathVolume(path)), VolumeMount(LocalPathVolumeName, LocalPathMountPath))]
    case GeneratedCodeMount(cm) =>
      [Mount(Volume(GeneratedCodeVolumeName, ConfigMapVolume(cm)), VolumeMount(GeneratedCodeVolumeName, GeneratedCodeMountPath))]
  }

  /** The pod's mounts: slot 0 the X.509 secret, slot 1 the local path if
      one is configured, else the generated-code config map if the request
      names one, else nothing. */
  function Mounts(req: TransformRequest, cfg: Config): (ms: seq<Mount>)
    ensures 1 <= |ms| <= 2
    ensures forall k :: 0 <= k < |ms| ==> ms[k].volume.name == ms[k].at.name
    ensures ms[0].volume.source == SecretVolume(req.x509Secret) && ms[0].at.mountPath == X509MountPath
    ensures cfg.localPath.Some? ==>
      (|ms| == 2 && ms[1].volume.source == HostPathVolume(cfg.localPath.value)
       && ms[1].at.mountPath == LocalPathMountPath)
    ensures cfg.localPath.None? && req.generatedCodeCm.Some? ==>
      (|ms| == 2
       && ms[1].volume == Volume(GeneratedCodeVolumeName, ConfigMapVolume(req.generatedCodeCm.value))
       && ms[1].at == VolumeMount(GeneratedCodeVolumeName, GeneratedCodeMountPath))
    ensures |ms| == 1 <==> cfg.localPath.None? && req.generatedCodeCm.None?
  {
    [Mount(Volume(X509VolumeName, SecretVolume(req.x509Secret)), VolumeMount(X509VolumeName, X509MountPath))]
    + MountOf(Auxiliary(req, cfg))
  }

  function VolumesOf(ms: seq<Mount>): (vs: seq<Volume>)
    ensures |vs| == |ms| && forall k :: 0 <= k < |ms| ==> vs[k] == ms[k].volume
  {
    seq(|ms|, k requires 0 <= k < |ms| => ms[k].volume)
  }

  function VolumeMountsOf(ms: seq<Mount>): (vms: seq<VolumeMount>)
    ensures |vms| == |ms| && forall k :: 0 <= k < |ms| ==> vms[k] == ms[k].at
  {
    seq(|ms|, k requires 0 <= k < |ms| => ms[k].at)
  }

  // ---- deployment and autoscaler ----

  /** The replica count the deployment starts with. */
  function Replicas(req: TransformRequest, cfg: Config): nat {
    if cfg.autoscaleEnabled then cfg.minReplicas else req.workers
  }

  /** The worker deployment of `create_job_object`. */
  function BuildDeployment(req: TransformRequest, cfg: Config): (d: Deployment)
    ensures d.name == DeploymentName(req.requestId)
    ensures d.replicas == if cfg.autoscaleEnabled then cfg.minReplicas else req.workers
    ensures |d.containers| == 1
    ensures var c := d.containers[0];
      && c.image == req.image
      && c.imagePullPolicy == PullAlways
      && "cpu" in c.limits && c.limits["cpu"] == cfg.cpuLimit
      && c.args == Args(req)
      && c.env == Env(req, cfg)
      && |c.volumeMounts| == |d.volumes| == |Mounts(req, cfg)|
      && forall k :: 0 <= k < |d.volumes| ==>
           Mount(d.volumes[k], c.volumeMounts[k]) == Mounts(req, cfg)[k]
  {
    var ms := Mounts(req, cfg);
    var container := Container(req.image, PullAlways, Args(req), Env(req, cfg),
                               map["cpu" := cfg.cpuLimit], VolumeMountsOf(ms));
    Deployment(DeploymentName(req.requestId), Replicas(req, cfg), [container], VolumesOf(ms))
  }

  /** The autoscaler, present exactly when autoscaling is enabled; it is
      named after and targets the request's deployment. */
  function BuildAutoscaler(req: TransformRequest, cfg: Config): (h: Option<Autoscaler>)
    ensures h.Some? <==> cfg.autoscaleEnabled
    ensures h.Some? ==>
      && h.value.name == DeploymentName(req.requestId)
      && h.value.targetName == BuildDeployment(req, cfg).name
      && h.value.minReplicas == cfg.minReplicas
      && h.value.maxReplicas == cfg.maxReplicas
      && h.value.targetCpuUtilization == cfg.cpuScaleThreshold
  {
    if cfg.autoscaleEnabled then
      var name := DeploymentName(req.requestId);
      Some(Autoscaler(name, cfg.minReplicas, cfg.maxReplicas, name, cfg.cpuScaleThreshold))
    else None
  }

  /** When an autoscaler exists, the deployment starts at its floor. */
  lemma ReplicasMatchAutoscaler(req: TransformRequest, cfg: Config)
    ensures BuildAutoscaler(req, cfg).Some? ==>
      BuildDeployment(req, cfg).replicas == BuildAutoscaler(req, cfg).value.minReplicas
    ensures BuildAutoscaler(req, cfg).None? ==> BuildDeployment(req, cfg).replicas == req.workers
  {
  }
}

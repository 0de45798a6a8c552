/** The concrete cases of the manager's test suite, stated over the model. */
module Scenarios {
  import opened Wrappers
  import opened Base64
  import opened Text
  import opened Settings
  import opened SpecBuilder
  import opened Packager
  import opened ClusterClient
  import opened Lifecycle

  const Image := "sslhep/servicex-transformer:pytest"

  /** The request every launch test issues, with its destination, format,
      broker and generated-code config map varied. */
  function TestRequest(destination: string, format: string, broker: Option<string>, cm: Option<string>): TransformRequest {
    TransformRequest(Image, "1234", 17, 5000, "ampq://test.com", "my-ns", destination, format, "x509", cm, broker)
  }

  lemma PlainKafkaRequest()
    ensures PlainArgs(TestRequest("kafka", "arrow", None, None))
  {
  }

  lemma PlainObjectStoreRequest()
    ensures PlainArgs(TestRequest("object-store", "parquet", None, None))
  {
  }

  lemma PlainBrokerRequest()
    ensures PlainArgs(TestRequest("kafka", "arrow", Some("kafka.servicex.org"), None))
  {
  }

  lemma ChunksText()
    ensures NatToString(5000) == "5000"
  {
    assert NatToString(5) == "5";
    assert NatToString(50) == "50";
    assert NatToString(500) == "500";
  }

  /** The two accepted modes and a rejected one. */
  lemma InitModes()
    ensures ParseMode("external-kubernetes") == Ok(KubeConfig)
    ensures ParseMode("internal-kubernetes") == Ok(InCluster)
    ensures ParseMode("foo") == Err(InvalidMode("foo"))
  {
  }

  const AutoscaleConfig := Config(cpuLimit := 4, cpuScaleThreshold := 30, minReplicas := 3, maxReplicas := 17)

  /** Launch with autoscaling: the deployment, in namespace `my-ns`, starts
      at the minimum and carries one container as configured. */
  lemma LaunchWithAutoscalerDeployment()
    ensures var calls := LaunchCalls(TestRequest("kafka", "arrow", None, None), AutoscaleConfig);
      && calls[0].CreateDeployment? && calls[0].namespace == "my-ns"
      && var d := calls[0].deployment;
      && d.replicas == 3
      && |d.containers| == 1
      && d.containers[0].image == Image
      && d.containers[0].imagePullPolicy == "Always"
      && "cpu" in d.containers[0].limits && d.containers[0].limits["cpu"] == 4
  {
  }

  /** The same launch's command line. */
  lemma LaunchWithAutoscalerArgs()
    ensures var args := LaunchCalls(TestRequest("kafka", "arrow", None, None), AutoscaleConfig)[0].deployment.containers[0].args;
      var words := Split(args[0]);
      && FlagValue(words, "--rabbit-uri") == Some("ampq://test.com")
      && FlagValue(words, "--chunks") == Some("5000")
      && FlagValue(words, "--result-destination") == Some("kafka")
  {
    var req := TestRequest("kafka", "arrow", None, None);
    PlainKafkaRequest();
    LaunchedCommandLine(req, AutoscaleConfig);
    ChunksText();
  }

  /** The same launch creates exactly one autoscaler, following the deployment. */
  lemma LaunchWithAutoscalerHpa()
    ensures var calls := LaunchCalls(TestRequest("kafka", "arrow", None, None), AutoscaleConfig);
      && |calls| == 2
      && calls[1].CreateAutoscaler?
      && var h := calls[1].autoscaler;
      && h.minReplicas == 3 && h.maxReplicas == 17
      && h.targetName == "transformer-1234" && h.targetCpuUtilization == 30
  {
    NamesOf1234();
  }

  /** Launch without autoscaling: the requested worker count, no autoscaler. */
  lemma LaunchWithoutAutoscaler(minReplicas: nat, maxReplicas: nat)
    ensures var cfg := Config(cpuLimit := 1, cpuScaleThreshold := 30, minReplicas := minReplicas,
                              maxReplicas := maxReplicas, autoscaleEnabled := false);
      var calls := LaunchCalls(TestRequest("kafka", "arrow", None, None), cfg);
      && calls[0].deployment.replicas == 17
      && forall k :: 0 <= k < |calls| ==> !calls[k].CreateAutoscaler?
  {
  }

  /** A local path goes to slot 1 at `/data`, after the X.509 secret. */
  lemma LaunchWithHostPath(minReplicas: nat, maxReplicas: nat)
    ensures var cfg := Config(cpuLimit := 1, cpuScaleThreshold := 30, minReplicas := minReplicas,
                              maxReplicas := maxReplicas, localPath := Some("/tmp/foo"));
      var d := LaunchCalls(TestRequest("kafka", "arrow", None, None), cfg)[0].deployment;
      var c := d.containers[0];
      && c.volumeMounts[0].mountPath == "/etc/grid-security-ro"
      && d.volumes[0].source.SecretVolume? && d.volumes[0].source.secretName == "x509"
      && c.volumeMounts[1].mountPath == "/data"
      && d.volumes[1].source.HostPathVolume? && d.volumes[1].source.path == "/tmp/foo"
  {
  }

  /** A generated-code config map goes to slot 1 as volume `generated-code` at `/generated`. */
  lemma LaunchWithGeneratedCode(minReplicas: nat, maxReplicas: nat)
    ensures var cfg := Config(cpuLimit := 1, cpuScaleThreshold := 30, minReplicas := minReplicas,
                              maxReplicas := maxReplicas);
      var d := LaunchCalls(TestRequest("kafka", "parquet", None, Some("my-config-map")), cfg)[0].deployment;
      var c := d.containers[0];
      && c.volumeMounts[1].name == "generated-code"
      && c.volumeMounts[1].mountPath == "/generated"
      && d.volumes[1].name == "generated-code"
      && d.volumes[1].source.ConfigMapVolume? && d.volumes[1].source.configMapName == "my-config-map"
  {
  }

  /** With the object store enabled and chosen, the MinIO settings reach the environment. */
  lemma LaunchWithObjectStore(minReplicas: nat, maxReplicas: nat)
    ensures var cfg := Config(cpuLimit := 1, cpuScaleThreshold := 30, minReplicas := minReplicas,
                              maxReplicas := maxReplicas, objectStoreEnabled := true,
                              minioUrl := "rolling-snail-minio:9000", minioAccessKey := "itsame",
                              minioSecretKey := "shhh");
      var c := LaunchCalls(TestRequest("object-store", "parquet", None, None), cfg)[0].deployment.containers[0];
      var words := Split(c.args[0]);
      && FlagValue(words, "--result-destination") == Some("object-store")
      && FlagValue(words, "--result-format") == Some("parquet")
      && EnvValue(c.env, "MINIO_URL") == Some("rolling-snail-minio:9000")
      && EnvValue(c.env, "MINIO_ACCESS_KEY") == Some("itsame")
      && EnvValue(c.env, "MINIO_SECRET_KEY") == Some("shhh")
  {
    var req := TestRequest("object-store", "parquet", None, None);
    var cfg := Config(cpuLimit := 1, cpuScaleThreshold := 30, minReplicas := minReplicas,
                      maxReplicas := maxReplicas, objectStoreEnabled := true,
                      minioUrl := "rolling-snail-minio:9000", minioAccessKey := "itsame",
                      minioSecretKey := "shhh");
    PlainObjectStoreRequest();
    LaunchedCommandLine(req, cfg);
  }

  /** A supplied broker appears under `--brokerlist`. */
  lemma LaunchWithKafkaBroker(minReplicas: nat, maxReplicas: nat)
    ensures var cfg := Config(cpuLimit := 1, cpuScaleThreshold := 30, minReplicas := minReplicas,
                              maxReplicas := maxReplicas);
      var c := LaunchCalls(TestRequest("kafka", "arrow", Some("kafka.servicex.org"), None), cfg)[0].deployment.containers[0];
      var words := Split(c.args[0]);
      && FlagValue(words, "--result-destination") == Some("kafka")
      && FlagValue(words, "--brokerlist") == Some("kafka.servicex.org")
  {
    var req := TestRequest("kafka", "arrow", Some("kafka.servicex.org"), None);
    var cfg := Config(cpuLimit := 1, cpuScaleThreshold := 30, minReplicas := minReplicas,
                      maxReplicas := maxReplicas);
    PlainBrokerRequest();
    LaunchedCommandLine(req, cfg);
  }

  /** Shutdown with autoscaling deletes all three resources by name in the namespace. */
  lemma ShutdownWithAutoscaler(cfg: Config)
    requires cfg.autoscaleEnabled
    ensures var calls := ShutdownCalls("1234", "my-ns", cfg);
      && DeleteDeployment("transformer-1234", "my-ns") in calls
      && DeleteConfigMap("1234-generated-source", "my-ns") in calls
      && DeleteAutoscaler("transformer-1234", "my-ns") in calls
  {
    NamesOf1234();
    assert ShutdownCalls("1234", "my-ns", cfg)[0] == DeleteDeployment("transformer-1234", "my-ns");
    assert ShutdownCalls("1234", "my-ns", cfg)[1] == DeleteConfigMap("1234-generated-source", "my-ns");
    assert ShutdownCalls("1234", "my-ns", cfg)[2] == DeleteAutoscaler("transformer-1234", "my-ns");
  }

  /** Shutdown without autoscaling deletes no autoscaler. */
  lemma ShutdownWithoutAutoscaler(cfg: Config)
    requires !cfg.autoscaleEnabled
    ensures var calls := ShutdownCalls("1234", "my-ns", cfg);
      && DeleteDeployment("transformer-1234", "my-ns") in calls
      && DeleteConfigMap("1234-generated-source", "my-ns") in calls
      && forall k :: 0 <= k < |calls| ==> !calls[k].DeleteAutoscaler?
  {
    NamesOf1234();
    assert ShutdownCalls("1234", "my-ns", cfg)[0] == DeleteDeployment("transformer-1234", "my-ns");
    assert ShutdownCalls("1234", "my-ns", cfg)[1] == DeleteConfigMap("1234-generated-source", "my-ns");
  }

  lemma NamesOf1234()
    ensures DeploymentName("1234") == "transformer-1234"
    ensures ConfigMapName("1234") == "1234-generated-source"
  {
  }

  /** The bytes of `b'hi there'`. */
  const HiThere: seq<byte> := [104, 105, 32, 116, 104, 101, 114, 101]

  lemma HiThereEncoding()
    ensures Encode(HiThere) == "aGkgdGhlcmU="
  {
    var rest := HiThere[3..];
    assert rest[3..] == [114, 101];
    EncodeTail();
    assert Encode(rest) == EncodeGroup(116, 104, 101) + Encode(rest[3..]);
    EncodeMiddle();
    assert Encode(HiThere) == EncodeGroup(104, 105, 32) + Encode(rest);
    EncodeHead();
  }

  lemma EncodeHead()
    ensures EncodeGroup(104, 105, 32) == "aGkg"
  {
    var g := EncodeGroup(104, 105, 32);
    assert g[0] == CharOf(26) == 'a';
    assert g[1] == CharOf(6) == 'G';
    assert g[2] == CharOf(36) == 'k';
    assert g[3] == CharOf(32) == 'g';
  }

  lemma EncodeMiddle()
    ensures EncodeGroup(116, 104, 101) == "dGhl"
  {
    var g := EncodeGroup(116, 104, 101);
    assert g[0] == CharOf(29) == 'd';
    assert g[1] == CharOf(6) == 'G';
    assert g[2] == CharOf(33) == 'h';
    assert g[3] == CharOf(37) == 'l';
  }

  lemma EncodeTail()
    ensures Encode([114, 101]) == "cmU="
  {
    assert CharOf(28) == 'c' && CharOf(38) == 'm' && CharOf(20) == 'U';
    assert EncodeGroup(114, 101, 0)[..3] == "cmU";
  }

  /** An archive of one entry packs into one binary item under its name. */
  lemma OneEntryPacks(entry: ZipEntry, requestId: string, namespace: string)
    ensures var calls := PackageCalls([entry], requestId, namespace);
      && calls[0].CreateConfigMap?
      && calls[0].namespace == namespace
      && calls[0].configMap.name == ConfigMapName(requestId)
      && calls[0].configMap.binaryData == map[entry.filename := Encode(entry.contents)]
  {
    assert BinaryData([entry]) == BinaryData([])[entry.filename := Encode(entry.contents)];
  }

  /** One archive entry `foo.sh` holding `b'hi there'` becomes one binary
      item holding its base 64 text, in config map `my-request-generated-source`. */
  lemma ConfigMapFromOneEntry()
    ensures var calls := PackageCalls([ZipEntry("foo.sh", HiThere)], "my-request", "servicex");
      && calls[0].CreateConfigMap?
      && calls[0].namespace == "servicex"
      && calls[0].configMap.name == "my-request-generated-source"
      && "foo.sh" in calls[0].configMap.binaryData
      && calls[0].configMap.binaryData["foo.sh"] == "aGkgdGhlcmU="
  {
    OneEntryPacks(ZipEntry("foo.sh", HiThere), "my-request", "servicex");
    HiThereEncoding();
    MyRequestConfigMapName();
  }

  lemma MyRequestConfigMapName()
    ensures ConfigMapName("my-request") == "my-request-generated-source"
  {
  }

  /** The listed deployment's status is returned, whatever the item is
      called; an empty listing gives `None`. */
  lemma DeploymentStatusLookup(name: string, status: DeploymentStatus)
    ensures ListingStatus([ListedDeployment(name, status)]) == Some(status)
    ensures ListingStatus([]) == None
  {
  }
}

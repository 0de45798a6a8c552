/** The lifecycle of a request's cluster resources: the calls that launch
    its workers, that package its generated code, that shut it down, and
    the status lookup; what each sequence does to the cluster; and the
    manager object that issues them. */
module Lifecycle {
  import opened Wrappers
  import opened Text
  import opened Settings
  import opened SpecBuilder
  import opened Packager
  import opened ClusterClient

  function DeploymentKey(requestId: string, namespace: string): ResourceKey {
    ResourceKey(DeploymentKind, namespace, DeploymentName(requestId))
  }

  function AutoscalerKey(requestId: string, namespace: string): ResourceKey {
    ResourceKey(AutoscalerKind, namespace, DeploymentName(requestId))
  }

  function ConfigMapKey(requestId: string, namespace: string): ResourceKey {
    ResourceKey(ConfigMapKind, namespace, ConfigMapName(requestId))
  }

  /** Create the deployment, then the autoscaler if one was built. */
  function LaunchCalls(req: TransformRequest, cfg: Config): (calls: seq<ApiCall>)
    ensures |calls| == if cfg.autoscaleEnabled then 2 else 1
    ensures calls[0] == CreateDeployment(req.namespace, BuildDeployment(req, cfg))
    ensures cfg.autoscaleEnabled ==> calls[1] == CreateAutoscaler(req.namespace, BuildAutoscaler(req, cfg).value)
  {
    [CreateDeployment(req.namespace, BuildDeployment(req, cfg))]
    + match BuildAutoscaler(req, cfg)
      case Some(h) => [CreateAutoscaler(req.namespace, h)]
      case None => []
  }

  /** The launched worker's command line reads back as the request's values. */
  lemma LaunchedCommandLine(req: TransformRequest, cfg: Config)
    requires PlainArgs(req)
    ensures var words := Split(LaunchCalls(req, cfg)[0].deployment.containers[0].args[0]);
      && FlagValue(words, RabbitUriFlag) == Some(req.rabbitmqUri)
      && FlagValue(words, ChunksFlag) == Some(NatToString(req.chunkSize))
      && FlagValue(words, DestinationFlag) == Some(req.resultDestination)
      && FlagValue(words, FormatFlag) == Some(req.resultFormat)
      && (req.resultDestination == KafkaDestination ==> FlagValue(words, BrokerFlag) == req.kafkaBroker)
      && (req.resultDestination != KafkaDestination ==> FlagValue(words, BrokerFlag) == None)
  {
    assert LaunchCalls(req, cfg)[0].deployment.containers[0].args == Args(req);
    ArgsCarryRequest(req);
  }

  /** Delete the deployment and the generated-code config map, and the
      autoscaler when autoscaling is enabled in the configuration of the
      shutdown call. */
  function ShutdownCalls(requestId: string, namespace: string, cfg: Config): (calls: seq<ApiCall>)
    ensures DeleteDeployment(DeploymentName(requestId), namespace) in calls
    ensures DeleteConfigMap(ConfigMapName(requestId), namespace) in calls
    ensures cfg.autoscaleEnabled ==> DeleteAutoscaler(DeploymentName(requestId), namespace) in calls
    ensures !cfg.autoscaleEnabled ==> forall k :: 0 <= k < |calls| ==> !calls[k].DeleteAutoscaler?
  {
    [DeleteDeployment(DeploymentName(requestId), namespace),
     DeleteConfigMap(ConfigMapName(requestId), namespace)]
    + if cfg.autoscaleEnabled then [DeleteAutoscaler(DeploymentName(requestId), namespace)] else []
  }

  /** Create the config map packaged from an archive. */
  function PackageCalls(entries: seq<ZipEntry>, requestId: string, namespace: string): seq<ApiCall> {
    [CreateConfigMap(namespace, ConfigMapFromZip(entries, requestId))]
  }

  /** What a launch brings into existence. */
  function Launched(req: TransformRequest, cfg: Config): set<ResourceKey> {
    {DeploymentKey(req.requestId, req.namespace)}
    + if cfg.autoscaleEnabled then {AutoscalerKey(req.requestId, req.namespace)} else {}
  }

  /** What a shutdown takes away. */
  function Removed(requestId: string, namespace: string, cfg: Config): set<ResourceKey> {
    {DeploymentKey(requestId, namespace), ConfigMapKey(requestId, namespace)}
    + if cfg.autoscaleEnabled then {AutoscalerKey(requestId, namespace)} else {}
  }

  /** A launch creates the deployment `transformer-<id>` and, exactly when
      autoscaling is enabled, the autoscaler of the same name; nothing else
      changes. */
  lemma LaunchEffect(live: set<ResourceKey>, req: TransformRequest, cfg: Config)
    ensures Apply(live, LaunchCalls(req, cfg)) == live + Launched(req, cfg)
  {
    var calls := LaunchCalls(req, cfg);
    var afterFirst := Effect(live, calls[0]);
    assert afterFirst == live + {DeploymentKey(req.requestId, req.namespace)};
    if cfg.autoscaleEnabled {
      assert calls[1..][1..] == [];
      assert Apply(afterFirst, calls[1..]) == Effect(afterFirst, calls[1]);
    } else {
      assert calls[1..] == [];
    }
  }

  /** A shutdown removes the deployment and the config map, and the
      autoscaler exactly when autoscaling is enabled at shutdown; whether
      they existed does not matter, and nothing else changes. */
  lemma ShutdownEffect(live: set<ResourceKey>, requestId: string, namespace: string, cfg: Config)
    ensures Apply(live, ShutdownCalls(requestId, namespace, cfg)) == live - Removed(requestId, namespace, cfg)
  {
    var calls := ShutdownCalls(requestId, namespace, cfg);
    var s1 := Effect(live, calls[0]);
    var s2 := Effect(s1, calls[1]);
    assert calls[1..][1..] == calls[2..];
    assert Apply(live, calls) == Apply(s2, calls[2..]);
    if cfg.autoscaleEnabled {
      assert calls[2..][1..] == [];
      assert Apply(s2, calls[2..]) == Effect(s2, calls[2]);
    } else {
      assert calls[2..] == [];
    }
  }

  /** Packaging creates the config map `<id>-generated-source` and nothing else. */
  lemma PackageEffect(live: set<ResourceKey>, entries: seq<ZipEntry>, requestId: string, namespace: string)
    ensures Apply(live, PackageCalls(entries, requestId, namespace)) == live + {ConfigMapKey(requestId, namespace)}
  {
    assert PackageCalls(entries, requestId, namespace)[1..] == [];
  }

  /** Shutting down with the configuration the request was launched with
      leaves none of its resources behind and touches nothing else. */
  lemma LaunchThenShutdown(live: set<ResourceKey>, req: TransformRequest, cfg: Config)
    ensures Apply(live, LaunchCalls(req, cfg) + ShutdownCalls(req.requestId, req.namespace, cfg))
            == live - Removed(req.requestId, req.namespace, cfg)
  {
    ApplyConcat(live, LaunchCalls(req, cfg), ShutdownCalls(req.requestId, req.namespace, cfg));
    LaunchEffect(live, req, cfg);
    ShutdownEffect(live + Launched(req, cfg), req.requestId, req.namespace, cfg);
  }

  /** The whole lifecycle of a request with generated code: package, launch,
      shut down.  Every resource created for the request is gone afterwards. */
  lemma PackageLaunchShutdown(live: set<ResourceKey>, entries: seq<ZipEntry>, req: TransformRequest, cfg: Config)
    ensures var calls := PackageCalls(entries, req.requestId, req.namespace) + LaunchCalls(req, cfg)
                         + ShutdownCalls(req.requestId, req.namespace, cfg);
      && Apply(live, calls) == live - Removed(req.requestId, req.namespace, cfg)
      && DeploymentKey(req.requestId, req.namespace) !in Apply(live, calls)
      && AutoscalerKey(req.requestId, req.namespace) !in Apply(live, calls) - live
      && ConfigMapKey(req.requestId, req.namespace) !in Apply(live, calls)
  {
    var p := PackageCalls(entries, req.requestId, req.namespace);
    var l := LaunchCalls(req, cfg);
    var s := ShutdownCalls(req.requestId, req.namespace, cfg);
    assert p + l + s == p + (l + s);
    ApplyConcat(live, p, l + s);
    PackageEffect(live, entries, req.requestId, req.namespace);
    LaunchThenShutdown(live + {ConfigMapKey(req.requestId, req.namespace)}, req, cfg);
  }

  /** The autoscale flag is read again at shutdown: a request launched with
      autoscaling and shut down after it was switched off keeps its
      autoscaler. */
  lemma ShutdownAfterFlagChange(live: set<ResourceKey>, req: TransformRequest, atLaunch: Config, atShutdown: Config)
    requires atLaunch.autoscaleEnabled && !atShutdown.autoscaleEnabled
    ensures AutoscalerKey(req.requestId, req.namespace)
            in Apply(live, LaunchCalls(req, atLaunch) + ShutdownCalls(req.requestId, req.namespace, atShutdown))
  {
    ApplyConcat(live, LaunchCalls(req, atLaunch), ShutdownCalls(req.requestId, req.namespace, atShutdown));
    LaunchEffect(live, req, atLaunch);
    ShutdownEffect(live + Launched(req, atLaunch), req.requestId, req.namespace, atShutdown);
  }

  /** A second shutdown changes nothing more. */
  lemma ShutdownIdempotent(live: set<ResourceKey>, requestId: string, namespace: string, cfg: Config)
    ensures var calls := ShutdownCalls(requestId, namespace, cfg);
      Apply(Apply(live, calls), calls) == Apply(live, calls)
  {
    ShutdownEffect(live, requestId, namespace, cfg);
    ShutdownEffect(live - Removed(requestId, namespace, cfg), requestId, namespace, cfg);
  }

  // ---- status ----

  /** A deployment's `status` as the cluster reports it; the manager
      passes it on without looking inside. */
  datatype DeploymentStatus = DeploymentStatus(report: string)

  /** One item of a namespace's deployment listing. */
  datatype ListedDeployment = ListedDeployment(name: string, status: DeploymentStatus)

  /** The status of the first listed deployment called `name`. */
  function StatusOf(items: seq<ListedDeployment>, name: string): Option<DeploymentStatus> {
    if |items| == 0 then None
    else if items[0].name == name then Some(items[0].status)
    else StatusOf(items[1..], name)
  }

  /** A status is found exactly when a deployment of that name is listed,
      and it is the status of the first one. */
  lemma {:induction false} StatusOfFinds(items: seq<ListedDeployment>, name: string)
    ensures StatusOf(items, name).None? <==> forall i :: 0 <= i < |items| ==> items[i].name != name
    ensures StatusOf(items, name).Some? ==>
      exists i :: 0 <= i < |items| && items[i].name == name && StatusOf(items, name).value == items[i].status
        && forall j :: 0 <= j < i ==> items[j].name != name
  {
    if |items| > 0 && items[0].name != name {
      StatusOfFinds(items[1..], name);
      if StatusOf(items, name).Some? {
        var i :| 0 <= i < |items[1..]| && items[1..][i].name == name
          && StatusOf(items[1..], name).value == items[1..][i].status
          && forall j :: 0 <= j < i ==> items[1..][j].name != name;
        assert items[i + 1].name == name;
        assert forall j :: 0 <= j < i + 1 ==> items[j].name != name by {
          forall j | 0 <= j < i + 1 ensures items[j].name != name {
            if j > 0 { assert items[j] == items[1..][j - 1]; }
          }
        }
      } else {
        assert forall i :: 0 <= i < |items| ==> items[i].name != name by {
          forall i | 0 <= i < |items| ensures items[i].name != name {
            if i > 0 { assert items[i] == items[1..][i - 1]; }
          }
        }
      }
    }
  }

  /** What `get_deployment_status` reads off the listing the cluster
      answers for the request's name selector: the status of its first
      item, or `None` for an empty listing. */
  function ListingStatus(items: seq<ListedDeployment>): Option<DeploymentStatus> {
    if |items| == 0 then None else Some(items[0].status)
  }

  /** When the cluster honours the selector, so that every listed item
      bears the deployment's name, reading the first item agrees with
      searching the namespace's deployments by name. */
  lemma SelectedListingStatus(items: seq<ListedDeployment>, name: string)
    requires forall i :: 0 <= i < |items| ==> items[i].name == name
    ensures ListingStatus(items) == StatusOf(items, name)
    ensures ListingStatus(items).None? <==> |items| == 0
  {
  }

  // ---- the manager ----

  /** The manager, with the calls it has issued on the cluster API in order. */
  class TransformerManager {
    const credentials: CredentialSource
    var calls: seq<ApiCall>

    /** Loads the credentials of the chosen source. */
    constructor (source: CredentialSource)
      ensures credentials == source
      ensures calls == [LoadCredentials(source)]
    {
      credentials := source;
      calls := [LoadCredentials(source)];
    }

    /** `TransformerManager(mode)`: an unknown mode fails before any
        credentials are loaded. */
    static method Open(mode: string) returns (r: Result<TransformerManager, InitError>)
      ensures r.Err? <==> mode != ExternalMode && mode != InternalMode
      ensures r.Err? ==> r.error == InvalidMode(mode)
      ensures r.Ok? ==>
        (fresh(r.value) && r.value.calls == [LoadCredentials(r.value.credentials)]
         && ModeName(r.value.credentials) == mode)
    {
      var parsed := ParseMode(mode);
      match parsed {
        case Err(e) => r := Err(e);
        case Ok(source) =>
          var m := new TransformerManager(source);
          r := Ok(m);
      }
    }

    /** `launch_transformer_jobs`. */
    method LaunchTransformerJobs(req: TransformRequest, cfg: Config)
      modifies this
      ensures calls == old(calls) + LaunchCalls(req, cfg)
    {
      var deployment := BuildDeployment(req, cfg);
      calls := calls + [CreateDeployment(req.namespace, deployment)];
      var autoscaler := BuildAutoscaler(req, cfg);
      if autoscaler.Some? {
        calls := calls + [CreateAutoscaler(req.namespace, autoscaler.value)];
      }
    }

    /** `shutdown_transformer_job`. */
    method ShutdownTransformerJob(requestId: string, namespace: string, cfg: Config)
      modifies this
      ensures calls == old(calls) + ShutdownCalls(requestId, namespace, cfg)
    {
      calls := calls + [DeleteDeployment(DeploymentName(requestId), namespace)];
      calls := calls + [DeleteConfigMap(ConfigMapName(requestId), namespace)];
      if cfg.autoscaleEnabled {
        calls := calls + [DeleteAutoscaler(DeploymentName(requestId), namespace)];
      }
    }

    /** `create_configmap_from_zip`. */
    method CreateConfigmapFromZip(entries: seq<ZipEntry>, requestId: string, namespace: string)
      modifies this
      ensures calls == old(calls) + PackageCalls(entries, requestId, namespace)
    {
      var data := PackEntries(entries);
      var configMap := ConfigMap(ConfigMapName(requestId), data);
      calls := calls + [CreateConfigMap(namespace, configMap)];
    }

    /** `get_deployment_status`: lists the namespace's deployments selected
        by the request's deployment name; `listing` is the cluster's answer.
        Returns the status of the first listed item, or `None` when nothing
        is listed. */
    method GetDeploymentStatus(requestId: string, namespace: string, listing: seq<ListedDeployment>)
      returns (status: Option<DeploymentStatus>)
      modifies this
      ensures calls == old(calls) + [ListDeployments(namespace, DeploymentName(requestId))]
      ensures status == ListingStatus(listing)
      ensures status.None? <==> |listing| == 0
      ensures status.Some? ==> status.value == listing[0].status
    {
      calls := calls + [ListDeployments(namespace, DeploymentName(requestId))];
      if |listing| == 0 {
        status := None;
      } else {
        status := Some(listing[0].status);
      }
    }
  }
}

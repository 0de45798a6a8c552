/** The boundary to the Kubernetes API.  Two ways of loading credentials,
    chosen once by a mode string; the calls the manager issues, recorded as
    values; and what each call does to the set of named resources the
    cluster holds, so that sequences of calls can be reasoned about. */
module ClusterClient {
  import opened Wrappers
  import opened SpecBuilder
  import opened Packager

  /** `load_kube_config` or `load_incluster_config`. */
  datatype CredentialSource = KubeConfig | InCluster

  /** The `ValueError` raised for an unknown mode. */
  datatype InitError = InvalidMode(mode: string)

  const ExternalMode := "external-kubernetes"
  const InternalMode := "internal-kubernetes"

  /** The mode string that selects a credential source. */
  function ModeName(source: CredentialSource): (mode: string)
    ensures ParseMode(mode) == Ok(source)
  {
    match source
    case KubeConfig => ExternalMode
    case InCluster => InternalMode
  }

  /** Exactly the two mode strings are accepted; anything else is an error
      that carries the rejected string. */
  function ParseMode(mode: string): (r: Result<CredentialSource, InitError>)
    ensures r.Ok? <==> mode == ExternalMode || mode == InternalMode
    ensures r.Err? ==> r.error == InvalidMode(mode)
  {
    if mode == ExternalMode then Ok(KubeConfig)
    else if mode == InternalMode then Ok(InCluster)
    else Err(InvalidMode(mode))
  }

  /** Every accepted mode is the name of the source it selects. */
  lemma ParseModeName(mode: string)
    ensures ParseMode(mode).Ok? ==> ModeName(ParseMode(mode).value) == mode
  {
  }

  /** One call on the cluster API, with the arguments the tests inspect. */
  datatype ApiCall =
    | LoadCredentials(source: CredentialSource)
    | CreateDeployment(namespace: string, deployment: Deployment)
    | CreateAutoscaler(namespace: string, autoscaler: Autoscaler)
    | CreateConfigMap(namespace: string, configMap: ConfigMap)
    | DeleteDeployment(name: string, namespace: string)
    | DeleteAutoscaler(name: string, namespace: string)
    | DeleteConfigMap(name: string, namespace: string)
    | ListDeployments(namespace: string, selectedName: string)

  datatype Kind = DeploymentKind | AutoscalerKind | ConfigMapKind

  /** A cluster resource is identified by its kind, namespace and name. */
  datatype ResourceKey = ResourceKey(kind: Kind, namespace: string, name: string)

  /** What one call does to the set of resources: a create makes its name
      exist (a second create of the same name adds nothing), a delete makes
      it absent (deleting an absent name changes nothing), and the other
      calls only read. */
  function Effect(live: set<ResourceKey>, call: ApiCall): set<ResourceKey> {
    match call
    case CreateDeployment(ns, d) => live + {ResourceKey(DeploymentKind, ns, d.name)}
    case CreateAutoscaler(ns, h) => live + {ResourceKey(AutoscalerKind, ns, h.name)}
    case CreateConfigMap(ns, cm) => live + {ResourceKey(ConfigMapKind, ns, cm.name)}
    case DeleteDeployment(name, ns) => live - {ResourceKey(DeploymentKind, ns, name)}
    case DeleteAutoscaler(name, ns) => live - {ResourceKey(AutoscalerKind, ns, name)}
    case DeleteConfigMap(name, ns) => live - {ResourceKey(ConfigMapKind, ns, name)}
    case LoadCredentials(_) => live
    case ListDeployments(_, _) => live
  }

  /** The resources after a sequence of calls, in order. */
  function Apply(live: set<ResourceKey>, calls: seq<ApiCall>): set<ResourceKey>
    decreases |calls|
  {
    if |calls| == 0 then live else Apply(Effect(live, calls[0]), calls[1..])
  }

  /** Running two sequences of calls one after the other. */
  lemma {:induction false} ApplyConcat(live: set<ResourceKey>, a: seq<ApiCall>, b: seq<ApiCall>)
    ensures Apply(live, a + b) == Apply(Apply(live, a), b)
    decreases |a|
  {
    if |a| == 0 {
      assert a + b == b;
    } else {
      assert (a + b)[0] == a[0] && (a + b)[1..] == a[1..] + b;
      ApplyConcat(Effect(live, a[0]), a[1..], b);
    }
  }
}

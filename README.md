# TransformerManager worker orchestration, modelled in Dafny

ServiceX's `TransformerManager` runs the worker pool of one transform
request on Kubernetes. This project models it.

- **Credentials.** It is created with a mode string. `external-kubernetes`
  loads a kube config and `internal-kubernetes` loads in-cluster
  credentials. Any other mode is an error. The model also loads nothing
  then; that is its reading of the two `assert_not_called` checks, which
  sit after the raising call and so never run.
- **Launch** (`launch_transformer_jobs`). It builds a deployment named
  `transformer-<request id>`. The deployment has exactly one container:
  - the request's image, pulled `Always`;
  - a CPU limit taken from the configuration;
  - one argument string carrying the request's flags, space-separated, with
    the broker flag only for a Kafka destination;
  - the MinIO environment variables, only when the object store is both
    enabled and chosen as destination;
  - the X.509 secret mounted in slot 0, and slot 1 holding either the host
    path or the generated-code config map.

  When autoscaling is enabled (the default), the deployment starts at the
  minimum replica count, and a horizontal pod autoscaler of the same name
  is created that targets it. Otherwise the deployment starts at the
  requested worker count, and no autoscaler is created.
- **Shutdown** (`shutdown_transformer_job`). It deletes the deployment and
  the config map `<request id>-generated-source`. It deletes the
  autoscaler only when autoscaling is enabled in the configuration at
  shutdown time.
- **Packaging** (`create_configmap_from_zip`). It turns every entry of a
  zip archive into one `binary_data` item, encoded as base 64 (RFC 4648,
  section 4, with padding). The items go into the config map
  `<request id>-generated-source`, which is created in the given
  namespace.
- **Status** (`get_deployment_status`). It lists the namespace's
  deployments, selected by the request's deployment name. It returns the
  status of the first listed item, or `None` when nothing is listed.

The implementation file `servicex/transformer_manager.py` is not part of
this model. The behaviour modelled here follows the assertions of
`tests/test_transformer_manager.py`. Where those assertions leave a case
open, the model's pick is named under "## Left out".

Module layout:

- `Wrappers` holds `Option` and `Result`.
- `Base64` is the RFC 4648 encoder. It comes with a decoder and the proof
  of the round trip.
- `Text` holds decimal rendering of integers, used for the chunk size. It
  also holds a Python-style `str.split(' ')`. The model reads the argument
  string back word by word with it, in place of the tests' `\S+` regular
  expression; the manager itself only joins the string.
- `Settings` is the configuration record, with one field per configuration
  key the tests set. Autoscaling defaults to enabled, as the tests show.
  The other defaults are the model's choice: no local path, object store
  disabled, and empty MinIO strings.
- `SpecBuilder` holds the pure builders of the deployment and the
  autoscaler.
- `Packager` holds the config map built from an archive, including the
  dictionary-filling loop.
- `ClusterClient` holds mode parsing, the API calls the manager issues,
  and what each call does to the set of live resources.
- `Lifecycle` holds the call sequences of launch, shutdown and packaging,
  their effect on the cluster, the status lookup, and the class
  `TransformerManager`. The class's `calls` field logs every API call in
  issue order.
- `Scenarios` restates each concrete test case as a lemma over the model.

The cluster API is a foreign library. It is modelled as the log of calls
the manager issues. `ClusterClient.Apply` interprets that log over a set
of resource keys (kind, namespace, name):

- a create adds a key;
- a delete removes one, and deleting a missing resource is harmless;
- loading credentials and listing change nothing.

## Model

| member | source | states |
|---|---|---|
| ClusterClient.ParseMode | tests/test_transformer_manager.py:54-66 | A mode is accepted exactly when it is `external-kubernetes` (kube config) or `internal-kubernetes` (in-cluster credentials). Any other string gives `InvalidMode` carrying the string. |
| ClusterClient.ModeName | tests/test_transformer_manager.py:54-60 | Each credential source has a mode string that parses back to it. |
| ClusterClient.ParseModeName | tests/test_transformer_manager.py:54-60 | An accepted mode's name, parsed again, is the same mode. |
| Lifecycle.TransformerManager.constructor | tests/test_transformer_manager.py:54-60 | A new manager has issued exactly one call, which loads the chosen source's credentials. |
| Lifecycle.TransformerManager.Open | tests/test_transformer_manager.py:54-66 | Fails exactly for an unknown mode, with `InvalidMode(mode)` and no manager. The test asserts only the error; that nothing is loaded is the model's reading of its unreached `assert_not_called` checks. Otherwise it returns a fresh manager for that mode whose only call loads its credentials. |
| SpecBuilder.DeploymentName | tests/test_transformer_manager.py:114 | The deployment name is `transformer-` followed by the request id. |
| SpecBuilder.DeploymentNameInjective | tests/test_transformer_manager.py:114 | Distinct request ids give distinct deployment names. |
| SpecBuilder.BuildDeployment | tests/test_transformer_manager.py:93-107 | The deployment is named after the request. Replicas are the minimum when autoscaling, the requested workers otherwise. It has exactly one container: the request's image, pull policy `Always`, a `cpu` limit equal to the configured limit, the request's argument string, the environment of `Env`, and volumes and mounts matching `Mounts` slot by slot. |
| SpecBuilder.BuildAutoscaler | tests/test_transformer_manager.py:110-115 | An autoscaler exists exactly when autoscaling is enabled. It is named after the deployment and targets the deployment's own name, with the configured min/max replicas and CPU threshold. |
| SpecBuilder.ReplicasMatchAutoscaler | tests/test_transformer_manager.py:94-143 | With an autoscaler, the deployment starts at the autoscaler's minimum. Without one, it starts at the requested worker count. |
| SpecBuilder.Args | tests/test_transformer_manager.py:99-103 | The container's argument list is a single string. |
| SpecBuilder.ArgsCarryRequest | tests/test_transformer_manager.py:38-39 | When no value contains a space or equals one of the flag names, the argument string read word by word gives, under each flag, the request's value: queue URI, decimal chunk size, destination, format. For a `kafka` destination `--brokerlist` carries the supplied broker, and is absent when none is supplied. For any other destination it is absent even when a broker is supplied. |
| SpecBuilder.LookupArgFlags | tests/test_transformer_manager.py:99-103 | Each rendered flag is found by name among the request's flags with the request's value, and `--brokerlist` only when a broker is supplied for a `kafka` destination. |
| SpecBuilder.Env | tests/test_transformer_manager.py:250-253 | When the object store is enabled and is the destination, `MINIO_URL`, `MINIO_ACCESS_KEY` and `MINIO_SECRET_KEY` hold exactly the configured values. Otherwise none of these three variables appears. |
| SpecBuilder.Mounts | tests/test_transformer_manager.py:173-213 | Slot 0 mounts the X.509 secret at `/etc/grid-security-ro`. Slot 1 mounts the configured local path as a host path at `/data` if there is one. Otherwise it mounts the request's config map as volume `generated-code` at `/generated`. There is no slot 1 exactly when neither is present, and each volume and its mount share a name. |
| Text.Split | tests/test_transformer_manager.py:38-39 | Splitting on spaces, the model's stand-in for the `\S+` reading, always yields at least one word. |
| Text.SplitJoin | tests/test_transformer_manager.py:38-39 | Splitting `x + " " + y` splits `x` and `y` separately. |
| Text.NatToString | tests/test_transformer_manager.py:102 | The decimal rendering is a non-empty digit string, with a leading `0` only for zero. |
| Text.ParseNatToString | tests/test_transformer_manager.py:102 | Reading the rendered chunk size back as a number gives the chunk size. |
| Base64.CharOf | tests/test_transformer_manager.py:374-376 | Each 6-bit value maps to an ASCII character of the RFC 4648 alphabet whose index is that value, never the pad character. |
| Base64.EncodeGroup | tests/test_transformer_manager.py:374-376 | The four characters of a 3-byte group are alphabet characters whose 6-bit values, most significant first, spell the group's 24 bits, as section 4 of RFC 4648 lays them out. |
| Base64.Encode | tests/test_transformer_manager.py:374-376 | The encoding of n bytes has 4 ⌈n/3⌉ characters. |
| Base64.EncodeQuanta | tests/test_transformer_manager.py:374-376 | Full 3-byte groups are encoded in order. A final 2-byte quantum gives three characters spelling its 16 bits followed by two zero bits, then one `=`. A final single byte gives two characters spelling its 8 bits followed by four zero bits, then `==`. |
| Base64.EncodeIsAscii | tests/test_transformer_manager.py:374-376 | Every character of an encoding is an alphabet character or `=`, and every one is ASCII (below 128), so `.decode("ascii")` applies. `=` appears only in the last two positions. |
| Base64.GroupRoundTrip | tests/test_transformer_manager.py:374-376 | Decoding the four characters of a 3-byte group gives the three bytes back. |
| Base64.DecodeEncode | tests/test_transformer_manager.py:374-376 | Decoding an encoding gives back the encoded bytes. |
| Base64.EncodeInjective | tests/test_transformer_manager.py:374-376 | Different byte strings have different encodings. |
| Packager.ConfigMapName | tests/test_transformer_manager.py:378 | The config map name is the request id followed by `-generated-source`. |
| Packager.BinaryDataKeys | tests/test_transformer_manager.py:364-373 | A name is a key of `binary_data` exactly when some archive entry has that file name. |
| Packager.BinaryDataValue | tests/test_transformer_manager.py:364-376 | Each file name maps to the base 64 encoding of the last entry carrying that name. |
| Packager.PackEntries | tests/test_transformer_manager.py:364-374 | The loop over the archive's entries fills exactly the dictionary `BinaryData` describes. |
| Packager.ConfigMapFromZip | tests/test_transformer_manager.py:369-378 | The config map is named `<request>-generated-source`. Its keys are exactly the entries' file names, and each holds the encoding of the last entry of that name. |
| Lifecycle.LaunchCalls | tests/test_transformer_manager.py:88-144 | A launch first creates the deployment in the request's namespace. Then, exactly when autoscaling is enabled, it creates one autoscaler there. It issues no other call. |
| Lifecycle.LaunchedCommandLine | tests/test_transformer_manager.py:99-103 | For values without spaces that are not flag names (see `SpecBuilder.ArgsCarryRequest`), the launched container's argument string reads back as the request's queue URI, chunk size, destination and format, with the broker for a `kafka` destination only. |
| Lifecycle.ShutdownCalls | tests/test_transformer_manager.py:307-348 | A shutdown deletes `transformer-<id>` and `<id>-generated-source` in the namespace. It deletes the autoscaler `transformer-<id>` when autoscaling is enabled, and deletes no autoscaler otherwise. |
| Lifecycle.LaunchEffect | tests/test_transformer_manager.py:88-144 | A launch adds the deployment, and the autoscaler exactly when autoscaling is enabled, to the live resources. Nothing else changes. |
| Lifecycle.ShutdownEffect | tests/test_transformer_manager.py:307-348 | A shutdown removes the deployment, the config map and, when enabled at shutdown, the autoscaler. Nothing else changes, whether or not the resources existed. |
| Lifecycle.PackageEffect | tests/test_transformer_manager.py:369-378 | Packaging adds the request's config map and nothing else. |
| Lifecycle.LaunchThenShutdown | tests/test_transformer_manager.py:88-316 | Launching and then shutting down under one configuration leaves none of the request's resources, and leaves all other resources as they were. |
| Lifecycle.PackageLaunchShutdown | tests/test_transformer_manager.py:350-378 | After package, launch and shutdown, the deployment and the config map are gone. No autoscaler created by the sequence survives. |
| Lifecycle.ShutdownAfterFlagChange | tests/test_transformer_manager.py:336-348 | Autoscaling is read again at shutdown. A request launched with it and shut down without it keeps its autoscaler. |
| Lifecycle.ShutdownIdempotent | tests/test_transformer_manager.py:307-316 | A second shutdown changes nothing more. |
| Lifecycle.StatusOfFinds | tests/test_transformer_manager.py:380-411 | The by-name search of a listing finds nothing exactly when no item has the name. Otherwise it returns the status of the first item that does. |
| Lifecycle.SelectedListingStatus | tests/test_transformer_manager.py:380-411 | When every listed item has the selected name, the first item's status is the by-name search result, and it is `None` exactly for an empty listing. |
| Lifecycle.TransformerManager.LaunchTransformerJobs | tests/test_transformer_manager.py:88-144 | Appends exactly the launch calls to the log. |
| Lifecycle.TransformerManager.ShutdownTransformerJob | tests/test_transformer_manager.py:307-348 | Appends exactly the shutdown calls for the configuration at call time. |
| Lifecycle.TransformerManager.CreateConfigmapFromZip | tests/test_transformer_manager.py:369-378 | Appends one creation, in the given namespace, of the config map packed from the archive. |
| Lifecycle.TransformerManager.GetDeploymentStatus | tests/test_transformer_manager.py:380-411 | Logs one listing selected by the deployment name. Returns `ListingStatus` of the listing: the first listed item's status, or `None`, not an error, for an empty listing. |
| Scenarios.InitModes | tests/test_transformer_manager.py:54-66 | `external-kubernetes` and `internal-kubernetes` are accepted. `foo` is rejected. |
| Scenarios.LaunchWithAutoscalerDeployment | tests/test_transformer_manager.py:93-109 | With limit 4, threshold 30 and replicas 3..17: one container, 3 replicas, the test image, `Always`, `cpu` 4, created in `my-ns`. |
| Scenarios.LaunchWithAutoscalerArgs | tests/test_transformer_manager.py:99-103 | `--rabbit-uri ampq://test.com`, `--chunks 5000` and `--result-destination kafka`. |
| Scenarios.LaunchWithAutoscalerHpa | tests/test_transformer_manager.py:110-115 | Exactly one autoscaler, with min 3, max 17, target `transformer-1234` and CPU 30. |
| Scenarios.LaunchWithoutAutoscaler | tests/test_transformer_manager.py:128-144 | Autoscaling disabled: 17 replicas and no autoscaler creation. |
| Scenarios.LaunchWithHostPath | tests/test_transformer_manager.py:155-179 | Secret `x509` at `/etc/grid-security-ro` in slot 0. Host path `/tmp/foo` at `/data` in slot 1. |
| Scenarios.LaunchWithGeneratedCode | tests/test_transformer_manager.py:199-213 | Slot 1 is volume `generated-code` from config map `my-config-map`, mounted at `/generated`. |
| Scenarios.LaunchWithObjectStore | tests/test_transformer_manager.py:224-253 | Destination `object-store` and format `parquet` on the command line. The three MinIO variables carry the configured values. |
| Scenarios.LaunchWithKafkaBroker | tests/test_transformer_manager.py:275-285 | `--result-destination kafka` and `--brokerlist kafka.servicex.org`. |
| Scenarios.ShutdownWithAutoscaler | tests/test_transformer_manager.py:307-316 | Deletes `transformer-1234`, `1234-generated-source` and the autoscaler `transformer-1234` in `my-ns`. |
| Scenarios.ShutdownWithoutAutoscaler | tests/test_transformer_manager.py:336-348 | Deletes the deployment and the config map, and no autoscaler. |
| Scenarios.HiThereEncoding | tests/test_transformer_manager.py:374-376 | The bytes `hi there` encode to `aGkgdGhlcmU=`. |
| Scenarios.ConfigMapFromOneEntry | tests/test_transformer_manager.py:361-378 | An archive holding `foo.sh` with `hi there` packs into `my-request-generated-source`, a config map whose `foo.sh` item is `aGkgdGhlcmU=`, created in `servicex`. |
| Scenarios.DeploymentStatusLookup | tests/test_transformer_manager.py:380-411 | A one-item listing yields that item's status, whatever its name. An empty listing yields `None`. |

## Left out

- The Kubernetes client library, the kube-config and in-cluster credential loading, and the mocks are foreign code. They are modelled only as the log of calls and the call's arguments.
- Remote and transport errors from the cluster API, retries, and the partial outcome of a launch whose autoscaler creation fails are not modelled. Every call is taken to succeed.
- Concurrency between launch, shutdown and status for one request is not modelled. Neither is the live autoscaler's own scaling.
- The Flask application context and configuration loading are not modelled. The configuration is an explicit `Settings.Config` record passed to each call.
- `get_deployment_status` takes only the request id in the tests. Here the namespace is a parameter, and the cluster's answer to the listing is the `listing` parameter.
- The selector the listing call uses is modelled as the deployment's name, carried by the `ListDeployments` call. The tests return a listed item whatever its name, so the name matching lies in the cluster's selection and not in the manager.
- Only the deployment and autoscaler fields the tests inspect are modelled: name, replicas, container image, pull policy, limits, args, env, volumes and mounts. Labels, selectors, the template's metadata and other environment variables are left out.
- SpecBuilder.Args: models only the flag/value pairs the tests read. The rest of the worker's command line is not modelled: the interpreter invocation and the other options.
- SpecBuilder.ArgsCarryRequest: the round trip from the argument string back to the values is proved only for values that contain no space and are not themselves flag names. The test's regular expression `\S+` cannot read such values back either.
- A `kafka` destination without a broker is not treated as an error. The tests launch it successfully, so the model simply omits `--brokerlist`.
- SpecBuilder.ArgFlags: the tests never pair a broker with a destination other than `kafka`. The model passes a broker to Kafka workers only and drops it from the command line for any other destination.
- SpecBuilder.Mounts: the tests never configure a local path and a generated-code config map together. The model gives slot 1 to the host path and then mounts no config map.
- Lifecycle.LaunchCalls: the tests check neither the order of the two creations nor the autoscaler's own name and namespace. They read the deployment and the autoscaler from two separate mocks, and only the autoscaler's target name. The model's pick is the deployment first, then the autoscaler in the request's namespace under the deployment's name, which is the name shutdown deletes.
- SpecBuilder.Env: the tests check the environment only with the object store enabled and chosen. For every other case the model's pick is an environment with none of the MinIO variables.
- The order of the three shutdown deletions (deployment, config map, autoscaler) is the model's choice, since the tests check each deletion separately. The volume names `x509-secret` and `rootfiles` are also the model's choice, since the tests do not name them.
- Zip archive parsing and reading are left out. An archive is the sequence of its entries' file names and bytes.
- Integers are unbounded, as Python's integers are. The CPU limit, the replica counts, the worker count and the chunk size are natural numbers, so negative values are excluded.
- A deployment's status is one opaque report. The manager passes it on unread, and the tests compare it only as a whole.

/** The process-wide deployment configuration the orchestrator reads, as an
    immutable record passed to every call.  Keys of the application
    configuration are noted beside the fields. */
module Settings {
  import opened Wrappers

  datatype Config = Config(
    cpuLimit: nat,                        // TRANSFORMER_CPU_LIMIT
    cpuScaleThreshold: nat,               // TRANSFORMER_CPU_SCALE_THRESHOLD
    minReplicas: nat,                     // TRANSFORMER_MIN_REPLICAS
    maxReplicas: nat,                     // TRANSFORMER_MAX_REPLICAS
    autoscaleEnabled: bool := true,       // TRANSFORMER_AUTOSCALE_ENABLED
    localPath: Option<string> := None,    // TRANSFORMER_LOCAL_PATH, when the key is present
    objectStoreEnabled: bool := false,    // OBJECT_STORE_ENABLED
    minioUrl: string := "",               // MINIO_URL_TRANSFORMER
    minioAccessKey: string := "",         // MINIO_ACCESS_KEY
    minioSecretKey: string := "")         // MINIO_SECRET_KEY
}

/** Reserved document, user and field names of the store, and the time
    windows of the cache and the pipeline. */
module Constants {

  /** The synthetic user that holds the pipeline's system-info record. */
  const SystemInfo := "__system_info"
  /** The reserved document of a cached collection that records its last fetch. */
  const InvokeInfo := "__invoke_info"
  const History := "__history"

  const MetadataIdField := "__id"
  const MetadataUserIdField := "__userId"
  const MetadataProviderField := "__provider"
  const MetadataSentimentField := "__sentiment"
  const MetadataSentimentScoreField := "__sentimentScore"
  const MetadataTextField := "__text"

  const DataPipelineSection := "dataPipeline"
  const LoadSection := "load"
  const SnapshotSection := "snapshot"
  const LastUpdatedTimestamp := "lastUpdatedTimestamp"
  const InProgress := "inProgress"
  const RefreshHistory := "refreshHistory"
  const Profile := "profile"

  /** Fields of the invocation-info record. */
  const ProviderField := "provider"
  const NameField := "name"
  const ParamsField := "params"
  const LastRetrievedField := "lastRetrieved"

  /** Cached data younger than this (milliseconds) is served without a fetch. */
  const OneHour := 3600000
  /** The pipeline runs again once its last run is older than this. */
  const FiftyNineMinutes := 59 * 60000
}

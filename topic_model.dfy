/**
 * The Kafka topic resource record (cfn-resources/upstashKafka/V1/kafka-topic/src/models.ts).
 * Every property is optional: None stands for a property that is undefined; a null property is read as undefined.
 */
module TopicModel {
  import opened Wrappers
  import opened Upstash

  const TypeName := "Upstash::KafkaV1::Topic"
  const IdentifierKey := "/properties/TopicID"

  datatype ResourceModel = ResourceModel(
    topicName: Option<string>,
    region: Option<string>,
    topicID: Option<string>,
    clusterID: Option<string>,
    creationTime: Option<int>,
    state: Option<string>,
    username: Option<string>,
    password: Option<string>,
    apiCredentials: Option<ApiCredentials>,
    tcpEndpoint: Option<string>,
    restEndpoint: Option<string>,
    multizone: Option<bool>,
    partitions: Option<int>,
    retentionTime: Option<int>,
    retentionSize: Option<int>,
    maxMessageSize: Option<int>,
    cleanupPolicy: Option<string>,
    forceUpdate: Option<int>)

  /** The one-entry table from the identifier key to the topic id, or None when the id is missing. */
  function PrimaryIdentifier(m: ResourceModel): (identifier: Option<map<string, string>>)
    ensures identifier.None? <==> m.topicID.None?
    ensures identifier.Some? ==> identifier.value == map[IdentifierKey := m.topicID.value]
  {
    var entries: map<string, string> := if m.topicID.Some? then map[IdentifierKey := m.topicID.value] else map[];
    if |entries| == 1 then Some(entries) else None
  }

  /** The resource declares no additional identifiers, so there are none to return. */
  function AdditionalIdentifiers(m: ResourceModel): (identifiers: Option<seq<map<string, string>>>)
    ensures identifiers.None?
  {
    var entries: seq<map<string, string>> := [];
    if |entries| == 0 then None else Some(entries)
  }
}

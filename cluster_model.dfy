/**
 * The Kafka cluster resource record (cfn-resources/upstashKafka/V1/kafka-cluster/src/models.ts).
 * Every property is optional: None stands for a property that is undefined; a null property is read as undefined.
 */
module ClusterModel {
  import opened Wrappers
  import opened Upstash

  const TypeName := "Upstash::KafkaV1::Cluster"
  const IdentifierKey := "/properties/ClusterID"

  datatype ResourceModel = ResourceModel(
    clusterName: Option<string>,
    region: Option<string>,
    clusterID: Option<string>,
    creationTime: Option<int>,
    state: Option<string>,
    username: Option<string>,
    password: Option<string>,
    apiCredentials: Option<ApiCredentials>,
    tcpEndpoint: Option<string>,
    restEndpoint: Option<string>,
    multizone: Option<bool>,
    forceUpdate: Option<int>)

  /** The one-entry table from the identifier key to the cluster id, or None when the id is missing. */
  function PrimaryIdentifier(m: ResourceModel): (identifier: Option<map<string, string>>)
    ensures identifier.None? <==> m.clusterID.None?
    ensures identifier.Some? ==> identifier.value == map[IdentifierKey := m.clusterID.value]
  {
    var entries: map<string, string> := if m.clusterID.Some? then map[IdentifierKey := m.clusterID.value] else map[];
    if |entries| == 1 then Some(entries) else None
  }

  /** The resource declares no additional identifiers, so there are none to return. */
  function AdditionalIdentifiers(m: ResourceModel): (identifiers: Option<seq<map<string, string>>>)
    ensures identifiers.None?
  {
    var entries: seq<map<string, string>> := [];
    if |entries| == 0 then None else Some(entries)
  }
}

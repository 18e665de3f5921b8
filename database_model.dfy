/**
 * The database resource record (cfn-resources/V1/database/src/models.ts), which the Redis
 * database handlers read and fill in. Every property is optional: None stands for a
 * property that is undefined; a null property is read as undefined.
 */
module DatabaseModel {
  import opened Wrappers
  import opened Upstash

  const TypeName := "Upstash::DatabasesV1::Database"
  const IdentifierKey := "/properties/DatabaseID"

  datatype ResourceModel = ResourceModel(
    databaseName: Option<string>,
    region: Option<string>,
    databaseID: Option<string>,
    port: Option<string>,
    creationTime: Option<int>,
    state: Option<string>,
    password: Option<string>,
    apiCredentials: Option<ApiCredentials>,
    endpoint: Option<string>,
    tls: Option<bool>,
    multizone: Option<bool>,
    consistent: Option<bool>,
    restToken: Option<string>,
    readOnlyRestToken: Option<string>,
    forceUpdate: Option<int>)

  /**
   * The primary identifier: the one-entry table from the identifier key to the database id,
   * or None when the id is missing (an identifier is only usable with all its parts).
   */
  function PrimaryIdentifier(m: ResourceModel): (identifier: Option<map<string, string>>)
    ensures identifier.None? <==> m.databaseID.None?
    ensures identifier.Some? ==> identifier.value == map[IdentifierKey := m.databaseID.value]
  {
    var entries: map<string, string> := if m.databaseID.Some? then map[IdentifierKey := m.databaseID.value] else map[];
    if |entries| == 1 then Some(entries) else None
  }

  /** The resource declares no additional identifiers, so there are none to return. */
  function AdditionalIdentifiers(m: ResourceModel): (identifiers: Option<seq<map<string, string>>>)
    ensures identifiers.None?
  {
    var entries: seq<map<string, string>> := [];
    if |entries| == 0 then None else Some(entries)
  }
}

/**
 * The Kafka cluster resource provider (cfn-resources/upstashKafka/V1/kafka-cluster/src/handlers.ts):
 * create, update (rename only), delete, read and list of an Upstash Kafka cluster.
 *
 * As for the Redis database, the control plane is a function from call to reply, and each
 * handler returns the calls it made, in order.
 */
module KafkaCluster {
  import opened Wrappers
  import opened Text
  import opened Upstash
  import opened Progress
  import opened ClusterModel
  import Reconcile

  /** A cluster as the control plane describes it (UpstashKafkaClusterInfoResponse); a property missing from the reply is None. */
  datatype ClusterInfo = ClusterInfo(
    clusterId: Option<string>,
    name: Option<string>,
    region: Option<string>,
    clusterType: Option<string>,
    multizone: Option<bool>,
    tcpEndpoint: Option<string>,
    restEndpoint: Option<string>,
    state: Option<string>,
    username: Option<string>,
    password: Option<string>,
    maxRetentionSize: Option<int>,
    maxRetentionTime: Option<int>,
    maxMessagesPerSecond: Option<int>,
    creationTime: Option<int>,
    maxMessageSize: Option<int>,
    maxPartitions: Option<int>)

  /** The JSON body of a create request; a None property is left out of the body. */
  datatype CreateClusterBody = CreateClusterBody(name: Option<string>, region: Option<string>, multizone: Option<bool>)

  /** The control-plane calls, with the Authorization header each carries and the id in its path. */
  datatype Call =
    | CreateCluster(authorization: string, body: CreateClusterBody)
    | GetCluster(authorization: string, id: string)
    | RenameCluster(authorization: string, id: string, name: Option<string>)
    | DeleteCluster(authorization: string, id: string)

  type Remote = Call -> Response<ClusterInfo>

  // ---------------------------------------------------------------------------
  // Copying a reply onto the model
  // ---------------------------------------------------------------------------

  /**
   * `m` is `desired` with the reply's properties copied on, as create, update and read do:
   * ten properties from the reply (the name from `name`), the credentials and forceUpdate kept.
   */
  predicate CopiedFrom(m: ResourceModel, desired: ResourceModel, info: ClusterInfo) {
    && m.clusterID == info.clusterId
    && m.creationTime == info.creationTime
    && m.clusterName == info.name
    && m.username == info.username
    && m.region == info.region
    && m.multizone == info.multizone
    && m.password == info.password
    && m.restEndpoint == info.restEndpoint
    && m.tcpEndpoint == info.tcpEndpoint
    && m.state == info.state
    && m.apiCredentials == desired.apiCredentials
    && m.forceUpdate == desired.forceUpdate
  }

  method CopyInfo(desired: ResourceModel, info: ClusterInfo) returns (m: ResourceModel)
    ensures CopiedFrom(m, desired, info)
  {
    m := desired;
    m := m.(clusterID := info.clusterId);
    m := m.(creationTime := info.creationTime);
    m := m.(clusterName := info.name);
    m := m.(username := info.username);
    m := m.(region := info.region);
    m := m.(multizone := info.multizone);
    m := m.(password := info.password);
    m := m.(restEndpoint := info.restEndpoint);
    m := m.(tcpEndpoint := info.tcpEndpoint);
    m := m.(state := info.state);
  }

  /** The copy leaves nothing open: the reply and the desired state fix every property. */
  lemma CopiedFromUnique(m1: ResourceModel, m2: ResourceModel, desired: ResourceModel, info: ClusterInfo)
    requires CopiedFrom(m1, desired, info) && CopiedFrom(m2, desired, info)
    ensures m1 == m2
  {
  }

  /** After a copy the model is identified by the reply's cluster id, and copying the same reply again changes nothing. */
  lemma CopiedFromReply(m: ResourceModel, desired: ResourceModel, info: ClusterInfo)
    requires CopiedFrom(m, desired, info)
    ensures PrimaryIdentifier(m) == (if info.clusterId.Some? then Some(map[IdentifierKey := info.clusterId.value]) else None)
    ensures CopiedFrom(m, m, info)
  {
  }

  // ---------------------------------------------------------------------------
  // The update as a table of stages
  // ---------------------------------------------------------------------------

  /** The one conditional call of an update: rename-cluster when the desired name differs from the name read. */
  function UpdateStages(d: ResourceModel, auth: string, id: string): (stages: seq<Reconcile.Stage<Call, ClusterInfo>>)
    ensures |stages| == 1
  {
    [Reconcile.Stage(RenameCluster(auth, id, d.clusterName), (r: ClusterInfo) => d.clusterName != r.name)]
  }

  function UpdateRun(d: ResourceModel, auth: string, id: string, remote: Remote): Reconcile.Run<Call, ClusterInfo> {
    Reconcile.Update(GetCluster(auth, id), UpdateStages(d, auth, id), remote)
  }

  /** The position of a call in an update. */
  function Rank(c: Call): nat {
    match c
    case GetCluster(_, _) => 0
    case RenameCluster(_, _, _) => 1
    case _ => 2
  }

  /**
   * An update is the read alone or the read and then the rename, and the rename is sent
   * exactly when the read succeeds and the desired name differs from the name read. No
   * call changes the region or multizone.
   */
  lemma UpdateRenames(d: ResourceModel, auth: string, id: string, remote: Remote)
    ensures var run := UpdateRun(d, auth, id, remote);
      var first := remote(GetCluster(auth, id));
      && (run.calls == [GetCluster(auth, id)] || run.calls == [GetCluster(auth, id), RenameCluster(auth, id, d.clusterName)])
      && (RenameCluster(auth, id, d.clusterName) in run.calls <==> first.status == 200 && d.clusterName != first.json.name)
  {
    var stages := UpdateStages(d, auth, id);
    assert [GetCluster(auth, id)] + Reconcile.CallsOf(stages) == [GetCluster(auth, id), RenameCluster(auth, id, d.clusterName)];
    Reconcile.UpdateOrdered(GetCluster(auth, id), stages, remote, Rank);
    Reconcile.UpdateIssued(GetCluster(auth, id), stages, remote, 0, Rank);
    var calls := UpdateRun(d, auth, id, remote).calls;
    if |calls| == 2 {
      assert calls[1] in calls;
    }
  }

  // ---------------------------------------------------------------------------
  // The handlers
  // ---------------------------------------------------------------------------

  function Authorization(creds: ApiCredentials, apiKeyEnv: Option<string>): string {
    AuthorizationHeader(creds.email, creds.key, apiKeyEnv)
  }

  /**
   * Create: one POST with the desired name, region and multizone; a 200 reply is copied onto
   * the model and the request's credentials are stored under the id of the new cluster.
   */
  method Create(desired: ResourceModel, apiKeyEnv: Option<string>, remote: Remote, store: ParameterStore)
    returns (calls: seq<Call>, result: HandlerResult<ResourceModel>)
    modifies store
    ensures desired.apiCredentials.None? ==>
      calls == [] && result == InternalFailure(UndefinedCredentialsMessage) && store.parameters == old(store.parameters)
    ensures desired.apiCredentials.Some? ==>
      var request := CreateCluster(Authorization(desired.apiCredentials.value, apiKeyEnv),
        CreateClusterBody(desired.clusterName, desired.region, desired.multizone));
      var reply := remote(request);
      && calls == [request]
      && (reply.status != 200 ==>
            result == InternalFailure(FailureMessage(reply.status, reply.text)) && store.parameters == old(store.parameters))
      && (reply.status == 200 ==>
            && result.Done? && result.event.status == Success && result.event.resourceModels == []
            && result.event.resourceModel.Some? && CopiedFrom(result.event.resourceModel.value, desired, reply.json)
            && store.parameters == old(store.parameters)[ParameterName(KafkaClusterCredentials, Interpolate(reply.json.clusterId)) := desired.apiCredentials.value])
  {
    if desired.apiCredentials.None? {
      return [], InternalFailure(UndefinedCredentialsMessage);
    }
    var creds := desired.apiCredentials.value;
    var request := CreateCluster(Authorization(creds, apiKeyEnv), CreateClusterBody(desired.clusterName, desired.region, desired.multizone));
    calls := [request];
    var reply := HandleResponse(remote(request));
    if reply.Err? {
      return calls, InternalFailure(reply.error);
    }
    var model := CopyInfo(desired, reply.value);
    PutApiCredentials(store, KafkaClusterCredentials, model.apiCredentials.value, Interpolate(model.clusterID));
    result := Done(ProgressEvent(Success, Some(model), []));
  }

  /**
   * Update: the read, then the rename when the name differs; the last reply is copied onto
   * the model and the credentials are stored under its id.
   */
  method Update(desired: ResourceModel, apiKeyEnv: Option<string>, remote: Remote, store: ParameterStore)
    returns (calls: seq<Call>, result: HandlerResult<ResourceModel>)
    modifies store
    ensures desired.apiCredentials.None? ==>
      calls == [] && result == InternalFailure(UndefinedCredentialsMessage) && store.parameters == old(store.parameters)
    ensures desired.apiCredentials.Some? ==>
      var run := UpdateRun(desired, Authorization(desired.apiCredentials.value, apiKeyEnv), Interpolate(desired.clusterID), remote);
      && calls == run.calls
      && (run.outcome.Err? ==>
            result == InternalFailure(run.outcome.error) && store.parameters == old(store.parameters))
      && (run.outcome.Ok? ==>
            && result.Done? && result.event.status == Success && result.event.resourceModels == []
            && result.event.resourceModel.Some? && CopiedFrom(result.event.resourceModel.value, desired, run.outcome.value)
            && store.parameters == old(store.parameters)[ParameterName(KafkaClusterCredentials, Interpolate(run.outcome.value.clusterId)) := desired.apiCredentials.value])
  {
    if desired.apiCredentials.None? {
      return [], InternalFailure(UndefinedCredentialsMessage);
    }
    var creds := desired.apiCredentials.value;
    var auth := Authorization(creds, apiKeyEnv);
    var id := Interpolate(desired.clusterID);
    ghost var stages: seq<Reconcile.Stage<Call, ClusterInfo>> := UpdateStages(desired, auth, id);
    calls := [GetCluster(auth, id)];
    var reply := HandleResponse(remote(GetCluster(auth, id)));
    if reply.Err? {
      return calls, InternalFailure(reply.error);
    }
    var response := reply.value;
    assert stages[1..] == [];
    if desired.clusterName != response.name {
      calls := calls + [RenameCluster(auth, id, desired.clusterName)];
      reply := HandleResponse(remote(RenameCluster(auth, id, desired.clusterName)));
      if reply.Err? {
        return calls, InternalFailure(reply.error);
      }
      response := reply.value;
    }
    assert Reconcile.Steps(stages[1..], response, remote) == Reconcile.Run([], Ok(response));
    assert calls + [] == calls;
    assert UpdateRun(desired, auth, id, remote) == Reconcile.Run(calls, Ok(response));
    var model := CopyInfo(desired, response);
    PutApiCredentials(store, KafkaClusterCredentials, model.apiCredentials.value, Interpolate(model.clusterID));
    result := Done(ProgressEvent(Success, Some(model), []));
  }

  /**
   * Delete: one DELETE; a 404 counts as already deleted and a 200 as deleted, and then the
   * stored credentials are deleted; any other status fails before the store is touched.
   */
  method Delete(desired: ResourceModel, apiKeyEnv: Option<string>, remote: Remote, store: ParameterStore)
    returns (calls: seq<Call>, result: HandlerResult<ResourceModel>)
    modifies store
    ensures desired.apiCredentials.None? ==>
      calls == [] && result == InternalFailure(UndefinedCredentialsMessage) && store.parameters == old(store.parameters)
    ensures desired.apiCredentials.Some? ==>
      var request := DeleteCluster(Authorization(desired.apiCredentials.value, apiKeyEnv), Interpolate(desired.clusterID));
      var reply := remote(request);
      var name := ParameterName(KafkaClusterCredentials, Interpolate(desired.clusterID));
      && calls == [request]
      && (reply.status != 200 && reply.status != 404 ==>
            result == InternalFailure(FailureMessage(reply.status, reply.text)) && store.parameters == old(store.parameters))
      && (reply.status == 200 || reply.status == 404 ==>
            && store.parameters == old(store.parameters) - {name}
            && result == (if name in old(store.parameters) then Done(ProgressEvent(Success, None, []))
                          else InternalFailure(ParameterNotFoundMessage)))
  {
    if desired.apiCredentials.None? {
      return [], InternalFailure(UndefinedCredentialsMessage);
    }
    var creds := desired.apiCredentials.value;
    var request := DeleteCluster(Authorization(creds, apiKeyEnv), Interpolate(desired.clusterID));
    calls := [request];
    var response := remote(request);
    if response.status != 404 {
      var reply := HandleResponse(response);
      if reply.Err? {
        return calls, InternalFailure(reply.error);
      }
    }
    var outcome := DeleteApiCredentials(store, KafkaClusterCredentials, Interpolate(desired.clusterID));
    if outcome.Fail? {
      return calls, InternalFailure(outcome.error);
    }
    result := Done(ProgressEvent(Success, None, []));
  }

  /** Read: the credentials come from the store, not from the request; one GET with them, and a 200 reply is copied onto the model. */
  method Read(desired: ResourceModel, apiKeyEnv: Option<string>, remote: Remote, store: ParameterStore)
    returns (calls: seq<Call>, result: HandlerResult<ResourceModel>)
    ensures var name := ParameterName(KafkaClusterCredentials, Interpolate(desired.clusterID));
      && (name !in store.parameters ==> calls == [] && result == InternalFailure(ParameterNotFoundMessage))
      && (name in store.parameters ==>
            var request := GetCluster(Authorization(store.parameters[name], apiKeyEnv), Interpolate(desired.clusterID));
            var reply := remote(request);
            && calls == [request]
            && (reply.status != 200 ==> result == InternalFailure(FailureMessage(reply.status, reply.text)))
            && (reply.status == 200 ==>
                  && result.Done? && result.event.status == Success && result.event.resourceModels == []
                  && result.event.resourceModel.Some? && CopiedFrom(result.event.resourceModel.value, desired, reply.json)))
  {
    var creds := GetApiCredentials(store, KafkaClusterCredentials, Interpolate(desired.clusterID));
    if creds.Err? {
      return [], InternalFailure(creds.error);
    }
    var request := GetCluster(Authorization(creds.value, apiKeyEnv), Interpolate(desired.clusterID));
    calls := [request];
    var reply := HandleResponse(remote(request));
    if reply.Err? {
      return calls, InternalFailure(reply.error);
    }
    var model := CopyInfo(desired, reply.value);
    result := Done(ProgressEvent(Success, Some(model), []));
  }

  /** List: the request's model as the only listed model, with no call made. */
  function List(desired: ResourceModel): (event: ProgressEvent<ResourceModel>)
    ensures event.status == Success && event.resourceModels == [desired] && event.resourceModel.None?
  {
    ProgressEvent(Success, None, [desired])
  }
}

/**
 * The Kafka topic resource provider (cfn-resources/upstashKafka/V1/kafka-topic/src/handlers.ts):
 * create, update, delete, read and list of a topic of an Upstash Kafka cluster.
 *
 * As for the other two kinds, the control plane is a function from call to reply, and each
 * handler returns the calls it made, in order.
 */
module KafkaTopic {
  import opened Wrappers
  import opened Text
  import opened Upstash
  import opened Progress
  import opened TopicModel
  import Reconcile

  /** A topic as the control plane describes it (UpstashKafkaTopicInfoResponse); a property missing from the reply is None. */
  datatype TopicInfo = TopicInfo(
    clusterId: Option<string>,
    topicName: Option<string>,
    topicId: Option<string>,
    region: Option<string>,
    tcpEndpoint: Option<string>,
    restEndpoint: Option<string>,
    state: Option<string>,
    username: Option<string>,
    password: Option<string>,
    retentionSize: Option<int>,
    retentionTime: Option<int>,
    creationTime: Option<int>,
    maxMessageSize: Option<int>,
    cleanupPolicy: Option<string>,
    partitions: Option<int>)

  /** The JSON body of a create request; a None property is left out of the body. */
  datatype CreateTopicBody = CreateTopicBody(
    name: Option<string>,
    clusterId: Option<string>,
    partitions: Option<int>,
    retentionTime: Option<int>,
    retentionSize: Option<int>,
    maxMessageSize: Option<int>,
    cleanupPolicy: Option<string>)

  /** The JSON body of an update-topic request: only the retention and message-size settings. */
  datatype UpdateTopicBody = UpdateTopicBody(
    retentionTime: Option<int>,
    retentionSize: Option<int>,
    maxMessageSize: Option<int>)

  /** The control-plane calls, with the Authorization header each carries and the id in its path. */
  datatype Call =
    | CreateTopic(authorization: string, body: CreateTopicBody)
    | GetTopic(authorization: string, id: string)
    | UpdateTopic(authorization: string, id: string, settings: UpdateTopicBody)
    | DeleteTopic(authorization: string, id: string)

  type Remote = Call -> Response<TopicInfo>

  // ---------------------------------------------------------------------------
  // Copying a reply onto the model
  // ---------------------------------------------------------------------------

  /**
   * `m` is `desired` with the reply's properties copied on, as create, update and read do:
   * fourteen properties from the reply; the credentials, multizone, cleanupPolicy and
   * forceUpdate kept as desired.
   */
  predicate CopiedFrom(m: ResourceModel, desired: ResourceModel, info: TopicInfo) {
    && m.topicID == info.topicId
    && m.clusterID == info.clusterId
    && m.creationTime == info.creationTime
    && m.topicName == info.topicName
    && m.username == info.username
    && m.region == info.region
    && m.password == info.password
    && m.restEndpoint == info.restEndpoint
    && m.tcpEndpoint == info.tcpEndpoint
    && m.state == info.state
    && m.partitions == info.partitions
    && m.retentionTime == info.retentionTime
    && m.retentionSize == info.retentionSize
    && m.maxMessageSize == info.maxMessageSize
    && m.apiCredentials == desired.apiCredentials
    && m.multizone == desired.multizone
    && m.cleanupPolicy == desired.cleanupPolicy
    && m.forceUpdate == desired.forceUpdate
  }

  method CopyInfo(desired: ResourceModel, info: TopicInfo) returns (m: ResourceModel)
    ensures CopiedFrom(m, desired, info)
  {
    m := desired;
    m := m.(topicID := info.topicId);
    m := m.(clusterID := info.clusterId);
    m := m.(creationTime := info.creationTime);
    m := m.(topicName := info.topicName);
    m := m.(username := info.username);
    m := m.(region := info.region);
    m := m.(password := info.password);
    m := m.(restEndpoint := info.restEndpoint);
    m := m.(tcpEndpoint := info.tcpEndpoint);
    m := m.(state := info.state);
    m := m.(partitions := info.partitions);
    m := m.(retentionTime := info.retentionTime);
    m := m.(retentionSize := info.retentionSize);
    m := m.(maxMessageSize := info.maxMessageSize);
  }

  /** The copy leaves nothing open: the reply and the desired state fix every property. */
  lemma CopiedFromUnique(m1: ResourceModel, m2: ResourceModel, desired: ResourceModel, info: TopicInfo)
    requires CopiedFrom(m1, desired, info) && CopiedFrom(m2, desired, info)
    ensures m1 == m2
  {
  }

  /**
   * After a copy the model is identified by the reply's topic id, the cleanup policy is the
   * desired one whatever the reply says, and copying the same reply again changes nothing.
   */
  lemma CopiedFromReply(m: ResourceModel, desired: ResourceModel, info: TopicInfo)
    requires CopiedFrom(m, desired, info)
    ensures PrimaryIdentifier(m) == (if info.topicId.Some? then Some(map[IdentifierKey := info.topicId.value]) else None)
    ensures m.cleanupPolicy == desired.cleanupPolicy
    ensures CopiedFrom(m, m, info)
  {
  }

  // ---------------------------------------------------------------------------
  // The update as a table of stages
  // ---------------------------------------------------------------------------

  /** The request body of an update, taken from the desired state. */
  function UpdateSettings(d: ResourceModel): UpdateTopicBody {
    UpdateTopicBody(d.retentionTime, d.retentionSize, d.maxMessageSize)
  }

  /** The one stage of an update: update-topic, whatever the read returned. */
  function UpdateStages(d: ResourceModel, auth: string, id: string): (stages: seq<Reconcile.Stage<Call, TopicInfo>>)
    ensures |stages| == 1
  {
    [Reconcile.Stage(UpdateTopic(auth, id, UpdateSettings(d)), (r: TopicInfo) => true)]
  }

  function UpdateRun(d: ResourceModel, auth: string, id: string, remote: Remote): Reconcile.Run<Call, TopicInfo> {
    Reconcile.Update(GetTopic(auth, id), UpdateStages(d, auth, id), remote)
  }

  /**
   * An update that gets past the read always sends exactly one update-topic, whatever the
   * difference between the read and the desired state; the read's reply is then dropped,
   * and the update ends with the reply to update-topic.
   */
  lemma UpdateAlwaysSendsUpdateTopic(d: ResourceModel, auth: string, id: string, remote: Remote)
    ensures var run := UpdateRun(d, auth, id, remote);
      var first := remote(GetTopic(auth, id));
      var updated := remote(UpdateTopic(auth, id, UpdateSettings(d)));
      && run.calls == (if first.status == 200 then [GetTopic(auth, id), UpdateTopic(auth, id, UpdateSettings(d))] else [GetTopic(auth, id)])
      && (run.outcome.Ok? <==> first.status == 200 && updated.status == 200)
      && (run.outcome.Ok? ==> run.outcome.value == updated.json)
  {
    var stages := UpdateStages(d, auth, id);
    assert stages[1..] == [];
    var first := remote(GetTopic(auth, id));
    if first.status == 200 {
      assert Reconcile.Steps(stages, first.json, remote).calls == [UpdateTopic(auth, id, UpdateSettings(d))];
    }
  }

  // ---------------------------------------------------------------------------
  // The handlers
  // ---------------------------------------------------------------------------

  function Authorization(creds: ApiCredentials, apiKeyEnv: Option<string>): string {
    AuthorizationHeader(creds.email, creds.key, apiKeyEnv)
  }

  /**
   * Create: one POST with the desired name, cluster id, partitions, retention settings,
   * maximum message size and cleanup policy; a 200 reply is copied onto the model and the
   * request's credentials are stored under the id of the new topic.
   */
  method Create(desired: ResourceModel, apiKeyEnv: Option<string>, remote: Remote, store: ParameterStore)
    returns (calls: seq<Call>, result: HandlerResult<ResourceModel>)
    modifies store
    ensures desired.apiCredentials.None? ==>
      calls == [] && result == InternalFailure(UndefinedCredentialsMessage) && store.parameters == old(store.parameters)
    ensures desired.apiCredentials.Some? ==>
      var request := CreateTopic(Authorization(desired.apiCredentials.value, apiKeyEnv),
        CreateTopicBody(desired.topicName, desired.clusterID, desired.partitions, desired.retentionTime,
                        desired.retentionSize, desired.maxMessageSize, desired.cleanupPolicy));
      var reply := remote(request);
      && calls == [request]
      && (reply.status != 200 ==>
            result == InternalFailure(FailureMessage(reply.status, reply.text)) && store.parameters == old(store.parameters))
      && (reply.status == 200 ==>
            && result.Done? && result.event.status == Success && result.event.resourceModels == []
            && result.event.resourceModel.Some? && CopiedFrom(result.event.resourceModel.value, desired, reply.json)
            && store.parameters == old(store.parameters)[ParameterName(KafkaTopicCredentials, Interpolate(reply.json.topicId)) := desired.apiCredentials.value])
  {
    if desired.apiCredentials.None? {
      return [], InternalFailure(UndefinedCredentialsMessage);
    }
    var creds := desired.apiCredentials.value;
    var request := CreateTopic(Authorization(creds, apiKeyEnv),
      CreateTopicBody(desired.topicName, desired.clusterID, desired.partitions, desired.retentionTime,
                      desired.retentionSize, desired.maxMessageSize, desired.cleanupPolicy));
    calls := [request];
    var reply := HandleResponse(remote(request));
    if reply.Err? {
      return calls, InternalFailure(reply.error);
    }
    var model := CopyInfo(desired, reply.value);
    PutApiCredentials(store, KafkaTopicCredentials, model.apiCredentials.value, Interpolate(model.topicID));
    result := Done(ProgressEvent(Success, Some(model), []));
  }

  /**
   * Update: the read, then update-topic with the desired retention settings and maximum
   * message size; the reply to update-topic is copied onto the model and the credentials
   * are stored under its id.
   */
  method Update(desired: ResourceModel, apiKeyEnv: Option<string>, remote: Remote, store: ParameterStore)
    returns (calls: seq<Call>, result: HandlerResult<ResourceModel>)
    modifies store
    ensures desired.apiCredentials.None? ==>
      calls == [] && result == InternalFailure(UndefinedCredentialsMessage) && store.parameters == old(store.parameters)
    ensures desired.apiCredentials.Some? ==>
      var run := UpdateRun(desired, Authorization(desired.apiCredentials.value, apiKeyEnv), Interpolate(desired.topicID), remote);
      && calls == run.calls
      && (run.outcome.Err? ==>
            result == InternalFailure(run.outcome.error) && store.parameters == old(store.parameters))
      && (run.outcome.Ok? ==>
            && result.Done? && result.event.status == Success && result.event.resourceModels == []
            && result.event.resourceModel.Some? && CopiedFrom(result.event.resourceModel.value, desired, run.outcome.value)
            && store.parameters == old(store.parameters)[ParameterName(KafkaTopicCredentials, Interpolate(run.outcome.value.topicId)) := desired.apiCredentials.value])
  {
    if desired.apiCredentials.None? {
      return [], InternalFailure(UndefinedCredentialsMessage);
    }
    var creds := desired.apiCredentials.value;
    var auth := Authorization(creds, apiKeyEnv);
    var id := Interpolate(desired.topicID);
    ghost var stages: seq<Reconcile.Stage<Call, TopicInfo>> := UpdateStages(desired, auth, id);
    calls := [GetTopic(auth, id)];
    var reply := HandleResponse(remote(GetTopic(auth, id)));
    if reply.Err? {
      return calls, InternalFailure(reply.error);
    }
    assert stages[1..] == [];
    var update := UpdateTopic(auth, id, UpdateTopicBody(desired.retentionTime, desired.retentionSize, desired.maxMessageSize));
    calls := calls + [update];
    reply := HandleResponse(remote(update));
    if reply.Err? {
      return calls, InternalFailure(reply.error);
    }
    var response := reply.value;
    assert Reconcile.Steps(stages[1..], response, remote) == Reconcile.Run([], Ok(response));
    assert UpdateRun(desired, auth, id, remote) == Reconcile.Run(calls, Ok(response));
    var model := CopyInfo(desired, response);
    PutApiCredentials(store, KafkaTopicCredentials, model.apiCredentials.value, Interpolate(model.topicID));
    result := Done(ProgressEvent(Success, Some(model), []));
  }

  /**
   * Delete: one DELETE; a 404 counts as already deleted and a 200 as deleted, and then the
   * stored credentials are deleted; any other status fails before the store is touched.
   */
  method Delete(desired: ResourceModel, apiKeyEnv: Option<string>, remote: Remote, store: ParameterStore)
    returns (calls: seq<Call>, result: HandlerResult<ResourceModel>)
    modifies store
    ensures desired.apiCredentials.None? ==>
      calls == [] && result == InternalFailure(UndefinedCredentialsMessage) && store.parameters == old(store.parameters)
    ensures desired.apiCredentials.Some? ==>
      var request := DeleteTopic(Authorization(desired.apiCredentials.value, apiKeyEnv), Interpolate(desired.topicID));
      var reply := remote(request);
      var name := ParameterName(KafkaTopicCredentials, Interpolate(desired.topicID));
      && calls == [request]
      && (reply.status != 200 && reply.status != 404 ==>
            result == InternalFailure(FailureMessage(reply.status, reply.text)) && store.parameters == old(store.parameters))
      && (reply.status == 200 || reply.status == 404 ==>
            && store.parameters == old(store.parameters) - {name}
            && result == (if name in old(store.parameters) then Done(ProgressEvent(Success, None, []))
                          else InternalFailure(ParameterNotFoundMessage)))
  {
    if desired.apiCredentials.None? {
      return [], InternalFailure(UndefinedCredentialsMessage);
    }
    var creds := desired.apiCredentials.value;
    var request := DeleteTopic(Authorization(creds, apiKeyEnv), Interpolate(desired.topicID));
    calls := [request];
    var response := remote(request);
    if response.status != 404 {
      var reply := HandleResponse(response);
      if reply.Err? {
        return calls, InternalFailure(reply.error);
      }
    }
    var outcome := DeleteApiCredentials(store, KafkaTopicCredentials, Interpolate(desired.topicID));
    if outcome.Fail? {
      return calls, InternalFailure(outcome.error);
    }
    result := Done(ProgressEvent(Success, None, []));
  }

  /** Read: the credentials come from the store, not from the request; one GET with them, and a 200 reply is copied onto the model. */
  method Read(desired: ResourceModel, apiKeyEnv: Option<string>, remote: Remote, store: ParameterStore)
    returns (calls: seq<Call>, result: HandlerResult<ResourceModel>)
    ensures var name := ParameterName(KafkaTopicCredentials, Interpolate(desired.topicID));
      && (name !in store.parameters ==> calls == [] && result == InternalFailure(ParameterNotFoundMessage))
      && (name in store.parameters ==>
            var request := GetTopic(Authorization(store.parameters[name], apiKeyEnv), Interpolate(desired.topicID));
            var reply := remote(request);
            && calls == [request]
            && (reply.status != 200 ==> result == InternalFailure(FailureMessage(reply.status, reply.text)))
            && (reply.status == 200 ==>
                  && result.Done? && result.event.status == Success && result.event.resourceModels == []
                  && result.event.resourceModel.Some? && CopiedFrom(result.event.resourceModel.value, desired, reply.json)))
  {
    var creds := GetApiCredentials(store, KafkaTopicCredentials, Interpolate(desired.topicID));
    if creds.Err? {
      return [], InternalFailure(creds.error);
    }
    var request := GetTopic(Authorization(creds.value, apiKeyEnv), Interpolate(desired.topicID));
    calls := [request];
    var reply := HandleResponse(remote(request));
    if reply.Err? {
      return calls, InternalFailure(reply.error);
    }
    var model := CopyInfo(desired, reply.value);
    result := Done(ProgressEvent(Success, Some(model), []));
  }

  /** List: the request's model as the only listed model, with no call made. */
  function List(desired: ResourceModel): (event: ProgressEvent<ResourceModel>)
    ensures event.status == Success && event.resourceModels == [desired] && event.resourceModel.None?
  {
    ProgressEvent(Success, None, [desired])
  }
}

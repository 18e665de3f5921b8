/**
 * The Redis database resource provider (cfn-resources/upstashRedis/V1/database/src/handlers.ts):
 * create, update, delete, read and list of an Upstash Redis database, against the Upstash
 * control plane and the parameter store.
 *
 * The control plane is a function from call to reply. Each handler makes every call at most
 * once, so a function of the call alone can give each call of one invocation any reply.
 * Each handler returns the calls it made, in order.
 */
module RedisDatabase {
  import opened Wrappers
  import opened Text
  import opened Upstash
  import opened Progress
  import opened DatabaseModel
  import Reconcile

  /** A database as the control plane describes it (UpstashDatabaseInfoResponse); a property missing from the reply is None. */
  datatype DatabaseInfo = DatabaseInfo(
    databaseId: Option<string>,
    databaseName: Option<string>,
    databaseType: Option<string>,
    region: Option<string>,
    port: Option<nat>,
    creationTime: Option<int>,
    state: Option<string>,
    password: Option<string>,
    userEmail: Option<string>,
    endpoint: Option<string>,
    tls: Option<bool>,
    multizone: Option<bool>,
    consistent: Option<bool>,
    restToken: Option<string>,
    readOnlyRestToken: Option<string>)

  /** The JSON body of a create request; a None property is left out of the body. */
  datatype CreateDatabaseBody = CreateDatabaseBody(
    name: Option<string>,
    region: Option<string>,
    multizone: Option<bool>,
    tls: Option<bool>,
    consistent: Option<bool>)

  /** The control-plane calls, with the Authorization header each carries and the id in its path. */
  datatype Call =
    | CreateDatabase(authorization: string, body: CreateDatabaseBody)
    | GetDatabase(authorization: string, id: string)
    | RenameDatabase(authorization: string, id: string, name: Option<string>)
    | EnableTls(authorization: string, id: string)
    | EnableMultizone(authorization: string, id: string)
    | DeleteDatabase(authorization: string, id: string)

  type Remote = Call -> Response<DatabaseInfo>

  // ---------------------------------------------------------------------------
  // Copying a reply onto the model
  // ---------------------------------------------------------------------------

  /**
   * `m` is `desired` with the reply's properties copied on, as create and update do: eleven
   * properties from the reply (the port as its decimal text), the others kept as desired.
   */
  predicate CopiedFrom(m: ResourceModel, desired: ResourceModel, info: DatabaseInfo) {
    && m.databaseID == info.databaseId
    && m.consistent == info.consistent
    && m.creationTime == info.creationTime
    && m.databaseName == info.databaseName
    && m.endpoint == info.endpoint
    && m.region == info.region
    && m.multizone == info.multizone
    && m.password == info.password
    && m.port == Some(InterpolateNat(info.port))
    && m.state == info.state
    && m.tls == info.tls
    && m.apiCredentials == desired.apiCredentials
    && m.restToken == desired.restToken
    && m.readOnlyRestToken == desired.readOnlyRestToken
    && m.forceUpdate == desired.forceUpdate
  }

  /** What read copies: the same, and also the two REST tokens. */
  predicate ReadFrom(m: ResourceModel, desired: ResourceModel, info: DatabaseInfo) {
    CopiedFrom(m, desired.(restToken := info.restToken, readOnlyRestToken := info.readOnlyRestToken), info)
  }

  method CopyInfo(desired: ResourceModel, info: DatabaseInfo) returns (m: ResourceModel)
    ensures CopiedFrom(m, desired, info)
  {
    m := desired;
    m := m.(databaseID := info.databaseId);
    m := m.(consistent := info.consistent);
    m := m.(creationTime := info.creationTime);
    m := m.(databaseName := info.databaseName);
    m := m.(endpoint := info.endpoint);
    m := m.(region := info.region);
    m := m.(multizone := info.multizone);
    m := m.(password := info.password);
    m := m.(port := Some(InterpolateNat(info.port)));
    m := m.(state := info.state);
    m := m.(tls := info.tls);
  }

  method CopyReadInfo(desired: ResourceModel, info: DatabaseInfo) returns (m: ResourceModel)
    ensures ReadFrom(m, desired, info)
  {
    m := CopyInfo(desired, info);
    m := m.(restToken := info.restToken);
    m := m.(readOnlyRestToken := info.readOnlyRestToken);
  }

  /** The copy leaves nothing open: the reply and the desired state fix every property. */
  lemma CopiedFromUnique(m1: ResourceModel, m2: ResourceModel, desired: ResourceModel, info: DatabaseInfo)
    requires CopiedFrom(m1, desired, info) && CopiedFrom(m2, desired, info)
    ensures m1 == m2
  {
  }

  /**
   * After a copy the model is identified by the reply's database id, its port reads back as
   * the reply's port, and copying the same reply again changes nothing.
   */
  lemma CopiedFromReply(m: ResourceModel, desired: ResourceModel, info: DatabaseInfo)
    requires CopiedFrom(m, desired, info)
    ensures PrimaryIdentifier(m) == (if info.databaseId.Some? then Some(map[IdentifierKey := info.databaseId.value]) else None)
    ensures ParseDecimal(m.port.value) == info.port
    ensures CopiedFrom(m, m, info)
  {
  }

  // ---------------------------------------------------------------------------
  // The update as a table of stages
  // ---------------------------------------------------------------------------

  /**
   * The conditional calls of an update, in order: rename when the name differs, enable-tls
   * when tls differs (in either direction), enable-multizone when multizone differs, each
   * compared with the record left by the calls before it.
   */
  function UpdateStages(d: ResourceModel, auth: string, id: string): (stages: seq<Reconcile.Stage<Call, DatabaseInfo>>)
    ensures |stages| == 3
  {
    [ Reconcile.Stage(RenameDatabase(auth, id, d.databaseName), (r: DatabaseInfo) => d.databaseName != r.databaseName),
      Reconcile.Stage(EnableTls(auth, id), (r: DatabaseInfo) => d.tls != r.tls),
      Reconcile.Stage(EnableMultizone(auth, id), (r: DatabaseInfo) => d.multizone != r.multizone) ]
  }

  function UpdateRun(d: ResourceModel, auth: string, id: string, remote: Remote): Reconcile.Run<Call, DatabaseInfo> {
    Reconcile.Update(GetDatabase(auth, id), UpdateStages(d, auth, id), remote)
  }

  /** The position of a call in an update. */
  function Rank(c: Call): nat {
    match c
    case GetDatabase(_, _) => 0
    case RenameDatabase(_, _, _) => 1
    case EnableTls(_, _) => 2
    case EnableMultizone(_, _) => 3
    case _ => 4
  }

  lemma UpdateTableRanked(d: ResourceModel, auth: string, id: string)
    ensures Reconcile.IncreasingRank([GetDatabase(auth, id)] + Reconcile.CallsOf(UpdateStages(d, auth, id)), Rank)
  {
    var calls := [GetDatabase(auth, id)] + Reconcile.CallsOf(UpdateStages(d, auth, id));
    assert calls == [GetDatabase(auth, id), RenameDatabase(auth, id, d.databaseName), EnableTls(auth, id), EnableMultizone(auth, id)];
  }

  /**
   * An update reads first, then issues only rename, enable-tls and enable-multizone, each at
   * most once and in that order.
   */
  lemma UpdateCallOrder(d: ResourceModel, auth: string, id: string, remote: Remote)
    ensures var calls := UpdateRun(d, auth, id, remote).calls;
      && calls[0] == GetDatabase(auth, id)
      && Reconcile.IncreasingRank(calls, Rank)
      && forall c :: c in calls ==>
           c == GetDatabase(auth, id) || c == RenameDatabase(auth, id, d.databaseName) || c == EnableTls(auth, id) || c == EnableMultizone(auth, id)
  {
    UpdateTableRanked(d, auth, id);
    Reconcile.UpdateOrdered(GetDatabase(auth, id), UpdateStages(d, auth, id), remote, Rank);
    assert Reconcile.CallsOf(UpdateStages(d, auth, id)) == [RenameDatabase(auth, id, d.databaseName), EnableTls(auth, id), EnableMultizone(auth, id)];
  }

  /** The rename is sent exactly when the read succeeds and the desired name differs from the name read. */
  lemma UpdateRenames(d: ResourceModel, auth: string, id: string, remote: Remote)
    ensures RenameDatabase(auth, id, d.databaseName) in UpdateRun(d, auth, id, remote).calls
        <==> remote(GetDatabase(auth, id)).status == 200 && d.databaseName != remote(GetDatabase(auth, id)).json.databaseName
  {
    UpdateTableRanked(d, auth, id);
    Reconcile.UpdateIssued(GetDatabase(auth, id), UpdateStages(d, auth, id), remote, 0, Rank);
  }

  /**
   * enable-tls is sent exactly when every call so far succeeded and the desired tls differs
   * from the tls of the latest reply: the rename's reply when a rename was sent, otherwise
   * the read's.
   */
  lemma UpdateEnablesTls(d: ResourceModel, auth: string, id: string, remote: Remote)
    ensures EnableTls(auth, id) in UpdateRun(d, auth, id, remote).calls
        <==> var first := remote(GetDatabase(auth, id));
             var renamed := remote(RenameDatabase(auth, id, d.databaseName));
             && first.status == 200
             && if d.databaseName != first.json.databaseName
                then renamed.status == 200 && d.tls != renamed.json.tls
                else d.tls != first.json.tls
  {
    var stages := UpdateStages(d, auth, id);
    UpdateTableRanked(d, auth, id);
    Reconcile.UpdateIssued(GetDatabase(auth, id), stages, remote, 1, Rank);
    assert stages[1..][0] == stages[1];
  }

  /**
   * enable-multizone is sent exactly when every call so far succeeded and the desired
   * multizone differs from that of the record left by the read, the rename and the enable-tls.
   */
  lemma UpdateEnablesMultizone(d: ResourceModel, auth: string, id: string, remote: Remote)
    ensures EnableMultizone(auth, id) in UpdateRun(d, auth, id, remote).calls
        <==> var first := remote(GetDatabase(auth, id));
             var latest := Reconcile.Before(UpdateStages(d, auth, id), first.json, remote, 2);
             first.status == 200 && latest.Some? && d.multizone != latest.value.multizone
  {
    var stages := UpdateStages(d, auth, id);
    UpdateTableRanked(d, auth, id);
    Reconcile.UpdateIssued(GetDatabase(auth, id), stages, remote, 2, Rank);
  }

  /**
   * A request to turn tls off is not skipped: with tls on and nothing else to change, the
   * update still sends enable-tls (the source's comment says such a request is ignored).
   */
  lemma DisablingTlsSendsEnableTls(d: ResourceModel, auth: string, id: string, remote: Remote)
    requires remote(GetDatabase(auth, id)).status == 200
    requires d.databaseName == remote(GetDatabase(auth, id)).json.databaseName
    requires remote(GetDatabase(auth, id)).json.tls == Some(true) && d.tls == Some(false)
    ensures EnableTls(auth, id) in UpdateRun(d, auth, id, remote).calls
  {
    UpdateEnablesTls(d, auth, id, remote);
  }

  /** Likewise a request to turn multizone off still sends enable-multizone. */
  lemma DisablingMultizoneSendsEnableMultizone(d: ResourceModel, auth: string, id: string, remote: Remote)
    requires remote(GetDatabase(auth, id)).status == 200
    requires d.databaseName == remote(GetDatabase(auth, id)).json.databaseName
    requires d.tls == remote(GetDatabase(auth, id)).json.tls
    requires remote(GetDatabase(auth, id)).json.multizone == Some(true) && d.multizone == Some(false)
    ensures EnableMultizone(auth, id) in UpdateRun(d, auth, id, remote).calls
  {
    var stages := UpdateStages(d, auth, id);
    var first := remote(GetDatabase(auth, id)).json;
    assert stages[1..][0] == stages[1];
    assert stages[1..][1..][0] == stages[2];
    assert Reconcile.Before(stages, first, remote, 2) == Some(first);
    UpdateEnablesMultizone(d, auth, id, remote);
  }

  // ---------------------------------------------------------------------------
  // The handlers
  // ---------------------------------------------------------------------------

  /** The header a handler builds from the request's credentials. */
  function Authorization(creds: ApiCredentials, apiKeyEnv: Option<string>): string {
    AuthorizationHeader(creds.email, creds.key, apiKeyEnv)
  }

  /**
   * Create: one POST with the desired name, region, multizone, tls and consistent; a 200
   * reply is copied onto the model, the request's credentials are stored under the id of
   * the new database, and only then is the event a Success.
   */
  method Create(desired: ResourceModel, apiKeyEnv: Option<string>, remote: Remote, store: ParameterStore)
    returns (calls: seq<Call>, result: HandlerResult<ResourceModel>)
    modifies store
    ensures desired.apiCredentials.None? ==>
      calls == [] && result == InternalFailure(UndefinedCredentialsMessage) && store.parameters == old(store.parameters)
    ensures desired.apiCredentials.Some? ==>
      var request := CreateDatabase(Authorization(desired.apiCredentials.value, apiKeyEnv),
        CreateDatabaseBody(desired.databaseName, desired.region, desired.multizone, desired.tls, desired.consistent));
      var reply := remote(request);
      && calls == [request]
      && (reply.status != 200 ==>
            result == InternalFailure(FailureMessage(reply.status, reply.text)) && store.parameters == old(store.parameters))
      && (reply.status == 200 ==>
            && result.Done? && result.event.status == Success && result.event.resourceModels == []
            && result.event.resourceModel.Some? && CopiedFrom(result.event.resourceModel.value, desired, reply.json)
            && store.parameters == old(store.parameters)[ParameterName(DatabaseCredentials, Interpolate(reply.json.databaseId)) := desired.apiCredentials.value])
  {
    if desired.apiCredentials.None? {
      return [], InternalFailure(UndefinedCredentialsMessage);
    }
    var creds := desired.apiCredentials.value;
    var request := CreateDatabase(Authorization(creds, apiKeyEnv),
      CreateDatabaseBody(desired.databaseName, desired.region, desired.multizone, desired.tls, desired.consistent));
    calls := [request];
    var reply := HandleResponse(remote(request));
    if reply.Err? {
      return calls, InternalFailure(reply.error);
    }
    var model := CopyInfo(desired, reply.value);
    PutApiCredentials(store, DatabaseCredentials, model.apiCredentials.value, Interpolate(model.databaseID));
    result := Done(ProgressEvent(Success, Some(model), []));
  }

  /**
   * Update: the calls of the stage table, each condition checked against the latest reply;
   * the last reply is copied onto the model and the credentials are stored under its id.
   */
  method Update(desired: ResourceModel, apiKeyEnv: Option<string>, remote: Remote, store: ParameterStore)
    returns (calls: seq<Call>, result: HandlerResult<ResourceModel>)
    modifies store
    ensures desired.apiCredentials.None? ==>
      calls == [] && result == InternalFailure(UndefinedCredentialsMessage) && store.parameters == old(store.parameters)
    ensures desired.apiCredentials.Some? ==>
      var run := UpdateRun(desired, Authorization(desired.apiCredentials.value, apiKeyEnv), Interpolate(desired.databaseID), remote);
      && calls == run.calls
      && (run.outcome.Err? ==>
            result == InternalFailure(run.outcome.error) && store.parameters == old(store.parameters))
      && (run.outcome.Ok? ==>
            && result.Done? && result.event.status == Success && result.event.resourceModels == []
            && result.event.resourceModel.Some? && CopiedFrom(result.event.resourceModel.value, desired, run.outcome.value)
            && store.parameters == old(store.parameters)[ParameterName(DatabaseCredentials, Interpolate(run.outcome.value.databaseId)) := desired.apiCredentials.value])
  {
    if desired.apiCredentials.None? {
      return [], InternalFailure(UndefinedCredentialsMessage);
    }
    var creds := desired.apiCredentials.value;
    var auth := Authorization(creds, apiKeyEnv);
    var id := Interpolate(desired.databaseID);
    ghost var stages: seq<Reconcile.Stage<Call, DatabaseInfo>> := UpdateStages(desired, auth, id);
    calls := [GetDatabase(auth, id)];
    var reply := HandleResponse(remote(GetDatabase(auth, id)));
    if reply.Err? {
      return calls, InternalFailure(reply.error);
    }
    var response := reply.value;
    ghost var rest := Reconcile.Steps(stages, response, remote);
    assert UpdateRun(desired, auth, id, remote) == Reconcile.Run(calls + rest.calls, rest.outcome);
    if desired.databaseName != response.databaseName {
      calls := calls + [RenameDatabase(auth, id, desired.databaseName)];
      reply := HandleResponse(remote(RenameDatabase(auth, id, desired.databaseName)));
      if reply.Err? {
        return calls, InternalFailure(reply.error);
      }
      response := reply.value;
    }
    rest := Reconcile.Steps(stages[1..], response, remote);
    assert UpdateRun(desired, auth, id, remote) == Reconcile.Run(calls + rest.calls, rest.outcome);
    // a request to turn tls off sends enable-tls as well
    if desired.tls != response.tls {
      calls := calls + [EnableTls(auth, id)];
      reply := HandleResponse(remote(EnableTls(auth, id)));
      if reply.Err? {
        return calls, InternalFailure(reply.error);
      }
      response := reply.value;
    }
    rest := Reconcile.Steps(stages[2..], response, remote);
    assert UpdateRun(desired, auth, id, remote) == Reconcile.Run(calls + rest.calls, rest.outcome);
    assert stages[2..][1..] == [];
    // a request to turn multizone off sends enable-multizone as well
    if desired.multizone != response.multizone {
      calls := calls + [EnableMultizone(auth, id)];
      reply := HandleResponse(remote(EnableMultizone(auth, id)));
      if reply.Err? {
        return calls, InternalFailure(reply.error);
      }
      response := reply.value;
    }
    assert Reconcile.Steps(stages[2..][1..], response, remote) == Reconcile.Run([], Ok(response));
    assert calls + [] == calls;
    assert UpdateRun(desired, auth, id, remote) == Reconcile.Run(calls, Ok(response));
    var model := CopyInfo(desired, response);
    PutApiCredentials(store, DatabaseCredentials, model.apiCredentials.value, Interpolate(model.databaseID));
    result := Done(ProgressEvent(Success, Some(model), []));
  }

  /**
   * Delete: one DELETE; a 404 counts as already deleted and a 200 as deleted, and then the
   * stored credentials are deleted; any other status fails before the store is touched.
   */
  method Delete(desired: ResourceModel, apiKeyEnv: Option<string>, remote: Remote, store: ParameterStore)
    returns (calls: seq<Call>, result: HandlerResult<ResourceModel>)
    modifies store
    ensures desired.apiCredentials.None? ==>
      calls == [] && result == InternalFailure(UndefinedCredentialsMessage) && store.parameters == old(store.parameters)
    ensures desired.apiCredentials.Some? ==>
      var request := DeleteDatabase(Authorization(desired.apiCredentials.value, apiKeyEnv), Interpolate(desired.databaseID));
      var reply := remote(request);
      var name := ParameterName(DatabaseCredentials, Interpolate(desired.databaseID));
      && calls == [request]
      && (reply.status != 200 && reply.status != 404 ==>
            result == InternalFailure(FailureMessage(reply.status, reply.text)) && store.parameters == old(store.parameters))
      && (reply.status == 200 || reply.status == 404 ==>
            && store.parameters == old(store.parameters) - {name}
            && result == (if name in old(store.parameters) then Done(ProgressEvent(Success, None, []))
                          else InternalFailure(ParameterNotFoundMessage)))
  {
    if desired.apiCredentials.None? {
      return [], InternalFailure(UndefinedCredentialsMessage);
    }
    var creds := desired.apiCredentials.value;
    var request := DeleteDatabase(Authorization(creds, apiKeyEnv), Interpolate(desired.databaseID));
    calls := [request];
    var response := remote(request);
    if response.status != 404 {
      var reply := HandleResponse(response);
      if reply.Err? {
        return calls, InternalFailure(reply.error);
      }
    }
    var outcome := DeleteApiCredentials(store, DatabaseCredentials, Interpolate(desired.databaseID));
    if outcome.Fail? {
      return calls, InternalFailure(outcome.error);
    }
    result := Done(ProgressEvent(Success, None, []));
  }

  /**
   * Read: the credentials come from the store, not from the request; one GET with them, and
   * a 200 reply is copied onto the model together with the two REST tokens.
   */
  method Read(desired: ResourceModel, apiKeyEnv: Option<string>, remote: Remote, store: ParameterStore)
    returns (calls: seq<Call>, result: HandlerResult<ResourceModel>)
    ensures var name := ParameterName(DatabaseCredentials, Interpolate(desired.databaseID));
      && (name !in store.parameters ==> calls == [] && result == InternalFailure(ParameterNotFoundMessage))
      && (name in store.parameters ==>
            var request := GetDatabase(Authorization(store.parameters[name], apiKeyEnv), Interpolate(desired.databaseID));
            var reply := remote(request);
            && calls == [request]
            && (reply.status != 200 ==> result == InternalFailure(FailureMessage(reply.status, reply.text)))
            && (reply.status == 200 ==>
                  && result.Done? && result.event.status == Success && result.event.resourceModels == []
                  && result.event.resourceModel.Some? && ReadFrom(result.event.resourceModel.value, desired, reply.json)))
  {
    var creds := GetApiCredentials(store, DatabaseCredentials, Interpolate(desired.databaseID));
    if creds.Err? {
      return [], InternalFailure(creds.error);
    }
    var request := GetDatabase(Authorization(creds.value, apiKeyEnv), Interpolate(desired.databaseID));
    calls := [request];
    var reply := HandleResponse(remote(request));
    if reply.Err? {
      return calls, InternalFailure(reply.error);
    }
    var model := CopyReadInfo(desired, reply.value);
    result := Done(ProgressEvent(Success, Some(model), []));
  }

  /** List: the request's model as the only listed model, with no call made. */
  function List(desired: ResourceModel): (event: ProgressEvent<ResourceModel>)
    ensures event.status == Success && event.resourceModels == [desired] && event.resourceModel.None?
  {
    ProgressEvent(Success, None, [desired])
  }
}

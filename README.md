# Upstash CloudFormation resource providers, modelled in Dafny

The repository holds CloudFormation resource providers for three kinds of Upstash resource:
a Redis database, a Kafka cluster and a Kafka topic. Each provider has five handlers.

- **create** posts the desired properties to the Upstash control plane. It copies the reply onto
  the resource model and stores the request's API credentials (e-mail and key) in the parameter
  store, under a name derived from the new resource's id.
- **update** reads the resource and then sends the calls that reconcile it with the desired state:
  - for a database, rename, enable-tls and enable-multizone, each only when its property differs
    from the latest reply;
  - for a cluster, rename-cluster, only when the name differs;
  - for a topic, update-topic, always.
- **delete** deletes the resource (a 404 counts as already deleted) and then the stored credentials.
- **read** fetches the stored credentials and uses them to read the resource.
- **list** returns the request's model.

Every call authenticates with an HTTP Basic header built from the e-mail and the key. A
non-empty `UPSTASH_API_KEY` environment variable replaces the key. A reply whose status is not
exactly 200 fails the handler with a message that gives the status and the body; the one
exception is delete, which takes a 404 as the resource being already gone.

The model is organised as follows.

- `Wrappers`, `Text`, `Utf8` and `Base64` give the values the handlers compute with:
  - optional values and results;
  - decimal text and JavaScript template interpolation, where an undefined value renders as
    `undefined`;
  - UTF-8 and Base64 (section 3 of RFC 3629, section 4 of RFC 4648).
- `Upstash` collects the helpers that the four copies of `utils.ts` share:
  - the Authorization header, built as in section 2 of RFC 7617;
  - the classification of a reply;
  - the parameter names;
  - the parameter store, as a class whose table of parameters the put and delete operations change.
- `DatabaseModel`, `ClusterModel` and `TopicModel` are the resource records of the three
  `models.ts` files, with their type names, identifier keys and identifier functions. Every
  property is an `Option`, because every property is optional.
- `Progress` is the handler outcome: a progress event, or the `InternalFailure` carrying the
  message of the error that ended the handler.
- `Reconcile` is a reference interpreter for an update given as a table of conditional stages. It
  comes with lemmas saying which calls a run issues, in which order, and how it ends.
- `RedisDatabase`, `KafkaCluster` and `KafkaTopic` are the three `handlers.ts` files. Each
  handler is a method that takes:
  - the desired model;
  - the environment override;
  - the control plane, as a function from call to reply;
  - the parameter store.

  It returns the calls it made, in order, and its outcome. Each update method is proved to issue
  exactly the calls of the interpreter run over its stage table, and to end as that run does.

Three behaviours of the code are worth stating outright.

- A request to turn tls or multizone off still sends the enable call. The branch for it holds
  only a comment, and the enable call is sent whenever the desired value differs from the latest
  reply (`RedisDatabase.DisablingTlsSendsEnableTls`, `RedisDatabase.DisablingMultizoneSendsEnableMultizone`).
- Every status other than 200 is an error, including other 2xx codes; only delete takes a 404 as success.
- Delete removes the stored parameter unconditionally. A parameter store fails when asked to
  delete a name it does not hold, so deleting the same resource twice fails at the parameter
  store (`Upstash.DeleteThenGet`).

## Model

| member | source | states |
|---|---|---|
| Text.NatToString | cfn-resources/upstashRedis/V1/database/src/utils.ts:18-22 | the decimal text of a status: at least one character, digits only, a leading zero only for zero |
| Text.ParseNatToString | cfn-resources/upstashRedis/V1/database/src/utils.ts:18-22 | reading the decimal text back gives the number |
| Text.NatToStringInjective | cfn-resources/upstashRedis/V1/database/src/utils.ts:18-22 | distinct numbers have distinct decimal texts |
| Text.InterpolateNat | cfn-resources/upstashRedis/V1/database/src/handlers.ts:79 | the port's text is its decimal numeral (which reads back as the port), or "undefined" when the reply has no port |
| Utf8.DecodeEncode | cfn-resources/upstashRedis/V1/database/src/utils.ts:8-11 | the UTF-8 bytes of the user-pass text decode back to it |
| Base64.DecodeEncode | cfn-resources/upstashRedis/V1/database/src/utils.ts:8-11 | the Base64 text of the bytes decodes back to them |
| Upstash.AuthorizationHeader | cfn-resources/upstashRedis/V1/database/src/utils.ts:7-12 | the header starts with the Basic scheme; what follows it is stated by Upstash.AuthorizationHeaderRoundTrip |
| Upstash.AuthorizationHeaderRoundTrip | cfn-resources/upstashRedis/V1/database/src/utils.ts:7-12 | a receiver reads back the e-mail as user-id and the secret as password; all four copies of utils.ts build the header this way |
| Upstash.ApiKeyOverridesKey | cfn-resources/upstashRedis/V1/database/src/utils.ts:9 | a non-empty UPSTASH_API_KEY is the password, and the key no longer matters |
| Upstash.KeyUsedWithoutOverride | cfn-resources/V1/database/src/utils.ts:9 | with the variable unset or empty, the key is the password: distinct keys give distinct headers, for every e-mail, colons included |
| Upstash.HandleResponse | cfn-resources/upstashRedis/V1/database/src/utils.ts:14-23 | the reply is accepted iff its status is exactly 200, and then yields the body; otherwise the error is the failure message for that status and body; all four copies classify replies this way |
| Upstash.FailureMessageInjective | cfn-resources/upstashRedis/V1/database/src/utils.ts:18-22 | the failure message determines both the status and the body |
| Upstash.FailureMessageShows | cfn-resources/upstashRedis/V1/database/src/utils.ts:18-22 | the status digits follow the fixed prefix and the message ends with the body |
| Upstash.ParameterName | cfn-resources/upstashRedis/V1/database/src/utils.ts:25-29 | the name is the prefix of the kind's name space followed by the id: /stp/upstashdatabasev1/ for both database copies, /stp/upstashkafkaclusterv1/ for clusters, /stp/upstashkafkatopicv1/ for topics |
| Upstash.ParameterNameInjective | cfn-resources/upstashKafka/V1/kafka-cluster/src/utils.ts:25-29 | equal names only for the same name space and the same id: a database, a cluster and a topic never share a parameter |
| Upstash.SameParameterName | cfn-resources/upstashRedis/V1/database/src/utils.ts:25-29 | two optional ids, rendered through `${id}`, give the same parameter name iff they are equal or one is missing and the other is the text "undefined" |
| Upstash.ParameterStore.PutParameter | cfn-resources/upstashRedis/V1/database/src/utils.ts:44-51 | with overwrite, the name maps to the new value and nothing else changes |
| Upstash.ParameterStore.GetParameter | cfn-resources/upstashRedis/V1/database/src/utils.ts:61-68 | the stored value when the name is present, otherwise ParameterNotFound |
| Upstash.ParameterStore.DeleteParameter | cfn-resources/upstashRedis/V1/database/src/utils.ts:80-84 | removes exactly that name; fails with ParameterNotFound when it was absent |
| Upstash.PutApiCredentials | cfn-resources/upstashRedis/V1/database/src/utils.ts:31-52 | the resource's parameter now holds `{email, key}`, whatever it held before; other parameters are unchanged; the cluster and topic copies do the same in their name spaces |
| Upstash.GetApiCredentials | cfn-resources/upstashRedis/V1/database/src/utils.ts:54-71 | the stored pair when the resource's parameter exists, otherwise ParameterNotFound |
| Upstash.DeleteApiCredentials | cfn-resources/upstashRedis/V1/database/src/utils.ts:73-85 | removes only the resource's parameter |
| Upstash.PutThenGet | cfn-resources/V1/database/src/utils.ts:31-71 | a get after a put returns the pair that was put; what a get returns for any other resource is unchanged |
| Upstash.DeleteThenGet | cfn-resources/upstashKafka/V1/kafka-topic/src/utils.ts:54-85 | after a delete, a get fails with ParameterNotFound, and so does a second delete |
| Reconcile.Steps | cfn-resources/upstashRedis/V1/database/src/handlers.ts:137-197 | a run of the stages issues at most one call per stage |
| Reconcile.Update | cfn-resources/upstashRedis/V1/database/src/handlers.ts:125-197 | an update issues the read first, and then at most one call per stage |
| Reconcile.StepsSubsequence | cfn-resources/upstashRedis/V1/database/src/handlers.ts:137-197 | a run issues only calls of the table, in table order |
| Reconcile.SubsequenceIncreasing | cfn-resources/upstashRedis/V1/database/src/handlers.ts:137-197 | leaving calls out keeps their order |
| Reconcile.StepIssued | cfn-resources/upstashRedis/V1/database/src/handlers.ts:137-197 | a stage issues its call iff no earlier call failed and its condition holds of the record the earlier stages left |
| Reconcile.StepsOutcome | cfn-resources/upstashRedis/V1/database/src/handlers.ts:137-197 | every call before the last got a 200; success yields the reply to the last call; failure reports the non-200 status and body of the last call |
| Reconcile.UpdateOrdered | cfn-resources/upstashRedis/V1/database/src/handlers.ts:125-197 | an update's calls are the read followed by table calls, with strictly increasing rank: each at most once, in order |
| Reconcile.UpdateIssued | cfn-resources/upstashRedis/V1/database/src/handlers.ts:125-197 | a stage's call is in an update iff the read got a 200 and the stage's condition holds of the record left before it |
| Reconcile.UpdateOutcome | cfn-resources/upstashRedis/V1/database/src/handlers.ts:125-209 | every call before the last got a 200; the update succeeds iff the last call got a 200, and then yields that call's reply, whichever call it was |
| DatabaseModel.PrimaryIdentifier | cfn-resources/V1/database/src/models.ts:144-153 | None iff the database id is missing, otherwise the one-entry table from "/properties/DatabaseID" to the id |
| DatabaseModel.AdditionalIdentifiers | cfn-resources/V1/database/src/models.ts:155-160 | always None |
| ClusterModel.PrimaryIdentifier | cfn-resources/upstashKafka/V1/kafka-cluster/src/models.ts:117-126 | None iff the cluster id is missing, otherwise the one-entry table from "/properties/ClusterID" to the id |
| ClusterModel.AdditionalIdentifiers | cfn-resources/upstashKafka/V1/kafka-cluster/src/models.ts:128-133 | always None |
| TopicModel.PrimaryIdentifier | cfn-resources/upstashKafka/V1/kafka-topic/src/models.ts:171-180 | None iff the topic id is missing, otherwise the one-entry table from "/properties/TopicID" to the id |
| TopicModel.AdditionalIdentifiers | cfn-resources/upstashKafka/V1/kafka-topic/src/models.ts:182-187 | always None |
| RedisDatabase.CopyInfo | cfn-resources/upstashRedis/V1/database/src/handlers.ts:71-81 | eleven properties come from the reply, the port as its decimal text; the credentials, REST tokens and forceUpdate keep their desired values |
| RedisDatabase.CopyReadInfo | cfn-resources/upstashRedis/V1/database/src/handlers.ts:324-336 | the same copy, and also both REST tokens from the reply |
| RedisDatabase.CopiedFromUnique | cfn-resources/upstashRedis/V1/database/src/handlers.ts:199-209 | the reply and the desired state fix every property of the model |
| RedisDatabase.CopiedFromReply | cfn-resources/upstashRedis/V1/database/src/handlers.ts:199-209 | after the copy, the primary identifier is the reply's id, the port reads back as the reply's port, and copying again changes nothing |
| RedisDatabase.UpdateStages | cfn-resources/upstashRedis/V1/database/src/handlers.ts:137-197 | three stages: rename, enable-tls, enable-multizone |
| RedisDatabase.UpdateTableRanked | cfn-resources/upstashRedis/V1/database/src/handlers.ts:125-197 | read, rename, enable-tls and enable-multizone have increasing ranks |
| RedisDatabase.UpdateCallOrder | cfn-resources/upstashRedis/V1/database/src/handlers.ts:125-197 | the read first, then only rename, enable-tls and enable-multizone, each at most once and in that order |
| RedisDatabase.UpdateRenames | cfn-resources/upstashRedis/V1/database/src/handlers.ts:137-153 | rename is sent iff the read got a 200 and the desired name differs from the name read |
| RedisDatabase.UpdateEnablesTls | cfn-resources/upstashRedis/V1/database/src/handlers.ts:154-175 | enable-tls is sent iff the calls so far succeeded and the desired tls differs from the latest reply's: the rename's reply when a rename was sent, the read's otherwise |
| RedisDatabase.UpdateEnablesMultizone | cfn-resources/upstashRedis/V1/database/src/handlers.ts:176-197 | enable-multizone is sent iff the calls so far succeeded and the desired multizone differs from the record left by the calls before it |
| RedisDatabase.DisablingTlsSendsEnableTls | cfn-resources/upstashRedis/V1/database/src/handlers.ts:154-175 | desired tls off against tls on still sends enable-tls |
| RedisDatabase.DisablingMultizoneSendsEnableMultizone | cfn-resources/upstashRedis/V1/database/src/handlers.ts:176-197 | desired multizone off against multizone on still sends enable-multizone |
| RedisDatabase.Create | cfn-resources/upstashRedis/V1/database/src/handlers.ts:45-98 | one POST with the desired name, region, multizone, tls and consistent. A non-200 reply fails with its message and leaves the store alone. A 200 reply is copied onto the model and the credentials are stored under the reply's id; only then comes Success. Missing credentials fail before any call |
| RedisDatabase.Update | cfn-resources/upstashRedis/V1/database/src/handlers.ts:118-226 | the calls are exactly those of the stage-table run. A failed run fails with its message and leaves the store alone. A successful run copies the last reply and stores the credentials under its id before Success |
| RedisDatabase.Delete | cfn-resources/upstashRedis/V1/database/src/handlers.ts:247-282 | one DELETE. A 200 or 404 is followed by deleting the stored credentials, and Success only once that succeeds. Any other status fails before the store is touched |
| RedisDatabase.Read | cfn-resources/upstashRedis/V1/database/src/handlers.ts:302-344 | fails with ParameterNotFound, making no call, when no credentials are stored. Otherwise one GET authenticated with the stored credentials, not the request's. A 200 reply is copied with the REST tokens |
| RedisDatabase.List | cfn-resources/upstashRedis/V1/database/src/handlers.ts:364-371 | Success with the request's model as the only listed model; no call is made |
| KafkaCluster.CopyInfo | cfn-resources/upstashKafka/V1/kafka-cluster/src/handlers.ts:71-80 | ten properties come from the reply, the name from `name`; the credentials and forceUpdate keep their desired values |
| KafkaCluster.CopiedFromUnique | cfn-resources/upstashKafka/V1/kafka-cluster/src/handlers.ts:153-162 | the reply and the desired state fix every property of the model |
| KafkaCluster.CopiedFromReply | cfn-resources/upstashKafka/V1/kafka-cluster/src/handlers.ts:153-162 | after the copy, the primary identifier is the reply's cluster id, and copying again changes nothing |
| KafkaCluster.UpdateStages | cfn-resources/upstashKafka/V1/kafka-cluster/src/handlers.ts:135-151 | a single stage: rename-cluster |
| KafkaCluster.UpdateRenames | cfn-resources/upstashKafka/V1/kafka-cluster/src/handlers.ts:123-151 | the calls are the read alone or the read and the rename; the rename is sent iff the read got a 200 and the desired name differs from the name read; no call touches region or multizone |
| KafkaCluster.Create | cfn-resources/upstashKafka/V1/kafka-cluster/src/handlers.ts:46-97 | one POST with the desired name, region and multizone. A non-200 reply fails with its message and leaves the store alone. A 200 reply is copied and the credentials are stored under the reply's cluster id before Success |
| KafkaCluster.Update | cfn-resources/upstashKafka/V1/kafka-cluster/src/handlers.ts:117-179 | the calls are exactly those of the stage-table run. A failed run fails with its message and leaves the store alone. A successful run copies the last reply and stores the credentials under its id before Success |
| KafkaCluster.Delete | cfn-resources/upstashKafka/V1/kafka-cluster/src/handlers.ts:200-235 | one DELETE. A 200 or 404 is followed by deleting the stored credentials, and Success only once that succeeds. Any other status fails before the store is touched |
| KafkaCluster.Read | cfn-resources/upstashKafka/V1/kafka-cluster/src/handlers.ts:255-295 | the GET is authenticated with the credentials stored for the cluster id; ParameterNotFound, with no call, when there are none |
| KafkaCluster.List | cfn-resources/upstashKafka/V1/kafka-cluster/src/handlers.ts:315-323 | Success with the request's model as the only listed model |
| KafkaTopic.CopyInfo | cfn-resources/upstashKafka/V1/kafka-topic/src/handlers.ts:74-87 | fourteen properties come from the reply; the credentials, multizone, cleanupPolicy and forceUpdate keep their desired values |
| KafkaTopic.CopiedFromUnique | cfn-resources/upstashKafka/V1/kafka-topic/src/handlers.ts:161-174 | the reply and the desired state fix every property of the model |
| KafkaTopic.CopiedFromReply | cfn-resources/upstashKafka/V1/kafka-topic/src/handlers.ts:161-174 | after the copy, the primary identifier is the reply's topic id, the cleanup policy is the desired one whatever the reply says, and copying again changes nothing |
| KafkaTopic.UpdateStages | cfn-resources/upstashKafka/V1/kafka-topic/src/handlers.ts:143-159 | a single unconditional stage: update-topic |
| KafkaTopic.UpdateAlwaysSendsUpdateTopic | cfn-resources/upstashKafka/V1/kafka-topic/src/handlers.ts:130-159 | past a successful read, exactly one update-topic whatever the difference. The update succeeds iff both calls got a 200, and then yields the update-topic reply; the read's reply is dropped |
| KafkaTopic.Create | cfn-resources/upstashKafka/V1/kafka-topic/src/handlers.ts:46-104 | one POST with name, cluster id, partitions, retention time and size, maximum message size and cleanup policy. A 200 reply is copied and the credentials are stored under the reply's topic id before Success |
| KafkaTopic.Update | cfn-resources/upstashKafka/V1/kafka-topic/src/handlers.ts:124-191 | the calls are exactly those of the stage-table run; the update-topic body holds only retention time, retention size and maximum message size. A successful run stores the credentials under the reply's id before Success |
| KafkaTopic.Delete | cfn-resources/upstashKafka/V1/kafka-topic/src/handlers.ts:212-244 | one DELETE. A 200 or 404 is followed by deleting the stored credentials, and Success only once that succeeds. Any other status fails before the store is touched |
| KafkaTopic.Read | cfn-resources/upstashKafka/V1/kafka-topic/src/handlers.ts:264-312 | the GET is authenticated with the credentials stored for the topic id; ParameterNotFound, with no call, when there are none |
| KafkaTopic.List | cfn-resources/upstashKafka/V1/kafka-topic/src/handlers.ts:332-340 | Success with the request's model as the only listed model |

## Left out

- The model does not tell `null` from `undefined`: a property either is None or holds a value,
  and a null property is read as missing. Two consequences of `null` are therefore not modelled.
  First, `${null}` renders "null", so a null id addresses the parameter and the request path
  ending in "null" (and a null e-mail makes the header user-id "null"), where the model renders
  "undefined". Second, `!==` tells null from undefined, so a desired null name, tls or multizone
  against a reply that lacks that property sends the rename, enable-tls or enable-multizone call.
  The model sees equal values there and sends nothing.
- HTTP transport is not modelled: node-fetch, the URLs, network errors, and reading the reply
  body. A call becomes a value of the kind's `Call` datatype, carrying the Authorization header,
  the id in its path and the JSON body. The control plane becomes a function from call to reply.
  No handler makes the same call twice in one invocation, so a function of the call can give each
  call any reply.
- JSON parsing is not modelled. A 200 reply's body is taken to be the kind's reply record, each
  of whose properties may be missing; a body that fails to parse is not modelled. A None property
  of a request body stands for a property that JSON.stringify leaves out.
- Nothing is assumed about what the control plane does. In particular, enable-tls is not assumed
  to turn tls on; its reply is whatever record the control plane sends.
- The AWS parameter store client is modelled as a table from name to stored record. Transport
  failures and encryption (SecureString, WithDecryption) are not modelled.
- A get or delete of a missing parameter fails with the message "ParameterNotFound". This is an
  assumption about the parameter store's behaviour, not code of the repository, and the exact
  error text the AWS SDK produces is not modelled.
- A request without ApiCredentials fails with the TypeError that reading `email` of `undefined`
  raises. Its text is the constant `UndefinedCredentialsMessage`, in the wording of current
  Node.js releases.
- `process.env.UPSTASH_API_KEY` is an `Option<string>` input of every handler.
- `Buffer` is replaced by the UTF-8 and Base64 functions. A Dafny `char` is a Unicode scalar
  value, so JavaScript strings holding lone surrogates are not modelled.
- Numbers are integers. JavaScript's floating point, NaN and non-integer renderings are not
  modelled; the port, which is rendered as text, is a natural number.
- The handler's `model` object is a value. It is created fresh from the request, and it escapes
  only through the returned progress event. Its field-by-field assignment is therefore modelled as
  successive updates of a local value, and the event is built from the final value instead of
  holding a reference that is mutated afterwards.
- The CloudFormation framework is not modelled: handler registration, the session, the callback
  context, logging and the progress event builder. Only the status, the model(s) and the
  InternalFailure message are kept.
- class-transformer marshalling of the records, and the conversion of `desiredResourceState` into
  a model, are not modelled.
- The older database copy of the helpers (cfn-resources/V1/database/src/utils.ts) names the
  destructured argument of put, get and delete `databsePrimaryIdentifier`. The helpers compute the
  same names as the Redis copy, and the model has one definition for both. A caller passing
  `databasePrimaryIdentifier` to that copy would address ".../undefined". The handlers that use
  that copy are not part of this model.
- release.py (packaging and upload) and test-lambda-wrapper/handler.js (test credential
  injection) are not part of this model.

/**
 * The helpers every resource provider shares (its utils.ts): the HTTP Basic Authorization
 * header, the classification of a control-plane reply, the name of the parameter that holds
 * a resource's API credentials, and the credential store itself.
 *
 * The four copies of utils.ts are the same code apart from the parameter namespace and the
 * reply record type; `CredentialNamespace` and the type parameter `R` of `Response` stand
 * for those differences.
 */
module Upstash {
  import opened Wrappers
  import opened Text
  import Utf8
  import Base64

  /** An Upstash account e-mail and API key (the APICredentials record, and the value stored per parameter). */
  datatype ApiCredentials = ApiCredentials(email: Option<string>, key: Option<string>)

  // ---------------------------------------------------------------------------
  // The Authorization header (section 2 of RFC 7617)
  // ---------------------------------------------------------------------------

  /**
   * The password half of the header: the UPSTASH_API_KEY environment variable when it is
   * set to a non-empty text (JavaScript's `||` treats "" as false), otherwise the key.
   */
  function Secret(key: Option<string>, apiKeyEnv: Option<string>): string {
    if apiKeyEnv.Some? && apiKeyEnv.value != "" then apiKeyEnv.value else Interpolate(key)
  }

  const BasicScheme := "Basic "

  /** `Basic ` followed by the Base64 form of the UTF-8 bytes of `email:secret`. */
  function AuthorizationHeader(email: Option<string>, key: Option<string>, apiKeyEnv: Option<string>): (header: string)
    ensures |header| >= |BasicScheme| && header[..|BasicScheme|] == BasicScheme
  {
    BasicScheme + Base64.Encode(Utf8.Encode(Interpolate(email) + ":" + Secret(key, apiKeyEnv)))
  }

  /** The user-id and password a Basic Authorization header carries. */
  datatype BasicCredentials = BasicCredentials(userId: string, password: string)

  /** The position of the first colon. */
  function ColonIndex(s: string): (i: nat)
    requires ':' in s
    decreases |s|
    ensures i < |s| && s[i] == ':' && ':' !in s[..i]
  {
    if s[0] == ':' then 0
    else
      var j := ColonIndex(s[1..]);
      assert s[..j + 1] == [s[0]] + s[1..][..j];
      j + 1
  }

  /** Splits `user-pass` at its first colon, as section 2 of RFC 7617 reads it. */
  function SplitUserPass(s: string): Option<BasicCredentials> {
    if ':' in s then
      var i := ColonIndex(s);
      Some(BasicCredentials(s[..i], s[i + 1..]))
    else None
  }

  /** A receiver's reading of a Basic Authorization header. */
  function ParseAuthorization(header: string): Option<BasicCredentials> {
    if |header| < |BasicScheme| || header[..|BasicScheme|] != BasicScheme then None
    else match Base64.Decode(header[|BasicScheme|..])
      case None => None
      case Some(bytes) =>
        match Utf8.Decode(bytes)
        case None => None
        case Some(text) => SplitUserPass(text)
  }

  lemma SplitUserPassJoin(user: string, password: string)
    requires ':' !in user
    ensures SplitUserPass(user + ":" + password) == Some(BasicCredentials(user, password))
  {
    var s := user + ":" + password;
    assert s[|user|] == ':';
    var i := ColonIndex(s);
    assert s[..|user|] == user;
    assert s[..i] == user;
    assert s[i + 1..] == password;
  }

  /**
   * The header carries the e-mail as user-id and the secret as password: a receiver reads
   * back exactly the pair it was built from (RFC 7617 forbids a colon in the user-id).
   */
  lemma AuthorizationHeaderRoundTrip(email: Option<string>, key: Option<string>, apiKeyEnv: Option<string>)
    requires ':' !in Interpolate(email)
    ensures ParseAuthorization(AuthorizationHeader(email, key, apiKeyEnv))
         == Some(BasicCredentials(Interpolate(email), Secret(key, apiKeyEnv)))
  {
    var text := Interpolate(email) + ":" + Secret(key, apiKeyEnv);
    var header := AuthorizationHeader(email, key, apiKeyEnv);
    assert header[|BasicScheme|..] == Base64.Encode(Utf8.Encode(text));
    Base64.DecodeEncode(Utf8.Encode(text));
    Utf8.DecodeEncode(text);
    SplitUserPassJoin(Interpolate(email), Secret(key, apiKeyEnv));
  }

  /** A non-empty UPSTASH_API_KEY replaces the key: the header no longer depends on it. */
  lemma ApiKeyOverridesKey(email: Option<string>, key1: Option<string>, key2: Option<string>, apiKey: string)
    requires apiKey != ""
    ensures AuthorizationHeader(email, key1, Some(apiKey)) == AuthorizationHeader(email, key2, Some(apiKey))
    ensures ':' !in Interpolate(email) ==>
      ParseAuthorization(AuthorizationHeader(email, key1, Some(apiKey))) == Some(BasicCredentials(Interpolate(email), apiKey))
  {
    if ':' !in Interpolate(email) {
      AuthorizationHeaderRoundTrip(email, key1, Some(apiKey));
    }
  }

  /**
   * Without the variable, or with it set to "", the key is the password: distinct keys give
   * distinct headers, for every e-mail, because UTF-8 and Base64 encoding both lose nothing.
   */
  lemma KeyUsedWithoutOverride(email: Option<string>, key1: Option<string>, key2: Option<string>, apiKeyEnv: Option<string>)
    requires apiKeyEnv.None? || apiKeyEnv.value == ""
    requires Interpolate(key1) != Interpolate(key2)
    ensures AuthorizationHeader(email, key1, apiKeyEnv) != AuthorizationHeader(email, key2, apiKeyEnv)
  {
    var user := Interpolate(email) + ":";
    var text1, text2 := user + Secret(key1, apiKeyEnv), user + Secret(key2, apiKeyEnv);
    var header1, header2 := AuthorizationHeader(email, key1, apiKeyEnv), AuthorizationHeader(email, key2, apiKeyEnv);
    assert header1[|BasicScheme|..] == Base64.Encode(Utf8.Encode(text1));
    assert header2[|BasicScheme|..] == Base64.Encode(Utf8.Encode(text2));
    Base64.DecodeEncode(Utf8.Encode(text1));
    Base64.DecodeEncode(Utf8.Encode(text2));
    Utf8.DecodeEncode(text1);
    Utf8.DecodeEncode(text2);
    if header1 == header2 {
      SplitAt(user, Secret(key1, apiKeyEnv), user, Secret(key2, apiKeyEnv));
      assert false;
    }
  }

  // ---------------------------------------------------------------------------
  // Classification of a control-plane reply
  // ---------------------------------------------------------------------------

  /**
   * What a remote call returns: the HTTP status, the body as text, and the body as the
   * record `R` it is parsed into (only read when the status is 200).
   */
  datatype Response<R> = Response(status: nat, text: string, json: R)

  const FailurePrefix := "Request to Upstash failed with code "
  const FailureMiddle := ".\nResponse: "

  /** The message of the error thrown for a reply that is not a 200. */
  function FailureMessage(status: nat, text: string): string {
    FailurePrefix + NatToString(status) + FailureMiddle + text
  }

  /** A 200 yields the parsed body; every other status, other 2xx codes included, is an error naming the status and the body. */
  function HandleResponse<R>(response: Response<R>): (r: Result<R>)
    ensures r.Ok? <==> response.status == 200
    ensures r.Ok? ==> r.value == response.json
    ensures r.Err? ==> r.error == FailureMessage(response.status, response.text)
  {
    if response.status == 200 then Ok(response.json)
    else Err(FailureMessage(response.status, response.text))
  }

  /** Two concatenations with first parts of the same length agree part by part. */
  lemma SplitAt(a: string, b: string, c: string, d: string)
    requires a + b == c + d && |a| == |c|
    ensures a == c && b == d
  {
    assert a == (a + b)[..|a|];
    assert c == (c + d)[..|c|];
    assert b == (a + b)[|a|..];
    assert d == (c + d)[|c|..];
  }

  /** A run of digits followed by a text that starts with a non-digit has one reading only. */
  lemma DigitsEnd(d1: string, t1: string, d2: string, t2: string)
    requires forall i :: 0 <= i < |d1| ==> IsDigit(d1[i])
    requires forall i :: 0 <= i < |d2| ==> IsDigit(d2[i])
    requires |t1| > 0 && !IsDigit(t1[0]) && |t2| > 0 && !IsDigit(t2[0])
    requires d1 + t1 == d2 + t2
    ensures d1 == d2 && t1 == t2
  {
    // the first non-digit sits right after the digits, in both readings
    var m := if |d1| < |d2| then |d1| else |d2|;
    assert IsDigit((d1 + t1)[m]) <==> m < |d1|;
    assert IsDigit((d2 + t2)[m]) <==> m < |d2|;
    SplitAt(d1, t1, d2, t2);
  }

  /** The failure message determines both the status and the body it reports. */
  lemma FailureMessageInjective(status1: nat, text1: string, status2: nat, text2: string)
    requires FailureMessage(status1, text1) == FailureMessage(status2, text2)
    ensures status1 == status2 && text1 == text2
  {
    var d1, d2 := NatToString(status1), NatToString(status2);
    var t1, t2 := FailureMiddle + text1, FailureMiddle + text2;
    assert FailureMessage(status1, text1) == FailurePrefix + (d1 + t1);
    assert FailureMessage(status2, text2) == FailurePrefix + (d2 + t2);
    SplitAt(FailurePrefix, d1 + t1, FailurePrefix, d2 + t2);
    assert t1[0] == '.' && t2[0] == '.';
    DigitsEnd(d1, t1, d2, t2);
    NatToStringInjective(status1, status2);
    SplitAt(FailureMiddle, text1, FailureMiddle, text2);
  }

  /** The message shows the status digits right after the fixed prefix and ends with the whole body. */
  lemma FailureMessageShows(status: nat, text: string)
    ensures var m := FailureMessage(status, text);
      && m[|FailurePrefix|..|FailurePrefix| + |NatToString(status)|] == NatToString(status)
      && m[|m| - |text|..] == text
  {
  }

  // ---------------------------------------------------------------------------
  // Parameter names
  // ---------------------------------------------------------------------------

  /** The three name spaces: databases (both database providers), Kafka clusters, Kafka topics. */
  datatype CredentialNamespace = DatabaseCredentials | KafkaClusterCredentials | KafkaTopicCredentials

  function NamespacePrefix(ns: CredentialNamespace): string {
    match ns
    case DatabaseCredentials => "/stp/upstashdatabasev1/"
    case KafkaClusterCredentials => "/stp/upstashkafkaclusterv1/"
    case KafkaTopicCredentials => "/stp/upstashkafkatopicv1/"
  }

  /** The name of the parameter that holds the API credentials of resource `id`. */
  function ParameterName(ns: CredentialNamespace, id: string): (name: string)
    ensures |name| == |NamespacePrefix(ns)| + |id|
    ensures name[..|NamespacePrefix(ns)|] == NamespacePrefix(ns) && name[|NamespacePrefix(ns)|..] == id
  {
    NamespacePrefix(ns) + id
  }

  /**
   * Parameter names never collide: two names are equal only for the same name space and
   * the same identifier, so a database, a cluster and a topic never share a parameter.
   */
  lemma ParameterNameInjective(ns1: CredentialNamespace, id1: string, ns2: CredentialNamespace, id2: string)
    requires ParameterName(ns1, id1) == ParameterName(ns2, id2)
    ensures ns1 == ns2 && id1 == id2
  {
    // the prefixes part at position 12 ("d" against "k") or at 17 ("c" against "t")
    var name := ParameterName(ns1, id1);
    var p1, p2 := NamespacePrefix(ns1), NamespacePrefix(ns2);
    assert p1[12] == name[12] == p2[12];
    assert p1[17] == name[17] == p2[17];
  }

  /**
   * Two ids as a handler takes them from a model, through `${id}`, address the same parameter
   * exactly when they are equal, or when one is missing and the other is the text "undefined".
   */
  lemma SameParameterName(ns: CredentialNamespace, a: Option<string>, b: Option<string>)
    ensures ParameterName(ns, Interpolate(a)) == ParameterName(ns, Interpolate(b))
        <==> a == b || (a.None? && b == Some("undefined")) || (a == Some("undefined") && b.None?)
  {
    if ParameterName(ns, Interpolate(a)) == ParameterName(ns, Interpolate(b)) {
      ParameterNameInjective(ns, Interpolate(a), ns, Interpolate(b));
    }
  }

  // ---------------------------------------------------------------------------
  // The credential store
  // ---------------------------------------------------------------------------

  /** The error text of a lookup or deletion of a parameter that does not exist. */
  const ParameterNotFoundMessage := "ParameterNotFound"

  /**
   * The parameter store, as a table from parameter name to the stored credential record.
   * A write overwrites; reading or deleting a name that is absent fails with ParameterNotFound.
   */
  class ParameterStore {
    var parameters: map<string, ApiCredentials>

    constructor (initial: map<string, ApiCredentials>)
      ensures parameters == initial
    {
      parameters := initial;
    }

    /** putParameter with Overwrite set. */
    method PutParameter(name: string, value: ApiCredentials)
      modifies this
      ensures parameters == old(parameters)[name := value]
    {
      parameters := parameters[name := value];
    }

    method GetParameter(name: string) returns (value: Result<ApiCredentials>)
      ensures value.Ok? <==> name in parameters
      ensures value.Ok? ==> value.value == parameters[name]
      ensures value.Err? ==> value.error == ParameterNotFoundMessage
    {
      if name in parameters {
        value := Ok(parameters[name]);
      } else {
        value := Err(ParameterNotFoundMessage);
      }
    }

    method DeleteParameter(name: string) returns (outcome: Outcome)
      modifies this
      ensures outcome.Pass? <==> name in old(parameters)
      ensures outcome.Fail? ==> outcome.error == ParameterNotFoundMessage
      ensures parameters == old(parameters) - {name}
    {
      if name in parameters {
        parameters := parameters - {name};
        outcome := Pass;
      } else {
        outcome := Fail(ParameterNotFoundMessage);
      }
    }
  }

  /** Writes `{email, key}` under the parameter of resource `id`, replacing whatever was there. */
  method PutApiCredentials(store: ParameterStore, ns: CredentialNamespace, creds: ApiCredentials, id: string)
    modifies store
    ensures store.parameters == old(store.parameters)[ParameterName(ns, id) := creds]
  {
    var stored := ApiCredentials(creds.email, creds.key);
    store.PutParameter(ParameterName(ns, id), stored);
  }

  /** Reads back the credentials stored for resource `id`. */
  method GetApiCredentials(store: ParameterStore, ns: CredentialNamespace, id: string) returns (creds: Result<ApiCredentials>)
    ensures creds.Ok? <==> ParameterName(ns, id) in store.parameters
    ensures creds.Ok? ==> creds.value == store.parameters[ParameterName(ns, id)]
    ensures creds.Err? ==> creds.error == ParameterNotFoundMessage
  {
    creds := store.GetParameter(ParameterName(ns, id));
  }

  /** Removes the parameter of resource `id` and nothing else. */
  method DeleteApiCredentials(store: ParameterStore, ns: CredentialNamespace, id: string) returns (outcome: Outcome)
    modifies store
    ensures outcome.Pass? <==> ParameterName(ns, id) in old(store.parameters)
    ensures outcome.Fail? ==> outcome.error == ParameterNotFoundMessage
    ensures store.parameters == old(store.parameters) - {ParameterName(ns, id)}
  {
    outcome := store.DeleteParameter(ParameterName(ns, id));
  }

  /**
   * Put, then get of the same resource, returns the pair that was put, and a put for one
   * resource leaves what get returns for every other resource as it was.
   */
  method PutThenGet(store: ParameterStore, ns: CredentialNamespace, creds: ApiCredentials, id: string,
                    otherNs: CredentialNamespace, otherId: string)
    returns (same: Result<ApiCredentials>, other: Result<ApiCredentials>)
    requires otherNs != ns || otherId != id
    modifies store
    ensures same == Ok(creds)
    ensures other == (if ParameterName(otherNs, otherId) in old(store.parameters)
                      then Ok(old(store.parameters)[ParameterName(otherNs, otherId)])
                      else Err(ParameterNotFoundMessage))
  {
    PutApiCredentials(store, ns, creds, id);
    same := GetApiCredentials(store, ns, id);
    if ParameterName(otherNs, otherId) == ParameterName(ns, id) {
      ParameterNameInjective(otherNs, otherId, ns, id);
    }
    other := GetApiCredentials(store, otherNs, otherId);
  }

  /** After a delete, a get of that resource fails with ParameterNotFound; a second delete fails the same way. */
  method DeleteThenGet(store: ParameterStore, ns: CredentialNamespace, id: string)
    returns (first: Outcome, lookup: Result<ApiCredentials>, second: Outcome)
    modifies store
    ensures first.Pass? <==> ParameterName(ns, id) in old(store.parameters)
    ensures lookup == Err(ParameterNotFoundMessage)
    ensures second == Fail(ParameterNotFoundMessage)
  {
    first := DeleteApiCredentials(store, ns, id);
    lookup := GetApiCredentials(store, ns, id);
    second := DeleteApiCredentials(store, ns, id);
  }
}
